/** The webhook event stream of each watch, and its link to the transfer rows: what every transaction keeps,
    whatever it is given. */
module Streams {
  import opened Base
  import opened Matcher
  import opened Ledger

  // ------------------------------------------------------------------ one stream

  predicate Terminal(kind: EventType) {
    kind == ThresholdReached || kind == WatchExpired
  }

  function Credit(e: Event): nat {
    if e.kind == PaymentConfirmed && e.transfer.Some? then e.transfer.value.amount else 0
  }

  /** Sum of the amounts of the `payment.confirmed` events. */
  function Credits(es: seq<Event>): nat {
    if es == [] then 0 else Credits(es[..|es| - 1]) + Credit(es[|es| - 1])
  }

  predicate EventOk(es: seq<Event>, i: nat)
    requires i < |es|
  {
    && es[i].sequence == i + 1
    && es[i].confirmedAmount == Credits(es[..i + 1])
    && (Terminal(es[i].kind) <==> es[i].transfer.None?)
    && (Terminal(es[i].kind) ==> i == |es| - 1)
    && es[i].status
       == (match es[i].kind case ThresholdReached => Completed case WatchExpired => Expired case _ => Active)
  }

  /** Sequence numbers 1, 2, ..., running totals, and at most one terminal event, which is last and says how
      the watch ended. */
  ghost predicate StreamOk(w: Watch, es: seq<Event>) {
    && w.threshold > 0
    && |es| == w.nextEventSeq
    && (forall i :: 0 <= i < |es| ==> EventOk(es, i))
    && w.confirmed == Credits(es)
    && (w.status == Completed <==> w.confirmed >= w.threshold)
    && (w.status == Completed <==> es != [] && es[|es| - 1].kind == ThresholdReached)
    && (w.status == Expired <==> es != [] && es[|es| - 1].kind == WatchExpired)
    && (w.status == Completed ==>
          |es| > 1 && es[|es| - 2].kind == PaymentConfirmed && w.confirmed < w.threshold + Credit(es[|es| - 2]))
  }

  lemma EventOkPrefix(es: seq<Event>, e: Event, i: nat)
    requires i < |es| && EventOk(es, i) && !Terminal(es[i].kind)
    ensures EventOk(es + [e], i)
  {
    assert (es + [e])[..i + 1] == es[..i + 1];
  }

  lemma CreditsSnoc(es: seq<Event>, e: Event)
    ensures Credits(es + [e]) == Credits(es) + Credit(e)
  {
    assert (es + [e])[..|es|] == es;
  }

  lemma ActiveStream(w: Watch, es: seq<Event>, i: nat)
    requires StreamOk(w, es) && w.status == Active && i < |es|
    ensures EventOk(es, i) && !Terminal(es[i].kind)
  {
    assert EventOk(es, i);
    assert i == |es| - 1 ==> es[i] == es[|es| - 1];
  }

  /** Appending to the stream of an active watch. */
  lemma AppendKeepsEvents(w: Watch, es: seq<Event>, e: Event)
    requires StreamOk(w, es) && w.status == Active
    requires e.sequence == |es| + 1 && e.confirmedAmount == w.confirmed + Credit(e)
    requires Terminal(e.kind) <==> e.transfer.None?
    requires e.status == (match e.kind case ThresholdReached => Completed case WatchExpired => Expired case _ => Active)
    ensures forall i :: 0 <= i <= |es| ==> EventOk(es + [e], i)
    ensures Credits(es + [e]) == w.confirmed + Credit(e)
  {
    CreditsSnoc(es, e);
    forall i | 0 <= i <= |es|
      ensures EventOk(es + [e], i)
    {
      if i < |es| {
        ActiveStream(w, es, i);
        EventOkPrefix(es, e, i);
      } else {
        assert (es + [e])[..i + 1] == es + [e];
      }
    }
  }

  lemma AppendKeepsStream(w: Watch, es: seq<Event>, w': Watch, e: Event)
    requires StreamOk(w, es) && w.status == Active && e.transfer.Some? && !Terminal(e.kind)
    requires w' == w.(confirmed := w.confirmed + Credit(e), nextEventSeq := w.nextEventSeq + 1)
    requires w'.confirmed < w'.threshold && e == EventFor(w', e.kind, e.transfer)
    ensures StreamOk(w', es + [e])
  {
    AppendKeepsEvents(w, es, e);
  }

  lemma ExpiryKeepsStream(w: Watch, es: seq<Event>, w': Watch)
    requires StreamOk(w, es) && w.status == Active
    requires w' == w.(status := Expired, nextEventSeq := w.nextEventSeq + 1)
    ensures StreamOk(w', es + [EventFor(w', WatchExpired, None)])
  {
    AppendKeepsEvents(w, es, EventFor(w', WatchExpired, None));
  }

  /** The confirming event, followed by `threshold.reached` if the threshold is reached. */
  lemma CreditKeepsStream(w: Watch, es: seq<Event>, m: MatchedTransfer)
    requires StreamOk(w, es) && w.status == Active
    ensures StreamOk(Credited(w, m.amount), es + CreditEvents(w, m))
  {
    if Reaches(w, m.amount) {
      CompletionKeepsStream(w, es, m);
    } else {
      var w1 := w.(confirmed := w.confirmed + m.amount, nextEventSeq := w.nextEventSeq + 1);
      AppendKeepsStream(w, es, w1, EventFor(w1, PaymentConfirmed, Some(View(m, Confirmed))));
    }
  }

  lemma CompletionEvents(w: Watch, es: seq<Event>, m: MatchedTransfer)
    requires StreamOk(w, es) && w.status == Active && Reaches(w, m.amount)
    ensures var all := es + CreditEvents(w, m);
            && |all| == |es| + 2 && Credits(all) == w.confirmed + m.amount
            && (forall i :: 0 <= i < |all| ==> EventOk(all, i))
  {
    var w1 := w.(confirmed := w.confirmed + m.amount, nextEventSeq := w.nextEventSeq + 1);
    var e1 := EventFor(w1, PaymentConfirmed, Some(View(m, Confirmed)));
    var e2 := EventFor(Credited(w, m.amount), ThresholdReached, None);
    AppendKeepsEvents(w, es, e1);
    CompletionKeepsEvents(w, es, e1, e2);
    assert es + CreditEvents(w, m) == es + [e1] + [e2];
  }

  lemma CompletionKeepsStream(w: Watch, es: seq<Event>, m: MatchedTransfer)
    requires StreamOk(w, es) && w.status == Active && Reaches(w, m.amount)
    ensures StreamOk(Credited(w, m.amount), es + CreditEvents(w, m))
  {
    CompletionEvents(w, es, m);
    var all, two := es + CreditEvents(w, m), CreditEvents(w, m);
    assert all[|es|] == two[0] && all[|es| + 1] == two[1];
    assert Credit(two[0]) == m.amount;
  }

  lemma CompletionKeepsEvents(w: Watch, es: seq<Event>, e1: Event, e2: Event)
    requires StreamOk(w, es) && w.status == Active && !Terminal(e1.kind)
    requires forall i :: 0 <= i <= |es| ==> EventOk(es + [e1], i)
    requires e2.sequence == |es| + 2 && e2.kind == ThresholdReached && e2.transfer.None? && e2.status == Completed
    requires e2.confirmedAmount == Credits(es + [e1])
    ensures forall i :: 0 <= i < |es| + 2 ==> EventOk(es + [e1] + [e2], i)
    ensures Credits(es + [e1] + [e2]) == Credits(es + [e1])
  {
    CreditsSnoc(es + [e1], e2);
    var all := es + [e1] + [e2];
    forall i | 0 <= i < |all|
      ensures EventOk(all, i)
    {
      if i <= |es| {
        if i < |es| {
          ActiveStream(w, es, i);
        }
        EventOkPrefix(es + [e1], e2, i);
      } else {
        assert all[..i + 1] == all;
      }
    }
  }

  // ------------------------------------------------------------------ streams and rows

  ghost predicate EventLinked(rows: map<Key, Row>, events: map<Id, seq<Event>>, id: Id, i: nat)
    requires id in events && i < |events[id]|
  {
    var e := events[id][i];
    e.transfer.Some? ==>
      var k := e.transfer.value.key;
      && k in rows
      && (e.kind == PaymentPending ==> rows[k].watchId == id)
      && (e.kind == PaymentConfirmed ==> rows[k].status == Confirmed)
      && (e.kind == PaymentOrphaned ==>
            rows[k].status == Orphaned && rows[k].watchId == id && exists j ::
              0 <= j < i && ReportedAt(events, id, j, PaymentPending, k))
  }

  /** Event `i` of `id` reports transfer `k` as `kind`. */
  predicate ReportedAt(events: map<Id, seq<Event>>, id: Id, i: int, kind: EventType, k: Key) {
    && id in events && 0 <= i < |events[id]|
    && events[id][i].kind == kind && events[id][i].transfer.Some? && events[id][i].transfer.value.key == k
  }

  ghost predicate RowLinked(rows: map<Key, Row>, events: map<Id, seq<Event>>, k: Key)
    requires k in rows
  {
    && (rows[k].status == Confirmed ==> exists id, i :: ReportedAt(events, id, i, PaymentConfirmed, k))
    && (rows[k].status == Pending || rows[k].status == Orphaned ==>
          exists i :: ReportedAt(events, rows[k].watchId, i, PaymentPending, k))
  }

  /** Over all watches, each transfer is reported at most once in each role. */
  ghost predicate ReportedOnce(events: map<Id, seq<Event>>) {
    forall id, i, id', i', kind, k :: ReportedAt(events, id, i, kind, k) && ReportedAt(events, id', i', kind, k) ==>
      id == id' && i == i'
  }

  ghost predicate Linked(rows: map<Key, Row>, events: map<Id, seq<Event>>) {
    && (forall id, i :: id in events && 0 <= i < |events[id]| ==> EventLinked(rows, events, id, i))
    && (forall k :: k in rows ==> RowLinked(rows, events, k))
    && ReportedOnce(events)
  }

  lemma ReportsAppended(events: map<Id, seq<Event>>, id: Id, e: Event, v: Id, i: int, kind: EventType, k: Key)
    ensures ReportedAt(Appended(events, id, e), v, i, kind, k)
       <==> ReportedAt(events, v, i, kind, k)
            || (v == id && i == |EventsOf(events, id)| && e.kind == kind && e.transfer.Some?
                && e.transfer.value.key == k)
  {
  }

  /** Event `e` of `id` goes with the change from `rows` to `rows'`: the unresolved row of its transfer is
      inserted or resolved, and nothing else moves. */
  ghost predicate Fits(rows: map<Key, Row>, rows': map<Key, Row>, id: Id, e: Event) {
    if e.transfer.None? then rows' == rows
    else
      var k := e.transfer.value.key;
      && k in rows' && rows' == rows[k := rows'[k]]
      && (k in rows ==> rows[k].status == Pending && rows'[k] == rows[k].(status := rows'[k].status))
      && (match e.kind
          case PaymentPending => k !in rows && rows'[k].status == Pending && rows'[k].watchId == id
          case PaymentConfirmed => rows'[k].status == Confirmed
          case PaymentOrphaned => k in rows && rows'[k].status == Orphaned && rows'[k].watchId == id
          case _ => false)
  }

  /** Appending an event about `k`, in a role in which `k` was not reported before. */
  lemma AppendLinked(rows: map<Key, Row>, rows': map<Key, Row>, events: map<Id, seq<Event>>, id: Id, e: Event)
    requires Linked(rows, events) && id in events
    requires Fits(rows, rows', id, e)
    ensures Linked(rows', Appended(events, id, e))
  {
    AppendEvents(rows, rows', events, id, e);
    AppendRows(rows, rows', events, id, e);
    AppendOnce(rows, rows', events, id, e);
  }

  /** No event so far reports `k` in the role of the new event. */
  lemma NotYetReported(rows: map<Key, Row>, events: map<Id, seq<Event>>, v: Id, i: int, kind: EventType, k: Key)
    requires Linked(rows, events) && ReportedAt(events, v, i, kind, k)
    ensures k in rows
    ensures kind == PaymentConfirmed ==> rows[k].status == Confirmed
    ensures kind == PaymentOrphaned ==> rows[k].status == Orphaned
  {
    assert EventLinked(rows, events, v, i);
  }

  lemma AppendOnce(rows: map<Key, Row>, rows': map<Key, Row>, events: map<Id, seq<Event>>, id: Id, e: Event)
    requires Linked(rows, events) && id in events
    requires Fits(rows, rows', id, e)
    ensures ReportedOnce(Appended(events, id, e))
  {
    var events' := Appended(events, id, e);
    forall v, i, v', i', kind, k | ReportedAt(events', v, i, kind, k) && ReportedAt(events', v', i', kind, k)
      ensures v == v' && i == i'
    {
      ReportsAppended(events, id, e, v, i, kind, k);
      ReportsAppended(events, id, e, v', i', kind, k);
      if ReportedAt(events, v, i, kind, k) {
        NotYetReported(rows, events, v, i, kind, k);
      }
      if ReportedAt(events, v', i', kind, k) {
        NotYetReported(rows, events, v', i', kind, k);
      }
    }
  }

  lemma AppendRows(rows: map<Key, Row>, rows': map<Key, Row>, events: map<Id, seq<Event>>, id: Id, e: Event)
    requires Linked(rows, events) && id in events
    requires Fits(rows, rows', id, e)
    ensures forall k :: k in rows' ==> RowLinked(rows', Appended(events, id, e), k)
  {
    var events' := Appended(events, id, e);
    forall k | k in rows'
      ensures RowLinked(rows', events', k)
    {
      if k in rows {
        assert RowLinked(rows, events, k);
        RowLinkedKept(rows, events, id, e, k);
      }
      if e.transfer.Some? && e.transfer.value.key == k {
        assert ReportedAt(events', id, |events[id]|, e.kind, k);
      }
    }
  }

  lemma RowLinkedKept(rows: map<Key, Row>, events: map<Id, seq<Event>>, id: Id, e: Event, k: Key)
    requires k in rows && RowLinked(rows, events, k)
    ensures RowLinked(rows, Appended(events, id, e), k)
  {
    if rows[k].status == Confirmed {
      var v, i :| ReportedAt(events, v, i, PaymentConfirmed, k);
      ReportsAppended(events, id, e, v, i, PaymentConfirmed, k);
    } else if rows[k].status != Ignored {
      var i :| ReportedAt(events, rows[k].watchId, i, PaymentPending, k);
      ReportsAppended(events, id, e, rows[k].watchId, i, PaymentPending, k);
    }
  }

  lemma AppendEvents(rows: map<Key, Row>, rows': map<Key, Row>, events: map<Id, seq<Event>>, id: Id, e: Event)
    requires Linked(rows, events) && id in events
    requires Fits(rows, rows', id, e)
    ensures var events' := Appended(events, id, e);
            forall v, i :: v in events' && 0 <= i < |events'[v]| ==> EventLinked(rows', events', v, i)
  {
    var events' := Appended(events, id, e);
    forall v, i | v in events' && 0 <= i < |events'[v]|
      ensures EventLinked(rows', events', v, i)
    {
      if v == id && i == |events[id]| {
        if e.kind == PaymentOrphaned && e.transfer.Some? {
          var k := e.transfer.value.key;
          assert RowLinked(rows, events, k);
          var j :| ReportedAt(events, id, j, PaymentPending, k);
          assert ReportedAt(events', id, j, PaymentPending, k);
        }
      } else {
        assert events'[v][i] == events[v][i];
        assert EventLinked(rows, events, v, i);
        EventLinkedKept(rows, events, id, e, v, i);
      }
    }
  }

  lemma EventLinkedKept(rows: map<Key, Row>, events: map<Id, seq<Event>>, id: Id, e: Event, v: Id, i: nat)
    requires v in events && i < |events[v]| && EventLinked(rows, events, v, i)
    ensures EventLinked(rows, Appended(events, id, e), v, i)
  {
    var ev := events[v][i];
    if ev.transfer.Some? && ev.kind == PaymentOrphaned {
      var k := ev.transfer.value.key;
      var j :| 0 <= j < i && ReportedAt(events, v, j, PaymentPending, k);
      ReportsAppended(events, id, e, v, j, PaymentPending, k);
    }
  }

  /** A pending row resolved without an event. */
  lemma SilentResolution(rows: map<Key, Row>, events: map<Id, seq<Event>>, k: Key, status: TransferStatus)
    requires Linked(rows, events) && k in rows && rows[k].status == Pending
    requires status == Ignored || status == Orphaned
    ensures Linked(rows[k := rows[k].(status := status)], events)
  {
    var rows' := rows[k := rows[k].(status := status)];
    forall id, i | id in events && 0 <= i < |events[id]|
      ensures EventLinked(rows', events, id, i)
    {
      assert EventLinked(rows, events, id, i);
    }
    forall x | x in rows'
      ensures RowLinked(rows', events, x)
    {
      assert RowLinked(rows, events, x);
    }
  }

  /** A new watch starts with an empty stream. */
  lemma NewStream(rows: map<Key, Row>, events: map<Id, seq<Event>>, id: Id)
    requires Linked(rows, events) && id !in events
    ensures Linked(rows, events[id := []])
  {
    var events' := events[id := []];
    forall v, i, kind, k
      ensures ReportedAt(events', v, i, kind, k) <==> ReportedAt(events, v, i, kind, k)
    {
    }
    forall v, i | v in events' && 0 <= i < |events'[v]|
      ensures EventLinked(rows, events', v, i)
    {
      assert EventLinked(rows, events, v, i);
      NewStreamEvent(rows, events, id, v, i);
    }
    forall k | k in rows
      ensures RowLinked(rows, events', k)
    {
      assert RowLinked(rows, events, k);
      if rows[k].status == Confirmed {
        var v, i :| ReportedAt(events, v, i, PaymentConfirmed, k);
        assert ReportedAt(events', v, i, PaymentConfirmed, k);
      } else if rows[k].status != Ignored {
        var i :| ReportedAt(events, rows[k].watchId, i, PaymentPending, k);
        assert ReportedAt(events', rows[k].watchId, i, PaymentPending, k);
      }
    }
  }

  lemma NewStreamEvent(rows: map<Key, Row>, events: map<Id, seq<Event>>, id: Id, v: Id, i: nat)
    requires id !in events && v in events && i < |events[v]| && EventLinked(rows, events, v, i)
    ensures EventLinked(rows, events[id := []], v, i)
  {
    var e := events[v][i];
    if e.transfer.Some? && e.kind == PaymentOrphaned {
      var j :| 0 <= j < i && ReportedAt(events, v, j, PaymentPending, e.transfer.value.key);
      assert ReportedAt(events[id := []], v, j, PaymentPending, e.transfer.value.key);
    }
  }
}
