/** How a range is cut into chunks cannot change the accounting, and replaying a chunk changes nothing
    (src/store/sweep.rs:310-372, src/ingest/sweeper.rs:163-209). */
module Chunks {
  import opened Base
  import opened Registry
  import opened Matcher
  import opened Ledger
  import opened Chain
  import opened Join
  import opened AnswerOrder
  import opened Accounts
  import opened Machine
  import opened Books
  import opened BooksSweep
  import opened Conservation

  // ------------------------------------------------------------------ the same accounting

  predicate SameWatch(v: Watch, w: Watch) {
    v == w.(nextEventSeq := v.nextEventSeq)
  }

  /** What a stream tells but for its orphan reports, sequence numbers aside. */
  function Told(es: seq<Event>): seq<Event> {
    if es == [] then []
    else
      var last := es[|es| - 1];
      Told(es[..|es| - 1]) + if last.kind == PaymentOrphaned then [] else [last.(sequence := 0)]
  }

  /** The streams of every watch tell the same: kinds, totals, statuses and transfers, in the same order. */
  ghost predicate SameReports(x: map<Id, seq<Event>>, y: map<Id, seq<Event>>) {
    forall id :: Told(EventsOf(x, id)) == Told(EventsOf(y, id))
  }

  lemma {:induction false} ToldConcat(a: seq<Event>, b: seq<Event>)
    ensures Told(a + b) == Told(a) + Told(b)
  {
    if b == [] {
      assert a + b == a;
    } else {
      assert (a + b)[..|a + b| - 1] == a + b[..|b| - 1];
      ToldConcat(a, b[..|b| - 1]);
    }
  }

  lemma CreditsTold(v: Watch, w: Watch, m: MatchedTransfer)
    requires SameWatch(v, w)
    ensures Told(CreditEvents(v, m)) == Told(CreditEvents(w, m))
  {
    var es, fs := CreditEvents(v, m), CreditEvents(w, m);
    if Reaches(w, m.amount) {
      assert es[..1] == [es[0]] && fs[..1] == [fs[0]];
    }
    assert [es[0]][..0] == [] && [fs[0]][..0] == [];
  }

  /** Counting one transfer for watches that differ only in their sequence keeps the reports the same. */
  lemma CreditReports(x: map<Id, seq<Event>>, y: map<Id, seq<Event>>, id: Id, v: Watch, w: Watch, m: MatchedTransfer)
    requires SameReports(x, y) && SameWatch(v, w)
    ensures SameReports(x[id := EventsOf(x, id) + CreditEvents(v, m)], y[id := EventsOf(y, id) + CreditEvents(w, m)])
  {
    CreditsTold(v, w, m);
    ToldConcat(EventsOf(x, id), CreditEvents(v, m));
    ToldConcat(EventsOf(y, id), CreditEvents(w, m));
    var x', y' := x[id := EventsOf(x, id) + CreditEvents(v, m)], y[id := EventsOf(y, id) + CreditEvents(w, m)];
    forall v: Id
      ensures Told(EventsOf(x', v)) == Told(EventsOf(y', v))
    {
      assert Told(EventsOf(x, v)) == Told(EventsOf(y, v));
    }
  }

  lemma OrphanTold(events: map<Id, seq<Event>>, id: Id, e: Event)
    requires e.kind == PaymentOrphaned
    ensures SameReports(Appended(events, id, e), events)
  {
    ToldConcat(EventsOf(events, id), [e]);
    assert [e][..0] == [] && Told([e]) == [];
  }

  /** Settling reports nothing but orphans. */
  lemma {:induction false} SettledReports(tx: Tx, keys: seq<Key>, canonical: set<Key>)
    ensures SameReports(SettledAll(tx, keys, canonical).db.events, tx.db.events)
  {
    if keys != [] {
      var n := |keys| - 1;
      SettledReports(tx, keys[..n], canonical);
      SettledOneReports(SettledAll(tx, keys[..n], canonical), keys[n], canonical);
      ReportsTransitive(SettledAll(tx, keys, canonical).db.events, SettledAll(tx, keys[..n], canonical).db.events,
                        tx.db.events);
    }
  }

  lemma SettledOneReports(tx: Tx, key: Key, canonical: set<Key>)
    ensures SameReports(Settled(tx, key, canonical).db.events, tx.db.events)
  {
    if key in tx.db.transfers && key !in canonical && IsActive(tx.db.watches, tx.db.transfers[key].watchId) {
      var row := tx.db.transfers[key];
      var w := tx.db.watches[row.watchId].(nextEventSeq := tx.db.watches[row.watchId].nextEventSeq + 1);
      OrphanTold(tx.db.events, row.watchId, EventFor(w, PaymentOrphaned, Some(RowView(key, row))));
    }
  }

  lemma ReportsTransitive(x: map<Id, seq<Event>>, y: map<Id, seq<Event>>, z: map<Id, seq<Event>>)
    requires SameReports(x, y) && SameReports(y, z)
    ensures SameReports(x, z)
  {
    forall id
      ensures Told(EventsOf(x, id)) == Told(EventsOf(z, id))
    {
      assert Told(EventsOf(x, id)) == Told(EventsOf(y, id)) && Told(EventsOf(y, id)) == Told(EventsOf(z, id));
    }
  }

  lemma ReportsSquare(x: map<Id, seq<Event>>, y: map<Id, seq<Event>>, x': map<Id, seq<Event>>, y': map<Id, seq<Event>>)
    requires SameReports(x, y) && SameReports(x', x) && SameReports(y', y)
    ensures SameReports(x', y')
  {
    forall id
      ensures Told(EventsOf(x', id)) == Told(EventsOf(y', id))
    {
      assert Told(EventsOf(x', id)) == Told(EventsOf(x, id)) && Told(EventsOf(y', id)) == Told(EventsOf(y, id));
    }
  }

  /** Settling leaves watches, event sequences aside, and reports, orphans aside, as they were. */
  ghost predicate OnlySettled(x: Db, x': Db) {
    && x'.watches.Keys == x.watches.Keys
    && (forall id :: id in x.watches ==> SameWatch(x'.watches[id], x.watches[id]))
    && SameReports(x'.events, x.events)
  }

  /** `x` and `y` agree on every watch but for event sequences, on what their streams tell but for orphans, and on every
      row but those in `ahead`, which are still pending in `y` and already settled against `canonical` in `x`. */
  ghost predicate Sim(x: Db, y: Db, ahead: set<Key>, canonical: set<Key>) {
    && x.watches.Keys == y.watches.Keys
    && (forall id :: id in y.watches ==> SameWatch(x.watches[id], y.watches[id]))
    && x.transfers.Keys == y.transfers.Keys
    && ahead <= y.transfers.Keys
    && (forall k :: k in ahead ==>
          y.transfers[k].status == Pending
          && x.transfers[k] == y.transfers[k].(status := if k in canonical then Ignored else Orphaned))
    && (forall k :: k in y.transfers && k !in ahead ==> x.transfers[k] == y.transfers[k])
    && SameReports(x.events, y.events)
  }

  /** The accounting is the same: cursor, totals, statuses, rows, and all reports but those of orphans. */
  ghost predicate SameBooks(x: Db, y: Db) {
    x.cursor == y.cursor && Sim(x, y, {}, {})
  }

  lemma SimPayable(chain: ChainSpec, x: Db, y: Db, ahead: set<Key>, canonical: set<Key>, scope: Scope, id: Id, log: Log)
    requires ValidScales(chain) && log.Complete() && Sim(x, y, ahead, canonical)
    ensures Payable(chain, x.watches, scope, id, log) <==> Payable(chain, y.watches, scope, id, log)
    ensures Payable(chain, y.watches, scope, id, log) ==>
              id in x.watches && Pay(chain, TermsOf(x.watches[id]), log) > 0 &&
              Genuine(chain, id, x.watches[id], log) == Genuine(chain, id, y.watches[id], log)
  {
    if id in y.watches {
      assert SameWatch(x.watches[id], y.watches[id]);
    }
  }

  lemma SimCounted(x: Tx, y: Tx, ahead: set<Key>, canonical: set<Key>, m: MatchedTransfer)
    requires Sim(x.db, y.db, ahead, canonical) && !x.failed && !y.failed && m.key !in ahead
    ensures Counted(x, m).failed == Counted(y, m).failed
    ensures Sim(Counted(x, m).db, Counted(y, m).db, ahead, canonical)
  {
    var id := m.watch.id;
    if id in y.db.watches {
      assert SameWatch(x.db.watches[id], y.db.watches[id]);
    }
    assert m.key in x.db.transfers <==> m.key in y.db.transfers;
    assert Countable(x.db, m) == Countable(y.db, m);
    if Countable(y.db, m) && y.db.watches[id].confirmed + m.amount < UINT256 {
      assert SameWatch(Credited(x.db.watches[id], m.amount), Credited(y.db.watches[id], m.amount));
      CreditReports(x.db.events, y.db.events, id, x.db.watches[id], y.db.watches[id], m);
      SimUpdate(x.db, y.db, Counted(x, m).db, Counted(y, m).db, ahead, canonical, id, m.key);
    }
  }

  lemma SimUpdate(x: Db, y: Db, x': Db, y': Db, ahead: set<Key>, canonical: set<Key>, id: Id, k: Key)
    requires Sim(x, y, ahead, canonical) && id in y.watches && id in x'.watches && id in y'.watches && k !in ahead
    requires x'.watches == x.watches[id := x'.watches[id]] && y'.watches == y.watches[id := y'.watches[id]]
    requires SameWatch(x'.watches[id], y'.watches[id])
    requires k in x'.transfers && k in y'.transfers && x'.transfers[k] == y'.transfers[k]
    requires x'.transfers == x.transfers[k := x'.transfers[k]] && y'.transfers == y.transfers[k := y'.transfers[k]]
    requires SameReports(x'.events, y'.events)
    ensures Sim(x', y', ahead, canonical)
  {
  }

  lemma SimJoined(chain: ChainSpec, x: Tx, y: Tx, ahead: set<Key>, canonical: set<Key>, scope: Scope, log: Log)
    requires ValidScales(chain) && log.Complete() && UniqueActive(y.db.watches)
    requires Sim(x.db, y.db, ahead, canonical) && !x.failed && !y.failed && log.Key() !in ahead
    ensures Joined(chain, x, scope, log).failed == Joined(chain, y, scope, log).failed
    ensures Sim(Joined(chain, x, scope, log).db, Joined(chain, y, scope, log).db, ahead, canonical)
  {
    var p := JoinedCases(chain, x, scope, log);
    var q := JoinedCases(chain, y, scope, log);
    forall id
      ensures Payable(chain, x.db.watches, scope, id, log) <==> Payable(chain, y.db.watches, scope, id, log)
    {
      SimPayable(chain, x.db, y.db, ahead, canonical, scope, id, log);
    }
    if q.Some? {
      OnePayee(chain, y.db.watches, scope, p.value, q.value, log);
      SimPayable(chain, x.db, y.db, ahead, canonical, scope, q.value, log);
      SimCounted(x, y, ahead, canonical, Genuine(chain, q.value, y.db.watches[q.value], log));
    }
  }

  lemma {:induction false} SimJoinedAll(chain: ChainSpec, x: Tx, y: Tx, ahead: set<Key>, canonical: set<Key>,
                                        scope: Scope, logs: seq<Log>)
    requires ValidScales(chain) && Ordered(logs) && UniqueActive(y.db.watches)
    requires Sim(x.db, y.db, ahead, canonical) && !x.failed && !y.failed
    requires forall i :: 0 <= i < |logs| ==> logs[i].Key() !in ahead
    ensures JoinedAll(chain, x, scope, logs).failed == JoinedAll(chain, y, scope, logs).failed
    ensures !JoinedAll(chain, y, scope, logs).failed ==>
              Sim(JoinedAll(chain, x, scope, logs).db, JoinedAll(chain, y, scope, logs).db, ahead, canonical)
  {
    if logs != [] {
      var n := |logs| - 1;
      var x1, y1 := JoinedAll(chain, x, scope, logs[..n]), JoinedAll(chain, y, scope, logs[..n]);
      JoinedAgedOne(chain, x1, scope, logs[n]);
      JoinedAgedOne(chain, y1, scope, logs[n]);
      SimJoinedAll(chain, x, y, ahead, canonical, scope, logs[..n]);
      if !y1.failed {
        JoinedAged(chain, y, scope, logs[..n]);
        SimJoined(chain, x1, y1, ahead, canonical, scope, logs[n]);
      }
    }
  }

  lemma {:induction false} JoinedConcat(chain: ChainSpec, tx: Tx, scope: Scope, a: seq<Log>, b: seq<Log>)
    requires ValidScales(chain) && Ordered(a) && Ordered(b) && Ordered(a + b)
    ensures JoinedAll(chain, tx, scope, a + b) == JoinedAll(chain, JoinedAll(chain, tx, scope, a), scope, b)
  {
    if b == [] {
      assert a + b == a;
    } else {
      assert (a + b)[..|a + b| - 1] == a + b[..|b| - 1];
      JoinedConcat(chain, tx, scope, a, b[..|b| - 1]);
    }
  }

  // ------------------------------------------------------------------ settling

  /** Rows after settling everything pending at or below `t` against `keys`. */
  ghost predicate SettledRows(rows: map<Key, Row>, rows': map<Key, Row>, keys: set<Key>, t: nat) {
    && rows'.Keys == rows.Keys
    && forall k :: k in rows ==>
         rows'[k] == if rows[k].status == Pending && rows[k].block <= t
                     then rows[k].(status := if k in keys then Ignored else Orphaned) else rows[k]
  }

  lemma SweptSettled(world: World, s: Sys, t: nat, leftovers: seq<Key>)
    requires Good(world) && ValidScales(world.chain) && s.db.cursor <= t && Ordered(Slice(world.canon, s.db.cursor, t))
    requires Leftovers(SweepJoin(world, s.db, s.db.cursor, t).db.transfers, t, leftovers)
    ensures var mid := SweepJoin(world, s.db, s.db.cursor, t).db; var db' := SweptSys(world, s, t, leftovers).db;
            && SettledRows(mid.transfers, db'.transfers, KeysOf(Slice(world.canon, s.db.cursor, t)), t)
            && OnlySettled(mid, db')
            && db'.cursor == t
  {
    SettledFacts(SweepJoin(world, s.db, s.db.cursor, t), leftovers, KeysOf(Slice(world.canon, s.db.cursor, t)));
    SettledReports(SweepJoin(world, s.db, s.db.cursor, t), leftovers, KeysOf(Slice(world.canon, s.db.cursor, t)));
  }

  /** A chunk's canonical keys, seen from a longer range that contains it. */
  lemma KeysInRange(world: World, c: nat, m: nat, t: nat, k: Key)
    requires Good(world) && c <= m <= t && k in world.universe
    requires Ordered(Slice(world.canon, c, m)) && Ordered(Slice(world.canon, m, t)) && Ordered(Slice(world.canon, c, t))
    ensures world.universe[k].block.value <= m ==>
              (k in KeysOf(Slice(world.canon, c, t)) <==> k in KeysOf(Slice(world.canon, c, m)))
    ensures world.universe[k].block.value > m ==>
              (k in KeysOf(Slice(world.canon, c, t)) <==> k in KeysOf(Slice(world.canon, m, t)))
  {
    SliceConcat(world, c, m, t);
    var a, b := Slice(world.canon, c, m), Slice(world.canon, m, t);
    KeysConcat(a, b, k);
    if k in KeysOf(a) {
      var i :| 0 <= i < |a| && a[i].Key() == k;
      SliceAt(world, c, m, i);
    }
    if k in KeysOf(b) {
      var i :| 0 <= i < |b| && b[i].Key() == k;
      SliceAt(world, m, t, i);
    }
  }

  lemma KeysConcat(a: seq<Log>, b: seq<Log>, k: Key)
    requires Ordered(a) && Ordered(b) && Ordered(a + b)
    ensures k in KeysOf(a + b) <==> k in KeysOf(a) || k in KeysOf(b)
  {
    if k in KeysOf(a) {
      var i :| 0 <= i < |a| && a[i].Key() == k;
      assert (a + b)[i].Key() == k;
    }
    if k in KeysOf(b) {
      var i :| 0 <= i < |b| && b[i].Key() == k;
      assert (a + b)[|a| + i].Key() == k;
    }
    if k in KeysOf(a + b) {
      var i :| 0 <= i < |a + b| && (a + b)[i].Key() == k;
      assert i < |a| ==> a[i].Key() == k;
      assert i >= |a| ==> b[i - |a|].Key() == k;
    }
  }

  // ------------------------------------------------------------------ two chunks

  /** Rows left pending by (c, m], settled before the rest of the range is counted. */
  ghost function Ahead(rows: map<Key, Row>, m: nat): set<Key> {
    set k | k in rows && rows[k].status == Pending && rows[k].block <= m
  }

  ghost predicate Composable(world: World, s: Sys, m: nat, t: nat)
    requires Good(world) && ValidScales(world.chain)
  {
    Inv(world, s) && s.db.cursor <= m <= t && !SweepJoin(world, s.db, s.db.cursor, m).failed
  }

  lemma SplitJoin(world: World, db: Db, m: nat, t: nat)
    requires Good(world) && ValidScales(world.chain) && db.cursor <= m <= t
    ensures Ordered(Slice(world.canon, m, t))
    ensures SweepJoin(world, db, db.cursor, t)
         == JoinedAll(world.chain, SweepJoin(world, db, db.cursor, m), All, Slice(world.canon, m, t))
    ensures SweepJoin(world, db, db.cursor, m).failed ==> SweepJoin(world, db, db.cursor, t).failed
  {
    SliceGood(world, db.cursor, m);
    SliceGood(world, m, t);
    SliceGood(world, db.cursor, t);
    SliceConcat(world, db.cursor, m, t);
    JoinedConcat(world.chain, Begin(db), All, Slice(world.canon, db.cursor, m), Slice(world.canon, m, t));
    JoinedAged(world.chain, SweepJoin(world, db, db.cursor, m), All, Slice(world.canon, m, t));
  }

  /** After the first chunk is settled, its state runs ahead of the unsettled one by exactly the leftovers. */
  lemma FirstChunkAhead(world: World, s: Sys, m: nat, lo: seq<Key>)
    requires Good(world) && ValidScales(world.chain) && s.db.cursor <= m && Ordered(Slice(world.canon, s.db.cursor, m))
    requires Leftovers(SweepJoin(world, s.db, s.db.cursor, m).db.transfers, m, lo)
    ensures var y := SweepJoin(world, s.db, s.db.cursor, m).db;
            Sim(SweptSys(world, s, m, lo).db, y, Ahead(y.transfers, m), KeysOf(Slice(world.canon, s.db.cursor, m)))
  {
    SweptSettled(world, s, m, lo);
  }

  lemma MidRows(world: World, s: Sys, m: nat)
    requires Good(world) && ValidScales(world.chain) && RowsOk(world, s.db, s.db.cursor) && s.db.cursor <= m
    ensures RowsOk(world, SweepJoin(world, s.db, s.db.cursor, m).db, m)
  {
    SliceGood(world, s.db.cursor, m);
    var slice := Slice(world.canon, s.db.cursor, m);
    forall i | 0 <= i < |slice|
      ensures slice[i] in world.canon && slice[i].block.value <= m
    {
      SliceAt(world, s.db.cursor, m, i);
    }
    RowsOkJoined(world, Begin(s.db), All, slice, m);
  }

  /** Counting the second chunk after settling the first one, or before. */
  lemma SecondChunk(world: World, s: Sys, m: nat, t: nat, lo: seq<Key>)
    requires Good(world) && ValidScales(world.chain) && Composable(world, s, m, t)
    requires Leftovers(SweepJoin(world, s.db, s.db.cursor, m).db.transfers, m, lo)
    requires Ordered(Slice(world.canon, s.db.cursor, m))
    ensures var s1 := SweptSys(world, s, m, lo);
            && s1.db.cursor == m
            && SweepJoin(world, s1.db, m, t).failed == SweepJoin(world, s.db, s.db.cursor, t).failed
            && (!SweepJoin(world, s.db, s.db.cursor, t).failed ==>
                  Sim(SweepJoin(world, s1.db, m, t).db, SweepJoin(world, s.db, s.db.cursor, t).db,
                      Ahead(SweepJoin(world, s.db, s.db.cursor, m).db.transfers, m),
                      KeysOf(Slice(world.canon, s.db.cursor, m))))
  {
    SplitJoin(world, s.db, m, t);
    FirstChunkAhead(world, s, m, lo);
    var y := SweepJoin(world, s.db, s.db.cursor, m);
    var slice := Slice(world.canon, m, t);
    MidRows(world, s, m);
    forall i | 0 <= i < |slice|
      ensures slice[i].Key() !in Ahead(y.db.transfers, m)
    {
      SliceAt(world, m, t, i);
      if slice[i].Key() in y.db.transfers {
        assert RowOk(world, y.db, slice[i].Key());
      }
    }
    JoinedAged(world.chain, Begin(s.db), All, Slice(world.canon, s.db.cursor, m));
    SimJoinedAll(world.chain, Begin(SweptSys(world, s, m, lo).db), y, Ahead(y.db.transfers, m),
                 KeysOf(Slice(world.canon, s.db.cursor, m)), All, slice);
  }

  /** Settling the whole range at the end gives each row the status it got chunk by chunk. */
  lemma SettleTogether(x: Db, y: Db, x': Db, y': Db, ahead: set<Key>, first: set<Key>, second: set<Key>,
                       whole: set<Key>, m: nat, t: nat)
    requires m <= t && Sim(x, y, ahead, first)
    requires forall k :: k in ahead ==> k in y.transfers && y.transfers[k].block <= m
    requires forall k :: k in y.transfers && y.transfers[k].status == Pending && y.transfers[k].block <= m ==>
               k in ahead
    requires forall k :: k in y.transfers && y.transfers[k].block <= m ==> (k in whole <==> k in first)
    requires forall k :: k in y.transfers && y.transfers[k].block > m ==> (k in whole <==> k in second)
    requires SettledRows(x.transfers, x'.transfers, second, t)
    requires SettledRows(y.transfers, y'.transfers, whole, t)
    ensures x'.transfers == y'.transfers
  {
    forall k | k in y.transfers
      ensures x'.transfers[k] == y'.transfers[k]
    {
      if k in ahead {
        assert x.transfers[k].status != Pending;
      } else {
        assert x.transfers[k] == y.transfers[k];
      }
    }
  }

  lemma KeysSplit(world: World, y: Db, c: nat, m: nat, t: nat)
    requires Good(world) && ValidScales(world.chain) && c <= m <= t && RowsOk(world, y, t)
    requires Ordered(Slice(world.canon, c, m)) && Ordered(Slice(world.canon, m, t)) && Ordered(Slice(world.canon, c, t))
    ensures forall k :: k in y.transfers && y.transfers[k].block <= m ==>
              (k in KeysOf(Slice(world.canon, c, t)) <==> k in KeysOf(Slice(world.canon, c, m)))
    ensures forall k :: k in y.transfers && y.transfers[k].block > m ==>
              (k in KeysOf(Slice(world.canon, c, t)) <==> k in KeysOf(Slice(world.canon, m, t)))
  {
    forall k | k in y.transfers
      ensures y.transfers[k].block <= m ==>
                (k in KeysOf(Slice(world.canon, c, t)) <==> k in KeysOf(Slice(world.canon, c, m)))
      ensures y.transfers[k].block > m ==>
                (k in KeysOf(Slice(world.canon, c, t)) <==> k in KeysOf(Slice(world.canon, m, t)))
    {
      assert RowOk(world, y, k);
      KeysInRange(world, c, m, t, k);
    }
  }

  /** Chunk composition: sweeping (c, m] and then (m, t] leaves the same cursor, totals, statuses and rows as sweeping
      (c, t] at once, and streams that tell the same but for orphans; the second chunk commits exactly when the latter
      does. */
  lemma TwoChunks(world: World, s: Sys, m: nat, t: nat, lo1: seq<Key>, lo2: seq<Key>, lo: seq<Key>)
    requires Good(world) && ValidScales(world.chain) && Composable(world, s, m, t)
    requires Leftovers(SweepJoin(world, s.db, s.db.cursor, m).db.transfers, m, lo1)
    requires SweptSys(world, s, m, lo1).db.cursor == m
    requires Leftovers(SweepJoin(world, SweptSys(world, s, m, lo1).db, m, t).db.transfers, t, lo2)
    requires Leftovers(SweepJoin(world, s.db, s.db.cursor, t).db.transfers, t, lo)
    ensures SweepJoin(world, SweptSys(world, s, m, lo1).db, m, t).failed
            == SweepJoin(world, s.db, s.db.cursor, t).failed
    ensures !SweepJoin(world, s.db, s.db.cursor, t).failed ==>
              SameBooks(SweptSys(world, SweptSys(world, s, m, lo1), t, lo2).db, SweptSys(world, s, t, lo).db)
  {
    SliceGood(world, s.db.cursor, m);
    SecondChunk(world, s, m, t, lo1);
    if !SweepJoin(world, s.db, s.db.cursor, t).failed {
      TwoChunksCommitted(world, s, m, t, lo1, lo2, lo);
    }
  }

  lemma TwoChunksCommitted(world: World, s: Sys, m: nat, t: nat, lo1: seq<Key>, lo2: seq<Key>, lo: seq<Key>)
    requires Good(world) && ValidScales(world.chain) && Composable(world, s, m, t)
    requires Leftovers(SweepJoin(world, s.db, s.db.cursor, m).db.transfers, m, lo1)
    requires SweptSys(world, s, m, lo1).db.cursor == m && !SweepJoin(world, s.db, s.db.cursor, t).failed
    requires Leftovers(SweepJoin(world, SweptSys(world, s, m, lo1).db, m, t).db.transfers, t, lo2)
    requires Leftovers(SweepJoin(world, s.db, s.db.cursor, t).db.transfers, t, lo)
    ensures SameBooks(SweptSys(world, SweptSys(world, s, m, lo1), t, lo2).db, SweptSys(world, s, t, lo).db)
  {
    var c := s.db.cursor;
    SliceGood(world, c, m);
    SliceGood(world, m, t);
    SliceGood(world, c, t);
    SplitJoin(world, s.db, m, t);
    SecondChunk(world, s, m, t, lo1);
    var s1 := SweptSys(world, s, m, lo1);
    SweptSettled(world, s1, t, lo2);
    SweptSettled(world, s, t, lo);
    AheadStays(world, s, m, t);
    MidRows(world, s, t);
    KeysSplit(world, SweepJoin(world, s.db, c, t).db, c, m, t);
    SettleTogether(SweepJoin(world, s1.db, m, t).db, SweepJoin(world, s.db, c, t).db, SweptSys(world, s1, t, lo2).db,
                   SweptSys(world, s, t, lo).db, Ahead(SweepJoin(world, s.db, c, m).db.transfers, m),
                   KeysOf(Slice(world.canon, c, m)),
                   KeysOf(Slice(world.canon, m, t)), KeysOf(Slice(world.canon, c, t)), m, t);
    SameAfterSettling(SweepJoin(world, s1.db, m, t).db, SweepJoin(world, s.db, c, t).db, SweptSys(world, s1, t, lo2).db,
                      SweptSys(world, s, t, lo).db, Ahead(SweepJoin(world, s.db, c, m).db.transfers, m),
                      KeysOf(Slice(world.canon, c, m)));
  }

  lemma SameAfterSettling(x: Db, y: Db, x': Db, y': Db, ahead: set<Key>, canonical: set<Key>)
    requires Sim(x, y, ahead, canonical) && x'.transfers == y'.transfers && x'.cursor == y'.cursor
    requires OnlySettled(x, x') && OnlySettled(y, y')
    ensures SameBooks(x', y')
  {
    forall id | id in y'.watches
      ensures SameWatch(x'.watches[id], y'.watches[id])
    {
      assert SameWatch(x.watches[id], y.watches[id]);
    }
    ReportsSquare(x.events, y.events, x'.events, y'.events);
  }

  /** What was left pending by the first chunk is still pending when the second one has been counted. */
  lemma AheadStays(world: World, s: Sys, m: nat, t: nat)
    requires Good(world) && ValidScales(world.chain) && Composable(world, s, m, t)
    requires !SweepJoin(world, s.db, s.db.cursor, t).failed
    ensures var early := SweepJoin(world, s.db, s.db.cursor, m).db.transfers;
            var late := SweepJoin(world, s.db, s.db.cursor, t).db.transfers;
            && (forall k :: k in Ahead(early, m) ==> k in late && late[k].block <= m)
            && (forall k :: k in late && late[k].status == Pending && late[k].block <= m ==> k in Ahead(early, m))
  {
    SplitJoin(world, s.db, m, t);
    JoinedRows(world.chain, SweepJoin(world, s.db, s.db.cursor, m), All, Slice(world.canon, m, t));
  }

  // ------------------------------------------------------------------ any number of chunks

  lemma EarliestRow(rows: map<Key, Row>, keys: set<Key>) returns (best: Key)
    requires keys != {} && keys <= rows.Keys
    ensures best in keys && forall x :: x in keys ==> EarlierRow(rows, best, x)
  {
    best :| best in keys;
    var rest := keys - {best};
    while rest != {}
      invariant rest <= keys && best in keys
      invariant forall x :: x in keys && x !in rest ==> EarlierRow(rows, best, x)
    {
      var x :| x in rest;
      if EarlierRow(rows, x, best) {
        best := x;
      }
      rest := rest - {x};
    }
  }

  /** The leftovers query always has an answer. */
  lemma LeftoversExist(rows: map<Key, Row>, to: nat) returns (keys: seq<Key>)
    ensures Leftovers(rows, to, keys)
  {
    var all := Ahead(rows, to);
    var todo := all;
    keys := [];
    while todo != {}
      invariant todo <= all
      invariant forall k :: k in all <==> k in keys || k in todo
      invariant forall k :: k in keys ==> k !in todo
      invariant NoDup(keys) && forall i :: 0 <= i < |keys| ==> keys[i] in rows
      invariant forall i, x :: 0 <= i < |keys| && x in todo ==> EarlierRow(rows, keys[i], x)
      invariant forall i, j :: 0 <= i < j < |keys| ==> EarlierRow(rows, keys[i], keys[j])
    {
      var best := EarliestRow(rows, todo);
      keys := keys + [best];
      todo := todo - {best};
    }
  }

  /** Sweeping from two states with the same books, whatever the order of their leftovers. */
  lemma SameSweep(world: World, a: Sys, b: Sys, t: nat, loA: seq<Key>, loB: seq<Key>)
    requires Good(world) && ValidScales(world.chain) && SameBooks(a.db, b.db) && b.db.cursor <= t
    requires UniqueActive(b.db.watches)
    requires Leftovers(SweepJoin(world, a.db, a.db.cursor, t).db.transfers, t, loA)
    requires Leftovers(SweepJoin(world, b.db, b.db.cursor, t).db.transfers, t, loB)
    ensures SweepJoin(world, a.db, a.db.cursor, t).failed == SweepJoin(world, b.db, b.db.cursor, t).failed
    ensures !SweepJoin(world, b.db, b.db.cursor, t).failed ==>
              SameBooks(SweptSys(world, a, t, loA).db, SweptSys(world, b, t, loB).db)
  {
    SameJoin(world, a.db, b.db, t);
    if !SweepJoin(world, b.db, b.db.cursor, t).failed {
      SliceGood(world, b.db.cursor, t);
      SweptSettled(world, a, t, loA);
      SweptSettled(world, b, t, loB);
      SettledSame(SweepJoin(world, a.db, a.db.cursor, t).db, SweepJoin(world, b.db, b.db.cursor, t).db,
                  SweptSys(world, a, t, loA).db, SweptSys(world, b, t, loB).db,
                  KeysOf(Slice(world.canon, b.db.cursor, t)), t);
    }
  }

  lemma SameJoin(world: World, a: Db, b: Db, t: nat)
    requires Good(world) && ValidScales(world.chain) && SameBooks(a, b) && b.cursor <= t && UniqueActive(b.watches)
    ensures SweepJoin(world, a, a.cursor, t).failed == SweepJoin(world, b, b.cursor, t).failed
    ensures !SweepJoin(world, b, b.cursor, t).failed ==>
              Sim(SweepJoin(world, a, a.cursor, t).db, SweepJoin(world, b, b.cursor, t).db, {}, {})
  {
    SliceGood(world, b.cursor, t);
    SimJoinedAll(world.chain, Begin(a), Begin(b), {}, {}, All, Slice(world.canon, b.cursor, t));
  }

  lemma SettledSame(x: Db, y: Db, x': Db, y': Db, keys: set<Key>, t: nat)
    requires Sim(x, y, {}, {}) && x'.cursor == y'.cursor
    requires SettledRows(x.transfers, x'.transfers, keys, t) && SettledRows(y.transfers, y'.transfers, keys, t)
    requires OnlySettled(x, x') && OnlySettled(y, y')
    ensures SameBooks(x', y')
  {
    assert x.transfers == y.transfers;
    assert x'.transfers == y'.transfers;
    SameAfterSettling(x, y, x', y', {}, {});
  }

  /** Sweeping chunk by chunk, up to each of `cuts` in turn. */
  ghost function Chunked(world: World, s: Sys, cuts: seq<nat>, los: seq<seq<Key>>): Sys
    requires Good(world) && ValidScales(world.chain) && Cuts(s.db.cursor, cuts) && |los| == |cuts|
    ensures cuts != [] ==> Chunked(world, s, cuts, los).db.cursor == cuts[|cuts| - 1]
    ensures cuts == [] ==> Chunked(world, s, cuts, los) == s
    decreases |cuts|
  {
    if cuts == [] then s
    else
      var n := |cuts| - 1;
      assert Cuts(s.db.cursor, cuts[..n]);
      SweptSys(world, Chunked(world, s, cuts[..n], los[..n]), cuts[n], los[n])
  }

  ghost predicate Cuts(c: nat, cuts: seq<nat>) {
    && (forall i :: 0 <= i < |cuts| ==> c <= cuts[i])
    && (forall i, j :: 0 <= i < j < |cuts| ==> cuts[i] <= cuts[j])
  }

  ghost predicate LeftoversOk(world: World, s: Sys, cuts: seq<nat>, los: seq<seq<Key>>)
    requires Good(world) && ValidScales(world.chain) && Cuts(s.db.cursor, cuts) && |los| == |cuts|
    decreases |cuts|
  {
    cuts == [] ||
    (var n := |cuts| - 1;
     assert Cuts(s.db.cursor, cuts[..n]);
     && LeftoversOk(world, s, cuts[..n], los[..n])
     && var before := Chunked(world, s, cuts[..n], los[..n]);
        Leftovers(SweepJoin(world, before.db, before.db.cursor, cuts[n]).db.transfers, cuts[n], los[n]))
  }

  lemma SameTransitive(x: Db, y: Db, z: Db)
    requires SameBooks(x, y) && SameBooks(y, z)
    ensures SameBooks(x, z)
  {
    forall id | id in z.watches
      ensures SameWatch(x.watches[id], z.watches[id])
    {
      assert SameWatch(x.watches[id], y.watches[id]) && SameWatch(y.watches[id], z.watches[id]);
    }
    ReportsTransitive(x.events, y.events, z.events);
  }

  /** No chunk is rolled back. */
  ghost predicate AllCommit(world: World, s: Sys, cuts: seq<nat>, los: seq<seq<Key>>)
    requires Good(world) && ValidScales(world.chain) && Cuts(s.db.cursor, cuts) && |los| == |cuts|
    decreases |cuts|
  {
    cuts == [] ||
    (var n := |cuts| - 1;
     assert Cuts(s.db.cursor, cuts[..n]);
     && AllCommit(world, s, cuts[..n], los[..n])
     && var before := Chunked(world, s, cuts[..n], los[..n]);
        !SweepJoin(world, before.db, before.db.cursor, cuts[n]).failed)
  }

  /** Any way of cutting (cursor, t] into chunks leaves the same cursor, totals, statuses and rows as one sweep, and
      the same reports but for orphans, and every chunk commits if and only if that one sweep does. */
  lemma {:induction false} AnyChunks(world: World, s: Sys, cuts: seq<nat>, los: seq<seq<Key>>, lo: seq<Key>)
    requires Good(world) && ValidScales(world.chain) && Inv(world, s) && Cuts(s.db.cursor, cuts) && cuts != []
    requires |los| == |cuts| && LeftoversOk(world, s, cuts, los)
    requires Leftovers(SweepJoin(world, s.db, s.db.cursor, cuts[|cuts| - 1]).db.transfers, cuts[|cuts| - 1], lo)
    ensures AllCommit(world, s, cuts, los) <==> !SweepJoin(world, s.db, s.db.cursor, cuts[|cuts| - 1]).failed
    ensures AllCommit(world, s, cuts, los) ==>
              SameBooks(Chunked(world, s, cuts, los).db, SweptSys(world, s, cuts[|cuts| - 1], lo).db)
  {
    var n := |cuts| - 1;
    LastCut(world, s, cuts, los);
    if n == 0 {
      OnlyChunk(world, s, cuts, los, lo);
    } else {
      var p := cuts[n - 1];
      var loP := LeftoversExist(SweepJoin(world, s.db, s.db.cursor, p).db.transfers, p);
      AnyChunks(world, s, cuts[..n], los[..n], loP);
      SplitJoin(world, s.db, p, cuts[n]);
      if !SweepJoin(world, s.db, s.db.cursor, p).failed {
        LastChunk(world, s, Chunked(world, s, cuts[..n], los[..n]), p, cuts[n], loP, los[n], lo);
      }
    }
  }

  lemma FrontCuts(c: nat, cuts: seq<nat>)
    requires Cuts(c, cuts) && cuts != []
    ensures Cuts(c, cuts[..|cuts| - 1])
  {
  }

  lemma LastState(world: World, s: Sys, cuts: seq<nat>, los: seq<seq<Key>>)
    requires Good(world) && ValidScales(world.chain) && Cuts(s.db.cursor, cuts) && cuts != [] && |los| == |cuts|
    ensures var n := |cuts| - 1;
            && Cuts(s.db.cursor, cuts[..n])
            && var before := Chunked(world, s, cuts[..n], los[..n]);
               && before.db.cursor == (if n == 0 then s.db.cursor else cuts[n - 1]) <= cuts[n]
               && Chunked(world, s, cuts, los) == SweptSys(world, before, cuts[n], los[n])
  {
    FrontCuts(s.db.cursor, cuts);
  }

  lemma LastCut(world: World, s: Sys, cuts: seq<nat>, los: seq<seq<Key>>)
    requires Good(world) && ValidScales(world.chain) && Cuts(s.db.cursor, cuts) && cuts != []
    requires |los| == |cuts| && LeftoversOk(world, s, cuts, los)
    ensures var n := |cuts| - 1;
            && Cuts(s.db.cursor, cuts[..n]) && LeftoversOk(world, s, cuts[..n], los[..n])
            && var before := Chunked(world, s, cuts[..n], los[..n]);
               && before.db.cursor == (if n == 0 then s.db.cursor else cuts[n - 1]) <= cuts[n]
               && Leftovers(SweepJoin(world, before.db, before.db.cursor, cuts[n]).db.transfers, cuts[n], los[n])
               && Chunked(world, s, cuts, los) == SweptSys(world, before, cuts[n], los[n])
               && (AllCommit(world, s, cuts, los) <==>
                     AllCommit(world, s, cuts[..n], los[..n])
                         && !SweepJoin(world, before.db, before.db.cursor, cuts[n]).failed)
  {
    LastState(world, s, cuts, los);
  }

  lemma OnlyChunk(world: World, s: Sys, cuts: seq<nat>, los: seq<seq<Key>>, lo: seq<Key>)
    requires Good(world) && ValidScales(world.chain) && UniqueActive(s.db.watches) && Cuts(s.db.cursor, cuts)
    requires |cuts| == 1
    requires |los| == |cuts| && LeftoversOk(world, s, cuts, los)
    requires Leftovers(SweepJoin(world, s.db, s.db.cursor, cuts[0]).db.transfers, cuts[0], lo)
    ensures AllCommit(world, s, cuts, los) <==> !SweepJoin(world, s.db, s.db.cursor, cuts[0]).failed
    ensures AllCommit(world, s, cuts, los) ==>
              SameBooks(Chunked(world, s, cuts, los).db, SweptSys(world, s, cuts[0], lo).db)
  {
    LastCut(world, s, cuts, los);
    assert cuts[..0] == [] && los[..0] == [];
    assert SameBooks(s.db, s.db);
    SameSweep(world, s, s, cuts[0], los[0], lo);
  }

  lemma LastChunk(world: World, s: Sys, chunked: Sys, p: nat, t: nat, loP: seq<Key>, loN: seq<Key>, lo: seq<Key>)
    requires Good(world) && ValidScales(world.chain) && Composable(world, s, p, t)
    requires Leftovers(SweepJoin(world, s.db, s.db.cursor, p).db.transfers, p, loP)
    requires Leftovers(SweepJoin(world, s.db, s.db.cursor, t).db.transfers, t, lo)
    requires chunked.db.cursor == p && SameBooks(chunked.db, SweptSys(world, s, p, loP).db)
    requires Leftovers(SweepJoin(world, chunked.db, p, t).db.transfers, t, loN)
    ensures SweepJoin(world, chunked.db, p, t).failed == SweepJoin(world, s.db, s.db.cursor, t).failed
    ensures !SweepJoin(world, s.db, s.db.cursor, t).failed ==>
              SameBooks(SweptSys(world, chunked, t, loN).db, SweptSys(world, s, t, lo).db)
  {
    var sp := SweptSys(world, s, p, loP);
    var lo2 := LeftoversExist(SweepJoin(world, sp.db, p, t).db.transfers, t);
    TwoChunks(world, s, p, t, loP, lo2, lo);
    SplitJoin(world, s.db, p, t);
    SweptInv(world, s, p, loP);
    SameSweep(world, chunked, sp, t, loN, lo2);
    if !SweepJoin(world, s.db, s.db.cursor, t).failed {
      SameTransitive(SweptSys(world, chunked, t, loN).db, SweptSys(world, sp, t, lo2).db, SweptSys(world, s, t, lo).db);
    }
  }

  // ------------------------------------------------------------------ the rollup

  /** From `s` to `s'` the rollup gained what the ledger gained from `before` to `after`, the volume less whole
      multiples of 2^256. */
  predicate Gains(s: Stats, s': Stats, before: Stats, after: Stats) {
    && s'.confirmed - s.confirmed == after.confirmed - before.confirmed
    && s'.thresholds - s.thresholds == after.thresholds - before.thresholds
    && s.volume <= s'.volume && s'.volume - s.volume <= after.volume - before.volume
    && ((after.volume - before.volume) - (s'.volume - s.volume)) % UINT256 == 0
  }

  lemma GainsAdd(s: Stats, s1: Stats, s2: Stats, before: Stats, mid: Stats, after: Stats)
    requires Gains(s, s1, before, mid) && Gains(s1, s2, mid, after)
    ensures Gains(s, s2, before, after)
  {
    MultiplesAdd((mid.volume - before.volume) - (s1.volume - s.volume),
                 (after.volume - mid.volume) - (s2.volume - s1.volume));
  }

  lemma MultiplesAdd(a: nat, b: nat)
    requires a % UINT256 == 0 && b % UINT256 == 0
    ensures (a + b) % UINT256 == 0
  {
    ModSplit(b);
    ModMultiple(a, b / UINT256);
  }

  lemma MultiplesDiffer(a: nat, b: nat)
    requires a % UINT256 == 0 && b % UINT256 == 0
    ensures (a - b) % UINT256 == 0
  {
  }

  lemma SmallMultiple(a: nat)
    requires a % UINT256 == 0 && a < UINT256
    ensures a == 0
  {
  }

  lemma MovesGain(world: World, db: Db, db': Db, ids: seq<Id>, t: Address)
    requires Moves(world, db, db', ids, t)
    ensures Gains(StatOf(db.stats, t), StatOf(db'.stats, t), Census(world, db, ids, t), Census(world, db', ids, t))
  {
    var x := Census(world, db', ids, t).volume - Census(world, db, ids, t).volume;
    ModSplit(x);
    ModMultiple(0, x / UINT256);
  }

  lemma {:induction false} ChunksGain(world: World, s: Sys, cuts: seq<nat>, los: seq<seq<Key>>, ids: seq<Id>,
                                      t: Address)
    requires Good(world) && ValidScales(world.chain) && Cuts(s.db.cursor, cuts) && |los| == |cuts|
    requires Lists(s.db.watches, ids)
    requires LeftoversOk(world, s, cuts, los) && AllCommit(world, s, cuts, los) && s.db.events.Keys == s.db.watches.Keys
    ensures var s' := Chunked(world, s, cuts, los);
            && s'.db.watches.Keys == s'.db.events.Keys == s.db.watches.Keys
            && Gains(StatOf(s.db.stats, t), StatOf(s'.db.stats, t), Census(world, s.db, ids, t),
                     Census(world, s'.db, ids, t))
  {
    if cuts != [] {
      var n := |cuts| - 1;
      assert Cuts(s.db.cursor, cuts[..n]);
      ChunksGain(world, s, cuts[..n], los[..n], ids, t);
      var p := Chunked(world, s, cuts[..n], los[..n]);
      var s' := SweptSys(world, p, cuts[n], los[n]);
      SweptAged(world, p, cuts[n], los[n]);
      SweptMoves(world, p, cuts[n], los[n], ids, t);
      MovesGain(world, p.db, s'.db, ids, t);
      GainsAdd(StatOf(s.db.stats, t), StatOf(p.db.stats, t), StatOf(s'.db.stats, t),
               Census(world, s.db, ids, t), Census(world, p.db, ids, t), Census(world, s'.db, ids, t));
    }
  }

  lemma SameCensus(world: World, x: Db, y: Db, ids: seq<Id>, t: Address)
    requires SameBooks(x, y)
    ensures Census(world, x, ids, t) == Census(world, y, ids, t).(orphaned := Census(world, x, ids, t).orphaned)
  {
    assert x.transfers == y.transfers;
    forall id
      ensures Part(x, id, t).thresholds == Part(y, id, t).thresholds && Part(x, id, t).volume == Part(y, id, t).volume
    {
      if id in y.watches {
        assert SameWatch(x.watches[id], y.watches[id]);
      }
    }
    SumSame(ThresholdPart(x, t), ThresholdPart(y, t), ids);
    SumSame(VolumePart(x, t), VolumePart(y, t), ids);
  }

  /** Both ways gain what the ledger gained. */
  lemma BothGain(world: World, s: Sys, cuts: seq<nat>, los: seq<seq<Key>>, lo: seq<Key>, ids: seq<Id>, t: Address)
    requires Good(world) && ValidScales(world.chain) && Cuts(s.db.cursor, cuts) && cuts != []
    requires |los| == |cuts| && LeftoversOk(world, s, cuts, los) && AllCommit(world, s, cuts, los)
    requires Lists(s.db.watches, ids) && s.db.events.Keys == s.db.watches.Keys
    requires !SweepJoin(world, s.db, s.db.cursor, cuts[|cuts| - 1]).failed
    requires Leftovers(SweepJoin(world, s.db, s.db.cursor, cuts[|cuts| - 1]).db.transfers, cuts[|cuts| - 1], lo)
    ensures var x := Chunked(world, s, cuts, los).db;
            Gains(StatOf(s.db.stats, t), StatOf(x.stats, t), Census(world, s.db, ids, t), Census(world, x, ids, t))
    ensures var y := SweptSys(world, s, cuts[|cuts| - 1], lo).db;
            Gains(StatOf(s.db.stats, t), StatOf(y.stats, t), Census(world, s.db, ids, t), Census(world, y, ids, t))
  {
    ChunksGain(world, s, cuts, los, ids, t);
    SweptMoves(world, s, cuts[|cuts| - 1], lo, ids, t);
    MovesGain(world, s.db, SweptSys(world, s, cuts[|cuts| - 1], lo).db, ids, t);
  }

  /** Equal counts; volumes equal up to multiples of 2^256, and exactly so if what was counted is a uint256. */
  predicate SameRollup(x: Stats, y: Stats, counted: int) {
    && x.confirmed == y.confirmed && x.thresholds == y.thresholds
    && (x.volume - y.volume) % UINT256 == 0 && (counted < UINT256 ==> x.volume == y.volume)
  }

  /** Chunk by chunk or at once, the confirmed and threshold counts of every token end the same, and the volume does up
      to multiples of 2^256; outright if what was counted is a uint256. When else it does is told in `Volume`. */
  lemma ChunksSameRollup(world: World, s: Sys, cuts: seq<nat>, los: seq<seq<Key>>, lo: seq<Key>, ids: seq<Id>,
                         t: Address)
    requires Good(world) && ValidScales(world.chain) && Inv(world, s) && Cuts(s.db.cursor, cuts) && cuts != []
    requires |los| == |cuts| && LeftoversOk(world, s, cuts, los) && Lists(s.db.watches, ids)
    requires !SweepJoin(world, s.db, s.db.cursor, cuts[|cuts| - 1]).failed
    requires Leftovers(SweepJoin(world, s.db, s.db.cursor, cuts[|cuts| - 1]).db.transfers, cuts[|cuts| - 1], lo)
    ensures var chunked := Chunked(world, s, cuts, los).db; var once := SweptSys(world, s, cuts[|cuts| - 1], lo).db;
            SameRollup(StatOf(chunked.stats, t), StatOf(once.stats, t),
                       Census(world, once, ids, t).volume - Census(world, s.db, ids, t).volume)
  {
    AnyChunks(world, s, cuts, los, lo);
    BothGain(world, s, cuts, los, lo, ids, t);
    var chunked := Chunked(world, s, cuts, los).db;
    var once := SweptSys(world, s, cuts[|cuts| - 1], lo).db;
    SameCensus(world, chunked, once, ids, t);
    SameGains(StatOf(s.db.stats, t), StatOf(chunked.stats, t), StatOf(once.stats, t), Census(world, s.db, ids, t),
              Census(world, chunked, ids, t), Census(world, once, ids, t));
  }

  lemma SameGains(s: Stats, x: Stats, y: Stats, before: Stats, afterX: Stats, afterY: Stats)
    requires Gains(s, x, before, afterX) && Gains(s, y, before, afterY)
    requires afterX == afterY.(orphaned := afterX.orphaned)
    ensures SameRollup(x, y, afterY.volume - before.volume)
  {
    var dx := (afterX.volume - before.volume) - (x.volume - s.volume);
    var dy := (afterY.volume - before.volume) - (y.volume - s.volume);
    MultiplesDiffer(dy, dx);
    if afterY.volume - before.volume < UINT256 {
      SmallMultiple(dx);
      SmallMultiple(dy);
    }
  }

  // ------------------------------------------------------------------ replay

  lemma {:induction false} NothingToCount(chain: ChainSpec, tx: Tx, scope: Scope, logs: seq<Log>)
    requires ValidScales(chain) && Ordered(logs)
    requires forall i, id :: 0 <= i < |logs| && Payable(chain, tx.db.watches, scope, id, logs[i]) ==>
               Resolved(tx.db.transfers, logs[i].Key())
    ensures JoinedAll(chain, tx, scope, logs) == tx
  {
    if logs != [] {
      var n := |logs| - 1;
      NothingToCount(chain, tx, scope, logs[..n]);
      var p := JoinedCases(chain, tx, scope, logs[n]);
    }
  }

  /** `c` is not below a backfill that is still to be run. */
  ghost predicate Replayable(watches: map<Id, Watch>, c: nat) {
    forall id :: IsActive(watches, id) && watches[id].backfillTo.Some? ==> watches[id].backfillTo.value <= c
  }

  /** Blocks at or below the cursor have nothing left to count. */
  lemma ReplayCountsNothing(world: World, s: Sys, c: nat, t: nat)
    requires Good(world) && ValidScales(world.chain) && Inv(world, s) && c <= t <= s.db.cursor
    requires Replayable(s.db.watches, c)
    ensures SweepJoin(world, s.db.(cursor := c), c, t) == Begin(s.db.(cursor := c))
  {
    SliceGood(world, c, t);
    var slice := Slice(world.canon, c, t);
    forall i, id | 0 <= i < |slice| && Payable(world.chain, s.db.watches, All, id, slice[i])
      ensures Resolved(s.db.transfers, slice[i].Key())
    {
      SweptResolved(world, s, c, t, i, id);
    }
    NothingToCount(world.chain, Begin(s.db.(cursor := c)), All, slice);
  }

  lemma SweptResolved(world: World, s: Sys, c: nat, t: nat, i: nat, id: Id)
    requires Good(world) && ValidScales(world.chain) && c <= t <= s.db.cursor && Replayable(s.db.watches, c)
    requires IsActive(s.db.watches, id) && Covered(world, s, id) && i < |Slice(world.canon, c, t)|
    requires Slice(world.canon, c, t)[i].Complete()
    requires Pay(world.chain, TermsOf(s.db.watches[id]), Slice(world.canon, c, t)[i]) > 0
    ensures Resolved(s.db.transfers, Slice(world.canon, c, t)[i].Key())
  {
    SliceAt(world, c, t, i);
    HeightMonotone(world.canon, t, s.db.cursor);
    assert Due(world, s.db.watches[id], Height(world.canon, c) + i);
  }

  /** Whatever instance sweeps blocks that were swept before, with whatever complete answer, changes nothing: if
      the cursor is put back to `c`, sweeping (c, cursor] again restores the database exactly. */
  lemma ReplayRestores(world: World, s: Sys, step: Step)
    requires Good(world) && ValidScales(world.chain) && Inv(world, s) && step.Sweep? && step.to == s.db.cursor
    requires Replayable(s.db.watches, step.expected) && SweepEnabled(world, s.db.(cursor := step.expected), step)
    requires forall k :: k in s.db.transfers && s.db.transfers[k].block <= s.db.cursor ==>
               s.db.transfers[k].status != Pending
    ensures Enabled(world, s.(db := s.db.(cursor := step.expected)), step)
    ensures Do(world, s.(db := s.db.(cursor := step.expected)), step) == s
  {
    var r := s.(db := s.db.(cursor := step.expected));
    SweepIsJoin(world, r.db, step);
    ReplayCountsNothing(world, s, step.expected, step.to);
    if step.leftovers != [] {
      FirstLeftover(s.db.transfers, step.to, step.leftovers);
      assert false;
    }
    RollupUnchanged(s.db.stats);
  }

  lemma FirstLeftover(rows: map<Key, Row>, to: nat, keys: seq<Key>)
    requires Leftovers(rows, to, keys) && keys != []
    ensures keys[0] in rows && rows[keys[0]].status == Pending && rows[keys[0]].block <= to
  {
    assert keys[0] in keys;
  }

  lemma RollupUnchanged(stats: map<int, Stats>)
    ensures RolledUp(stats, map[]) == stats
  {
  }
}
