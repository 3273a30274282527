/** The webhook outbox as a lease queue (src/store/outbox.rs:24-113). */
module Outbox {
  import opened Base

  datatype EventKey = EventKey(watch: Id, serial: nat)

  datatype Delivery = Waiting | Delivered | Dead

  datatype Item = Item(status: Delivery, attempts: nat, dueAt: nat)

  /** The outbox table, and each watch's `next_event_seq`. */
  datatype Queue = Queue(items: map<EventKey, Item>, last: map<Id, nat>)

  // ------------------------------------------------------------------ what each statement does

  function LastOf(q: Queue, watch: Id): nat {
    if watch in q.last then q.last[watch] else 0
  }

  /** A new event takes the next sequence of its watch and is due at once (src/store/mod.rs:551-580). */
  function Enqueued(q: Queue, watch: Id, now: nat): Queue {
    var n := LastOf(q, watch) + 1;
    Queue(q.items[EventKey(watch, n) := Item(Waiting, 0, now)], q.last[watch := n])
  }

  predicate IsWaiting(q: Queue, k: EventKey) {
    k in q.items && q.items[k].status == Waiting
  }

  /** No earlier event of the watch is undelivered. */
  predicate Unblocked(q: Queue, k: EventKey) {
    forall e :: e in q.items && e.watch == k.watch && e.serial < k.serial ==> q.items[e].status != Waiting
  }

  predicate Eligible(q: Queue, k: EventKey, now: nat) {
    IsWaiting(q, k) && q.items[k].dueAt <= now && Unblocked(q, k)
  }

  /** Answer of the leasing query: rows another transaction holds are skipped, so any eligible rows up to
      `limit`. */
  predicate LeaseAnswer(q: Queue, now: nat, limit: nat, keys: seq<EventKey>) {
    |keys| <= limit && NoDup(keys) && forall k :: k in keys ==> Eligible(q, k, now)
  }

  function LeasedOne(q: Queue, k: EventKey, until: nat): Queue {
    if k in q.items
    then q.(items := q.items[k := q.items[k].(attempts := q.items[k].attempts + 1, dueAt := until)])
    else q
  }

  function Leased(q: Queue, keys: seq<EventKey>, until: nat): Queue {
    if keys == [] then q else LeasedOne(Leased(q, keys[..|keys| - 1], until), keys[|keys| - 1], until)
  }

  /** `mark_delivered` has no guard on the status. */
  function MarkedDelivered(q: Queue, k: EventKey): Queue {
    if k in q.items then q.(items := q.items[k := q.items[k].(status := Delivered)]) else q
  }

  /** Neither has `mark_dead`. */
  function MarkedDead(q: Queue, k: EventKey): Queue {
    if k in q.items then q.(items := q.items[k := q.items[k].(status := Dead)]) else q
  }

  function MarkedRetry(q: Queue, k: EventKey, at: nat): Queue {
    if IsWaiting(q, k) then q.(items := q.items[k := q.items[k].(dueAt := at)]) else q
  }

  /** The attempt is given back. */
  function Released(q: Queue, k: EventKey, at: nat): Queue {
    if IsWaiting(q, k)
    then q.(items := q.items[k := q.items[k].(attempts := Max(q.items[k].attempts, 1) - 1, dueAt := at)])
    else q
  }

  /** Rows in the order in which they fell due. */
  ghost predicate DueOrder(items: map<EventKey, Item>, keys: seq<EventKey>) {
    && (forall i :: 0 <= i < |keys| ==> keys[i] in items)
    && (forall i, j :: 0 <= i < j < |keys| ==> items[keys[i]].dueAt <= items[keys[j]].dueAt)
  }

  /** Exactly `keys` were leased: rows that were undelivered and due, each with all earlier events of its watch out of
      the way; one more attempt, and due again at `until`. */
  ghost predicate LeaseDone(items: map<EventKey, Item>, items': map<EventKey, Item>, now: nat, until: nat,
                            keys: seq<EventKey>) {
    && items'.Keys == items.Keys
    && (forall k :: k in items && k !in keys ==> items'[k] == items[k])
    && (forall k :: k in keys ==>
          && k in items && items[k].status == Waiting && items[k].dueAt <= now
          && (forall e :: e in items && e.watch == k.watch && e.serial < k.serial ==> items[e].status != Waiting)
          && items'[k] == Item(Waiting, items[k].attempts + 1, until))
  }

  lemma {:induction false} LeasedExactly(q: Queue, keys: seq<EventKey>, until: nat, k: EventKey)
    requires k in q.items && NoDup(keys)
    ensures k in Leased(q, keys, until).items
    ensures Leased(q, keys, until).items[k]
         == if k in keys then Item(q.items[k].status, q.items[k].attempts + 1, until) else q.items[k]
  {
    if keys != [] {
      var n := |keys| - 1;
      LeasedExactly(q, keys[..n], until, k);
      assert k in keys <==> k in keys[..n] || k == keys[n];
      assert keys[n] !in keys[..n];
    }
  }

  lemma LeaseMeans(q: Queue, now: nat, limit: nat, keys: seq<EventKey>, until: nat)
    requires LeaseAnswer(q, now, limit, keys)
    ensures LeaseDone(q.items, Leased(q, keys, until).items, now, until, keys)
  {
    LeasedItems(q, keys, until);
    forall k | k in q.items
      ensures Leased(q, keys, until).items[k]
           == if k in keys then Item(q.items[k].status, q.items[k].attempts + 1, until) else q.items[k]
    {
      LeasedExactly(q, keys, until, k);
    }
  }

  /** A lease that is released leaves no trace but the time of the next attempt; one that is retried has cost one. */
  lemma GivenBack(q: Queue, k: EventKey, until: nat, at: nat)
    requires k in q.items && q.items[k].status == Waiting
    ensures Released(LeasedOne(q, k, until), k, at) == q.(items := q.items[k := q.items[k].(dueAt := at)])
    ensures MarkedRetry(LeasedOne(q, k, until), k, at)
         == q.(items := q.items[k := Item(Waiting, q.items[k].attempts + 1, at)])
  {
  }

  /** An outcome is recorded whatever the row says by then, and changes nothing else of it; a new time only for a row
      that is still undelivered. */
  lemma Marking(q: Queue, k: EventKey, at: nat)
    requires k in q.items
    ensures MarkedDelivered(q, k) == q.(items := q.items[k := Item(Delivered, q.items[k].attempts, q.items[k].dueAt)])
    ensures MarkedDead(q, k) == q.(items := q.items[k := Item(Dead, q.items[k].attempts, q.items[k].dueAt)])
    ensures q.items[k].status == Delivered || q.items[k].status == Dead ==>
              MarkedRetry(q, k, at) == q && Released(q, k, at) == q
  {
  }

  /** A new event can be leased from the time it is written on, and not before, if and only if all events of its watch
      before it are delivered or dead. */
  lemma NewEventEligibleIff(q: Queue, watch: Id, now: nat, at: nat)
    requires GapFree(q)
    ensures var k := EventKey(watch, LastOf(q, watch) + 1);
            Eligible(Enqueued(q, watch, now), k, at)
            <==> && now <= at
                 && forall e :: e in q.items && e.watch == watch ==>
                      q.items[e].status == Delivered || q.items[e].status == Dead
    ensures forall k :: k in q.items ==>
              k in Enqueued(q, watch, now).items && Enqueued(q, watch, now).items[k] == q.items[k]
  {
    var q', k := Enqueued(q, watch, now), EventKey(watch, LastOf(q, watch) + 1);
    assert k !in q.items;
    if Unblocked(q', k) {
      forall e | e in q.items && e.watch == watch
        ensures q.items[e].status != Waiting
      {
        assert e in q'.items && e.serial < k.serial;
      }
    }
  }

  class Table {
    var items: map<EventKey, Item>
    var last: map<Id, nat>

    function State(): Queue
      reads this
    {
      Queue(items, last)
    }

    constructor ()
      ensures State() == Queue(map[], map[])
    {
      items, last := map[], map[];
    }

    method Enqueue(watch: Id, now: nat) returns (k: EventKey)
      modifies this
      ensures State() == Enqueued(old(State()), watch, now)
      ensures k == EventKey(watch, LastOf(old(State()), watch) + 1) && items == old(items)[k := Item(Waiting, 0, now)]
    {
      var n := (if watch in last then last[watch] else 0) + 1;
      k := EventKey(watch, n);
      items := items[k := Item(Waiting, 0, now)];
      last := last[watch := n];
    }

    /** The row of `todo` that has been due the longest. */
    method LongestDue(todo: set<EventKey>) returns (k: EventKey)
      requires todo != {} && todo <= items.Keys
      ensures k in todo && forall x :: x in todo ==> items[k].dueAt <= items[x].dueAt
    {
      k :| k in todo;
      var rest := todo - {k};
      while rest != {}
        invariant rest <= todo && k in todo
        invariant forall x :: x in todo && x !in rest ==> items[k].dueAt <= items[x].dueAt
      {
        var x :| x in rest;
        if items[x].dueAt < items[k].dueAt {
          k := x;
        }
        rest := rest - {x};
      }
    }

    /** `locked` are rows that other transactions hold. Of the rest, the eligible rows that have been due the longest
        are leased, as many as fit. */
    method LeaseDue(limit: nat, now: nat, until: nat, locked: set<EventKey>) returns (keys: seq<EventKey>)
      modifies this
      ensures LeaseAnswer(old(State()), now, limit, keys) && State() == Leased(old(State()), keys, until)
      ensures forall k :: k in keys ==> k !in locked
      ensures |keys| < limit ==> forall k :: Eligible(old(State()), k, now) ==> k in keys || k in locked
      ensures LeaseDone(old(items), items, now, until, keys) && last == old(last)
      ensures DueOrder(old(items), keys)
      ensures forall i, k :: 0 <= i < |keys| && Eligible(old(State()), k, now) && k !in keys && k !in locked ==>
                keys[i] in old(items) && old(items)[keys[i]].dueAt <= old(items)[k].dueAt
    {
      keys := SelectDue(limit, now, locked);
      LeaseRows(keys, until);
      LeaseMeans(old(State()), now, limit, keys, until);
    }

    method LeaseRows(keys: seq<EventKey>, until: nat)
      requires forall i :: 0 <= i < |keys| ==> keys[i] in items
      modifies this`items
      ensures State() == Leased(old(State()), keys, until)
    {
      var i := 0;
      while i < |keys|
        invariant i <= |keys| && State() == Leased(old(State()), keys[..i], until) && items.Keys == old(items).Keys
      {
        assert keys[..i + 1][..i] == keys[..i];
        items := items[keys[i] := items[keys[i]].(attempts := items[keys[i]].attempts + 1, dueAt := until)];
        i := i + 1;
      }
      assert keys[..i] == keys;
    }

    /** The rows the leasing statement picks. */
    method SelectDue(limit: nat, now: nat, locked: set<EventKey>) returns (keys: seq<EventKey>)
      ensures LeaseAnswer(State(), now, limit, keys)
      ensures forall k :: k in keys ==> k !in locked
      ensures |keys| < limit ==> forall k :: Eligible(State(), k, now) ==> k in keys || k in locked
      ensures DueOrder(items, keys)
      ensures forall i, k :: 0 <= i < |keys| && Eligible(State(), k, now) && k !in keys && k !in locked ==>
                keys[i] in items && items[keys[i]].dueAt <= items[k].dueAt
    {
      keys := [];
      var todo := set k | k in items && Eligible(State(), k, now) && k !in locked;
      while todo != {} && |keys| < limit
        invariant |keys| <= limit && NoDup(keys) && todo <= items.Keys
        invariant forall k :: k in keys ==> k !in todo && k !in locked
        invariant forall k :: Eligible(State(), k, now) && k !in locked <==> k in keys || k in todo
        invariant DueOrder(items, keys)
        invariant forall i, k :: 0 <= i < |keys| && k in todo ==> items[keys[i]].dueAt <= items[k].dueAt
        decreases todo
      {
        var k := LongestDue(todo);
        keys := keys + [k];
        todo := todo - {k};
      }
    }

    method MarkDelivered(k: EventKey)
      modifies this`items
      ensures State() == MarkedDelivered(old(State()), k)
    {
      if k in items {
        items := items[k := items[k].(status := Delivered)];
      }
    }

    method MarkRetry(k: EventKey, at: nat)
      modifies this`items
      ensures State() == MarkedRetry(old(State()), k, at)
    {
      if k in items && items[k].status == Waiting {
        items := items[k := items[k].(dueAt := at)];
      }
    }

    method MarkDead(k: EventKey)
      modifies this`items
      ensures State() == MarkedDead(old(State()), k)
    {
      if k in items {
        items := items[k := items[k].(status := Dead)];
      }
    }

    method Release(k: EventKey, at: nat)
      modifies this`items
      ensures State() == Released(old(State()), k, at)
    {
      if k in items && items[k].status == Waiting {
        items := items[k := items[k].(attempts := Max(items[k].attempts, 1) - 1, dueAt := at)];
      }
    }
  }

  // ------------------------------------------------------------------ runs

  /** Statements by any dispatcher in any order: tasks may be late, repeated or lost. */
  datatype QStep =
    | Enqueue(watch: Id, now: nat)
    | Lease(keys: seq<EventKey>, now: nat, limit: nat, until: nat)
    | MarkDelivered(key: EventKey)
    | MarkRetry(key: EventKey, at: nat)
    | MarkDead(key: EventKey)
    | Release(key: EventKey, at: nat)

  predicate QEnabled(q: Queue, step: QStep) {
    step.Lease? ==> LeaseAnswer(q, step.now, step.limit, step.keys)
  }

  function QDo(q: Queue, step: QStep): Queue {
    match step
    case Enqueue(watch, now) => Enqueued(q, watch, now)
    case Lease(keys, _, _, until) => Leased(q, keys, until)
    case MarkDelivered(k) => MarkedDelivered(q, k)
    case MarkRetry(k, at) => MarkedRetry(q, k, at)
    case MarkDead(k) => MarkedDead(q, k)
    case Release(k, at) => Released(q, k, at)
  }

  function QAfter(steps: seq<QStep>): Queue {
    if steps == [] then Queue(map[], map[]) else QDo(QAfter(steps[..|steps| - 1]), steps[|steps| - 1])
  }

  predicate QRun(steps: seq<QStep>) {
    steps == [] || (QRun(steps[..|steps| - 1]) && QEnabled(QAfter(steps[..|steps| - 1]), steps[|steps| - 1]))
  }

  /** Everything leased in a run, in order. */
  function Leases(steps: seq<QStep>): seq<EventKey> {
    if steps == [] then []
    else Leases(steps[..|steps| - 1]) + if steps[|steps| - 1].Lease? then steps[|steps| - 1].keys else []
  }

  // ------------------------------------------------------------------ the order of leases

  /** Sequences of a watch have no gaps. */
  ghost predicate GapFree(q: Queue) {
    forall k :: k in q.items <==> 1 <= k.serial <= LastOf(q, k.watch)
  }

  predicate IsResolved(q: Queue, k: EventKey) {
    k in q.items && q.items[k].status != Waiting
  }

  /** Every lower sequence of the watch exists and is delivered or dead. */
  ghost predicate LowerResolved(q: Queue, k: EventKey) {
    forall n :: 1 <= n < k.serial ==> IsResolved(q, EventKey(k.watch, n))
  }

  lemma {:induction false} LeasedItems(q: Queue, keys: seq<EventKey>, until: nat)
    ensures Leased(q, keys, until).last == q.last && Leased(q, keys, until).items.Keys == q.items.Keys
    ensures forall k :: k in q.items ==>
              var i := Leased(q, keys, until).items[k];
              && i.status == q.items[k].status
              && (k !in keys ==> i == q.items[k])
              && (k in keys ==> i.dueAt == until)
  {
    if keys != [] {
      var n := |keys| - 1;
      LeasedItems(q, keys[..n], until);
      assert forall k :: k in keys <==> k in keys[..n] || k == keys[n];
    }
  }

  /** No step makes a resolved event undelivered again or removes one. */
  lemma ResolvedForGood(q: Queue, step: QStep, k: EventKey)
    requires GapFree(q) && IsResolved(q, k)
    ensures IsResolved(QDo(q, step), k)
  {
    if step.Lease? {
      LeasedItems(q, step.keys, step.until);
    }
  }

  lemma GapFreeKept(q: Queue, step: QStep)
    requires GapFree(q)
    ensures GapFree(QDo(q, step))
  {
    match step
    case Lease(keys, _, _, until) => LeasedItems(q, keys, until);
    case _ =>
  }

  lemma EligibleLower(q: Queue, k: EventKey, now: nat)
    requires GapFree(q) && Eligible(q, k, now)
    ensures LowerResolved(q, k)
  {
  }

  /** Leases of one watch come in the order of their sequences, and by the time of a lease every lower sequence
      was settled for good. */
  ghost predicate LeasesOk(q: Queue, leases: seq<EventKey>) {
    && (forall i :: 0 <= i < |leases| ==> leases[i] in q.items && LowerResolved(q, leases[i]))
    && (forall i, j :: 0 <= i < j < |leases| && leases[i].watch == leases[j].watch ==>
          leases[i].serial <= leases[j].serial)
  }

  lemma LowerStays(q: Queue, step: QStep, k: EventKey)
    requires GapFree(q) && LowerResolved(q, k) && k in q.items
    ensures LowerResolved(QDo(q, step), k) && k in QDo(q, step).items
  {
    forall n | 1 <= n < k.serial
      ensures IsResolved(QDo(q, step), EventKey(k.watch, n))
    {
      ResolvedForGood(q, step, EventKey(k.watch, n));
    }
    if step.Lease? {
      LeasedItems(q, step.keys, step.until);
    }
  }

  lemma OldLeasesOk(q: Queue, step: QStep, leases: seq<EventKey>)
    requires GapFree(q) && LeasesOk(q, leases)
    ensures LeasesOk(QDo(q, step), leases)
  {
    forall i | 0 <= i < |leases|
      ensures leases[i] in QDo(q, step).items && LowerResolved(QDo(q, step), leases[i])
    {
      LowerStays(q, step, leases[i]);
    }
  }

  /** An undelivered event is not below anything ever leased. */
  lemma NotBelowLeased(q: Queue, a: EventKey, b: EventKey, now: nat)
    requires LowerResolved(q, a) && Eligible(q, b, now) && a.watch == b.watch && 1 <= b.serial
    ensures a.serial <= b.serial
  {
    assert b == EventKey(a.watch, b.serial);
    assert b.serial < a.serial ==> IsResolved(q, EventKey(a.watch, b.serial));
  }

  lemma NewLeasesOk(q: Queue, leases: seq<EventKey>, step: QStep)
    requires GapFree(q) && LeasesOk(q, leases) && step.Lease? && LeaseAnswer(q, step.now, step.limit, step.keys)
    ensures LeasesOk(QDo(q, step), leases + step.keys)
  {
    var all := leases + step.keys;
    forall i | 0 <= i < |all|
      ensures all[i] in q.items && LowerResolved(q, all[i])
    {
      if i >= |leases| {
        assert all[i] == step.keys[i - |leases|] && all[i] in step.keys;
        EligibleLower(q, all[i], step.now);
      }
    }
    forall i, j | 0 <= i < j < |all| && all[i].watch == all[j].watch
      ensures all[i].serial <= all[j].serial
    {
      if j >= |leases| {
        assert all[j] == step.keys[j - |leases|] && all[j] in step.keys;
        NotBelowLeased(q, all[i], all[j], step.now);
      }
    }
    assert LeasesOk(q, all);
    OldLeasesOk(q, step, all);
  }

  /** Under any interleaving of dispatchers, late and lost acknowledgements, expiries and new events, the leases of
      a watch never go back to a lower sequence, and all sequences below a leased one are delivered or dead. */
  lemma {:induction false} LeaseOrder(steps: seq<QStep>)
    requires QRun(steps)
    ensures GapFree(QAfter(steps)) && LeasesOk(QAfter(steps), Leases(steps))
  {
    if steps != [] {
      var n := |steps| - 1;
      LeaseOrder(steps[..n]);
      var q := QAfter(steps[..n]);
      GapFreeKept(q, steps[n]);
      if steps[n].Lease? {
        NewLeasesOk(q, Leases(steps[..n]), steps[n]);
      } else {
        OldLeasesOk(q, steps[n], Leases(steps[..n]));
        assert Leases(steps[..n]) + [] == Leases(steps[..n]);
      }
    }
  }

  /** One statement never leases two events of the same watch. */
  lemma OneLeasePerWatch(q: Queue, now: nat, limit: nat, keys: seq<EventKey>, i: nat, j: nat)
    requires LeaseAnswer(q, now, limit, keys) && i < j < |keys|
    ensures keys[i].watch != keys[j].watch
  {
    assert keys[i] in keys && keys[j] in keys;
    assert keys[i] != keys[j];
  }

  /** No watch is ever stuck: with an undelivered event, its lowest one is leasable as soon as it is due. */
  lemma {:induction false} HeadOfLine(q: Queue, k: EventKey, now: nat) returns (head: EventKey)
    requires IsWaiting(q, k) && forall e :: e in q.items ==> q.items[e].dueAt <= now
    ensures head.watch == k.watch && head.serial <= k.serial && Eligible(q, head, now)
    decreases k.serial
  {
    if Unblocked(q, k) {
      head := k;
    } else {
      var e :| e in q.items && e.watch == k.watch && e.serial < k.serial && q.items[e].status == Waiting;
      head := HeadOfLine(q, e, now);
    }
  }

  lemma LeasedAlone(q: Queue, k: EventKey, until: nat)
    ensures Leased(q, [k], until) == LeasedOne(q, k, until)
  {
    assert [k][..0] == [];
  }
}
