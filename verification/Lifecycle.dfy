/** The life of a watch over whole runs: it is what was ordered, it is retired only for cause, and then for good
    (src/store/mod.rs:242-341). */
module Lifecycle {
  import opened Base
  import opened Registry
  import opened Cache
  import opened Matcher
  import opened Ledger
  import opened Expiry
  import opened Chain
  import opened Join
  import opened Machine
  import opened Books

  // ------------------------------------------------------------------ retired for good

  /** The watch is as it was, a backfill that was outstanding aside, and so is its stream. */
  ghost predicate Frozen(db: Db, db': Db, id: Id)
    requires id in db.watches
  {
    && id in db'.watches
    && db'.watches[id] == db.watches[id].(backfillTo := db'.watches[id].backfillTo)
    && EventsOf(db'.events, id) == EventsOf(db.events, id)
  }

  lemma {:induction false} CountingSpares(tx: Tx, ms: seq<MatchedTransfer>, id: Id)
    requires id in tx.db.watches && tx.db.watches[id].status != Active
    ensures Frozen(tx.db, CountedAll(tx, ms).db, id)
  {
    if ms != [] {
      CountingSpares(tx, ms[..|ms| - 1], id);
    }
  }

  lemma SettleSpares(tx: Tx, key: Key, canonical: set<Key>, id: Id)
    requires id in tx.db.watches && tx.db.watches[id].status != Active
    ensures Frozen(tx.db, Settled(tx, key, canonical).db, id)
  {
  }

  lemma {:induction false} SettlingSpares(tx: Tx, keys: seq<Key>, canonical: set<Key>, id: Id)
    requires id in tx.db.watches && tx.db.watches[id].status != Active
    ensures Frozen(tx.db, SettledAll(tx, keys, canonical).db, id)
  {
    if keys != [] {
      SettlingSpares(tx, keys[..|keys| - 1], canonical, id);
      SettleSpares(SettledAll(tx, keys[..|keys| - 1], canonical), keys[|keys| - 1], canonical, id);
    }
  }

  lemma SweepSpares(chain: ChainSpec, db: Db, c: CacheState, expected: nat, to: nat, logs: seq<Log>, loads: seq<Id>,
                    leftovers: seq<Key>, id: Id)
    requires ValidScales(chain) && (forall v :: v in loads ==> v in db.watches)
    requires id in db.watches && db.watches[id].status != Active
    ensures Frozen(db, Swept(chain, db, c, expected, to, logs, loads, leftovers).db, id)
  {
    var loaded := Loaded(chain, db.watches, c, loads);
    CountingSpares(Begin(db), Sorted(Hits(chain, loaded.entries, logs)), id);
    SettlingSpares(CountedChunk(chain, db, loaded, logs), leftovers, CanonicalKeys(logs), id);
  }

  lemma FillSpares(chain: ChainSpec, db: Db, batch: seq<PendingBackfill>, logs: seq<Log>, id: Id)
    requires ValidScales(chain) && id in db.watches && db.watches[id].status != Active
    ensures Frozen(db, Backfilled(chain, db, EMPTY, batch, logs).db, id)
  {
    CountingSpares(Begin(db), Sorted(Within(BatchUntil(chain, batch),
                                            Hits(chain, BatchScope(chain, batch), logs))), id);
  }

  lemma StepSpares(world: World, s: Sys, step: Step, id: Id)
    requires Good(world) && ValidScales(world.chain) && Enabled(world, s, step)
    requires id in s.db.watches && s.db.watches[id].status != Active
    ensures Frozen(s.db, Do(world, s, step).db, id)
  {
    match step
    case Expire(ids, now) => LapsedExactly(s.db, ids, now, id);
    case Sweep(c, expected, to, logs, loads, leftovers) =>
      SweepSpares(world.chain, s.db, c, expected, to, logs, loads, leftovers, id);
    case Backfill(batch, logs) => FillSpares(world.chain, s.db, batch, logs, id);
    case _ =>
  }

  /** Completed, cancelled or expired is for good: over any further run the watch keeps its status, its total and
      everything else, and its stream gets no further event. */
  lemma {:induction false} RetiredForGood(world: World, s: Sys, steps: seq<Step>, id: Id)
    requires Good(world) && ValidScales(world.chain) && Run(world, s, steps)
    requires id in s.db.watches && s.db.watches[id].status != Active
    ensures Frozen(s.db, After(world, s, steps).db, id)
  {
    if steps != [] {
      RetiredForGood(world, s, steps[..|steps| - 1], id);
      StepSpares(world, After(world, s, steps[..|steps| - 1]), steps[|steps| - 1], id);
    }
  }

  // ------------------------------------------------------------------ cancellation

  /** Cancelling an active watch retires it, with what it had and without an event, for good. Nothing else changes. */
  lemma CancelRetires(world: World, s: Sys, id: Id, more: seq<Step>)
    requires Good(world) && ValidScales(world.chain) && IsActive(s.db.watches, id)
    requires Run(world, Do(world, s, Cancel(id)), more)
    ensures Do(world, s, Cancel(id))
         == s.(db := s.db.(watches := s.db.watches[id := s.db.watches[id].(status := Cancelled)]))
    ensures var w := s.db.watches[id]; var db' := After(world, Do(world, s, Cancel(id)), more).db;
            && id in db'.watches && db'.watches[id].status == Cancelled
            && db'.watches[id].confirmed == w.confirmed && db'.watches[id].nextEventSeq == w.nextEventSeq
            && EventsOf(db'.events, id) == EventsOf(s.db.events, id)
  {
    RetiredForGood(world, Do(world, s, Cancel(id)), more, id);
  }

  // ------------------------------------------------------------------ registration

  /** The watch has what was ordered. */
  predicate AsOrdered(w: Watch, serial: nat, new_: NewWatch) {
    && w.serial == serial && w.token == new_.token && w.payee == new_.payee && w.threshold == new_.threshold
    && w.url == new_.url && w.expiresAt == new_.expiresAt
  }

  /** A registration gets its watch, active and empty, if and only if no active watch has its target; otherwise nothing
      changes. */
  lemma RegistersIff(world: World, s: Sys, step: Step)
    requires Good(world) && ValidScales(world.chain) && step.Create? && Enabled(world, s, step)
    ensures var s' := Do(world, s, step);
            if exists v :: IsActive(s.db.watches, v) && s.db.watches[v].token == step.new_.token
                           && s.db.watches[v].payee == step.new_.payee
            then s' == s
            else && step.id in s'.db.watches && AsOrdered(s'.db.watches[step.id], step.serial, step.new_)
                 && s'.db.watches[step.id].status == Active && s'.db.watches[step.id].confirmed == 0
                 && s'.db.watches[step.id].nextEventSeq == 0 && EventsOf(s'.db.events, step.id) == []
                 && s'.db.watches == s.db.watches[step.id := s'.db.watches[step.id]]
                 && s'.db.cursor == s.db.cursor && s'.db.transfers == s.db.transfers && s'.db.stats == s.db.stats
  {
  }

  /** Cancelling a watch frees its target: the next registration on it succeeds. */
  lemma TargetFreed(world: World, s: Sys, id: Id, step: Step)
    requires Good(world) && ValidScales(world.chain) && UniqueActive(s.db.watches) && IsActive(s.db.watches, id)
    requires step.Create? && Enabled(world, Do(world, s, Cancel(id)), step)
    requires step.new_.token == s.db.watches[id].token && step.new_.payee == s.db.watches[id].payee
    ensures var s' := Do(world, Do(world, s, Cancel(id)), step);
            && IsActive(s'.db.watches, step.id) && AsOrdered(s'.db.watches[step.id], step.serial, step.new_)
  {
    var freed := Do(world, s, Cancel(id));
    assert forall v :: IsActive(freed.db.watches, v) ==> v != id && IsActive(s.db.watches, v);
    assert forall v :: IsActive(s.db.watches, v) && SameTarget(s.db.watches[v], s.db.watches[id]) ==> v == id;
    assert forall v :: IsActive(freed.db.watches, v) ==> !SameTarget(freed.db.watches[v], s.db.watches[id]);
    RegistersIff(world, freed, step);
  }

  /** Nothing changes what was ordered. */
  predicate SameOrder(v: Watch, w: Watch) {
    v == w.(confirmed := v.confirmed, status := v.status, backfillTo := v.backfillTo, nextEventSeq := v.nextEventSeq)
  }

  ghost predicate OrdersKept(before: map<Id, Watch>, after: map<Id, Watch>) {
    before.Keys == after.Keys && forall id :: id in before ==> SameOrder(after[id], before[id])
  }

  lemma {:induction false} CountingKeepsOrders(tx: Tx, ms: seq<MatchedTransfer>)
    ensures OrdersKept(tx.db.watches, CountedAll(tx, ms).db.watches)
  {
    if ms != [] {
      CountingKeepsOrders(tx, ms[..|ms| - 1]);
    }
  }

  lemma SweepKeepsOrders(chain: ChainSpec, db: Db, c: CacheState, expected: nat, to: nat, logs: seq<Log>,
                         loads: seq<Id>, leftovers: seq<Key>)
    requires ValidScales(chain) && (forall v :: v in loads ==> v in db.watches)
    ensures OrdersKept(db.watches, Swept(chain, db, c, expected, to, logs, loads, leftovers).db.watches)
  {
    var loaded := Loaded(chain, db.watches, c, loads);
    CountingKeepsOrders(Begin(db), Sorted(Hits(chain, loaded.entries, logs)));
    SettledFacts(CountedChunk(chain, db, loaded, logs), leftovers, CanonicalKeys(logs));
  }

  lemma BackfillKeepsOrders(chain: ChainSpec, db: Db, batch: seq<PendingBackfill>, logs: seq<Log>)
    requires ValidScales(chain)
    ensures OrdersKept(db.watches, Backfilled(chain, db, EMPTY, batch, logs).db.watches)
  {
    CountingKeepsOrders(Begin(db), Sorted(Within(BatchUntil(chain, batch),
                                                 Hits(chain, BatchScope(chain, batch), logs))));
  }

  lemma StepKeepsOrders(world: World, s: Sys, step: Step)
    requires Good(world) && ValidScales(world.chain) && Enabled(world, s, step) && !step.Create?
    ensures OrdersKept(s.db.watches, Do(world, s, step).db.watches)
  {
    match step
    case Expire(ids, now) =>
      ExpiryFrame(s.db, ids, now);
      forall id | id in s.db.watches
        ensures SameOrder(ExpiredDb(s.db, ids, now).watches[id], s.db.watches[id])
      {
        LapsedExactly(s.db, ids, now, id);
      }
    case Sweep(c, expected, to, logs, loads, leftovers) =>
      SweepKeepsOrders(world.chain, s.db, c, expected, to, logs, loads, leftovers);
    case Backfill(batch, logs) => BackfillKeepsOrders(world.chain, s.db, batch, logs);
    case _ =>
  }

  /** Step `i` of the run ordered the watch. */
  predicate OrderedBy(steps: seq<Step>, i: int, id: Id, w: Watch) {
    0 <= i < |steps| && steps[i].Create? && steps[i].id == id && AsOrdered(w, steps[i].serial, steps[i].new_)
  }

  /** In every reachable state every watch is what some registration of the run ordered: token, recipient, threshold,
      address for reports, expiry and serial. */
  lemma {:induction false} WatchesAsOrdered(world: World, s: Sys, steps: seq<Step>, id: Id) returns (i: nat)
    requires Good(world) && ValidScales(world.chain) && Initial(s) && Run(world, s, steps)
    requires id in After(world, s, steps).db.watches
    ensures OrderedBy(steps, i, id, After(world, s, steps).db.watches[id])
  {
    var n := |steps| - 1;
    var mid := After(world, s, steps[..n]);
    if id in mid.db.watches {
      i := WatchesAsOrdered(world, s, steps[..n], id);
      if !steps[n].Create? {
        StepKeepsOrders(world, mid, steps[n]);
      }
    } else {
      if !steps[n].Create? {
        StepKeepsOrders(world, mid, steps[n]);
        assert false;
      }
      RegistersIff(world, mid, steps[n]);
      i := n;
    }
  }

  // ------------------------------------------------------------------ expiry

  lemma {:induction false} CountingExpiresNone(tx: Tx, ms: seq<MatchedTransfer>, id: Id)
    requires id in tx.db.watches && tx.db.watches[id].status == Active
    ensures id in CountedAll(tx, ms).db.watches
    ensures CountedAll(tx, ms).db.watches[id].status == Active || CountedAll(tx, ms).db.watches[id].status == Completed
  {
    if ms != [] {
      CountingExpiresNone(tx, ms[..|ms| - 1], id);
    }
  }

  /** Only an `Expire` step expires a watch, and only one whose time has come. */
  lemma ExpiresFor(world: World, s: Sys, step: Step, id: Id)
    requires Good(world) && ValidScales(world.chain) && Enabled(world, s, step) && id in Do(world, s, step).db.watches
    requires Do(world, s, step).db.watches[id].status == Expired
    requires id in s.db.watches ==> s.db.watches[id].status != Expired
    ensures step.Expire? && id in s.db.watches && s.db.watches[id].status == Active
    ensures s.db.watches[id].expiresAt.Some? && s.db.watches[id].expiresAt.value <= step.now
  {
    if step.Create? {
      RegistersIff(world, s, step);
    } else {
      StepKeepsOrders(world, s, step);
      if s.db.watches[id].status != Active {
        StepSpares(world, s, step, id);
        assert false;
      }
      match step
      case Expire(ids, now) => LapsedExactly(s.db, ids, now, id);
      case Sweep(c, _, _, logs, loads, leftovers) =>
        var loaded := Loaded(world.chain, s.db.watches, c, loads);
        CountingExpiresNone(Begin(s.db), Sorted(Hits(world.chain, loaded.entries, logs)), id);
        SettledFacts(CountedChunk(world.chain, s.db, loaded, logs), leftovers, CanonicalKeys(logs));
      case Backfill(batch, logs) =>
        CountingExpiresNone(Begin(s.db), Sorted(Within(BatchUntil(world.chain, batch),
                                                       Hits(world.chain, BatchScope(world.chain, batch), logs))), id);
      case _ =>
    }
  }

  /** Step `i` ran at a time when the watch was due to expire. */
  predicate ExpiredBy(steps: seq<Step>, i: int, w: Watch) {
    0 <= i < |steps| && steps[i].Expire? && w.expiresAt.Some? && w.expiresAt.value <= steps[i].now
  }

  /** No watch expires before its time: in every reachable state an expired watch has an expiry, and some expiry step of
      the run was at or after it. */
  lemma {:induction false} ExpiredInTime(world: World, s: Sys, steps: seq<Step>, id: Id) returns (i: nat)
    requires Good(world) && ValidScales(world.chain) && Initial(s) && Run(world, s, steps)
    requires id in After(world, s, steps).db.watches && After(world, s, steps).db.watches[id].status == Expired
    ensures ExpiredBy(steps, i, After(world, s, steps).db.watches[id])
  {
    var n := |steps| - 1;
    var mid := After(world, s, steps[..n]);
    if id in mid.db.watches && mid.db.watches[id].status == Expired {
      i := ExpiredInTime(world, s, steps[..n], id);
      StepSpares(world, mid, steps[n], id);
    } else {
      ExpiresFor(world, mid, steps[n], id);
      StepKeepsOrders(world, mid, steps[n]);
      i := n;
    }
  }
}
