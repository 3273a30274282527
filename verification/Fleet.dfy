/** Several instances share the database, each with a watchlist cache of its own that it fills at boot, from
    notifications and inside sweeps (src/ingest/mod.rs:113-126, src/ingest/notify.rs, src/store/sweep.rs:293-308).
    A run of such a fleet is a run of the accounting machine as long as no sweep commits from a cache with a hole, which
    is so as long as no cache is made to skip a serial. */
module Fleet {
  import opened Base
  import opened Registry
  import opened Cache
  import opened Matcher
  import opened Ledger
  import opened Chain
  import opened Join
  import opened Accounts
  import opened Sync
  import opened Machine
  import opened Books
  import opened BooksBackfill
  import opened BooksOther

  datatype Fleet = Fleet(sys: Sys, caches: map<nat, CacheState>)

  datatype Action =
    /** A transaction that consults no cache. */
    | Commit(step: Step)
    | SweepBy(i: nat, expected: nat, to: nat, logs: seq<Log>, loads: seq<Id>, leftovers: seq<Key>)
    | BackfillBy(i: nat, batch: seq<PendingBackfill>, logs: seq<Log>)
    /** Instance `i` starts, or starts over, and hydrates its cache. */
    | Boot(i: nat, ids: seq<Id>)
    /** Instance `i` registered `id` or was notified of it. */
    | Add(i: nat, id: Id)
    | Remove(i: nat, key: WatchKey, id: Id)

  // ------------------------------------------------------------------ steps

  ghost predicate SweepByOk(world: World, f: Fleet, a: Action)
    requires Good(world) && ValidScales(world.chain) && a.SweepBy?
  {
    var db := f.sys.db;
    && a.i in f.caches && a.expected < a.to
    && Answers(a.logs, Slice(world.canon, a.expected, a.to))
    && (forall id :: id in a.loads ==> id in db.watches)
    && (db.cursor == a.expected ==>
          && ActiveAbove(db.watches, f.caches[a.i].lastSeq, a.loads)
          && var counted := CountedChunk(world.chain, db, Loaded(world.chain, db.watches, f.caches[a.i], a.loads),
                                         a.logs);
             (!counted.failed ==> Leftovers(counted.db.transfers, a.to, a.leftovers)))
  }

  ghost predicate ActionOk(world: World, f: Fleet, a: Action)
    requires Good(world) && ValidScales(world.chain)
  {
    match a
    case Commit(step) =>
      !step.Sweep? && !step.Backfill? && Enabled(world, f.sys, step) && (step.Create? ==> step.serial > 0)
    case SweepBy(_, _, _, _, _, _) => SweepByOk(world, f, a)
    case BackfillBy(i, batch, logs) => i in f.caches && Enabled(world, f.sys, Backfill(batch, logs))
    case Boot(_, ids) => ActiveAbove(f.sys.db.watches, 0, ids)
    case Add(i, id) => i in f.caches && id in f.sys.db.watches && CacheKey(world.chain, f.sys.db.watches[id]).Some?
    case Remove(i, _, id) => i in f.caches && !IsActive(f.sys.db.watches, id)
  }

  ghost function Act(world: World, f: Fleet, a: Action): Fleet
    requires Good(world) && ValidScales(world.chain) && ActionOk(world, f, a)
  {
    match a
    case Commit(step) => f.(sys := Do(world, f.sys, step))
    case SweepBy(i, expected, to, logs, loads, leftovers) =>
      var r := Swept(world.chain, f.sys.db, f.caches[i], expected, to, logs, loads, leftovers);
      Fleet(f.sys.(db := r.db), f.caches[i := r.cache])
    case BackfillBy(i, batch, logs) =>
      Fleet(Do(world, f.sys, Backfill(batch, logs)),
            f.caches[i := Backfilled(world.chain, f.sys.db, f.caches[i], batch, logs).cache])
    case Boot(i, ids) => f.(caches := f.caches[i := Loaded(world.chain, f.sys.db.watches, EMPTY, ids)])
    case Add(i, id) =>
      var w := f.sys.db.watches[id];
      f.(caches := f.caches[i := Inserted(f.caches[i], CacheKey(world.chain, w).value, RefOf(id, w))])
    case Remove(i, key, id) => f.(caches := f.caches[i := Removed(f.caches[i], key, id)])
  }

  /** The transaction behind an action, if there is one. */
  function StepsOf(f: Fleet, a: Action): seq<Step> {
    match a
    case Commit(step) => [step]
    case SweepBy(i, expected, to, logs, loads, leftovers) =>
      if i in f.caches then [Sweep(f.caches[i], expected, to, logs, loads, leftovers)] else []
    case BackfillBy(i, batch, logs) => [Backfill(batch, logs)]
    case _ => []
  }

  // ------------------------------------------------------------------ runs

  ghost predicate FleetInitial(f: Fleet) {
    Initial(f.sys) && f.caches == map[]
  }

  ghost predicate FleetRun(world: World, f: Fleet, actions: seq<Action>)
    requires Good(world) && ValidScales(world.chain)
    decreases |actions|, 0
  {
    actions == [] ||
    (FleetRun(world, f, actions[..|actions| - 1])
     && ActionOk(world, FleetAfter(world, f, actions[..|actions| - 1]), actions[|actions| - 1]))
  }

  ghost function FleetAfter(world: World, f: Fleet, actions: seq<Action>): Fleet
    requires Good(world) && ValidScales(world.chain) && FleetRun(world, f, actions)
    decreases |actions|, 1
  {
    if actions == [] then f
    else Act(world, FleetAfter(world, f, actions[..|actions| - 1]), actions[|actions| - 1])
  }

  /** The transactions a fleet run commits, in order. */
  ghost function Trace(world: World, f: Fleet, actions: seq<Action>): seq<Step>
    requires Good(world) && ValidScales(world.chain) && FleetRun(world, f, actions)
  {
    if actions == [] then []
    else
      var front := actions[..|actions| - 1];
      Trace(world, f, front) + StepsOf(FleetAfter(world, f, front), actions[|actions| - 1])
  }

  // ------------------------------------------------------------------ the invariant

  /** A cache that holds nothing wrong and, if `whole`, misses nothing below its mark. */
  ghost predicate CacheOk(chain: ChainSpec, watches: map<Id, Watch>, c: CacheState, whole: bool) {
    Faithful(chain, watches, c.entries) && (whole ==> PrefixComplete(chain, watches, c))
  }

  ghost predicate CachesOk(chain: ChainSpec, watches: map<Id, Watch>, caches: map<nat, CacheState>, whole: bool) {
    forall i :: i in caches ==> CacheOk(chain, watches, caches[i], whole)
  }

  ghost predicate SerialsPositive(watches: map<Id, Watch>) {
    forall id :: id in watches ==> watches[id].serial > 0
  }

  ghost predicate FleetOk(world: World, f: Fleet, whole: bool)
    requires Good(world) && ValidScales(world.chain)
  {
    Inv(world, f.sys) && SerialsPositive(f.sys.db.watches) && CachesOk(world.chain, f.sys.db.watches, f.caches, whole)
  }

  /** A registration's serial is above everything any cache has seen, or its token is not configured. */
  ghost predicate SerialAhead(chain: ChainSpec, caches: map<nat, CacheState>, token: Address, serial: nat) {
    TokenByAddress(chain, token).Some? ==> forall i :: i in caches ==> serial > caches[i].lastSeq
  }

  /** The action makes no cache skip a serial: an addition skips over and displaces no active watch, and a registration
      commits above what every cache has seen. */
  ghost predicate HoleFree(world: World, f: Fleet, a: Action)
    requires Good(world) && ValidScales(world.chain) && ActionOk(world, f, a)
  {
    match a
    case Commit(step) => step.Create? ==> SerialAhead(world.chain, f.caches, step.new_.token, step.serial)
    case Add(i, id) => AddSafe(world.chain, f.sys.db.watches, f.caches[i], id)
    case _ => true
  }

  /** A sweep that commits does so from a prefix-complete cache. */
  ghost predicate Sees(world: World, f: Fleet, a: Action)
    requires Good(world) && ValidScales(world.chain) && ActionOk(world, f, a)
  {
    a.SweepBy? && a.expected == f.sys.db.cursor ==> PrefixComplete(world.chain, f.sys.db.watches, f.caches[a.i])
  }

  ghost predicate AllHoleFree(world: World, f: Fleet, actions: seq<Action>)
    requires Good(world) && ValidScales(world.chain) && FleetRun(world, f, actions)
  {
    actions == [] ||
    (AllHoleFree(world, f, actions[..|actions| - 1])
     && HoleFree(world, FleetAfter(world, f, actions[..|actions| - 1]), actions[|actions| - 1]))
  }

  ghost predicate AllSee(world: World, f: Fleet, actions: seq<Action>)
    requires Good(world) && ValidScales(world.chain) && FleetRun(world, f, actions)
  {
    actions == [] ||
    (AllSee(world, f, actions[..|actions| - 1])
     && Sees(world, FleetAfter(world, f, actions[..|actions| - 1]), actions[|actions| - 1]))
  }

  lemma AgingKeepsCaches(chain: ChainSpec, before: map<Id, Watch>, after: map<Id, Watch>, caches: map<nat, CacheState>,
                         whole: bool)
    requires Aged(before, after) && SerialsPositive(before) && CachesOk(chain, before, caches, whole)
    ensures SerialsPositive(after) && CachesOk(chain, after, caches, whole)
  {
    forall i | i in caches
      ensures CacheOk(chain, after, caches[i], whole)
    {
      AgingKeepsPrefix(chain, before, after, caches[i]);
    }
  }

  lemma AgedReflexive(watches: map<Id, Watch>)
    ensures Aged(watches, watches)
  {
  }

  lemma {:induction false} ExpireAged(db: Db, ids: seq<Id>, now: nat)
    ensures Aged(db.watches, ExpiredDb(db, ids, now).watches)
  {
    if ids != [] {
      ExpireAged(db, ids[..|ids| - 1], now);
    }
  }

  /** Steps that register nothing only age the watch table. */
  lemma CommitAged(world: World, s: Sys, step: Step)
    requires Good(world) && ValidScales(world.chain) && Enabled(world, s, step)
    requires !step.Sweep? && !step.Backfill? && !step.Create?
    ensures Aged(s.db.watches, Do(world, s, step).db.watches)
  {
    match step
    case Expire(ids, now) => ExpireAged(s.db, ids, now);
    case _ =>
  }

  lemma NewRowKeepsCaches(chain: ChainSpec, watches: map<Id, Watch>, caches: map<nat, CacheState>, id: Id, w: Watch,
                          whole: bool)
    requires CachesOk(chain, watches, caches, whole) && id !in watches && w.status == Active
    requires whole ==> CacheKey(chain, w).None? || forall i :: i in caches ==> w.serial > caches[i].lastSeq
    ensures CachesOk(chain, watches[id := w], caches, whole)
  {
    forall i | i in caches
      ensures CacheOk(chain, watches[id := w], caches[i], whole)
    {
      assert CacheOk(chain, watches, caches[i], whole);
      RegistrationKeepsPrefixIff(chain, watches, caches[i], id, w);
    }
  }

  lemma CreateKeepsCaches(world: World, f: Fleet, step: Step, whole: bool)
    requires Good(world) && ValidScales(world.chain) && step.Create? && ActionOk(world, f, Commit(step))
    requires SerialsPositive(f.sys.db.watches) && CachesOk(world.chain, f.sys.db.watches, f.caches, whole)
    requires whole ==> HoleFree(world, f, Commit(step))
    ensures var ws := Do(world, f.sys, step).db.watches;
            SerialsPositive(ws) && CachesOk(world.chain, ws, f.caches, whole)
  {
    if !Occupied(f.sys.db.watches, step.new_.token, step.new_.payee) {
      var w := NewRow(f.sys.db.cursor, step.serial, step.new_);
      assert Do(world, f.sys, step).db.watches == f.sys.db.watches[step.id := w];
      NewRowKeepsCaches(world.chain, f.sys.db.watches, f.caches, step.id, w, whole);
    }
  }

  // ------------------------------------------------------------------ what a sweep does to its cache

  ghost predicate AllRetired(watches: map<Id, Watch>, completed: seq<(WatchKey, Id)>) {
    forall i :: 0 <= i < |completed| ==> !IsActive(watches, completed[i].1)
  }

  lemma StaysRetired(before: map<Id, Watch>, after: map<Id, Watch>, completed: seq<(WatchKey, Id)>)
    requires Aged(before, after) && AllRetired(before, completed)
    ensures AllRetired(after, completed)
  {
  }

  lemma CountedRetires(tx: Tx, m: MatchedTransfer)
    requires AllRetired(tx.db.watches, tx.completed)
    ensures AllRetired(Counted(tx, m).db.watches, Counted(tx, m).completed)
  {
    CountedAgedOne(tx, m);
    StaysRetired(tx.db.watches, Counted(tx, m).db.watches, tx.completed);
  }

  lemma {:induction false} CompletedRetired(tx: Tx, ms: seq<MatchedTransfer>)
    requires AllRetired(tx.db.watches, tx.completed)
    ensures AllRetired(CountedAll(tx, ms).db.watches, CountedAll(tx, ms).completed)
  {
    if ms != [] {
      CompletedRetired(tx, ms[..|ms| - 1]);
      CountedRetires(CountedAll(tx, ms[..|ms| - 1]), ms[|ms| - 1]);
    }
  }

  lemma {:induction false} SettledKeepsCompleted(tx: Tx, keys: seq<Key>, canonical: set<Key>)
    ensures SettledAll(tx, keys, canonical).completed == tx.completed
  {
    if keys != [] {
      SettledKeepsCompleted(tx, keys[..|keys| - 1], canonical);
    }
  }

  lemma SettledAged(tx: Tx, keys: seq<Key>, canonical: set<Key>)
    ensures Aged(tx.db.watches, SettledAll(tx, keys, canonical).db.watches)
  {
    SettledFacts(tx, keys, canonical);
  }

  /** Evicting what a transaction completed, once its table `ws` is committed. */
  lemma CountingKeepsCache(chain: ChainSpec, db: Db, ms: seq<MatchedTransfer>, ws: map<Id, Watch>, c: CacheState,
                           whole: bool)
    requires CacheOk(chain, db.watches, c, whole) && Aged(CountedAll(Begin(db), ms).db.watches, ws)
    ensures Aged(db.watches, ws) && CacheOk(chain, ws, Evicted(c, CountedAll(Begin(db), ms).completed), whole)
  {
    var tx := CountedAll(Begin(db), ms);
    CountedAged(Begin(db), ms);
    CompletedRetired(Begin(db), ms);
    AgedTransitive(db.watches, tx.db.watches, ws);
    StaysRetired(tx.db.watches, ws, tx.completed);
    AgingKeepsPrefix(chain, db.watches, ws, c);
    EvictKeepsPrefix(chain, ws, c, tx.completed);
  }

  /** Through its own sweep, rolled back or not, an instance's cache stays good for the new watch table. */
  lemma SweepKeepsCache(chain: ChainSpec, db: Db, c: CacheState, expected: nat, to: nat, logs: seq<Log>, loads: seq<Id>,
                        leftovers: seq<Key>, whole: bool)
    requires ValidScales(chain) && UniqueActive(db.watches) && CacheOk(chain, db.watches, c, whole)
    requires forall id :: id in loads ==> id in db.watches
    requires db.cursor == expected ==> ActiveAbove(db.watches, c.lastSeq, loads)
    ensures var r := Swept(chain, db, c, expected, to, logs, loads, leftovers);
            Aged(db.watches, r.db.watches) && CacheOk(chain, r.db.watches, r.cache, whole)
  {
    AgedReflexive(db.watches);
    if db.cursor == expected {
      LoadKeepsPrefix(chain, db.watches, c, loads);
      var loaded := Loaded(chain, db.watches, c, loads);
      var ms := Sorted(Hits(chain, loaded.entries, logs));
      var counted := CountedAll(Begin(db), ms);
      SettledAged(counted, leftovers, CanonicalKeys(logs));
      SettledKeepsCompleted(counted, leftovers, CanonicalKeys(logs));
      CountingKeepsCache(chain, db, ms, SettledAll(counted, leftovers, CanonicalKeys(logs)).db.watches, loaded, whole);
    }
  }

  lemma BackfillKeepsCache(chain: ChainSpec, db: Db, c: CacheState, batch: seq<PendingBackfill>, logs: seq<Log>,
                           whole: bool)
    requires ValidScales(chain) && CacheOk(chain, db.watches, c, whole)
    ensures var r := Backfilled(chain, db, c, batch, logs);
            Aged(db.watches, r.db.watches) && CacheOk(chain, r.db.watches, r.cache, whole)
  {
    AgedReflexive(db.watches);
    var ms := Sorted(Within(BatchUntil(chain, batch), Hits(chain, BatchScope(chain, batch), logs)));
    var tx := CountedAll(Begin(db), ms);
    DoneAged(tx.db.watches, BatchIds(batch));
    CountingKeepsCache(chain, db, ms, BackfillsDone(tx.db.watches, BatchIds(batch)), c, whole);
  }

  lemma OneCacheChanges(chain: ChainSpec, watches: map<Id, Watch>, caches: map<nat, CacheState>, i: nat, c: CacheState,
                        whole: bool)
    requires CachesOk(chain, watches, caches, whole) && CacheOk(chain, watches, c, whole)
    ensures CachesOk(chain, watches, caches[i := c], whole)
  {
  }

  // ------------------------------------------------------------------ every action keeps the invariant

  lemma CommitKeepsFleet(world: World, f: Fleet, step: Step, whole: bool)
    requires Good(world) && ValidScales(world.chain) && FleetOk(world, f, whole) && ActionOk(world, f, Commit(step))
    requires whole ==> HoleFree(world, f, Commit(step))
    ensures FleetOk(world, Act(world, f, Commit(step)), whole)
  {
    StepKeepsInv(world, f.sys, step);
    if step.Create? {
      CreateKeepsCaches(world, f, step, whole);
    } else {
      CommitAged(world, f.sys, step);
      AgingKeepsCaches(world.chain, f.sys.db.watches, Do(world, f.sys, step).db.watches, f.caches, whole);
    }
  }

  /** A sweep from a prefix-complete cache, by any instance, is one the accounting machine allows. */
  lemma SweepByEnabled(world: World, f: Fleet, a: Action)
    requires Good(world) && ValidScales(world.chain) && a.SweepBy? && ActionOk(world, f, a) && Sees(world, f, a)
    requires CachesOk(world.chain, f.sys.db.watches, f.caches, false)
    ensures var step := Sweep(f.caches[a.i], a.expected, a.to, a.logs, a.loads, a.leftovers);
            Enabled(world, f.sys, step) && Do(world, f.sys, step) == Act(world, f, a).sys
  {
    assert CacheOk(world.chain, f.sys.db.watches, f.caches[a.i], false);
  }

  lemma SweepByKeepsFleet(world: World, f: Fleet, a: Action, whole: bool)
    requires Good(world) && ValidScales(world.chain) && FleetOk(world, f, whole) && a.SweepBy? && ActionOk(world, f, a)
    requires Sees(world, f, a)
    ensures FleetOk(world, Act(world, f, a), whole)
  {
    SweepByEnabled(world, f, a);
    StepKeepsInv(world, f.sys, Sweep(f.caches[a.i], a.expected, a.to, a.logs, a.loads, a.leftovers));
    SweepKeepsCache(world.chain, f.sys.db, f.caches[a.i], a.expected, a.to, a.logs, a.loads, a.leftovers, whole);
    var r := Swept(world.chain, f.sys.db, f.caches[a.i], a.expected, a.to, a.logs, a.loads, a.leftovers);
    AgingKeepsCaches(world.chain, f.sys.db.watches, r.db.watches, f.caches, whole);
    OneCacheChanges(world.chain, r.db.watches, f.caches, a.i, r.cache, whole);
  }

  lemma BackfillByKeepsFleet(world: World, f: Fleet, a: Action, whole: bool)
    requires Good(world) && ValidScales(world.chain) && FleetOk(world, f, whole) && a.BackfillBy?
    requires ActionOk(world, f, a)
    ensures FleetOk(world, Act(world, f, a), whole)
  {
    StepKeepsInv(world, f.sys, Backfill(a.batch, a.logs));
    BackfillKeepsCache(world.chain, f.sys.db, f.caches[a.i], a.batch, a.logs, whole);
    var r := Backfilled(world.chain, f.sys.db, f.caches[a.i], a.batch, a.logs);
    AgingKeepsCaches(world.chain, f.sys.db.watches, r.db.watches, f.caches, whole);
    OneCacheChanges(world.chain, r.db.watches, f.caches, a.i, r.cache, whole);
  }

  /** Boots, notifications and removals never put anything wrong into a cache, and make no hole in one unless an
      addition skips a serial. */
  lemma LocalKeepsFleet(world: World, f: Fleet, a: Action, whole: bool)
    requires Good(world) && ValidScales(world.chain) && ActionOk(world, f, a) && (a.Boot? || a.Add? || a.Remove?)
    requires UniqueActive(f.sys.db.watches) && SerialsPositive(f.sys.db.watches)
    requires CachesOk(world.chain, f.sys.db.watches, f.caches, whole) && (whole ==> HoleFree(world, f, a))
    ensures CachesOk(world.chain, f.sys.db.watches, Act(world, f, a).caches, whole)
  {
    var ws := f.sys.db.watches;
    match a
    case Boot(i, ids) =>
      HydrationComplete(world.chain, ws, ids);
    case Add(i, id) =>
      assert CacheOk(world.chain, ws, f.caches[i], whole);
      if whole {
        AddKeepsPrefixIff(world.chain, ws, f.caches[i], id);
      }
    case Remove(i, key, id) =>
      assert CacheOk(world.chain, ws, f.caches[i], whole);
      RemoveKeepsPrefix(world.chain, ws, f.caches[i], key, id);
  }

  lemma ActionKeepsFleet(world: World, f: Fleet, a: Action, whole: bool)
    requires Good(world) && ValidScales(world.chain) && FleetOk(world, f, whole) && ActionOk(world, f, a)
    requires Sees(world, f, a)
    requires whole ==> HoleFree(world, f, a)
    ensures FleetOk(world, Act(world, f, a), whole)
  {
    match a
    case Commit(step) => CommitKeepsFleet(world, f, step, whole);
    case SweepBy(_, _, _, _, _, _) => SweepByKeepsFleet(world, f, a, whole);
    case BackfillBy(_, _, _) => BackfillByKeepsFleet(world, f, a, whole);
    case _ => LocalKeepsFleet(world, f, a, whole);
  }

  // ------------------------------------------------------------------ refinement

  lemma RunSnoc(world: World, s: Sys, steps: seq<Step>, step: Step)
    requires Good(world) && ValidScales(world.chain) && Run(world, s, steps)
    requires Enabled(world, After(world, s, steps), step)
    ensures Run(world, s, steps + [step]) && After(world, s, steps + [step]) == Do(world, After(world, s, steps), step)
  {
    assert (steps + [step])[..|steps|] == steps;
  }

  /** What an action does to the database is what its transaction does. */
  lemma ActionRefines(world: World, f: Fleet, a: Action)
    requires Good(world) && ValidScales(world.chain) && ActionOk(world, f, a) && Sees(world, f, a)
    requires CachesOk(world.chain, f.sys.db.watches, f.caches, false)
    ensures StepsOf(f, a) == [] ==> Act(world, f, a).sys == f.sys
    ensures StepsOf(f, a) != [] ==>
              && |StepsOf(f, a)| == 1 && Enabled(world, f.sys, StepsOf(f, a)[0])
              && Act(world, f, a).sys == Do(world, f.sys, StepsOf(f, a)[0])
  {
    if a.SweepBy? {
      SweepByEnabled(world, f, a);
    }
  }

  /** Any run of a fleet in which sweeps commit only from prefix-complete caches, whatever notifications are lost, late
      or out of order, keeps every cache faithful, and its transactions, in order, are a run of the accounting machine
      that ends in the same database: whatever holds of all runs of the machine holds of the fleet, whichever
      instances do the sweeping. */
  lemma {:induction false} FleetRefines(world: World, f: Fleet, actions: seq<Action>)
    requires Good(world) && ValidScales(world.chain) && FleetInitial(f) && FleetRun(world, f, actions)
    requires AllSee(world, f, actions)
    ensures FleetOk(world, FleetAfter(world, f, actions), false)
    ensures Run(world, f.sys, Trace(world, f, actions))
    ensures After(world, f.sys, Trace(world, f, actions)) == FleetAfter(world, f, actions).sys
  {
    if actions == [] {
      RunKeepsInv(world, f.sys, []);
    } else {
      var n := |actions| - 1;
      FleetRefines(world, f, actions[..n]);
      var before := FleetAfter(world, f, actions[..n]);
      ActionKeepsFleet(world, before, actions[n], false);
      ActionRefines(world, before, actions[n]);
      var trace := Trace(world, f, actions[..n]);
      var steps := StepsOf(before, actions[n]);
      if steps == [] {
        assert trace + steps == trace;
      } else {
        assert steps == [steps[0]];
        RunSnoc(world, f.sys, trace, steps[0]);
      }
    }
  }

  lemma WholeSees(world: World, f: Fleet, a: Action)
    requires Good(world) && ValidScales(world.chain) && ActionOk(world, f, a) && FleetOk(world, f, true)
    ensures Sees(world, f, a)
  {
    if a.SweepBy? {
      assert CacheOk(world.chain, f.sys.db.watches, f.caches[a.i], true);
    }
  }

  /** And that is so in any run in which no addition skips a serial and registrations commit above what every cache has
      seen: then every cache is prefix-complete all the time. */
  lemma {:induction false} HoleFreeSees(world: World, f: Fleet, actions: seq<Action>)
    requires Good(world) && ValidScales(world.chain) && FleetInitial(f) && FleetRun(world, f, actions)
    requires AllHoleFree(world, f, actions)
    ensures AllSee(world, f, actions) && FleetOk(world, FleetAfter(world, f, actions), true)
  {
    if actions == [] {
      RunKeepsInv(world, f.sys, []);
    } else {
      var n := |actions| - 1;
      HoleFreeSees(world, f, actions[..n]);
      var before := FleetAfter(world, f, actions[..n]);
      WholeSees(world, before, actions[n]);
      ActionKeepsFleet(world, before, actions[n], true);
    }
  }

  // ------------------------------------------------------------------ what notifications do

  /** An instance that is told of a watch finds it under its token and recipient, and every other one where it was. */
  lemma AddTells(world: World, f: Fleet, i: nat, id: Id)
    requires Good(world) && ValidScales(world.chain) && ActionOk(world, f, Add(i, id))
    ensures var w := f.sys.db.watches[id]; var f' := Act(world, f, Add(i, id));
            && i in f'.caches && Holds(world.chain, f.sys.db.watches, f'.caches[i].entries, id)
            && f'.caches[i].lastSeq >= w.serial && f' == f.(caches := f.caches[i := f'.caches[i]])
            && forall v :: v in f.sys.db.watches && !SameTarget(f.sys.db.watches[v], w)
                           && Holds(world.chain, f.sys.db.watches, f.caches[i].entries, v) ==>
                 Holds(world.chain, f.sys.db.watches, f'.caches[i].entries, v)
  {
    var watches := f.sys.db.watches;
    forall v | v in watches && !SameTarget(watches[v], watches[id]) && CacheKey(world.chain, watches[v]).Some?
      ensures CacheKey(world.chain, watches[v]) != CacheKey(world.chain, watches[id])
    {
      if CacheKey(world.chain, watches[v]) == CacheKey(world.chain, watches[id]) {
        SameKeySameTarget(world.chain, watches[v], watches[id]);
        assert false;
      }
    }
  }

  /** An instance that is told that a watch was retired has no entry of it left, and keeps all others. */
  lemma RemoveForgets(world: World, f: Fleet, i: nat, id: Id)
    requires Good(world) && ValidScales(world.chain) && id in f.sys.db.watches
    requires CacheKey(world.chain, f.sys.db.watches[id]).Some?
    requires ActionOk(world, f, Remove(i, CacheKey(world.chain, f.sys.db.watches[id]).value, id))
    requires Faithful(world.chain, f.sys.db.watches, f.caches[i].entries)
    ensures var f' := Act(world, f, Remove(i, CacheKey(world.chain, f.sys.db.watches[id]).value, id));
            && i in f'.caches && f' == f.(caches := f.caches[i := f'.caches[i]])
            && forall key, ref :: key in f'.caches[i].entries && f'.caches[i].entries[key] == ref
                 <==> key in f.caches[i].entries && f.caches[i].entries[key] == ref && ref.id != id
  {
  }
}
