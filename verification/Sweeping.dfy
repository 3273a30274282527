/** The sweeper's loops (src/ingest/sweeper.rs:135-308): how a range is cut into `eth_getLogs` calls while the
    provider rejects some of them, and what that does to the ledger. */
module Sweeping {
  import opened Base
  import opened Registry
  import opened Cache
  import opened Matcher
  import opened Ledger
  import opened Skips
  import opened Store
  import opened Chain
  import opened Machine
  import opened Books
  import opened BooksSweep
  import opened BooksBackfill
  import opened BooksOther
  import opened Chunks
  import opened Rollback
  import opened BackfillQueue
  import Fleet

  /** What a provider says to a call. `TooLarge` carries the limit its message states, if any. */
  datatype Answer = Logs(logs: seq<Log>) | TooLarge(hint: Option<nat>) | AheadOfHead | Refused

  /** The provider: its answer to the call `[from, to]`, the n-th one it gets. */
  type Provider = (nat, nat, nat) -> Answer

  datatype Ending = CaughtUp | BeyondHead | Errored

  /** Whatever logs it returns are the complete answer for their blocks. */
  ghost predicate Honest(world: World, ask: Provider)
    requires Good(world)
  {
    forall f: nat, t: nat, n: nat :: 0 < f <= t && ask(f, t, n).Logs? ==>
          Answers(ask(f, t, n).logs, Slice(world.canon, f - 1, t))
  }

  /** It only ever rejects calls for being too large, and never a single block. */
  ghost predicate Patient(ask: Provider) {
    && (forall f, t, n :: f <= t ==> ask(f, t, n).Logs? || ask(f, t, n).TooLarge?)
    && (forall f, n :: ask(f, f, n).Logs?)
  }

  ghost predicate NoHints(ask: Provider) {
    forall f, t, n :: ask(f, t, n).TooLarge? ==> ask(f, t, n).hint.None?
  }

  // ------------------------------------------------------------------ one chunk

  /** What a sweep by a single instance knows between chunks. */
  ghost predicate Ready(world: World, s: Sys, cache: CacheState)
    requires Good(world) && ValidScales(world.chain)
  {
    Inv(world, s) && Fleet.CacheOk(world.chain, s.db.watches, cache, true)
  }

  /** One chunk, applied or rolled back. */
  lemma OneChunk(world: World, s: Sys, cache: CacheState, to: nat, logs: seq<Log>, loads: seq<Id>, leftovers: seq<Key>)
    requires Good(world) && ValidScales(world.chain) && Ready(world, s, cache) && s.db.cursor < to
    requires Answers(logs, Slice(world.canon, s.db.cursor, to))
    requires ActiveAbove(s.db.watches, cache.lastSeq, loads)
    requires var r := Swept(world.chain, s.db, cache, s.db.cursor, to, logs, loads, leftovers);
             r.result.Applied? ==>
               Leftovers(CountedChunk(world.chain, s.db, Loaded(world.chain, s.db.watches, cache, loads),
                                      logs).db.transfers, to, leftovers)
    ensures var r := Swept(world.chain, s.db, cache, s.db.cursor, to, logs, loads, leftovers);
            && !r.result.CursorMoved?
            && Ready(world, s.(db := r.db), r.cache)
            && (r.result.Applied? ==>
                  && !SweepJoin(world, s.db, s.db.cursor, to).failed
                  && Leftovers(SweepJoin(world, s.db, s.db.cursor, to).db.transfers, to, leftovers)
                  && s.(db := r.db) == SweptSys(world, s, to, leftovers))
            && (r.result.Corrupt? ==> r.db == s.db && SweepJoin(world, s.db, s.db.cursor, to).failed)
  {
    var step := Sweep(cache, s.db.cursor, to, logs, loads, leftovers);
    assert Enabled(world, s, step);
    SweepIsJoin(world, s.db, step);
    StepKeepsInv(world, s, step);
    Fleet.SweepKeepsCache(world.chain, s.db, cache, s.db.cursor, to, logs, loads, leftovers, true);
  }

  /** The chunks committed so far. */
  ghost predicate ChunksDone(world: World, s: Sys, now: Sys, cuts: seq<nat>, los: seq<seq<Key>>)
    requires Good(world) && ValidScales(world.chain)
  {
    && Cuts(s.db.cursor, cuts) && |los| == |cuts|
    && LeftoversOk(world, s, cuts, los) && AllCommit(world, s, cuts, los)
    && now == Chunked(world, s, cuts, los)
  }

  lemma OneMore(world: World, s: Sys, now: Sys, cuts: seq<nat>, los: seq<seq<Key>>, to: nat, lo: seq<Key>)
    requires Good(world) && ValidScales(world.chain) && ChunksDone(world, s, now, cuts, los) && now.db.cursor < to
    requires !SweepJoin(world, now.db, now.db.cursor, to).failed
    requires Leftovers(SweepJoin(world, now.db, now.db.cursor, to).db.transfers, to, lo)
    ensures ChunksDone(world, s, SweptSys(world, now, to, lo), cuts + [to], los + [lo])
  {
    assert (cuts + [to])[..|cuts|] == cuts && (los + [lo])[..|los|] == los;
    CutsSnoc(s.db.cursor, now.db.cursor, cuts, to);
  }

  lemma CutsSnoc(c: nat, last: nat, cuts: seq<nat>, to: nat)
    requires Cuts(c, cuts) && last < to && (if cuts == [] then last == c else last == cuts[|cuts| - 1])
    ensures Cuts(c, cuts + [to])
  {
  }

  /** Proofs about the heap are kept small by not looking inside the predicates below that are guarded by `Unfold`:
      the prover does so only where a lemma mentions it. */
  predicate Unfold(i: nat) {
    true
  }

  /** Between chunks: the books are in order, the cache is good, and the database is what the chunks so far made
      of `s`. */
  ghost predicate Standing(world: World, s: Sys, now: Sys, cache: CacheState, cuts: seq<nat>, los: seq<seq<Key>>) {
    forall i :: Unfold(i) ==>
      && Good(world) && ValidScales(world.chain)
      && Inv(world, s) && Ready(world, now, cache) && ChunksDone(world, s, now, cuts, los)
  }

  /** A fast-forward towards `target`. */
  ghost predicate Skipped(before: Db, after: Db, target: nat) {
    forall i :: Unfold(i) ==> exists min ::
      IsMinStart(before.watches, min) && after == FastForwarded(before, target, min)
  }

  lemma SkipReady(world: World, s: Sys, cache: CacheState, target: nat, min: Option<nat>)
    requires Good(world) && ValidScales(world.chain) && Ready(world, s, cache) && IsMinStart(s.db.watches, min)
    ensures Ready(world, s.(db := FastForwarded(s.db, target, min)), cache)
  {
    StepKeepsInv(world, s, FastForward(target, min));
  }

  lemma NoChunks(world: World, s: Sys, cache: CacheState)
    requires Good(world) && ValidScales(world.chain) && Ready(world, s, cache)
    ensures Standing(world, s, s, cache, [], [])
  {
  }

  lemma SkipStands(world: World, s: Sys, cache: CacheState, target: nat, min: Option<nat>, los: seq<seq<Key>>)
    requires Standing(world, s, s, cache, [], los) && IsMinStart(s.db.watches, min)
    ensures var s' := s.(db := FastForwarded(s.db, target, min));
            Standing(world, s', s', cache, [], []) && Skipped(s.db, s'.db, target)
  {
    var s' := s.(db := FastForwarded(s.db, target, min));
    assert Standing(world, s', s', cache, [], []) by {
      assert Unfold(0);
      SkipReady(world, s, cache, target, min);
      NoChunks(world, s', cache);
    }
  }

  lemma StandingScales(world: World, s: Sys, now: Sys, cache: CacheState, cuts: seq<nat>, los: seq<seq<Key>>)
    requires Standing(world, s, now, cache, cuts, los)
    ensures ValidScales(world.chain)
  {
    assert Unfold(0);
  }

  /** `apply_sweep` takes `db` and `cache` to `db'` and `cache'` with result `r`. */
  ghost predicate SweepOutcome(chain: ChainSpec, db: Db, cache: CacheState, to: nat, logs: seq<Log>, loads: seq<Id>,
                               leftovers: seq<Key>, db': Db, cache': CacheState, r: SweepResult) {
    forall i :: Unfold(i) ==>
      && ValidScales(chain) && ActiveAbove(db.watches, cache.lastSeq, loads)
      && Outcome(db', cache', r) == Swept(chain, db, cache, db.cursor, to, logs, loads, leftovers)
      && (r.Applied? ==>
            Leftovers(CountedChunk(chain, db, Loaded(chain, db.watches, cache, loads), logs).db.transfers, to,
                      leftovers))
  }

  /** A chunk that the provider answered, applied or rolled back. */
  lemma ApplyStands(world: World, s: Sys, now: Sys, cache: CacheState, to: nat, logs: seq<Log>, loads: seq<Id>,
                    leftovers: seq<Key>, cuts: seq<nat>, los: seq<seq<Key>>, ask: Provider, n: nat, db': Db,
                    cache': CacheState, r: SweepResult)
    requires Standing(world, s, now, cache, cuts, los)
    requires Trusted(world, ask) && now.db.cursor < to && ask(now.db.cursor + 1, to, n) == Logs(logs)
    requires SweepOutcome(world.chain, now.db, cache, to, logs, loads, leftovers, db', cache', r)
    ensures var now' := now.(db := db');
            if r.Applied? then db'.cursor == to && Standing(world, s, now', cache', cuts + [to], los + [leftovers])
            else db' == now.db && Standing(world, s, now', cache', cuts, los) && Stuck(world, now', to)
  {
    assert Unfold(0);
    OneChunk(world, now, cache, to, logs, loads, leftovers);
    if r.Applied? {
      OneMore(world, s, now, cuts, los, to, leftovers);
    }
  }

  /** Counting the canonical logs up to `to` drives some total beyond what can be read back. */
  ghost predicate Stuck(world: World, s: Sys, to: nat) {
    forall i :: Unfold(i) ==>
      Good(world) && ValidScales(world.chain) && s.db.cursor <= to && SweepJoin(world, s.db, s.db.cursor, to).failed
  }

  ghost predicate Trusted(world: World, ask: Provider) {
    forall i :: Unfold(i) ==> Good(world) && Honest(world, ask)
  }

  /** The database, one instance's cache, and a record of the chunks that instance commits. */
  class LeaderBooks {
    const chain: ChainSpec
    const store: ChainStore
    const cache: WatchCache
    ghost const world: World
    ghost const late: map<Id, nat>
    ghost const filled: map<Id, Fill>
    /** State before the first chunk, where each chunk ended, and what each found left over. */
    ghost var first: Sys
    ghost var cuts: seq<nat>
    ghost var los: seq<seq<Key>>

    constructor (ghost world: World, chain: ChainSpec, store: ChainStore, cache: WatchCache, ghost late: map<Id, nat>,
                 ghost filled: map<Id, Fill>)
      requires Good(world) && ValidScales(world.chain) && chain == world.chain
      requires Ready(world, Sys(store.Content(), late, filled), cache.State())
      ensures Valid() && cuts == [] && first == Now() && this.store == store && this.cache == cache
      ensures this.world == world
    {
      this.chain, this.store, this.cache := chain, store, cache;
      this.world, this.late, this.filled := world, late, filled;
      first, cuts, los := Sys(store.Content(), late, filled), [], [];
    }

    ghost function Now(): Sys
      reads store
    {
      Sys(store.Content(), late, filled)
    }

    ghost predicate Valid()
      reads this, store, cache
    {
      chain == world.chain && Standing(world, first, Now(), cache.State(), cuts, los)
    }

    ghost predicate Trusts(ask: Provider) {
      Trusted(world, ask)
    }

    /** `fast_forward_cursor`, before any chunk. */
    method SkipTo(target: nat) returns (c: nat)
      requires Valid() && cuts == [] && first == Now()
      modifies this, store
      ensures Valid() && cuts == [] && first == Now() && c == store.cursor
      ensures Skipped(old(store.Content()), store.Content(), target)
      ensures SkipDone(old(store.Content()), store.Content(), target)
    {
      ghost var min;
      c, min := store.FastForward(target);
      SkipStands(world, old(Now()), cache.State(), target, min, los);
      first, los := Now(), [];
    }

    method Commit(to: nat, logs: seq<Log>) returns (r: SweepResult, ghost loads: seq<Id>, ghost leftovers: seq<Key>)
      requires ValidScales(chain)
      modifies store, cache
      ensures SweepOutcome(chain, old(store.Content()), old(cache.State()), to, logs, loads, leftovers,
                           store.Content(), cache.State(), r)
    {
      r, loads, leftovers := store.ApplySweep(chain, cache, store.cursor, to, logs);
    }

    /** Applies one answered chunk. */
    method Apply(to: nat, logs: seq<Log>, ghost ask: Provider, ghost n: nat) returns (ok: bool)
      requires Valid() && Trusts(ask) && store.cursor < to && ask(store.cursor + 1, to, n) == Logs(logs)
      modifies this, store, cache
      ensures Valid() && first == old(first)
      ensures ok ==> cuts == old(cuts) + [to] && store.cursor == to
      ensures !ok ==> cuts == old(cuts) && store.Content() == old(store.Content()) && Stuck(world, Now(), to)
    {
      StandingScales(world, first, Now(), cache.State(), cuts, los);
      ghost var before, cache0 := Now(), cache.State();
      var r, loads, leftovers := Commit(to, logs);
      ApplyStands(world, first, before, cache0, to, logs, loads, leftovers, cuts, los, ask, n,
                  store.Content(), cache.State(), r);
      assert Now() == before.(db := store.Content());
      ok := r.Applied?;
      if ok {
        cuts, los := cuts + [to], los + [leftovers];
      }
    }
  }

  class Sweeper {
    const maxRange: nat
    var range: nat
    var ceiling: nat
    /** `eth_getLogs` calls made. */
    var calls: nat
    /** The ceilings since the last hourly reset, newest last. */
    ghost var ceilings: seq<nat>

    ghost predicate Valid()
      reads this
    {
      && 1 <= range <= ceiling <= maxRange
      && ceilings != [] && ceilings[0] == maxRange && ceilings[|ceilings| - 1] == ceiling
      && Falling(ceilings)
    }

    constructor (maxRange: nat)
      requires maxRange > 0
      ensures Valid() && this.maxRange == maxRange && range == ceiling == maxRange && calls == 0
    {
      this.maxRange := maxRange;
      range, ceiling := maxRange, maxRange;
      calls := 0;
      ceilings := [maxRange];
    }

    /** Every rejection makes the span strictly smaller, never zero, and caps what is tried from then on. */
    method ShrinkRange(from: nat, to: nat, hint: Option<nat>)
      requires Valid() && from <= to < from + range && range > 1
      modifies this`range, this`ceiling, this`ceilings
      ensures Valid() && range == ceiling < old(range) && ceilings == old(ceilings) + [ceiling]
      ensures hint.None? && old(Halving(ceilings)) ==> Halving(ceilings)
      ensures range == if hint.Some? && hint.value <= to - from then Max(hint.value, 1) else Max((to - from + 1) / 2, 1)
    {
      var span := to - from + 1;
      range := if hint.Some? && hint.value < span then Max(hint.value, 1) else Max(span / 2, 1);
      ceiling := range;
      ceilings := ceilings + [ceiling];
    }

    method Grow(hourPassed: bool)
      requires Valid()
      modifies this`range, this`ceiling, this`ceilings
      ensures Valid() && old(range) <= range == Min(2 * old(range), ceiling)
      ensures ceiling == if old(ceiling) < maxRange && hourPassed then maxRange else old(ceiling)
      ensures ceilings == if old(ceiling) < maxRange && hourPassed then [maxRange] else old(ceilings)
      ensures old(Halving(ceilings)) ==> Halving(ceilings)
    {
      if ceiling < maxRange && hourPassed {
        ceiling := maxRange;
        ceilings := [maxRange];
      }
      if range < ceiling {
        range := Min(range * 2, ceiling);
      }
    }

    /** Calls for as much of `[from, to]` as the current span allows. A rejection shrinks the span, or is an error
        if the span is a single block. */
    method Fetch(from: nat, to: nat, ask: Provider) returns (answer: Answer, end: nat, ghost n: nat)
      requires Valid() && from <= to
      modifies this
      ensures Valid() && from <= end == Min(from + old(range) - 1, to) && calls == old(calls) + 1 && n == old(calls)
      ensures answer.Logs? ==> answer == ask(from, end, n) && range == old(range)
      ensures answer.TooLarge? ==> range < old(range)
      ensures Patient(ask) ==> answer.Logs? || answer.TooLarge?
      ensures range <= old(range)
      ensures NoHints(ask) && old(Halving(ceilings)) ==> Halving(ceilings)
    {
      end := Min(from + range - 1, to);
      n := calls;
      answer := ask(from, end, calls);
      calls := calls + 1;
      if answer.TooLarge? {
        if range == 1 {
          return Refused, end, n;
        }
        ShrinkRange(from, end, answer.hint);
      }
    }

    /** One turn of the loop. Without an ending, either the cursor has advanced or the span is smaller. A provider
        that only objects to size ends it only with a chunk, up to `at`, that cannot be committed. */
    method Turn(books: LeaderBooks, target: nat, ask: Provider, hourPassed: nat -> bool)
        returns (stop: Option<Ending>, ghost at: nat)
      requires Valid() && books.Valid() && books.Trusts(ask) && books.store.cursor < target
      modifies this, books, books.store, books.cache
      ensures Valid() && books.Valid() && books.first == old(books.first)
      ensures old(books.store.cursor) <= books.store.cursor <= target
      ensures stop == None ==> books.store.cursor > old(books.store.cursor) || range < old(range)
      ensures stop != None ==> books.store.cursor == old(books.store.cursor) && stop.value != CaughtUp
      ensures Patient(ask) && stop != None ==>
                stop.value == Errored && books.store.cursor < at <= target && Stuck(books.world, books.Now(), at)
      ensures NoHints(ask) && old(Halving(ceilings)) ==> Halving(ceilings)
    {
      stop := None;
      var answer, to, n := Fetch(books.store.cursor + 1, target, ask);
      at := to;
      match answer
      case TooLarge(_) =>
      case AheadOfHead =>
        stop := Some(BeyondHead);
      case Refused =>
        stop := Some(Errored);
      case Logs(logs) =>
        var ok := books.Apply(to, logs, ask, n);
        if ok {
          Grow(hourPassed(calls));
        } else {
          stop := Some(Errored);
        }
    }

    /** Sweeps up to `target` in chunks that the provider accepts. Whatever it rejects, the database ends as the
        recorded chunks leave it. A provider that only objects to size never makes it give up: then it catches up, or
        the chunk from the cursor up to `at` cannot be committed by anyone. */
    method Sweep(books: LeaderBooks, target: nat, ask: Provider, hourPassed: nat -> bool)
        returns (end: Ending, ghost at: nat)
      requires Valid() && books.Valid() && books.Trusts(ask) && books.cuts == [] && books.first == books.Now()
      modifies this, books, books.store, books.cache
      ensures Valid() && books.Valid() && Skipped(old(books.store.Content()), books.first.db, target)
      ensures books.store.cursor <= Max(books.first.db.cursor, target)
      ensures end == CaughtUp <==> books.store.cursor >= target
      ensures old(Idle(books.store.Content())) ==>
                calls == old(calls) && books.store.cursor == Max(old(books.store.cursor), target)
      ensures Patient(ask) && end != CaughtUp ==>
                end == Errored && books.store.cursor < at <= target && Stuck(books.world, books.Now(), at)
      ensures NoHints(ask) && old(Halving(ceilings)) ==> Halving(ceilings)
    {
      var cursor := books.SkipTo(target);
      ghost var idle := old(Idle(books.store.Content()));
      if idle {
        IdleSkips(old(books.store.Content()), books.store.Content(), target);
      }
      at := 0;
      while cursor < target
        invariant Valid() && books.Valid() && Skipped(old(books.store.Content()), books.first.db, target)
        invariant cursor == books.store.cursor <= Max(books.first.db.cursor, target)
        invariant idle ==> calls == old(calls) && cursor == Max(old(books.store.cursor), target)
        invariant NoHints(ask) && old(Halving(ceilings)) ==> Halving(ceilings)
        decreases target - cursor, range
      {
        var stop;
        stop, at := Turn(books, target, ask, hourPassed);
        if stop != None {
          return stop.value, at;
        }
        cursor := books.store.cursor;
      }
      end := CaughtUp;
    }

    /** Collects what a batch asks for over `[from, to]`, call by call. */
    method Gather(ghost world: World, ghost batch: seq<PendingBackfill>, from: nat, to: nat, ask: Provider)
      returns (r: Option<seq<Log>>)
      requires Valid() && TrustedFor(world, batch, ask) && Covers(batch, from, to)
      modifies this
      ensures Valid() && range <= old(range)
      ensures r.Some? ==> Complete(world, batch, r.value)
      ensures Patient(ask) ==> r.Some?
      ensures NoHints(ask) && old(Halving(ceilings)) ==> Halving(ceilings)
    {
      var logs := [];
      var at := from;
      ghost var c: nat, done: nat := from - 1, from - 1;
      NoSpan(world, batch, c, ask);
      while at <= to
        invariant Valid() && range <= old(range) && c <= done && at == done + 1 && (done <= to || done == c)
        invariant Gathered(world, batch, logs, c, done)
        invariant NoHints(ask) && old(Halving(ceilings)) ==> Halving(ceilings)
        decreases 1 + to - at, range
      {
        var answer, end, n := Fetch(at, to, ask);
        match answer
        case Logs(found) =>
          SpansAdd(world, batch, logs, found, c, done, end, ask, n);
          logs, at, done := logs + found, end + 1, end;
        case TooLarge(_) =>
        case AheadOfHead => return None;
        case Refused => return None;
      }
      WholeSpan(world, batch, logs, c, done, to);
      r := Some(logs);
    }

    /** One batch: gathered, applied, and off the backlog, or an error that changes nothing. */
    method RunBatch(ghost world: World, ghost s: Sys, ghost steps: seq<Step>, ghost now: Sys, chain: ChainSpec,
                    store: ChainStore, cache: WatchCache, batch: seq<PendingBackfill>, ask: Provider)
      returns (ok: bool, ghost steps': seq<Step>, ghost now': Sys)
      requires Valid() && chain == world.chain && RunsTo(world, s, steps, now) && now.db == store.Content()
      requires OldestPending(store.watches, BACKFILL_BATCH, batch) && batch != [] && TrustedFor(world, batch, ask)
      modifies this, store, cache
      ensures Valid() && RunsTo(world, s, steps', now') && now'.db == store.Content()
      ensures ok ==> TakenOff(old(store.watches), batch, store.watches)
      ensures !ok ==> now' == now && (Patient(ask) ==> Jammed(world, now))
    {
      PendingStarts(world, s, steps, now, batch);
      var from, to := Span(batch);
      var found := Gather(world, batch, from, to, ask);
      if found.None? {
        return false, steps, now;
      }
      ghost var cache0 := cache.State();
      var r := store.ApplyBackfill(chain, cache, batch, found.value);
      FillRuns(world, s, steps, now, batch, found.value, cache0);
      ok, steps', now' := r.Applied?, steps, now;
      if ok {
        steps', now' := steps + [Machine.Backfill(batch, found.value)], Filled(now, batch, store.Content());
      }
    }

    /** Runs the backlog down, batch by batch: a run of the accounting machine that ends with nothing outstanding, or
        with an error. Providers that only object to size leave one error: a batch that nobody can commit. */
    method Backfill(ghost world: World, ghost s: Sys, chain: ChainSpec, store: ChainStore, cache: WatchCache,
                    asks: seq<PendingBackfill> -> Provider)
      returns (ok: bool, ghost steps: seq<Step>, ghost now: Sys)
      requires Valid() && chain == world.chain && RunsTo(world, s, [], s) && s.db == store.Content()
      requires forall batch :: TrustedFor(world, batch, asks(batch))
      modifies this, store, cache
      ensures Valid() && RunsTo(world, s, steps, now) && now.db == store.Content()
      ensures ok ==> Backlog(store.watches) == {}
      ensures !ok && (forall batch :: Patient(asks(batch))) ==> Jammed(world, now)
    {
      steps, now := [], s;
      while true
        invariant Valid() && RunsTo(world, s, steps, now) && now.db == store.Content()
        decreases |Backlog(store.watches)|
      {
        var batch := store.PendingBackfills(BACKFILL_BATCH);
        if batch == [] {
          return true, steps, now;
        }
        var done;
        done, steps, now := RunBatch(world, s, steps, now, chain, store, cache, batch, asks(batch));
        if !done {
          return false, steps, now;
        }
        if |batch| < BACKFILL_BATCH {
          return true, steps, now;
        }
      }
    }
  }

  /** First and last block a batch asks for. */
  method Span(batch: seq<PendingBackfill>) returns (from: nat, to: nat)
    requires batch != [] && forall i :: 0 <= i < |batch| ==> batch[i].start > 0
    ensures Covers(batch, from, to)
    ensures exists i :: 0 <= i < |batch| && batch[i].start == from
    ensures exists i :: 0 <= i < |batch| && batch[i].backfillTo == to
  {
    from, to := batch[0].start, batch[0].backfillTo;
    for k := 1 to |batch|
      invariant Covers(batch[..k], from, to)
      invariant exists i :: 0 <= i < k && batch[i].start == from
      invariant exists i :: 0 <= i < k && batch[i].backfillTo == to
    {
      from, to := Min(from, batch[k].start), Max(to, batch[k].backfillTo);
    }
    assert batch[..|batch|] == batch;
  }

  // ------------------------------------------------------------------ running the backlog down

  const BACKFILL_BATCH: nat := 50

  /** `steps` are a run from `s` to `now`, a state in which the books are in order. */
  ghost predicate RunsTo(world: World, s: Sys, steps: seq<Step>, now: Sys) {
    forall i :: Unfold(i) ==>
      && Good(world) && ValidScales(world.chain) && Run(world, s, steps)
      && now == After(world, s, steps) && Inv(world, now)
  }

  /** The oldest backfills cannot be committed. */
  ghost predicate Jammed(world: World, s: Sys) {
    forall i :: Unfold(i) ==>
      && Good(world) && ValidScales(world.chain)
      && exists batch :: OldestPending(s.db.watches, BACKFILL_BATCH, batch) && BackfillOverflows(world, s, batch)
  }

  /** The batch is off the backlog, and with it all of it if the batch was not full. */
  ghost predicate TakenOff(before: map<Id, Watch>, batch: seq<PendingBackfill>, after: map<Id, Watch>) {
    && Backlog(after) == Backlog(before) - BatchIds(batch)
    && |Backlog(after)| < |Backlog(before)|
    && (|batch| < BACKFILL_BATCH ==> Backlog(after) == {})
  }

  /** The state once a batch has committed and left `db`. */
  ghost function Filled(s: Sys, batch: seq<PendingBackfill>, db: Db): Sys {
    s.(db := db, filled := FilledAfter(s, batch))
  }

  lemma PendingStarts(world: World, s: Sys, steps: seq<Step>, now: Sys, batch: seq<PendingBackfill>)
    requires RunsTo(world, s, steps, now) && OldestPending(now.db.watches, BACKFILL_BATCH, batch)
    ensures forall i :: 0 <= i < |batch| ==> batch[i].start > 0
    ensures ValidScales(world.chain)
  {
    assert Unfold(0);
    PendingBatchOk(now, BACKFILL_BATCH, batch);
  }

  /** A gathered batch is one more step of the run, which takes it off the backlog, or changes nothing. */
  lemma FillRuns(world: World, s: Sys, steps: seq<Step>, now: Sys, batch: seq<PendingBackfill>, logs: seq<Log>,
                 cache: CacheState)
    requires RunsTo(world, s, steps, now) && OldestPending(now.db.watches, BACKFILL_BATCH, batch) && batch != []
    requires Complete(world, batch, logs) && ValidScales(world.chain)
    ensures var r := Backfilled(world.chain, now.db, cache, batch, logs);
            if r.result.Applied? then
              && RunsTo(world, s, steps + [Machine.Backfill(batch, logs)], Filled(now, batch, r.db))
              && TakenOff(now.db.watches, batch, r.db.watches)
            else r.db == now.db && Jammed(world, now)
  {
    assert Unfold(0);
    var step := Machine.Backfill(batch, logs);
    PendingBatchOk(now, BACKFILL_BATCH, batch);
    GatheredEnabled(world, now, batch, logs);
    BackfillIsJoin(world, now, batch, logs);
    BackfillCommitsIff(world, now, step);
    BackfillRolledBackIff(world, now, batch);
    if !BackfillOverflows(world, now, batch) {
      StepKeepsInv(world, now, step);
      Fleet.RunSnoc(world, s, steps, step);
      BacklogShrinks(world, now, batch);
      BatchTakenOff(now.db.watches, batch, BackfilledSys(world, now, batch).db.watches);
    }
  }

  lemma BatchTakenOff(before: map<Id, Watch>, batch: seq<PendingBackfill>, after: map<Id, Watch>)
    requires OldestPending(before, BACKFILL_BATCH, batch) && batch != []
    requires Backlog(after) == Backlog(before) - BatchIds(batch)
    ensures TakenOff(before, batch, after)
  {
    assert batch[0] in batch && batch[0].id in BatchIds(batch);
    SubsetSize(Backlog(after), Backlog(before) - {batch[0].id});
    if |batch| < BACKFILL_BATCH {
      assert forall id :: id in Backlog(before) ==> id in BatchIds(batch);
    }
  }

  // ------------------------------------------------------------------ collecting a backfill

  /** `from` is the first block the batch asks for, `to` the last. */
  ghost predicate Covers(batch: seq<PendingBackfill>, from: nat, to: nat) {
    0 < from && forall i :: 0 <= i < |batch| ==> from <= batch[i].start && batch[i].backfillTo <= to
  }

  /** Whatever logs the provider returns to the batch's filter are complete for their blocks. */
  ghost predicate HonestFor(world: World, batch: seq<PendingBackfill>, ask: Provider)
    requires Good(world)
  {
    forall f: nat, t: nat, n: nat :: 0 < f <= t && ask(f, t, n).Logs? ==>
          AnswersSpan(world, batch, ask(f, t, n).logs, f - 1, t)
  }

  ghost predicate AnswersSpan(world: World, batch: seq<PendingBackfill>, logs: seq<Log>, c: nat, t: nat)
    requires Good(world) && c <= t
  {
    SliceGood(world, c, t);
    Answers(logs, Asked(world.chain, batch, Slice(world.canon, c, t)))
  }

  lemma {:induction false} KeptConcat(a: seq<Log>, b: seq<Log>)
    ensures Kept(a + b) == Kept(a) + Kept(b)
  {
    if b == [] {
      assert a + b == a;
    } else {
      assert (a + b)[..|a + b| - 1] == a + b[..|b| - 1];
      KeptConcat(a, b[..|b| - 1]);
    }
  }

  lemma {:induction false} AskedConcat(chain: ChainSpec, batch: seq<PendingBackfill>, a: seq<Log>, b: seq<Log>)
    requires Ordered(a) && Ordered(b) && Ordered(a + b)
    ensures Asked(chain, batch, a + b) == Asked(chain, batch, a) + Asked(chain, batch, b)
  {
    if b == [] {
      assert a + b == a;
    } else {
      assert (a + b)[..|a + b| - 1] == a + b[..|b| - 1];
      AskedConcat(chain, batch, a, b[..|b| - 1]);
    }
  }

  lemma {:induction false} AskedNothing(chain: ChainSpec, batch: seq<PendingBackfill>, logs: seq<Log>)
    requires Ordered(logs) && forall i :: 0 <= i < |logs| ==> !Wanted(chain, batch, logs[i])
    ensures Asked(chain, batch, logs) == []
  {
    if logs != [] {
      AskedNothing(chain, batch, logs[..|logs| - 1]);
    }
  }

  ghost predicate TrustedFor(world: World, batch: seq<PendingBackfill>, ask: Provider) {
    forall i :: Unfold(i) ==> Good(world) && HonestFor(world, batch, ask)
  }

  /** `logs` answer the batch for blocks (c, t]. */
  ghost predicate Gathered(world: World, batch: seq<PendingBackfill>, logs: seq<Log>, c: nat, t: nat) {
    forall i :: Unfold(i) ==> Good(world) && c <= t && AnswersSpan(world, batch, logs, c, t)
  }

  /** `logs` answer the batch for the whole chain: what a backfill step needs. */
  ghost predicate Complete(world: World, batch: seq<PendingBackfill>, logs: seq<Log>) {
    forall i :: Unfold(i) ==> Good(world) && Answers(logs, Asked(world.chain, batch, world.canon))
  }

  lemma NoSpan(world: World, batch: seq<PendingBackfill>, c: nat, ask: Provider)
    requires TrustedFor(world, batch, ask)
    ensures Gathered(world, batch, [], c, c)
  {
    assert Unfold(0);
  }

  lemma SpansAdd(world: World, batch: seq<PendingBackfill>, a: seq<Log>, b: seq<Log>, c: nat, m: nat, t: nat,
                 ask: Provider, n: nat)
    requires c <= m < t && Gathered(world, batch, a, c, m) && TrustedFor(world, batch, ask)
    requires ask(m + 1, t, n) == Logs(b)
    ensures Gathered(world, batch, a + b, c, t)
  {
    assert Unfold(0);
    SliceGood(world, c, m);
    SliceGood(world, m, t);
    SliceGood(world, c, t);
    SliceConcat(world, c, m, t);
    AskedConcat(world.chain, batch, Slice(world.canon, c, m), Slice(world.canon, m, t));
    KeptConcat(a, b);
  }

  lemma OutsideUnwanted(world: World, batch: seq<PendingBackfill>, from: nat, to: nat, i: nat)
    requires Good(world) && Covers(batch, from, to) && i < |world.canon|
    requires world.canon[i].block.value < from || world.canon[i].block.value > to
    ensures !Wanted(world.chain, batch, world.canon[i])
  {
  }

  lemma AskedBefore(world: World, batch: seq<PendingBackfill>, c: nat, to: nat)
    requires Good(world) && Covers(batch, c + 1, to)
    ensures Ordered(world.canon[..Height(world.canon, c)])
    ensures Asked(world.chain, batch, world.canon[..Height(world.canon, c)]) == []
  {
    var lo := Height(world.canon, c);
    forall i | 0 <= i < lo
      ensures !Wanted(world.chain, batch, world.canon[i])
    {
      OutsideUnwanted(world, batch, c + 1, to, i);
    }
    AskedNothing(world.chain, batch, world.canon[..lo]);
  }

  lemma AskedAfter(world: World, batch: seq<PendingBackfill>, from: nat, to: nat, t: nat)
    requires Good(world) && Covers(batch, from, to) && to <= t
    ensures Ordered(world.canon[Height(world.canon, t)..])
    ensures Asked(world.chain, batch, world.canon[Height(world.canon, t)..]) == []
  {
    var hi := Height(world.canon, t);
    forall i | hi <= i < |world.canon|
      ensures !Wanted(world.chain, batch, world.canon[i])
    {
      OutsideUnwanted(world, batch, from, to, i);
    }
    AskedNothing(world.chain, batch, world.canon[hi..]);
  }

  /** Nothing outside the batch's blocks is asked for. */
  lemma AskedInside(world: World, batch: seq<PendingBackfill>, c: nat, t: nat, to: nat)
    requires Good(world) && Covers(batch, c + 1, to) && c <= t && to <= t
    ensures Ordered(Slice(world.canon, c, t))
    ensures Asked(world.chain, batch, world.canon) == Asked(world.chain, batch, Slice(world.canon, c, t))
  {
    SliceGood(world, c, t);
    AskedBefore(world, batch, c, to);
    AskedAfter(world, batch, c + 1, to, t);
    HeightMonotone(world.canon, c, t);
    ThreeParts(world.chain, batch, world.canon, Height(world.canon, c), Height(world.canon, t));
  }

  lemma ThreeParts(chain: ChainSpec, batch: seq<PendingBackfill>, logs: seq<Log>, lo: nat, hi: nat)
    requires Ordered(logs) && lo <= hi <= |logs| && Ordered(logs[..lo]) && Ordered(logs[lo..hi]) && Ordered(logs[hi..])
    ensures Asked(chain, batch, logs) == Asked(chain, batch, logs[..lo]) + Asked(chain, batch, logs[lo..hi])
            + Asked(chain, batch, logs[hi..])
  {
    assert logs[..lo] + logs[lo..hi] == logs[..hi];
    assert logs[..hi] + logs[hi..] == logs;
    AskedConcat(chain, batch, logs[..lo], logs[lo..hi]);
    AskedConcat(chain, batch, logs[..hi], logs[hi..]);
  }

  lemma WholeSpan(world: World, batch: seq<PendingBackfill>, logs: seq<Log>, c: nat, t: nat, to: nat)
    requires Gathered(world, batch, logs, c, t) && Covers(batch, c + 1, to) && c <= t && to <= t
    ensures Complete(world, batch, logs)
  {
    assert Unfold(0);
    AskedInside(world, batch, c, t, to);
  }

  /** A gathered backfill is one the accounting machine allows. */
  lemma GatheredEnabled(world: World, s: Sys, batch: seq<PendingBackfill>, logs: seq<Log>)
    requires Good(world) && ValidScales(world.chain) && BatchOk(s, batch) && Complete(world, batch, logs)
    ensures Enabled(world, s, Backfill(batch, logs))
  {
    assert Unfold(0);
  }

  ghost predicate Falling(s: seq<nat>) {
    forall i, j :: 0 <= i < j < |s| ==> s[j] < s[i]
  }

  ghost predicate Halving(s: seq<nat>) {
    forall i, j :: 0 <= i < j < |s| && j == i + 1 ==> 2 * s[j] <= s[i]
  }

  /** Ceilings that halve: n of them after the first fit at most log2 of it. */
  lemma {:induction false} HalvingBound(s: seq<nat>)
    requires Halving(s) && s != []
    ensures Pow2(|s| - 1) * s[|s| - 1] <= s[0]
  {
    if |s| > 1 {
      var n := |s| - 1;
      HalvingBound(s[..n]);
      Doubling(n - 1, s[n - 1], s[n], s[0]);
    }
  }

  lemma {:induction false} FallingBound(s: seq<nat>)
    requires Falling(s) && s != []
    ensures |s| - 1 + s[|s| - 1] <= s[0]
  {
    if |s| > 1 {
      FallingBound(s[..|s| - 1]);
    }
  }

  lemma Doubling(n: nat, before: nat, after: nat, first: nat)
    requires Pow2(n) * before <= first && 2 * after <= before
    ensures Pow2(n + 1) * after <= first
  {
    assert Pow2(n + 1) * after == Pow2(n) * (2 * after);
    MulMonotone(Pow2(n), 2 * after, before);
  }

  /** A sweep leaves the books of one sweep over the whole range, however the range was cut. */
  lemma CutsDoNotMatter(world: World, s: Sys, now: Sys, cache: CacheState, cuts: seq<nat>, los: seq<seq<Key>>,
                        lo: seq<Key>)
    requires Good(world) && ValidScales(world.chain) && Standing(world, s, now, cache, cuts, los) && cuts != []
    requires s.db.cursor <= now.db.cursor
    requires Leftovers(SweepJoin(world, s.db, s.db.cursor, now.db.cursor).db.transfers, now.db.cursor, lo)
    ensures !SweepJoin(world, s.db, s.db.cursor, now.db.cursor).failed
    ensures SameBooks(now.db, SweptSys(world, s, now.db.cursor, lo).db)
  {
    assert Unfold(0);
    AnyChunks(world, s, cuts, los, lo);
  }
}
