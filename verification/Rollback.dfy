/** When a sweep cannot commit: exactly when the total of some active watch outgrows a uint256, and then nothing but
    retiring that watch lets the cursor past (src/store/sweep.rs:145-150, src/store/mod.rs:95-102). */
module Rollback {
  import opened Base
  import opened Registry
  import opened Matcher
  import opened Ledger
  import opened Chain
  import opened Join
  import opened Accounts
  import opened Sync
  import opened Machine
  import opened Books
  import opened BooksSweep
  import opened BooksBackfill
  import opened BooksOther
  import Fleet

  /** The total at which the reference tally of an active watch over `amounts` ends is no uint256. */
  predicate Outgrows(w: Watch, amounts: seq<nat>) {
    Tallied(Tally(w.confirmed, false), w.threshold, amounts).amount >= UINT256
  }

  /** A tally beyond 2^256 has stopped, so it stays there. */
  lemma OutgrowsOn(w: Watch, a: seq<nat>, b: seq<nat>)
    requires w.confirmed < w.threshold < UINT256 && Outgrows(w, a)
    ensures Outgrows(w, a + b)
  {
    TalliedMore(Tally(w.confirmed, false), w.threshold, a);
    TalliedConcat(Tally(w.confirmed, false), w.threshold, a, b);
    TalliedOpen(Tallied(Tally(w.confirmed, false), w.threshold, a), w.threshold, b);
  }

  ghost predicate Bounded(watches: map<Id, Watch>) {
    forall id :: IsActive(watches, id) ==> watches[id].confirmed < watches[id].threshold < UINT256
  }

  /** The log that fails a transaction pays an active watch that cannot hold it. */
  lemma FailingLog(chain: ChainSpec, tx: Tx, scope: Scope, log: Log) returns (id: Id)
    requires ValidScales(chain) && log.Complete() && !tx.failed && Joined(chain, tx, scope, log).failed
    ensures IsActive(tx.db.watches, id) && Eligible(scope, id, log.block.value) && !Resolved(tx.db.transfers, log.Key())
    ensures tx.db.watches[id].confirmed + Pay(chain, TermsOf(tx.db.watches[id]), log) >= UINT256
  {
    var p := JoinedCases(chain, tx, scope, log);
    id := p.value;
  }

  lemma FailedWatch(chain: ChainSpec, tx: Tx, scope: Scope, logs: seq<Log>) returns (id: Id)
    requires ValidScales(chain) && Ordered(logs) && Distinct(logs) && UniqueActive(tx.db.watches)
    requires Bounded(tx.db.watches)
    requires logs != [] && !JoinedAll(chain, tx, scope, logs[..|logs| - 1]).failed
    requires JoinedAll(chain, tx, scope, logs).failed
    ensures IsActive(tx.db.watches, id)
    ensures Outgrows(tx.db.watches[id], Effects(chain, tx.db.transfers, scope, id, TermsOf(tx.db.watches[id]), logs))
  {
    var n := |logs| - 1;
    var mid := JoinedAll(chain, tx, scope, logs[..n]);
    id := FailingLog(chain, mid, scope, logs[n]);
    JoinedAged(chain, tx, scope, logs[..n]);
    JoinedTally(chain, tx, scope, logs[..n], id);
    var w := tx.db.watches[id];
    EffectStable(chain, tx, scope, logs, id, TermsOf(w));
    EffectsSnoc(chain, tx.db.transfers, scope, id, TermsOf(w), logs);
    var a := Effect(chain, tx.db.transfers, scope, id, TermsOf(w), logs[n]);
    TalliedConcat(Tally(w.confirmed, false), w.threshold,
                  Effects(chain, tx.db.transfers, scope, id, TermsOf(w), logs[..n]), [a]);
    assert [a][..0] == [];
  }

  lemma {:induction false} FailedJoin(chain: ChainSpec, tx: Tx, scope: Scope, logs: seq<Log>) returns (id: Id)
    requires ValidScales(chain) && Ordered(logs) && Distinct(logs) && UniqueActive(tx.db.watches)
    requires Bounded(tx.db.watches)
    requires !tx.failed && JoinedAll(chain, tx, scope, logs).failed
    ensures IsActive(tx.db.watches, id)
    ensures Outgrows(tx.db.watches[id], Effects(chain, tx.db.transfers, scope, id, TermsOf(tx.db.watches[id]), logs))
  {
    var n := |logs| - 1;
    if JoinedAll(chain, tx, scope, logs[..n]).failed {
      id := FailedJoin(chain, tx, scope, logs[..n]);
      var w := tx.db.watches[id];
      EffectsSnoc(chain, tx.db.transfers, scope, id, TermsOf(w), logs);
      OutgrowsOn(w, Effects(chain, tx.db.transfers, scope, id, TermsOf(w), logs[..n]),
                 [Effect(chain, tx.db.transfers, scope, id, TermsOf(w), logs[n])]);
    } else {
      id := FailedWatch(chain, tx, scope, logs);
    }
  }

  /** Some active watch outgrows a uint256 on what blocks (cursor, t] pay it. */
  ghost predicate Overflows(world: World, db: Db, t: nat)
    requires Good(world) && ValidScales(world.chain)
  {
    exists id :: IsActive(db.watches, id)
        && Outgrows(db.watches[id], Paid(world, TermsOf(db.watches[id]), db.cursor, t))
  }

  lemma InvBounded(world: World, s: Sys)
    requires Good(world) && ValidScales(world.chain) && Inv(world, s)
    ensures Bounded(s.db.watches)
  {
    forall id | IsActive(s.db.watches, id)
      ensures s.db.watches[id].confirmed < s.db.watches[id].threshold < UINT256
    {
      assert WatchOk(s, id);
    }
  }

  /** A sweep is rolled back if and only if what its blocks pay some active watch, counted up to its threshold, is no
      uint256. */
  lemma RolledBackIff(world: World, s: Sys, t: nat)
    requires Good(world) && ValidScales(world.chain) && Inv(world, s) && s.db.cursor <= t
    ensures SweepJoin(world, s.db, s.db.cursor, t).failed <==> Overflows(world, s.db, t)
  {
    SliceGood(world, s.db.cursor, t);
    InvBounded(world, s);
    if SweepJoin(world, s.db, s.db.cursor, t).failed {
      var id := FailedJoin(world.chain, Begin(s.db), All, Slice(world.canon, s.db.cursor, t));
      SliceEffects(world, s.db, t, id, TermsOf(s.db.watches[id]));
    } else {
      forall id | IsActive(s.db.watches, id)
        ensures !Outgrows(s.db.watches[id], Paid(world, TermsOf(s.db.watches[id]), s.db.cursor, t))
      {
        assert WatchOk(s, id);
        SweepJoinWatch(world, s, t, id);
        JoinedBounded(world.chain, Begin(s.db), All, Slice(world.canon, s.db.cursor, t), id);
      }
    }
  }

  /** A sweep by any instance from the current cursor changes the database if and only if nothing overflows. */
  lemma SweepCommitsIff(world: World, s: Sys, step: Step)
    requires Good(world) && ValidScales(world.chain) && Inv(world, s) && step.Sweep? && Enabled(world, s, step)
    requires step.expected == s.db.cursor
    ensures Do(world, s, step) != s <==> !Overflows(world, s.db, step.to)
    ensures Do(world, s, step) != s ==> Do(world, s, step).db.cursor == step.to
  {
    SweepIsJoin(world, s.db, step);
    RolledBackIff(world, s, step.to);
  }

  // ------------------------------------------------------------------ backfills

  /** Some active watch, of those whose backfill the batch would run, outgrows a uint256 on what nobody has resolved of
      its payments up to the cursor it recorded. */
  ghost predicate BackfillOverflows(world: World, s: Sys, batch: seq<PendingBackfill>)
    requires Good(world) && ValidScales(world.chain)
  {
    exists id :: OverfillsAt(world, s, batch, id)
  }

  ghost predicate OverfillsAt(world: World, s: Sys, batch: seq<PendingBackfill>, id: Id)
    requires Good(world) && ValidScales(world.chain)
  {
    && IsActive(s.db.watches, id) && Outstanding(s.db.watches, BatchIds(batch), id) && id in s.late
    && Outgrows(s.db.watches[id],
                Missed(world, TermsOf(s.db.watches[id]), ResolvedKeys(s.db.transfers), s.late[id]))
  }

  /** Only a watch whose backfill is outstanding can fail a batch. */
  lemma FailedFill(world: World, s: Sys, batch: seq<PendingBackfill>, id: Id)
    requires Good(world) && ValidScales(world.chain) && BatchOk(s, batch) && IsActive(s.db.watches, id)
    requires WatchOk(s, id) && Covered(world, s, id)
    requires var w := s.db.watches[id];
             Outgrows(w, Effects(world.chain, s.db.transfers, Only(BatchUntil(world.chain, batch)), id, TermsOf(w),
                                 world.canon))
    ensures OverfillsAt(world, s, batch, id)
  {
    var w := s.db.watches[id];
    var until := BatchUntil(world.chain, batch);
    var effects := Effects(world.chain, s.db.transfers, Only(until), id, TermsOf(w), world.canon);
    BatchUntilFacts(s, world.chain, batch);
    if id !in until {
      TalliedZeros(Tally(w.confirmed, false), w.threshold, effects);
      assert false;
    } else if w.backfillTo.None? {
      RerunEffects(world, s, batch, id);
      TalliedZeros(Tally(w.confirmed, false), w.threshold, effects);
      assert false;
    } else {
      MissedEffects(world, s, batch, id);
    }
  }

  lemma FilledFits(world: World, s: Sys, batch: seq<PendingBackfill>, id: Id)
    requires Good(world) && ValidScales(world.chain) && UniqueActive(s.db.watches) && BatchOk(s, batch)
    requires id in s.db.watches && WatchOk(s, id) && !BackfillJoin(world, s.db, batch).failed
    ensures !OverfillsAt(world, s, batch, id)
  {
    if OverfillsAt(world, s, batch, id) {
      FilledWatch(world, s, batch, id);
      BackfilledWatchOk(world, s, batch, id);
      assert false;
    }
  }

  /** A backfill is rolled back, and with it every other one of its batch, if and only if some active watch of the batch
      would outgrow a uint256. */
  lemma BackfillRolledBackIff(world: World, s: Sys, batch: seq<PendingBackfill>)
    requires Good(world) && ValidScales(world.chain) && Inv(world, s) && BatchOk(s, batch)
    ensures BackfillJoin(world, s.db, batch).failed <==> BackfillOverflows(world, s, batch)
  {
    CanonGood(world);
    InvBounded(world, s);
    if BackfillJoin(world, s.db, batch).failed {
      var id := FailedJoin(world.chain, Begin(s.db), Only(BatchUntil(world.chain, batch)), world.canon);
      assert WatchOk(s, id) && Covered(world, s, id);
      FailedFill(world, s, batch, id);
    } else {
      forall id | id in s.db.watches
        ensures !OverfillsAt(world, s, batch, id)
      {
        assert WatchOk(s, id);
        FilledFits(world, s, batch, id);
      }
    }
  }

  /** Whoever runs it, and on whatever complete answer, a backfill commits if and only if nothing in it overflows. */
  lemma BackfillCommitsIff(world: World, s: Sys, step: Step)
    requires Good(world) && ValidScales(world.chain) && Inv(world, s) && step.Backfill? && Enabled(world, s, step)
    ensures Do(world, s, step)
         == if BackfillOverflows(world, s, step.batch) then s else BackfilledSys(world, s, step.batch)
  {
    BackfillIsJoin(world, s, step.batch, step.logs);
    BackfillRolledBackIff(world, s, step.batch);
  }

  // ------------------------------------------------------------------ stuck

  /** Active watch `id`, with no backfill to come, outgrows a uint256 by block `m`, above the cursor. */
  ghost predicate Blocks(world: World, s: Sys, id: Id, m: nat)
    requires Good(world) && ValidScales(world.chain)
  {
    && IsActive(s.db.watches, id) && s.db.watches[id].backfillTo.None? && s.db.cursor < m
    && Outgrows(s.db.watches[id], Paid(world, TermsOf(s.db.watches[id]), s.db.cursor, m))
  }

  /** Tallying on from where an active watch has got to. */
  lemma OutgrowsFrom(w: Watch, w': Watch, a: seq<nat>, b: seq<nat>)
    requires w'.threshold == w.threshold
    requires Tally(w'.confirmed, false) == Tallied(Tally(w.confirmed, false), w.threshold, a)
    ensures Outgrows(w', b) <==> Outgrows(w, a + b)
  {
    TalliedConcat(Tally(w.confirmed, false), w.threshold, a, b);
  }

  lemma BlocksMoves(world: World, s: Sys, s': Sys, id: Id, m: nat)
    requires Good(world) && ValidScales(world.chain) && Blocks(world, s, id, m) && IsActive(s'.db.watches, id)
    requires s.db.cursor <= s'.db.cursor < m && s'.db.watches[id].backfillTo.None?
    requires TermsOf(s'.db.watches[id]) == TermsOf(s.db.watches[id])
    requires var w := s.db.watches[id];
             Tally(s'.db.watches[id].confirmed, false)
                 == Tallied(Tally(w.confirmed, false), w.threshold, Paid(world, TermsOf(w), s.db.cursor, s'.db.cursor))
    ensures Blocks(world, s', id, m)
  {
    var w := s.db.watches[id];
    PaidConcat(world, TermsOf(w), s.db.cursor, s'.db.cursor, m);
    OutgrowsFrom(w, s'.db.watches[id], Paid(world, TermsOf(w), s.db.cursor, s'.db.cursor),
                 Paid(world, TermsOf(w), s'.db.cursor, m));
  }

  lemma SweepBlocked(world: World, s: Sys, step: Step, id: Id, m: nat)
    requires Good(world) && ValidScales(world.chain) && Inv(world, s) && step.Sweep? && Enabled(world, s, step)
    requires Blocks(world, s, id, m) && IsActive(Do(world, s, step).db.watches, id)
    ensures Blocks(world, Do(world, s, step), id, m)
  {
    SweepCases(world, s, step);
    if Do(world, s, step) != s {
      var w, t := s.db.watches[id], step.to;
      assert WatchOk(s, id);
      SweptWatch(world, s, t, step.leftovers, id);
      RolledBackIff(world, s, t);
      if t >= m {
        PaidConcat(world, TermsOf(w), s.db.cursor, m, t);
        OutgrowsOn(w, Paid(world, TermsOf(w), s.db.cursor, m), Paid(world, TermsOf(w), m, t));
        assert false;
      }
      BlocksMoves(world, s, Do(world, s, step), id, m);
    }
  }

  lemma NothingPaid(world: World, terms: Terms, c: nat)
    requires Good(world) && ValidScales(world.chain)
    ensures Paid(world, terms, c, c) == []
  {
    assert Slice(world.canon, c, c) == [];
  }

  lemma ForwardBlocked(world: World, s: Sys, step: Step, id: Id, m: nat)
    requires Good(world) && ValidScales(world.chain) && Inv(world, s) && step.FastForward? && Enabled(world, s, step)
    requires Blocks(world, s, id, m)
    ensures Blocks(world, Do(world, s, step), id, m)
  {
    var s', w := Do(world, s, step), s.db.watches[id];
    if s' != s {
      assert WatchOk(s, id);
      SkipBelowActive(s.db, step.target, step.min, id);
      if s'.db.cursor >= m {
        SkippedPayNothing(world, w, s.db.cursor, m);
        assert false;
      }
      SkippedPayNothing(world, w, s.db.cursor, s'.db.cursor);
      BlocksMoves(world, s, s', id, m);
    }
  }

  lemma BackfillBlocked(world: World, s: Sys, step: Step, id: Id, m: nat)
    requires Good(world) && ValidScales(world.chain) && Inv(world, s) && step.Backfill? && Enabled(world, s, step)
    requires Blocks(world, s, id, m)
    ensures Blocks(world, Do(world, s, step), id, m)
  {
    BackfillCases(world, s, step);
    if Do(world, s, step) != s {
      assert WatchOk(s, id) && Covered(world, s, id);
      UnfilledWatch(world, s, step.batch, id);
      NothingPaid(world, TermsOf(s.db.watches[id]), s.db.cursor);
      BlocksMoves(world, s, Do(world, s, step), id, m);
    }
  }

  lemma {:induction false} ExpireSpares(db: Db, ids: seq<Id>, now: nat, id: Id)
    requires id in db.watches
    ensures id in ExpiredDb(db, ids, now).watches
    ensures IsActive(ExpiredDb(db, ids, now).watches, id) ==> ExpiredDb(db, ids, now).watches[id] == db.watches[id]
    ensures ExpiredDb(db, ids, now).cursor == db.cursor
  {
    if ids != [] {
      ExpireSpares(db, ids[..|ids| - 1], now, id);
    }
  }

  /** No step takes the cursor to such a block while the watch stays active. */
  lemma StepBlocked(world: World, s: Sys, step: Step, id: Id, m: nat)
    requires Good(world) && ValidScales(world.chain) && Inv(world, s) && Enabled(world, s, step)
    requires Blocks(world, s, id, m)
    requires IsActive(Do(world, s, step).db.watches, id)
    ensures Blocks(world, Do(world, s, step), id, m)
  {
    match step
    case Sweep(_, _, _, _, _, _) => SweepBlocked(world, s, step, id, m);
    case FastForward(_, _) => ForwardBlocked(world, s, step, id, m);
    case Backfill(_, _) => BackfillBlocked(world, s, step, id, m);
    case _ =>
      HeadSpares(world, s, step, id);
      SameBlocks(world, s, Do(world, s, step), id, m);
  }

  lemma SameBlocks(world: World, s: Sys, s': Sys, id: Id, m: nat)
    requires Good(world) && ValidScales(world.chain) && Blocks(world, s, id, m) && id in s'.db.watches
    requires s'.db.cursor == s.db.cursor
    requires s'.db.watches[id] == s.db.watches[id].(nextEventSeq := s'.db.watches[id].nextEventSeq)
    ensures Blocks(world, s', id, m)
  {
    assert TermsOf(s'.db.watches[id]) == TermsOf(s.db.watches[id]);
  }

  lemma HeadSpares(world: World, s: Sys, step: Step, id: Id)
    requires Good(world) && ValidScales(world.chain) && Enabled(world, s, step) && IsActive(s.db.watches, id)
    requires step.Create? || step.Cancel? || step.Expire? || step.Pend?
    requires IsActive(Do(world, s, step).db.watches, id)
    ensures var w := s.db.watches[id]; var w' := Do(world, s, step).db.watches[id];
            Do(world, s, step).db.cursor == s.db.cursor && w' == w.(nextEventSeq := w'.nextEventSeq)
  {
    if step.Expire? {
      ExpireSpares(s.db, step.ids, step.now, id);
    }
  }

  /** The watch is active after each of the steps. */
  ghost predicate ActiveThroughout(world: World, s: Sys, steps: seq<Step>, id: Id)
    requires Good(world) && ValidScales(world.chain) && Run(world, s, steps)
  {
    IsActive(After(world, s, steps).db.watches, id)
    && (steps == [] || ActiveThroughout(world, s, steps[..|steps| - 1], id))
  }

  /** A chain with such a watch is stuck: over any further run, as long as the watch is not retired, the cursor stays
      below the block, whoever sweeps. */
  lemma {:induction false} StuckUntilRetired(world: World, s: Sys, steps: seq<Step>, id: Id, m: nat)
    requires Good(world) && ValidScales(world.chain) && Inv(world, s) && Blocks(world, s, id, m)
    requires Run(world, s, steps) && ActiveThroughout(world, s, steps, id)
    ensures Inv(world, After(world, s, steps)) && Blocks(world, After(world, s, steps), id, m)
    ensures After(world, s, steps).db.cursor < m
  {
    if steps != [] {
      var n := |steps| - 1;
      StuckUntilRetired(world, s, steps[..n], id, m);
      var mid := After(world, s, steps[..n]);
      StepKeepsInv(world, mid, steps[n]);
      StepBlocked(world, mid, steps[n], id, m);
    }
  }

  // ------------------------------------------------------------------ and chains do get stuck

  /** 128 and `n` zero bytes. */
  function BigData(n: nat): (d: seq<Byte>)
    ensures |d| == n + 1
  {
    if n == 0 then [128] else BigData(n - 1) + [0]
  }

  lemma {:induction false} BigDataValue(n: nat)
    ensures BigEndian(BigData(n)) == 128 * Pow256(n)
  {
    if n == 0 {
      assert [128][..0] == [];
    } else {
      BigDataValue(n - 1);
      assert BigData(n)[..n] == BigData(n - 1);
    }
  }

  /** A transfer of 2^255. */
  function HalfTo(payee: Address, block: nat): Log {
    Log(7, [TRANSFER_TOPIC, 0, payee], BigData(31), Some(block), Some(block), Some(0), Some(0), false)
  }

  const HALF: nat := UINT256 / 2

  lemma HalfData()
    ensures BigEndian(BigData(31)) == HALF && HALF + HALF == UINT256
  {
    BigDataValue(31);
    Pow256Is(32);
    assert Pow256(32) == 256 * Pow256(31);
  }

  lemma HalfPays(payee: Address, other: Address, block: nat)
    requires ValidScales(DEMO_CHAIN) && payee != other && payee > 0 && block > 0
    ensures Pay(DEMO_CHAIN, Terms(7, payee, 1, UINT256 - 1), HalfTo(payee, block)) == HALF
    ensures Pay(DEMO_CHAIN, Terms(7, other, 1, UINT256 - 1), HalfTo(payee, block)) == 0
  {
    LookupsAgree(DEMO_CHAIN, 0);
    HalfData();
    assert FromWord(payee) == payee;
  }

  function Order(payee: Address): NewWatch {
    NewWatch(7, payee, UINT256 - 1, "u", None, 0, 0)
  }

  /** The watch such an order registers on an empty chain. */
  function Watching(serial: nat, payee: Address): Watch {
    Watch(serial, 7, payee, UINT256 - 1, 0, "u", Active, 1, None, 0, None)
  }

  const BEFORE: Sys := Sys(Db(0, map[], map[], map[], map[]), map[], map[])

  lemma TalliedTwo(threshold: nat, a: nat, b: nat)
    requires a < threshold && a + b < threshold
    ensures Tallied(Tally(0, false), threshold, [a, b]) == Tally(a + b, false)
  {
    assert [a, b][..1] == [a] && [a][..0] == [];
    assert Tallied(Tally(0, false), threshold, [a]) == Tally(a, false);
  }

  lemma TalliedOne(threshold: nat, a: nat)
    requires a < threshold
    ensures Tallied(Tally(0, false), threshold, [a]) == Tally(a, false)
  {
    assert [a][..0] == [];
  }

  lemma TalliedPast(threshold: nat, a: nat, b: nat)
    requires a < threshold <= a + b
    ensures Tallied(Tally(0, false), threshold, [a, b]) == Tally(a + b, true)
  {
    TalliedOne(threshold, a);
    assert [a, b][..1] == [a];
  }

  /** A chain whose canonical logs are `a` in block 1 and `b` in block 2. */
  function TwoBlocks(a: Log, b: Log): World
    requires a.Complete() && b.Complete()
  {
    World(DEMO_CHAIN, [a, b], map[a.Key() := a, b.Key() := b])
  }

  lemma TwoBlocksGood(a: Log, b: Log)
    requires a.Complete() && b.Complete() && !a.removed && !b.removed && Padded(a) && Padded(b) && a.Key() != b.Key()
    requires a.block.value < b.block.value
    ensures Good(TwoBlocks(a, b)) && ValidScales(TwoBlocks(a, b).chain)
  {
    DemoUnsafeAdd();
  }

  lemma TwoBlocksSlices(a: Log, b: Log)
    requires Ordered([a, b]) && a.block == Some(1) && b.block == Some(2)
    ensures Slice([a, b], 0, 2) == [a, b] && Slice([a, b], 0, 1) == [a]
  {
    HeightIs([a, b], 0, 0);
    HeightIs([a, b], 1, 1);
    HeightIs([a, b], 2, 2);
  }

  lemma HeightIs(logs: seq<Log>, c: nat, h: nat)
    requires Ordered(logs) && h <= |logs|
    requires h > 0 ==> logs[h - 1].block.value <= c
    requires h < |logs| ==> logs[h].block.value > c
    ensures Height(logs, c) == h
  {
  }

  const TWICE: World := TwoBlocks(HalfTo(100, 1), HalfTo(100, 2))

  lemma TwicePaid(terms: Terms)
    requires terms == Terms(7, 100, 1, UINT256 - 1)
    ensures Good(TWICE) && ValidScales(TWICE.chain) && Paid(TWICE, terms, 0, 2) == [HALF, HALF]
  {
    TwoBlocksGood(HalfTo(100, 1), HalfTo(100, 2));
    TwoBlocksSlices(HalfTo(100, 1), HalfTo(100, 2));
    HalfPays(100, 200, 1);
    HalfPays(100, 200, 2);
  }

  lemma TwiceOutgrows(w: Watch)
    requires w == Watching(1, 100)
    ensures Good(TWICE) && ValidScales(TWICE.chain) && Outgrows(w, Paid(TWICE, TermsOf(w), 0, 2))
  {
    TwicePaid(TermsOf(w));
    HalfData();
    TalliedPast(UINT256 - 1, HALF, HALF);
  }

  lemma TwiceBlocks(s: Sys)
    requires s == BEFORE.(db := Registered(BEFORE.db, 1, 1, Order(100)))
    ensures Good(TWICE) && ValidScales(TWICE.chain) && Blocks(TWICE, s, 1, 2)
  {
    assert NewRow(0, 1, Order(100)) == Watching(1, 100);
    TwiceOutgrows(s.db.watches[1]);
  }

  /** A reachable chain that is stuck: its one watch, with the largest threshold there is, is paid 2^255 twice. No run
      that does not retire it takes the cursor to block 2. */
  lemma StuckChain() returns (step: Step)
    ensures Good(TWICE) && ValidScales(TWICE.chain) && Initial(BEFORE) && Run(TWICE, BEFORE, [step])
    ensures Blocks(TWICE, After(TWICE, BEFORE, [step]), 1, 2)
  {
    step := Create(1, 1, Order(100));
    TwiceBlocks(BEFORE.(db := Registered(BEFORE.db, 1, 1, Order(100))));
    assert NewRow(0, 1, Order(100)) == Watching(1, 100);
    Fleet.RunSnoc(TWICE, BEFORE, [], step);
    assert [] + [step] == [step];
  }
}
