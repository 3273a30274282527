/** When the rollup's volume is the sum of the totals: per-chunk volumes are uint256 sums that wrap
    (src/store/sweep.rs:152-155, src/store/mod.rs:510-543), and what wraps is gone for good. */
module Volume {
  import opened Base
  import opened Registry
  import opened Cache
  import opened Matcher
  import opened Ledger
  import opened Chain
  import opened Join
  import opened Machine
  import opened Books
  import opened BooksSweep
  import opened BooksBackfill
  import opened BooksOther
  import opened Conservation
  import opened Rollback
  import opened Chunks
  import Fleet

  // ------------------------------------------------------------------ what a step will count

  /** What an active watch takes of `amounts`, counted up to its threshold. */
  function Taken(w: Watch, amounts: seq<nat>): int {
    if w.status == Active then Tallied(Tally(w.confirmed, false), w.threshold, amounts).amount - w.confirmed else 0
  }

  /** What a step will add to watch `id`, read off the state before it and the canonical logs: for a sweep that nothing
      overflows, what its blocks pay; for such a backfill, what it was outstanding for and nobody resolved. */
  ghost function Intake(world: World, s: Sys, step: Step, id: Id): int
    requires Good(world) && ValidScales(world.chain)
  {
    if id !in s.db.watches then 0
    else
      var w := s.db.watches[id];
      match step
      case Sweep(_, expected, to, _, _, _) =>
        if expected == s.db.cursor && !Overflows(world, s.db, to)
            then Taken(w, Paid(world, TermsOf(w), s.db.cursor, to)) else 0
      case Backfill(batch, _) =>
        if Outstanding(s.db.watches, BatchIds(batch), id) && id in s.late && !BackfillOverflows(world, s, batch)
        then Taken(w, Missed(world, TermsOf(w), ResolvedKeys(s.db.transfers), s.late[id])) else 0
      case _ => 0
  }

  /** What the step will count for token `t`, watch by watch. */
  ghost function Counts(world: World, s: Sys, step: Step, t: Address): Id -> int
    requires Good(world) && ValidScales(world.chain)
  {
    (id: Id) => if id in s.db.watches && s.db.watches[id].token == t then Intake(world, s, step, id) else 0
  }

  ghost function StepVolume(world: World, s: Sys, step: Step, ids: seq<Id>, t: Address): int
    requires Good(world) && ValidScales(world.chain)
  {
    SumOver(Counts(world, s, step, t), ids)
  }

  lemma {:induction false} SumAdd(f: Id -> int, h: Id -> int, g: Id -> int, ids: seq<Id>)
    requires forall id :: id in ids ==> f(id) + h(id) == g(id)
    ensures SumOver(f, ids) + SumOver(h, ids) == SumOver(g, ids)
  {
    if ids != [] {
      assert ids[|ids| - 1] in ids;
      SumAdd(f, h, g, ids[..|ids| - 1]);
    }
  }

  lemma CountsNothing(world: World, s: Sys, step: Step, ids: seq<Id>, t: Address)
    requires Good(world) && ValidScales(world.chain) && forall id :: id in s.db.watches ==>
               Intake(world, s, step, id) == 0
    ensures StepVolume(world, s, step, ids, t) == 0
  {
    SumZero(Counts(world, s, step, t), ids);
  }

  /** What the tables gain, watch by watch. */
  lemma GainsIntake(world: World, s: Sys, s': Sys, step: Step, ids: seq<Id>, t: Address)
    requires Good(world) && ValidScales(world.chain) && s'.db.watches.Keys == s.db.watches.Keys
    requires forall id :: id in s.db.watches ==>
               && s'.db.watches[id].token == s.db.watches[id].token
               && s'.db.watches[id].confirmed == s.db.watches[id].confirmed + Intake(world, s, step, id)
    ensures Census(world, s'.db, ids, t).volume == Census(world, s.db, ids, t).volume
            + StepVolume(world, s, step, ids, t)
  {
    SumAdd(VolumePart(s.db, t), Counts(world, s, step, t), VolumePart(s'.db, t), ids);
  }

  lemma SweptIntake(world: World, s: Sys, step: Step, id: Id)
    requires Good(world) && ValidScales(world.chain) && step.Sweep? && s.db.cursor == step.expected <= step.to
    requires !Overflows(world, s.db, step.to) && !SweepJoin(world, s.db, s.db.cursor, step.to).failed
    requires UniqueActive(s.db.watches) && id in s.db.watches && WatchOk(s, id) && RowsOk(world, s.db, s.db.cursor)
    ensures id in SweptSys(world, s, step.to, step.leftovers).db.watches
    ensures var w := s.db.watches[id]; var w' := SweptSys(world, s, step.to, step.leftovers).db.watches[id];
            w'.token == w.token && w'.confirmed == w.confirmed + Intake(world, s, step, id)
  {
    SweptWatch(world, s, step.to, step.leftovers, id);
  }

  lemma SweepIntake(world: World, s: Sys, step: Step, ids: seq<Id>, t: Address)
    requires Good(world) && ValidScales(world.chain) && Inv(world, s) && step.Sweep? && Enabled(world, s, step)
    ensures Census(world, Do(world, s, step).db, ids, t).volume
         == Census(world, s.db, ids, t).volume + StepVolume(world, s, step, ids, t)
  {
    SweepCases(world, s, step);
    if step.expected == s.db.cursor {
      SweepCommitsIff(world, s, step);
    }
    if Do(world, s, step) == s {
      CountsNothing(world, s, step, ids, t);
    } else {
      SweptAged(world, s, step.to, step.leftovers);
      forall id | id in s.db.watches
        ensures Do(world, s, step).db.watches[id].token == s.db.watches[id].token
        ensures Do(world, s, step).db.watches[id].confirmed == s.db.watches[id].confirmed + Intake(world, s, step, id)
      {
        assert WatchOk(s, id);
        SweptIntake(world, s, step, id);
      }
      GainsIntake(world, s, Do(world, s, step), step, ids, t);
    }
  }

  lemma BackfillIntake(world: World, s: Sys, step: Step, ids: seq<Id>, t: Address)
    requires Good(world) && ValidScales(world.chain) && Inv(world, s) && step.Backfill? && Enabled(world, s, step)
    ensures Census(world, Do(world, s, step).db, ids, t).volume
         == Census(world, s.db, ids, t).volume + StepVolume(world, s, step, ids, t)
  {
    BackfillCommitsIff(world, s, step);
    BackfillRolledBackIff(world, s, step.batch);
    if BackfillOverflows(world, s, step.batch) {
      CountsNothing(world, s, step, ids, t);
    } else {
      BackfilledAged(world, s, step.batch);
      forall id | id in s.db.watches
        ensures Do(world, s, step).db.watches[id].token == s.db.watches[id].token
        ensures Do(world, s, step).db.watches[id].confirmed == s.db.watches[id].confirmed + Intake(world, s, step, id)
      {
        assert WatchOk(s, id) && Covered(world, s, id);
        FilledIntake(world, s, step, id);
      }
      GainsIntake(world, s, Do(world, s, step), step, ids, t);
    }
  }

  lemma FilledIntake(world: World, s: Sys, step: Step, id: Id)
    requires Good(world) && ValidScales(world.chain) && UniqueActive(s.db.watches) && step.Backfill?
    requires BatchOk(s, step.batch)
    requires !BackfillJoin(world, s.db, step.batch).failed && !BackfillOverflows(world, s, step.batch)
    requires id in s.db.watches && WatchOk(s, id) && Covered(world, s, id)
    ensures id in BackfilledSys(world, s, step.batch).db.watches
    ensures var w := s.db.watches[id]; var w' := BackfilledSys(world, s, step.batch).db.watches[id];
            w'.token == w.token && w'.confirmed == w.confirmed + Intake(world, s, step, id)
  {
    if Outstanding(s.db.watches, BatchIds(step.batch), id) {
      FilledWatch(world, s, step.batch, id);
    } else {
      UnfilledWatch(world, s, step.batch, id);
    }
  }

  /** The sum of the totals grows by what the step was going to count. */
  lemma StepIntake(world: World, s: Sys, step: Step, ids: seq<Id>, t: Address)
    requires Good(world) && ValidScales(world.chain) && Inv(world, s) && Enabled(world, s, step)
    requires Lists(s.db.watches, ids)
    ensures Census(world, Do(world, s, step).db, ids, t).volume
         == Census(world, s.db, ids, t).volume + StepVolume(world, s, step, ids, t)
  {
    match step
    case Sweep(_, _, _, _, _, _) => SweepIntake(world, s, step, ids, t);
    case Backfill(_, _) => BackfillIntake(world, s, step, ids, t);
    case _ =>
      HeadStepNeutral(world, s, step, ids, t);
      CountsNothing(world, s, step, ids, t);
  }

  // ------------------------------------------------------------------ the gap

  /** How far the rollup's volume is below the sum of the totals. */
  ghost function Gap(world: World, db: Db, ids: seq<Id>, t: Address): int {
    Census(world, db, ids, t).volume - StatOf(db.stats, t).volume
  }

  /** Whole multiples of 2^256 in `x`. */
  function Multiples(x: int): nat
    decreases x
  {
    if x < UINT256 then 0 else 1 + Multiples(x - UINT256)
  }

  lemma {:induction false} MultiplesIs(x: nat)
    ensures x == Multiples(x) * UINT256 + x % UINT256
  {
    if x >= UINT256 {
      MultiplesIs(x - UINT256);
      ModDrop(x);
    }
  }

  lemma ModDrop(x: nat)
    requires x >= UINT256
    ensures (x - UINT256) % UINT256 == x % UINT256
  {
  }

  lemma GapArithmetic(before: Stats, after: Stats, d: Stats, x: int)
    requires Delta(before, after, d) && after.volume == before.volume + x
    ensures x >= 0 && x - d.volume == Multiples(x) * UINT256
  {
    MultiplesIs(x);
  }

  /** A step widens the gap by the multiples of 2^256 in what it counts. */
  lemma StepGap(world: World, s: Sys, step: Step, ids: seq<Id>, t: Address)
    requires Good(world) && ValidScales(world.chain) && Inv(world, s) && Enabled(world, s, step)
    requires Lists(s.db.watches, ids)
    ensures StepVolume(world, s, step, ids, t) >= 0
    ensures Gap(world, Do(world, s, step).db, ids, t)
         == Gap(world, s.db, ids, t) + Multiples(StepVolume(world, s, step, ids, t)) * UINT256
  {
    StepIntake(world, s, step, ids, t);
    StepMoves(world, s, step, ids, t);
    MovesGap(world, s.db, Do(world, s, step).db, ids, t, StepVolume(world, s, step, ids, t));
  }

  lemma MovesGap(world: World, db: Db, db': Db, ids: seq<Id>, t: Address, x: int)
    requires Moves(world, db, db', ids, t) && Census(world, db', ids, t).volume == Census(world, db, ids, t).volume + x
    ensures x >= 0 && Gap(world, db', ids, t) == Gap(world, db, ids, t) + Multiples(x) * UINT256
  {
    GapArithmetic(Census(world, db, ids, t), Census(world, db', ids, t),
                  Diff(StatOf(db.stats, t), StatOf(db'.stats, t)), x);
  }

  /** A chunk keeps the volume exact if and only if what it is going to count for the token is a uint256. */
  lemma VolumeExactIff(world: World, s: Sys, step: Step, ids: seq<Id>, t: Address)
    requires Good(world) && ValidScales(world.chain) && Inv(world, s) && Enabled(world, s, step)
    requires Lists(s.db.watches, ids)
    requires StatOf(s.db.stats, t).volume == Census(world, s.db, ids, t).volume
    ensures StatOf(Do(world, s, step).db.stats, t).volume == Census(world, Do(world, s, step).db, ids, t).volume
       <==> StepVolume(world, s, step, ids, t) < UINT256
  {
    StepGap(world, s, step, ids, t);
    Quotient(StepVolume(world, s, step, ids, t));
  }

  lemma Quotient(x: nat)
    ensures Multiples(x) == 0 <==> x < UINT256
    ensures x == UINT256 ==> Multiples(x) == 1
  {
    assert Multiples(0) == 0;
  }

  /** How often the volumes of a run wrapped, in all. */
  ghost function Wraps(world: World, s: Sys, steps: seq<Step>, ids: seq<Id>, t: Address): int
    requires Good(world) && ValidScales(world.chain) && Run(world, s, steps)
  {
    if steps == [] then 0
    else
      var front := steps[..|steps| - 1];
      Wraps(world, s, front, ids, t) + Multiples(StepVolume(world, After(world, s, front), steps[|steps| - 1], ids, t))
  }

  /** No step of the run counts 2^256 or more for the token. */
  ghost predicate NoneWraps(world: World, s: Sys, steps: seq<Step>, ids: seq<Id>, t: Address)
    requires Good(world) && ValidScales(world.chain) && Run(world, s, steps)
  {
    steps == [] ||
    var front := steps[..|steps| - 1];
    NoneWraps(world, s, front, ids, t)
        && StepVolume(world, After(world, s, front), steps[|steps| - 1], ids, t) < UINT256
  }

  lemma Times(a: int, b: int)
    ensures (a + b) * UINT256 == a * UINT256 + b * UINT256
  {
  }

  /** In every reachable state the volume is below the sum of the totals by exactly 2^256 for every time the volume of a
      chunk wrapped. So the gap never closes. */
  lemma {:induction false} RunGap(world: World, s: Sys, steps: seq<Step>, ids: seq<Id>, t: Address)
    requires Good(world) && ValidScales(world.chain) && Initial(s) && Run(world, s, steps)
    requires Lists(After(world, s, steps).db.watches, ids)
    ensures Wraps(world, s, steps, ids, t) >= 0
    ensures Wraps(world, s, steps, ids, t) == 0 <==> NoneWraps(world, s, steps, ids, t)
    ensures Gap(world, After(world, s, steps).db, ids, t) == Wraps(world, s, steps, ids, t) * UINT256
  {
    if steps == [] {
      EmptyAgrees(world, s.db, ids, t);
      SumZero(VolumePart(s.db, t), ids);
    } else {
      var n := |steps| - 1;
      var mid := After(world, s, steps[..n]);
      RunKeepsInv(world, s, steps[..n]);
      StepKeepsTable(world, mid, steps[n]);
      RunGap(world, s, steps[..n], ids, t);
      StepGap(world, mid, steps[n], ids, t);
      var x := StepVolume(world, mid, steps[n], ids, t);
      Quotient(x);
      Times(Wraps(world, s, steps[..n], ids, t), Multiples(x));
    }
  }

  /** The volume of a token is the sum of the totals of its watches if and only if no chunk of the whole run counted
      2^256 or more for it. */
  lemma RunVolumeExactIff(world: World, s: Sys, steps: seq<Step>, ids: seq<Id>, t: Address)
    requires Good(world) && ValidScales(world.chain) && Initial(s) && Run(world, s, steps)
    requires Lists(After(world, s, steps).db.watches, ids)
    ensures var now := After(world, s, steps).db;
            StatOf(now.stats, t).volume == Census(world, now, ids, t).volume <==> NoneWraps(world, s, steps, ids, t)
  {
    RunGap(world, s, steps, ids, t);
  }

  // ------------------------------------------------------------------ cutting a range

  /** What blocks (cursor, to] add to each watch of token `t`, read off the state before them and the canonical logs. */
  ghost function RangeCounts(world: World, db: Db, to: nat, t: Address): Id -> int
    requires Good(world) && ValidScales(world.chain)
  {
    (id: Id) => if id in db.watches && db.watches[id].token == t
                then Taken(db.watches[id], Paid(world, TermsOf(db.watches[id]), db.cursor, to)) else 0
  }

  /** And to all of them. */
  ghost function RangeVolume(world: World, db: Db, to: nat, ids: seq<Id>, t: Address): int
    requires Good(world) && ValidScales(world.chain)
  {
    SumOver(RangeCounts(world, db, to, t), ids)
  }

  /** How often the volumes of chunks that end at `cuts` wrap in all: each counts what the range up to its end adds
      less what the range up to the end of the one before adds. */
  ghost function CutWraps(world: World, db: Db, cuts: seq<nat>, ids: seq<Id>, t: Address): int
    requires Good(world) && ValidScales(world.chain)
  {
    if cuts == [] then 0
    else
      var n := |cuts| - 1;
      CutWraps(world, db, cuts[..n], ids, t)
      + Multiples(RangeVolume(world, db, cuts[n], ids, t) - CutVolume(world, db, cuts[..n], ids, t))
  }

  /** What chunks that end at `cuts` count in all. */
  ghost function CutVolume(world: World, db: Db, cuts: seq<nat>, ids: seq<Id>, t: Address): int
    requires Good(world) && ValidScales(world.chain)
  {
    if cuts == [] then 0 else RangeVolume(world, db, cuts[|cuts| - 1], ids, t)
  }

  lemma RangePart(world: World, s: Sys, to: nat, lo: seq<Key>, id: Id, t: Address)
    requires Good(world) && ValidScales(world.chain) && s.db.cursor <= to && id in s.db.watches
    requires UniqueActive(s.db.watches) && WatchOk(s, id) && RowsOk(world, s.db, s.db.cursor)
    requires !SweepJoin(world, s.db, s.db.cursor, to).failed
    ensures VolumePart(s.db, t)(id) + RangeCounts(world, s.db, to, t)(id)
            == VolumePart(SweptSys(world, s, to, lo).db, t)(id)
  {
    SweptWatch(world, s, to, lo, id);
  }

  /** The sum of the totals grows by what the range adds. */
  lemma RangeIntake(world: World, s: Sys, to: nat, lo: seq<Key>, ids: seq<Id>, t: Address)
    requires Good(world) && ValidScales(world.chain) && Shape(s) && RowsOk(world, s.db, s.db.cursor)
    requires s.db.cursor <= to
    requires !SweepJoin(world, s.db, s.db.cursor, to).failed
    ensures Census(world, SweptSys(world, s, to, lo).db, ids, t).volume
         == Census(world, s.db, ids, t).volume + RangeVolume(world, s.db, to, ids, t)
  {
    var s' := SweptSys(world, s, to, lo);
    SweptAged(world, s, to, lo);
    forall id | id in ids
      ensures VolumePart(s.db, t)(id) + RangeCounts(world, s.db, to, t)(id) == VolumePart(s'.db, t)(id)
    {
      if id in s.db.watches {
        assert WatchOk(s, id);
        RangePart(world, s, to, lo, id, t);
      }
    }
    SumAdd(VolumePart(s.db, t), RangeCounts(world, s.db, to, t), VolumePart(s'.db, t), ids);
  }

  /** One sweep widens the gap by the multiples of 2^256 in what the whole range adds. */
  lemma RangeGap(world: World, s: Sys, to: nat, lo: seq<Key>, ids: seq<Id>, t: Address)
    requires Good(world) && ValidScales(world.chain) && Shape(s) && RowsOk(world, s.db, s.db.cursor)
    requires s.db.cursor <= to
    requires Lists(s.db.watches, ids) && !SweepJoin(world, s.db, s.db.cursor, to).failed
    requires Leftovers(SweepJoin(world, s.db, s.db.cursor, to).db.transfers, to, lo)
    ensures Widened(Gap(world, s.db, ids, t), Gap(world, SweptSys(world, s, to, lo).db, ids, t),
                    RangeVolume(world, s.db, to, ids, t))
  {
    RangeIntake(world, s, to, lo, ids, t);
    SweptMoves(world, s, to, lo, ids, t);
    MovesGap(world, s.db, SweptSys(world, s, to, lo).db, ids, t, RangeVolume(world, s.db, to, ids, t));
  }

  /** However the range is cut, the sum of the totals grows by what all of it adds. */
  lemma CutIntake(world: World, s: Sys, cuts: seq<nat>, los: seq<seq<Key>>, ids: seq<Id>, t: Address)
    requires Good(world) && ValidScales(world.chain) && Inv(world, s) && Cuts(s.db.cursor, cuts) && |los| == |cuts|
    requires LeftoversOk(world, s, cuts, los) && AllCommit(world, s, cuts, los)
    ensures Census(world, Chunked(world, s, cuts, los).db, ids, t).volume
         == Census(world, s.db, ids, t).volume + CutVolume(world, s.db, cuts, ids, t)
  {
    if cuts != [] {
      var to := cuts[|cuts| - 1];
      var lo := LeftoversExist(SweepJoin(world, s.db, s.db.cursor, to).db.transfers, to);
      AnyChunks(world, s, cuts, los, lo);
      SameCensus(world, Chunked(world, s, cuts, los).db, SweptSys(world, s, to, lo).db, ids, t);
      RangeIntake(world, s, to, lo, ids, t);
    }
  }

  /** A gap that widens by `wraps` multiples of 2^256 while `counted` is counted. */
  predicate Widens(before: int, after: int, wraps: int, counted: int) {
    after == before + wraps * UINT256 && counted >= 0 && wraps <= Multiples(counted)
  }

  /** A gap that widens by the multiples of 2^256 in `more`. */
  predicate Widened(before: int, after: int, more: int) {
    more >= 0 && after == before + Multiples(more) * UINT256
  }

  lemma WidensOn(before: int, mid: int, after: int, wraps: int, counted: int, more: int, wraps': int, counted': int)
    requires Widens(before, mid, wraps, counted) && Widened(mid, after, more)
    requires wraps' == wraps + Multiples(more) && counted' == counted + more
    ensures Widens(before, after, wraps', counted')
  {
    MultiplesSum(counted, more);
    Times(wraps, Multiples(more));
  }

  lemma {:induction false} MultiplesSum(a: nat, b: nat)
    ensures Multiples(a) + Multiples(b) <= Multiples(a + b)
  {
    if b >= UINT256 {
      MultiplesSum(a, b - UINT256);
    } else if a >= UINT256 {
      MultiplesSum(a - UINT256, b);
    }
  }

  /** The volume moves with the sum of the totals, which grows by `more`. */
  ghost predicate Counting(world: World, db: Db, db': Db, ids: seq<Id>, t: Address, more: int) {
    && Moves(world, db, db', ids, t)
    && Census(world, db', ids, t).volume == Census(world, db, ids, t).volume + more
  }

  /** What `cuts` add beyond all of them but the last. */
  ghost function LastVolume(world: World, db: Db, cuts: seq<nat>, ids: seq<Id>, t: Address): int
    requires Good(world) && ValidScales(world.chain) && cuts != []
  {
    CutVolume(world, db, cuts, ids, t) - CutVolume(world, db, cuts[..|cuts| - 1], ids, t)
  }

  lemma CutWrapsSnoc(world: World, db: Db, cuts: seq<nat>, ids: seq<Id>, t: Address)
    requires Good(world) && ValidScales(world.chain) && cuts != []
    ensures CutWraps(world, db, cuts, ids, t)
         == CutWraps(world, db, cuts[..|cuts| - 1], ids, t) + Multiples(LastVolume(world, db, cuts, ids, t))
  {
  }

  lemma CountingWidens(world: World, db: Db, db': Db, ids: seq<Id>, t: Address, more: int)
    requires Counting(world, db, db', ids, t, more)
    ensures Widened(Gap(world, db, ids, t), Gap(world, db', ids, t), more)
  {
    MovesGap(world, db, db', ids, t, more);
  }

  lemma WidensCut(world: World, s: Db, cuts: seq<nat>, mid: Db, after: Db, ids: seq<Id>, t: Address)
    requires Good(world) && ValidScales(world.chain) && cuts != []
    requires var front := cuts[..|cuts| - 1];
             Widens(Gap(world, s, ids, t), Gap(world, mid, ids, t), CutWraps(world, s, front, ids, t),
                    CutVolume(world, s, front, ids, t))
    requires Counting(world, mid, after, ids, t, LastVolume(world, s, cuts, ids, t))
    ensures Widens(Gap(world, s, ids, t), Gap(world, after, ids, t), CutWraps(world, s, cuts, ids, t),
                   CutVolume(world, s, cuts, ids, t))
  {
    var front, more := cuts[..|cuts| - 1], LastVolume(world, s, cuts, ids, t);
    CountingWidens(world, mid, after, ids, t, more);
    CutWrapsSnoc(world, s, cuts, ids, t);
    WidensOn(Gap(world, s, ids, t), Gap(world, mid, ids, t), Gap(world, after, ids, t),
             CutWraps(world, s, front, ids, t), CutVolume(world, s, front, ids, t), more,
             CutWraps(world, s, cuts, ids, t), CutVolume(world, s, cuts, ids, t));
  }

  /** Chunks widen the gap by as often as their own volumes wrap. */
  lemma {:induction false} CutGap(world: World, s: Sys, cuts: seq<nat>, los: seq<seq<Key>>, ids: seq<Id>, t: Address)
    requires Good(world) && ValidScales(world.chain) && Inv(world, s) && Cuts(s.db.cursor, cuts) && |los| == |cuts|
    requires LeftoversOk(world, s, cuts, los) && AllCommit(world, s, cuts, los) && Lists(s.db.watches, ids)
    ensures Widens(Gap(world, s.db, ids, t), Gap(world, Chunked(world, s, cuts, los).db, ids, t),
                   CutWraps(world, s.db, cuts, ids, t), CutVolume(world, s.db, cuts, ids, t))
  {
    if cuts != [] {
      var n := |cuts| - 1;
      LastCut(world, s, cuts, los);
      CutGap(world, s, cuts[..n], los[..n], ids, t);
      LastCounts(world, s, cuts, los, ids, t);
      WidensCut(world, s.db, cuts, Chunked(world, s, cuts[..n], los[..n]).db, Chunked(world, s, cuts, los).db, ids, t);
    }
  }

  lemma LastCounts(world: World, s: Sys, cuts: seq<nat>, los: seq<seq<Key>>, ids: seq<Id>, t: Address)
    requires Good(world) && ValidScales(world.chain) && Inv(world, s) && Cuts(s.db.cursor, cuts) && |los| == |cuts|
    requires LeftoversOk(world, s, cuts, los) && AllCommit(world, s, cuts, los) && Lists(s.db.watches, ids)
    requires cuts != []
    ensures Cuts(s.db.cursor, cuts[..|cuts| - 1])
    ensures Counting(world, Chunked(world, s, cuts[..|cuts| - 1], los[..|cuts| - 1]).db,
                     Chunked(world, s, cuts, los).db, ids, t,
                     LastVolume(world, s.db, cuts, ids, t))
  {
    var n := |cuts| - 1;
    LastCut(world, s, cuts, los);
    CutIntake(world, s, cuts[..n], los[..n], ids, t);
    CutIntake(world, s, cuts, los, ids, t);
    ChunksGain(world, s, cuts[..n], los[..n], ids, t);
    SweptMoves(world, Chunked(world, s, cuts[..n], los[..n]), cuts[n], los[n], ids, t);
  }

  /** Two volumes, of which one wrapped `wraps` times and the other as often as `counted` holds 2^256. */
  lemma GapsApart(total: int, x: int, y: int, gap: int, wraps: int, counted: int)
    requires Widens(gap, total - x, wraps, counted) && Widened(gap, total - y, counted)
    ensures y <= x && (x == y <==> wraps == Multiples(counted))
  {
  }

  /** Cutting a range never lowers the volume it adds, and leaves it the same if and only if the chunks wrap as often
      as one sweep of all of it does. All of the condition can be read off the state before. */
  lemma CutsSameVolumeIff(world: World, s: Sys, cuts: seq<nat>, los: seq<seq<Key>>, lo: seq<Key>, ids: seq<Id>,
                          t: Address)
    requires Good(world) && ValidScales(world.chain) && Inv(world, s) && Cuts(s.db.cursor, cuts) && cuts != []
    requires |los| == |cuts| && LeftoversOk(world, s, cuts, los) && Lists(s.db.watches, ids)
    requires !Overflows(world, s.db, cuts[|cuts| - 1])
    requires Leftovers(SweepJoin(world, s.db, s.db.cursor, cuts[|cuts| - 1]).db.transfers, cuts[|cuts| - 1], lo)
    ensures var chunked := StatOf(Chunked(world, s, cuts, los).db.stats, t).volume;
            var once := StatOf(SweptSys(world, s, cuts[|cuts| - 1], lo).db.stats, t).volume;
            && once <= chunked
            && (chunked == once <==>
                  CutWraps(world, s.db, cuts, ids, t) == Multiples(RangeVolume(world, s.db, cuts[|cuts| - 1], ids, t)))
  {
    var to := cuts[|cuts| - 1];
    RolledBackIff(world, s, to);
    AnyChunks(world, s, cuts, los, lo);
    CutGap(world, s, cuts, los, ids, t);
    RangeGap(world, s, to, lo, ids, t);
    var chunked, once := Chunked(world, s, cuts, los).db, SweptSys(world, s, to, lo).db;
    SameCensus(world, chunked, once, ids, t);
    GapsApart(Census(world, once, ids, t).volume, StatOf(chunked.stats, t).volume, StatOf(once.stats, t).volume,
              Gap(world, s.db, ids, t), CutWraps(world, s.db, cuts, ids, t), RangeVolume(world, s.db, to, ids, t));
  }

  // ------------------------------------------------------------------ and chunks do wrap

  /** Two watches of one token get 2^255 each, in blocks 1 and 2. */
  const HALVES: seq<Log> := [HalfTo(100, 1), HalfTo(200, 2)]

  const WORLD: World := TwoBlocks(HALVES[0], HALVES[1])

  lemma DemoWorld()
    ensures Good(WORLD) && ValidScales(WORLD.chain)
    ensures Slice(WORLD.canon, 0, 2) == HALVES && Slice(WORLD.canon, 0, 1) == [HALVES[0]]
  {
    TwoBlocksGood(HALVES[0], HALVES[1]);
    TwoBlocksSlices(HALVES[0], HALVES[1]);
  }

  const ONE: Sys := Sys(Db(0, map[1 := Watching(1, 100)], map[], map[1 := []], map[]), map[], map[])

  const BOTH: Sys :=
    Sys(Db(0, map[1 := Watching(1, 100), 2 := Watching(2, 200)], map[], map[1 := [], 2 := []], map[]), map[], map[])

  const FIRST: Step := Create(1, 1, Order(100))

  const SECOND: Step := Create(2, 2, Order(200))

  lemma DemoFirst()
    ensures Good(WORLD) && ValidScales(WORLD.chain) && Enabled(WORLD, BEFORE, FIRST) && Do(WORLD, BEFORE, FIRST) == ONE
  {
    DemoWorld();
    assert NewRow(0, 1, Order(100)) == Watching(1, 100);
  }

  lemma DemoSecond()
    ensures Good(WORLD) && ValidScales(WORLD.chain) && Enabled(WORLD, ONE, SECOND) && Do(WORLD, ONE, SECOND) == BOTH
  {
    DemoWorld();
    assert NewRow(0, 2, Order(200)) == Watching(2, 200);
  }

  lemma TwoSteps(world: World, s: Sys, a: Step, b: Step)
    requires Good(world) && ValidScales(world.chain) && Enabled(world, s, a) && Enabled(world, Do(world, s, a), b)
    ensures Run(world, s, [a, b]) && After(world, s, [a, b]) == Do(world, Do(world, s, a), b)
  {
    Fleet.RunSnoc(world, s, [], a);
    assert [] + [a] == [a] && [a] + [b] == [a, b];
    Fleet.RunSnoc(world, s, [a], b);
  }

  lemma DemoRegistered()
    ensures Good(WORLD) && ValidScales(WORLD.chain) && Initial(BEFORE)
    ensures Run(WORLD, BEFORE, [FIRST, SECOND]) && After(WORLD, BEFORE, [FIRST, SECOND]) == BOTH
  {
    DemoFirst();
    DemoSecond();
    TwoSteps(WORLD, BEFORE, FIRST, SECOND);
  }

  /** A sweep by an instance that has just started, on a complete answer. */
  lemma FreshSweep(world: World, s: Sys, to: nat, logs: seq<Log>, ids: seq<Id>) returns (sweep: Step)
    requires Good(world) && ValidScales(world.chain) && s.db.cursor < to
    requires Answers(logs, Slice(world.canon, s.db.cursor, to))
    requires ActiveAbove(s.db.watches, 0, ids) && forall id :: IsActive(s.db.watches, id) ==>
               s.db.watches[id].serial > 0
    ensures sweep.Sweep? && sweep.expected == s.db.cursor && sweep.to == to && Enabled(world, s, sweep)
  {
    var loaded := Loaded(world.chain, s.db.watches, EMPTY, ids);
    var lo := LeftoversExist(CountedChunk(world.chain, s.db, loaded, logs).db.transfers, to);
    sweep := Sweep(EMPTY, s.db.cursor, to, logs, ids, lo);
  }

  lemma DemoActive()
    ensures ActiveAbove(BOTH.db.watches, 0, [1, 2])
  {
  }

  lemma DemoAnswer()
    ensures Answers(HALVES, HALVES)
  {
    assert HALVES[..1] == [HALVES[0]] && [HALVES[0]][..0] == [];
    assert Kept([HALVES[0]]) == [HALVES[0]];
  }

  lemma DemoSweep() returns (sweep: Step)
    ensures Good(WORLD) && ValidScales(WORLD.chain) && sweep.Sweep? && sweep.expected == 0 && sweep.to == 2
    ensures Enabled(WORLD, BOTH, sweep)
  {
    DemoWorld();
    DemoAnswer();
    DemoActive();
    sweep := FreshSweep(WORLD, BOTH, 2, HALVES, [1, 2]);
  }

  /** Each watch takes its half: the first in block 1, the second in block 2. */
  lemma DemoTaken()
    ensures Good(WORLD) && ValidScales(WORLD.chain)
    ensures Taken(Watching(1, 100), Paid(WORLD, TermsOf(Watching(1, 100)), 0, 2)) == HALF
    ensures Taken(Watching(2, 200), Paid(WORLD, TermsOf(Watching(2, 200)), 0, 2)) == HALF
    ensures !Overflows(WORLD, BOTH.db, 2)
  {
    DemoWorld();
    HalfPays(100, 200, 1);
    HalfPays(200, 100, 2);
    HalfData();
    assert Paid(WORLD, TermsOf(Watching(1, 100)), 0, 2) == [HALF, 0];
    assert Paid(WORLD, TermsOf(Watching(2, 200)), 0, 2) == [0, HALF];
    TalliedTwo(UINT256 - 1, HALF, 0);
    TalliedTwo(UINT256 - 1, 0, HALF);
  }

  lemma DemoTakenFirst()
    ensures Good(WORLD) && ValidScales(WORLD.chain)
    ensures Taken(Watching(1, 100), Paid(WORLD, TermsOf(Watching(1, 100)), 0, 1)) == HALF
    ensures Taken(Watching(2, 200), Paid(WORLD, TermsOf(Watching(2, 200)), 0, 1)) == 0
  {
    DemoWorld();
    HalfPays(100, 200, 1);
    HalfData();
    assert Paid(WORLD, TermsOf(Watching(1, 100)), 0, 1) == [HALF];
    assert Paid(WORLD, TermsOf(Watching(2, 200)), 0, 1) == [0];
    TalliedOne(UINT256 - 1, HALF);
    TalliedOne(UINT256 - 1, 0);
  }

  lemma SumTwo(f: Id -> int)
    ensures SumOver(f, [1, 2]) == f(1) + f(2)
  {
    assert [1, 2][..1] == [1] && [1][..0] == [];
  }

  lemma DemoVolume(sweep: Step)
    requires Good(WORLD) && ValidScales(WORLD.chain) && sweep.Sweep? && sweep.expected == 0 && sweep.to == 2
    ensures StepVolume(WORLD, BOTH, sweep, [1, 2], 7) == UINT256
  {
    DemoTaken();
    HalfData();
    SumTwo(Counts(WORLD, BOTH, sweep, 7));
  }

  lemma SweepKeepsTokens(world: World, s: Sys, step: Step)
    requires Good(world) && ValidScales(world.chain) && Inv(world, s) && step.Sweep? && Enabled(world, s, step)
    ensures Do(world, s, step).db.watches.Keys == s.db.watches.Keys
    ensures forall id :: id in s.db.watches ==> Do(world, s, step).db.watches[id].token == s.db.watches[id].token
  {
    SweepCases(world, s, step);
    if Do(world, s, step) != s {
      SweptAged(world, s, step.to, step.leftovers);
      forall id | id in s.db.watches
        ensures Do(world, s, step).db.watches[id].token == s.db.watches[id].token
      {
        assert TermsOf(Do(world, s, step).db.watches[id]) == TermsOf(s.db.watches[id]);
      }
    }
  }

  ghost predicate TwoOf(db: Db, t: Address) {
    db.watches.Keys == {1, 2} && db.watches[1].token == t && db.watches[2].token == t
  }

  lemma GapOfTwo(world: World, db: Db, t: Address)
    requires TwoOf(db, t)
    ensures Gap(world, db, [1, 2], t) == db.watches[1].confirmed + db.watches[2].confirmed - StatOf(db.stats, t).volume
  {
    SumTwo(VolumePart(db, t));
  }

  /** The volume is short of the two totals by 2^256. */
  ghost predicate Short(db: Db, t: Address) {
    TwoOf(db, t) && StatOf(db.stats, t).volume == db.watches[1].confirmed + db.watches[2].confirmed - UINT256
  }

  lemma OpensGap(world: World, db: Db, db': Db, t: Address)
    requires Even(db, t) && TwoOf(db', t)
    requires Gap(world, db', [1, 2], t) == Gap(world, db, [1, 2], t) + 1 * UINT256
    ensures Short(db', t)
  {
    GapOfTwo(world, db, t);
    GapOfTwo(world, db', t);
  }

  ghost predicate Even(db: Db, t: Address) {
    TwoOf(db, t) && db.watches[1].confirmed + db.watches[2].confirmed == StatOf(db.stats, t).volume
  }

  lemma ListsTwo(db: Db, t: Address)
    requires TwoOf(db, t)
    ensures Lists(db.watches, [1, 2])
  {
  }

  lemma SweptShort(world: World, s: Sys, sweep: Step, t: Address)
    requires Good(world) && ValidScales(world.chain) && Inv(world, s) && sweep.Sweep? && Enabled(world, s, sweep)
    requires Even(s.db, t) && Multiples(StepVolume(world, s, sweep, [1, 2], t)) == 1
    ensures Short(Do(world, s, sweep).db, t)
  {
    SweepKeepsTokens(world, s, sweep);
    ListsTwo(s.db, t);
    StepGap(world, s, sweep, [1, 2], t);
    OpensGap(world, s.db, Do(world, s, sweep).db, t);
  }

  /** Two watches without a gap, and a sweep that counts 2^256 for them. */
  lemma WrapOfTwo(world: World, s: Sys, steps: seq<Step>, sweep: Step, t: Address)
    requires Good(world) && ValidScales(world.chain) && Initial(s) && Run(world, s, steps)
    requires Even(After(world, s, steps).db, t) && sweep.Sweep? && Enabled(world, After(world, s, steps), sweep)
    requires Multiples(StepVolume(world, After(world, s, steps), sweep, [1, 2], t)) == 1
    ensures Run(world, s, steps + [sweep]) && Short(After(world, s, steps + [sweep]).db, t)
  {
    RunKeepsInv(world, s, steps);
    SweptShort(world, After(world, s, steps), sweep, t);
    Fleet.RunSnoc(world, s, steps, sweep);
  }

  lemma OneWrap(sweep: Step)
    requires Good(WORLD) && ValidScales(WORLD.chain) && sweep.Sweep? && sweep.expected == 0 && sweep.to == 2
    ensures Multiples(StepVolume(WORLD, BOTH, sweep, [1, 2], 7)) == 1
  {
    DemoVolume(sweep);
    Quotient(UINT256);
  }

  lemma DemoEven()
    ensures Even(BOTH.db, 7)
  {
  }

  /** A reachable state in which the volume is not the sum of the totals: two watches of one token get 2^255 each in one
      chunk. */
  lemma VolumeLost() returns (steps: seq<Step>)
    ensures Good(WORLD) && ValidScales(WORLD.chain) && Initial(BEFORE) && Run(WORLD, BEFORE, steps)
    ensures Short(After(WORLD, BEFORE, steps).db, 7)
  {
    DemoRegistered();
    DemoEven();
    var sweep := DemoSweep();
    OneWrap(sweep);
    WrapOfTwo(WORLD, BEFORE, [FIRST, SECOND], sweep, 7);
    steps := [FIRST, SECOND] + [sweep];
  }

  // ------------------------------------------------------------------ so cutting matters

  lemma DemoRanges()
    ensures Good(WORLD) && ValidScales(WORLD.chain)
    ensures RangeVolume(WORLD, BOTH.db, 1, [1, 2], 7) == HALF && RangeVolume(WORLD, BOTH.db, 2, [1, 2], 7) == UINT256
  {
    DemoTaken();
    DemoTakenFirst();
    HalfData();
    SumTwo(RangeCounts(WORLD, BOTH.db, 1, 7));
    SumTwo(RangeCounts(WORLD, BOTH.db, 2, 7));
  }

  /** Two chunks, neither of which counts 2^256, although both together do. */
  lemma NoCutWraps(world: World, db: Db, a: nat, b: nat, ids: seq<Id>, t: Address)
    requires Good(world) && ValidScales(world.chain)
    requires var x := RangeVolume(world, db, a, ids, t);
             0 <= x < UINT256 && RangeVolume(world, db, b, ids, t) - x < UINT256
    ensures CutWraps(world, db, [a, b], ids, t) == 0
  {
    assert [a, b][..1] == [a] && [a][..0] == [];
    CutWrapsSnoc(world, db, [a, b], ids, t);
    CutWrapsSnoc(world, db, [a], ids, t);
  }

  /** If nothing wraps, all that is counted is added; if 2^256 is counted at once, nothing is. */
  lemma Unwrapped(sum: int, sum': int, volume: int, volume': int, x: int)
    requires sum' == sum + x && Widens(sum - volume, sum' - volume', 0, x)
    ensures volume' == volume + x
  {
  }

  lemma Wrapped(sum: int, sum': int, volume: int, volume': int, x: int)
    requires sum' == sum + x && Widened(sum - volume, sum' - volume', x) && x == UINT256
    ensures volume' == volume
  {
    Quotient(x);
  }

  lemma EvenChunks(world: World, s: Sys, cuts: seq<nat>, los: seq<seq<Key>>, ids: seq<Id>, t: Address)
    requires Good(world) && ValidScales(world.chain) && Inv(world, s) && Lists(s.db.watches, ids)
    requires Cuts(s.db.cursor, cuts)
    requires |los| == |cuts| && LeftoversOk(world, s, cuts, los) && AllCommit(world, s, cuts, los)
    requires CutWraps(world, s.db, cuts, ids, t) == 0
    ensures StatOf(Chunked(world, s, cuts, los).db.stats, t).volume
         == StatOf(s.db.stats, t).volume + CutVolume(world, s.db, cuts, ids, t)
  {
    var chunked := Chunked(world, s, cuts, los).db;
    CutGap(world, s, cuts, los, ids, t);
    CutIntake(world, s, cuts, los, ids, t);
    Unwrapped(Census(world, s.db, ids, t).volume, Census(world, chunked, ids, t).volume,
              StatOf(s.db.stats, t).volume, StatOf(chunked.stats, t).volume, CutVolume(world, s.db, cuts, ids, t));
  }

  lemma SweptNothing(world: World, s: Sys, to: nat, lo: seq<Key>, ids: seq<Id>, t: Address)
    requires Good(world) && ValidScales(world.chain) && Inv(world, s) && Lists(s.db.watches, ids) && s.db.cursor <= to
    requires !SweepJoin(world, s.db, s.db.cursor, to).failed && RangeVolume(world, s.db, to, ids, t) == UINT256
    requires Leftovers(SweepJoin(world, s.db, s.db.cursor, to).db.transfers, to, lo)
    ensures StatOf(SweptSys(world, s, to, lo).db.stats, t).volume == StatOf(s.db.stats, t).volume
  {
    var once := SweptSys(world, s, to, lo).db;
    RangeIntake(world, s, to, lo, ids, t);
    RangeGap(world, s, to, lo, ids, t);
    Wrapped(Census(world, s.db, ids, t).volume, Census(world, once, ids, t).volume,
            StatOf(s.db.stats, t).volume, StatOf(once.stats, t).volume, RangeVolume(world, s.db, to, ids, t));
  }

  /** The same range, swept at once, adds nothing to the volume, and cut into chunks 2^256. */
  ghost predicate CutsMatter(world: World, s: Sys, cuts: seq<nat>, t: Address)
    requires Good(world) && ValidScales(world.chain)
  {
    && cuts != [] && Cuts(s.db.cursor, cuts)
    && exists los, lo :: Differ(world, s, cuts, t, los, lo)
  }

  ghost predicate Differ(world: World, s: Sys, cuts: seq<nat>, t: Address, los: seq<seq<Key>>, lo: seq<Key>)
    requires Good(world) && ValidScales(world.chain) && cuts != [] && Cuts(s.db.cursor, cuts)
  {
    var to := cuts[|cuts| - 1];
    && |los| == |cuts| && LeftoversOk(world, s, cuts, los)
    && Leftovers(SweepJoin(world, s.db, s.db.cursor, to).db.transfers, to, lo)
    && StatOf(Chunked(world, s, cuts, los).db.stats, t).volume == StatOf(s.db.stats, t).volume + UINT256
    && StatOf(SweptSys(world, s, to, lo).db.stats, t).volume == StatOf(s.db.stats, t).volume
  }

  lemma CutOfTwo(world: World, s: Sys, cuts: seq<nat>, t: Address)
    requires Good(world) && ValidScales(world.chain) && Inv(world, s) && TwoOf(s.db, t)
    requires cuts != [] && Cuts(s.db.cursor, cuts) && !Overflows(world, s.db, cuts[|cuts| - 1])
    requires CutWraps(world, s.db, cuts, [1, 2], t) == 0
    requires RangeVolume(world, s.db, cuts[|cuts| - 1], [1, 2], t) == UINT256
    ensures CutsMatter(world, s, cuts, t)
  {
    ListsTwo(s.db, t);
    RolledBackIff(world, s, cuts[|cuts| - 1]);
    var los, lo := CutDiffers(world, s, cuts, [1, 2], t);
  }

  lemma CutDiffers(world: World, s: Sys, cuts: seq<nat>, ids: seq<Id>, t: Address)
      returns (los: seq<seq<Key>>, lo: seq<Key>)
    requires Good(world) && ValidScales(world.chain) && Inv(world, s) && Lists(s.db.watches, ids)
    requires cuts != [] && Cuts(s.db.cursor, cuts) && !SweepJoin(world, s.db, s.db.cursor, cuts[|cuts| - 1]).failed
    requires CutWraps(world, s.db, cuts, ids, t) == 0 && RangeVolume(world, s.db, cuts[|cuts| - 1], ids, t) == UINT256
    ensures Differ(world, s, cuts, t, los, lo)
  {
    var to := cuts[|cuts| - 1];
    los := ChunkLeftovers(world, s, cuts);
    lo := LeftoversExist(SweepJoin(world, s.db, s.db.cursor, to).db.transfers, to);
    AnyChunks(world, s, cuts, los, lo);
    EvenChunks(world, s, cuts, los, ids, t);
    SweptNothing(world, s, to, lo, ids, t);
  }

  /** The leftovers queries of any chunks have answers. */
  lemma {:induction false} ChunkLeftovers(world: World, s: Sys, cuts: seq<nat>) returns (los: seq<seq<Key>>)
    requires Good(world) && ValidScales(world.chain) && Cuts(s.db.cursor, cuts)
    ensures |los| == |cuts| && LeftoversOk(world, s, cuts, los)
  {
    if cuts == [] {
      los := [];
    } else {
      var n := |cuts| - 1;
      FrontCuts(s.db.cursor, cuts);
      var front := ChunkLeftovers(world, s, cuts[..n]);
      var mid := Chunked(world, s, cuts[..n], front);
      var last := LeftoversExist(SweepJoin(world, mid.db, mid.db.cursor, cuts[n]).db.transfers, cuts[n]);
      los := front + [last];
      assert los[..n] == front;
    }
  }

  /** Sweeping (cursor, b] at once and sweeping (cursor, a] and (a, b] differ by 2^256. */
  ghost predicate CutAtMatters(world: World, s: Sys, a: nat, b: nat, t: Address)
    requires Good(world) && ValidScales(world.chain)
  {
    CutsMatter(world, s, [a, b], t)
  }

  lemma CutAt(world: World, s: Sys, a: nat, b: nat, t: Address)
    requires Good(world) && ValidScales(world.chain) && Inv(world, s) && TwoOf(s.db, t) && s.db.cursor <= a <= b
    requires !Overflows(world, s.db, b) && RangeVolume(world, s.db, b, [1, 2], t) == UINT256
    requires 0 < RangeVolume(world, s.db, a, [1, 2], t) < UINT256
    ensures CutAtMatters(world, s, a, b, t)
  {
    TwoCuts(s.db.cursor, [a, b]);
    NoCutWraps(world, s.db, a, b, [1, 2], t);
    CutOfTwo(world, s, [a, b], t);
  }

  lemma TwoCuts(c: nat, cuts: seq<nat>)
    requires |cuts| == 2 && c <= cuts[0] <= cuts[1]
    ensures Cuts(c, cuts)
  {
  }

  lemma DemoKept()
    ensures Good(WORLD) && ValidScales(WORLD.chain) && Inv(WORLD, BOTH) && TwoOf(BOTH.db, 7)
  {
    DemoRegistered();
    RunKeepsInv(WORLD, BEFORE, [FIRST, SECOND]);
  }

  lemma DemoSums()
    ensures Good(WORLD) && ValidScales(WORLD.chain) && !Overflows(WORLD, BOTH.db, 2)
    ensures 0 < RangeVolume(WORLD, BOTH.db, 1, [1, 2], 7) < RangeVolume(WORLD, BOTH.db, 2, [1, 2], 7) == UINT256
  {
    DemoTaken();
    DemoRanges();
    HalfData();
  }

  lemma DemoCut()
    ensures Good(WORLD) && ValidScales(WORLD.chain) && CutAtMatters(WORLD, BOTH, 1, 2, 7)
  {
    DemoKept();
    DemoSums();
    CutAt(WORLD, BOTH, 1, 2, 7);
  }

  /** How a range is cut does change the volume: from one reachable state, a sweep of blocks 1 and 2 adds nothing to
      it, and a sweep of block 1 followed by one of block 2 adds 2^256. */
  lemma CutChangesVolume()
    ensures Good(WORLD) && ValidScales(WORLD.chain) && Initial(BEFORE)
    ensures Run(WORLD, BEFORE, [FIRST, SECOND]) && CutAtMatters(WORLD, After(WORLD, BEFORE, [FIRST, SECOND]), 1, 2, 7)
  {
    DemoRegistered();
    DemoCut();
  }
}
