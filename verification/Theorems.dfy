/** What every run of the protocol guarantees. `After(world, s, steps)` ranges over all reachable states. */
module Theorems {
  import opened Base
  import opened Registry
  import opened Matcher
  import opened Ledger
  import opened Chain
  import opened Join
  import opened Accounts
  import opened Machine
  import opened Books
  import opened BooksSweep
  import opened BooksBackfill
  import opened BooksOther
  import opened Streams
  import opened StreamSteps

  // ------------------------------------------------------------------ the accounting

  /** The total of `w` is that of a scan of the first `n` canonical logs, short of the threshold. */
  ghost predicate ScannedTo(world: World, w: Watch, n: nat)
    requires ValidScales(world.chain)
  {
    n <= |world.canon| && Scan(world.chain, TermsOf(w), world.canon[..n]) == Tally(w.confirmed, false)
  }

  /** Refinement. A watch registered without a backfill that is active or completed has exactly the total and
      status of one in-order pass over the canonical logs up to the cursor that stops at the threshold. */
  lemma Refinement(world: World, s: Sys, steps: seq<Step>, id: Id)
    requires Good(world) && ValidScales(world.chain) && Initial(s) && Run(world, s, steps)
    requires id in After(world, s, steps).db.watches && id !in After(world, s, steps).late
    ensures var now := After(world, s, steps); var w := now.db.watches[id];
            w.status == Active || w.status == Completed ==>
              Tally(w.confirmed, w.status == Completed)
              == Scan(world.chain, TermsOf(w), UpTo(world.canon, now.db.cursor))
    ensures var now := After(world, s, steps); var w := now.db.watches[id];
            w.status == Cancelled || w.status == Expired ==>
              exists n :: 0 <= n <= Height(world.canon, now.db.cursor) && ScannedTo(world, w, n)
  {
    RunKeepsInv(world, s, steps);
    var now := After(world, s, steps);
    assert Accounted(world, now, id);
    if now.db.watches[id].status == Cancelled || now.db.watches[id].status == Expired {
      var n := ScannedPart(world, now.db.watches[id], now.db.cursor);
    }
  }

  lemma ScannedPart(world: World, w: Watch, cursor: nat) returns (n: nat)
    requires Good(world) && ValidScales(world.chain) && w.status != Active && w.status != Completed
    requires AccountedBy(w, Amounts(world.chain, TermsOf(w), UpTo(world.canon, cursor)))
    ensures n <= Height(world.canon, cursor) && ScannedTo(world, w, n)
  {
    var course := Amounts(world.chain, TermsOf(w), UpTo(world.canon, cursor));
    n :| StoppedAt(w, course, n);
    assert course[..n] == Amounts(world.chain, TermsOf(w), world.canon[..n]);
  }

  /** Backfill partition. A watch registered with a backfill, whatever became of it, has the total and status of one
      pass, stopping at the threshold, over the canonical payments above the cursor it recorded up to where its
      backfill committed, then those up to that recorded cursor which nobody had resolved, then those above again;
      or of a part of that pass if it was cancelled or expired. Until the backfill commits, only the first part. */
  lemma BackfillPartition(world: World, s: Sys, steps: seq<Step>, id: Id)
    requires Good(world) && ValidScales(world.chain) && Initial(s) && Run(world, s, steps)
    requires id in After(world, s, steps).db.watches && id in After(world, s, steps).late
    ensures var now := After(world, s, steps); var w := now.db.watches[id]; var b := now.late[id];
            var terms := TermsOf(w);
            && w.start <= b <= now.db.cursor
            && w.backfillTo == (if id in now.filled then None else Some(b))
            && (id in now.filled ==> b <= now.filled[id].at <= now.db.cursor)
            && var course := if id in now.filled
                             then Paid(world, terms, b, now.filled[id].at)
                                 + Missed(world, terms, now.filled[id].found, b)
                                  + Paid(world, terms, now.filled[id].at, now.db.cursor)
                             else Paid(world, terms, b, now.db.cursor);
               && (w.status == Active || w.status == Completed ==>
                     Tally(w.confirmed, w.status == Completed) == Tallied(Tally(0, false), w.threshold, course))
               && (w.status == Cancelled || w.status == Expired ==> exists n :: StoppedAt(w, course, n))
  {
    RunKeepsInv(world, s, steps);
    var now := After(world, s, steps);
    assert WatchOk(now, id) && Accounted(world, now, id);
  }

  // ------------------------------------------------------------------ what the chain paid

  /** All that the canonical logs up to the cursor pay a watch. */
  ghost function ChainTotal(world: World, w: Watch, cursor: nat): nat
    requires Good(world) && ValidScales(world.chain)
  {
    Total(Amounts(world.chain, TermsOf(w), UpTo(world.canon, cursor)))
  }

  lemma {:induction false} TalliedTotal(threshold: nat, amounts: seq<nat>)
    requires threshold > 0
    ensures Tallied(Tally(0, false), threshold, amounts).amount <= Total(amounts)
    ensures Tallied(Tally(0, false), threshold, amounts).done <==> Total(amounts) >= threshold
    ensures Total(amounts) < threshold ==> Tallied(Tally(0, false), threshold, amounts).amount == Total(amounts)
  {
    if amounts != [] {
      TalliedTotal(threshold, amounts[..|amounts| - 1]);
    }
  }

  lemma PaidTotal(world: World, terms: Terms, c: nat, t: nat)
    requires Good(world) && ValidScales(world.chain) && c <= t
    ensures Total(Amounts(world.chain, terms, UpTo(world.canon, t)))
         == Total(Amounts(world.chain, terms, UpTo(world.canon, c))) + Total(Paid(world, terms, c, t))
  {
    SliceExtends(world.canon, c, t);
    AmountsConcat(world.chain, terms, UpTo(world.canon, c), Slice(world.canon, c, t));
    TotalConcat(Amounts(world.chain, terms, UpTo(world.canon, c)), Paid(world, terms, c, t));
  }

  lemma MissedTotal(world: World, terms: Terms, found: set<Key>, b: nat)
    requires Good(world) && ValidScales(world.chain)
    ensures Total(Missed(world, terms, found, b)) + Blocked(world, terms, found, b)
         == Total(Amounts(world.chain, terms, UpTo(world.canon, b)))
  {
    UpToGood(world, b);
    OpenAndBlocked(world.chain, found, terms, UpTo(world.canon, b));
  }

  /** What the chain paid a watch that it never gets to see, or not yet: all up to the cursor it recorded while its
      backfill is outstanding, and what its backfill found resolved afterwards. */
  ghost function Unseen(world: World, s: Sys, id: Id): nat
    requires Good(world) && ValidScales(world.chain) && id in s.db.watches
  {
    var terms := TermsOf(s.db.watches[id]);
    if id !in s.late then 0
    else if id !in s.filled then Total(Amounts(world.chain, terms, UpTo(world.canon, s.late[id])))
    else Blocked(world, terms, s.filled[id].found, s.late[id])
  }

  /** A course holds what the chain paid, less what an outstanding backfill has not reached, less what a committed one
      found resolved. */
  lemma CourseTotal(world: World, s: Sys, id: Id)
    requires Good(world) && ValidScales(world.chain) && id in s.db.watches && WatchOk(s, id)
    ensures Total(Course(world, s, id)) + Unseen(world, s, id) == ChainTotal(world, s.db.watches[id], s.db.cursor)
  {
    var terms := TermsOf(s.db.watches[id]);
    if id in s.late {
      var b := s.late[id];
      PaidTotal(world, terms, b, s.db.cursor);
      if id in s.filled {
        var fill := s.filled[id];
        MissedTotal(world, terms, fill.found, b);
        PaidConcat(world, terms, b, fill.at, s.db.cursor);
        TotalConcat(Paid(world, terms, b, fill.at), Paid(world, terms, fill.at, s.db.cursor));
        TotalConcat(Paid(world, terms, b, fill.at) + Missed(world, terms, fill.found, b),
                    Paid(world, terms, fill.at, s.db.cursor));
        TotalConcat(Paid(world, terms, b, fill.at), Missed(world, terms, fill.found, b));
      }
    }
  }

  lemma {:induction false} PrefixTotal(amounts: seq<nat>, n: nat)
    requires n <= |amounts|
    ensures Total(amounts[..n]) <= Total(amounts)
  {
    if n < |amounts| {
      PrefixTotal(amounts[..|amounts| - 1], n);
      assert amounts[..|amounts| - 1][..n] == amounts[..n];
    } else {
      assert amounts[..n] == amounts;
    }
  }

  lemma CourseBounds(w: Watch, course: seq<nat>)
    requires AccountedBy(w, course) && w.threshold > 0
    ensures w.confirmed <= Total(course)
  {
    TalliedTotal(w.threshold, course);
    if w.status != Active && w.status != Completed {
      var n: nat :| StoppedAt(w, course, n);
      TalliedTotal(w.threshold, course[..n]);
      PrefixTotal(course, n);
    }
  }

  /** No watch ever holds more than the chain paid it, and a completed one was paid its threshold. */
  lemma NeverOvercounts(world: World, s: Sys, steps: seq<Step>, id: Id)
    requires Good(world) && ValidScales(world.chain) && Initial(s) && Run(world, s, steps)
    requires id in After(world, s, steps).db.watches
    ensures var now := After(world, s, steps); var w := now.db.watches[id];
            && w.confirmed <= ChainTotal(world, w, now.db.cursor)
            && (w.status == Completed ==> w.threshold <= ChainTotal(world, w, now.db.cursor))
  {
    RunKeepsInv(world, s, steps);
    var now := After(world, s, steps);
    assert WatchOk(now, id) && Accounted(world, now, id);
    CourseTotal(world, now, id);
    CourseBounds(now.db.watches[id], Course(world, now, id));
  }

  // ------------------------------------------------------------------ when a backfill is complete

  /** No payment of the watch up to `b` is resolved: what a caller can check before the backfill commits. */
  ghost predicate Clean(world: World, rows: map<Key, Row>, terms: Terms, b: nat)
    requires Good(world) && ValidScales(world.chain)
  {
    forall i :: 0 <= i < Height(world.canon, b) && Pay(world.chain, terms, world.canon[i]) > 0 ==>
      !Resolved(rows, world.canon[i].Key())
  }

  lemma {:induction false} BlockedZeroIff(chain: ChainSpec, found: set<Key>, terms: Terms, logs: seq<Log>)
    requires ValidScales(chain) && Ordered(logs)
    ensures Total(BlockedAmounts(chain, found, terms, logs)) == 0 <==>
              forall i :: 0 <= i < |logs| && Pay(chain, terms, logs[i]) > 0 ==> logs[i].Key() !in found
  {
    var amounts := BlockedAmounts(chain, found, terms, logs);
    ZeroTotalIff(amounts);
    assert forall i :: 0 <= i < |logs| ==>
             (amounts[i] == 0 <==> (Pay(chain, terms, logs[i]) > 0 ==> logs[i].Key() !in found));
  }

  lemma {:induction false} ZeroTotalIff(amounts: seq<nat>)
    ensures Total(amounts) == 0 <==> forall i :: 0 <= i < |amounts| ==> amounts[i] == 0
  {
    if amounts != [] {
      var n := |amounts| - 1;
      ZeroTotalIff(amounts[..n]);
      assert forall i :: 0 <= i < n ==> amounts[..n][i] == amounts[i];
    }
  }

  lemma CleanIff(world: World, rows: map<Key, Row>, terms: Terms, b: nat)
    requires Good(world) && ValidScales(world.chain)
    ensures Clean(world, rows, terms, b) <==> Blocked(world, terms, ResolvedKeys(rows), b) == 0
  {
    UpToGood(world, b);
    BlockedZeroIff(world.chain, ResolvedKeys(rows), terms, UpTo(world.canon, b));
    assert forall i :: 0 <= i < Height(world.canon, b) ==> UpTo(world.canon, b)[i] == world.canon[i];
  }

  /** What a backfill that commits makes of an active watch it was outstanding for: completed exactly if what the chain
      paid, less what was resolved before, reaches the threshold; else active with exactly that total. */
  lemma BackfillVerdict(world: World, s: Sys, step: Step, id: Id)
    requires Good(world) && ValidScales(world.chain) && Inv(world, s) && step.Backfill? && Enabled(world, s, step)
    requires IsActive(s.db.watches, id) && Outstanding(s.db.watches, BatchIds(step.batch), id)
    requires Do(world, s, step) != s
    ensures id in s.late && id in Do(world, s, step).db.watches
    ensures var w := s.db.watches[id]; var w' := Do(world, s, step).db.watches[id];
            var paid := ChainTotal(world, w, s.db.cursor) - Blocked(world, TermsOf(w), ResolvedKeys(s.db.transfers),
                                                                    s.late[id]);
            && TermsOf(w') == TermsOf(w) && w'.backfillTo.None?
            && w'.status == (if paid >= w.threshold then Completed else Active)
            && (w'.status == Active ==> w'.confirmed == paid)
  {
    BackfillCases(world, s, step);
    assert WatchOk(s, id) && Accounted(world, s, id);
    BackfilledVerdict(world, s, step.batch, id);
  }

  lemma BackfilledVerdict(world: World, s: Sys, batch: seq<PendingBackfill>, id: Id)
    requires Good(world) && ValidScales(world.chain) && UniqueActive(s.db.watches) && id in s.db.watches
    requires WatchOk(s, id)
    requires BatchOk(s, batch) && !BackfillJoin(world, s.db, batch).failed
    requires Outstanding(s.db.watches, BatchIds(batch), id)
    requires Accounted(world, s, id) && s.db.watches[id].status == Active
    ensures id in s.late && id in BackfilledSys(world, s, batch).db.watches
    ensures var w := s.db.watches[id]; var w' := BackfilledSys(world, s, batch).db.watches[id];
            var paid := ChainTotal(world, w, s.db.cursor) - Blocked(world, TermsOf(w), ResolvedKeys(s.db.transfers),
                                                                    s.late[id]);
            && TermsOf(w') == TermsOf(w) && w'.backfillTo.None?
            && w'.status == (if paid >= w.threshold then Completed else Active)
            && (w'.status == Active ==> w'.confirmed == paid)
  {
    var w := s.db.watches[id];
    var missed := Missed(world, TermsOf(w), ResolvedKeys(s.db.transfers), s.late[id]);
    FilledWatch(world, s, batch, id);
    TalliedConcat(Tally(0, false), w.threshold, Course(world, s, id), missed);
    TalliedTotal(w.threshold, Course(world, s, id) + missed);
    TotalConcat(Course(world, s, id), missed);
    CourseTotal(world, s, id);
    MissedTotal(world, TermsOf(w), ResolvedKeys(s.db.transfers), s.late[id]);
  }

  /** The watch is as the chain has it: completed exactly if it was paid its threshold, and with all it was paid
      while it is active. */
  ghost predicate AsPaid(world: World, w: Watch, cursor: nat)
    requires Good(world) && ValidScales(world.chain)
  {
    && (w.status == Completed <==> ChainTotal(world, w, cursor) >= w.threshold)
    && (w.status == Active ==> w.confirmed == ChainTotal(world, w, cursor))
  }

  /** A backfill leaves its watch as the chain has it if and only if no payment it needed had been resolved before, or
      what was left still reaches the threshold. */
  lemma BackfillCompleteIff(world: World, s: Sys, step: Step, id: Id)
    requires Good(world) && ValidScales(world.chain) && Inv(world, s) && step.Backfill? && Enabled(world, s, step)
    requires IsActive(s.db.watches, id) && Outstanding(s.db.watches, BatchIds(step.batch), id)
    requires Do(world, s, step) != s
    ensures id in s.late && id in Do(world, s, step).db.watches
    ensures var w := s.db.watches[id]; var terms := TermsOf(w); var b := s.late[id];
            AsPaid(world, Do(world, s, step).db.watches[id], s.db.cursor)
            <==> || Clean(world, s.db.transfers, terms, b)
                 || ChainTotal(world, w, s.db.cursor) >= w.threshold
                     + Blocked(world, terms, ResolvedKeys(s.db.transfers), b)
  {
    BackfillVerdict(world, s, step, id);
    CleanIff(world, s.db.transfers, TermsOf(s.db.watches[id]), s.late[id]);
    AsPaidIff(world, Do(world, s, step).db.watches[id], s.db.cursor,
              Blocked(world, TermsOf(s.db.watches[id]), ResolvedKeys(s.db.transfers), s.late[id]));
  }

  lemma AsPaidIff(world: World, w: Watch, cursor: nat, blocked: nat)
    requires Good(world) && ValidScales(world.chain)
    requires w.status == if ChainTotal(world, w, cursor) - blocked >= w.threshold then Completed else Active
    requires w.status == Active ==> w.confirmed == ChainTotal(world, w, cursor) - blocked
    ensures AsPaid(world, w, cursor) <==> blocked == 0 || ChainTotal(world, w, cursor) >= w.threshold + blocked
  {
  }

  /** In every reachable state, an active or completed watch is as the chain has it if and only if nothing it was paid
      is unseen, or what it saw reaches the threshold. In particular it is if it was registered without a backfill, or
      if its backfill has committed and found nothing resolved. */
  lemma AsPaidRunIff(world: World, s: Sys, steps: seq<Step>, id: Id)
    requires Good(world) && ValidScales(world.chain) && Initial(s) && Run(world, s, steps)
    requires id in After(world, s, steps).db.watches
    requires var w := After(world, s, steps).db.watches[id]; w.status == Active || w.status == Completed
    ensures var now := After(world, s, steps); var w := now.db.watches[id]; var unseen := Unseen(world, now, id);
            AsPaid(world, w, now.db.cursor)
            <==> unseen == 0 || ChainTotal(world, w, now.db.cursor) >= w.threshold + unseen
  {
    RunKeepsInv(world, s, steps);
    var now := After(world, s, steps);
    assert WatchOk(now, id) && Accounted(world, now, id);
    CourseTotal(world, now, id);
    TalliedTotal(now.db.watches[id].threshold, Course(world, now, id));
    AsPaidIff(world, now.db.watches[id], now.db.cursor, Unseen(world, now, id));
  }

  /** Threshold exactness: active, cancelled and expired watches are strictly below their threshold, completed ones
      at or above it by less than their last counted amount; totals are uint256 values; one active watch a target. */
  lemma ThresholdExact(world: World, s: Sys, steps: seq<Step>, id: Id)
    requires Good(world) && ValidScales(world.chain) && Initial(s) && Run(world, s, steps)
    requires id in After(world, s, steps).db.watches
    ensures var now := After(world, s, steps).db; var w := now.watches[id];
            && (w.status != Completed <==> w.confirmed < w.threshold)
            && w.confirmed < UINT256
            && id in now.events
            && (w.status == Completed ==>
                  var es := now.events[id];
                  && |es| > 1 && es[|es| - 2].kind == PaymentConfirmed && es[|es| - 1].kind == ThresholdReached
                  && w.confirmed - Credit(es[|es| - 2]) < w.threshold)
    ensures UniqueActive(After(world, s, steps).db.watches)
  {
    RunKeepsInv(world, s, steps);
    RunStreams(world, s, steps);
    var now := After(world, s, steps);
    assert WatchOk(now, id) && StreamOk(now.db.watches[id], now.db.events[id]);
  }

  /** Whatever a sweep or backfill writes as a total, before it is checked, fits the column: from any reachable state,
      at any point of the transaction, whatever it counted so far and for whichever watches. */
  lemma WrittenFits(world: World, s: Sys, steps: seq<Step>, scope: Scope, logs: seq<Log>, id: Id, log: Log)
    requires Good(world) && ValidScales(world.chain) && Initial(s) && Run(world, s, steps) && Ordered(logs)
    requires IsActive(JoinedAll(world.chain, Begin(After(world, s, steps).db), scope, logs).db.watches, id)
    ensures var w := JoinedAll(world.chain, Begin(After(world, s, steps).db), scope, logs).db.watches[id];
            w.confirmed + Pay(world.chain, TermsOf(w), log) < 2 * UINT256 < NUMERIC_78
  {
    RunKeepsInv(world, s, steps);
    var now := After(world, s, steps);
    JoinedAged(world.chain, Begin(now.db), scope, logs);
    assert WatchOk(now, id);
    JoinedBounded(world.chain, Begin(now.db), scope, logs, id);
    var w := JoinedAll(world.chain, Begin(now.db), scope, logs).db.watches[id];
    PayAmountBound(world.chain, w.token, w.payee, w.start, log);
  }

  // ------------------------------------------------------------------ rows

  /** Orphan soundness: a canonical log is orphaned only for a watch that was registered with a backfill reaching
      it; confirmed and ignored rows are canonical; resolved rows are at or below the cursor. */
  lemma OrphanSound(world: World, s: Sys, steps: seq<Step>, k: Key)
    requires Good(world) && ValidScales(world.chain) && Initial(s) && Run(world, s, steps)
    requires k in After(world, s, steps).db.transfers
    ensures var now := After(world, s, steps); var row := now.db.transfers[k];
            && (row.status == Orphaned && Canonical(world, k) ==>
                  row.watchId in now.late && row.block <= now.late[row.watchId])
            && (row.status == Confirmed || row.status == Ignored ==> Canonical(world, k))
            && (row.status != Pending ==> row.block <= now.db.cursor)
  {
    RunKeepsInv(world, s, steps);
    var now := After(world, s, steps);
    assert OrphanOk(world, now, k) && RowOk(world, now.db, k);
  }

  /** Right after an applied sweep nothing at or below the cursor is pending. */
  lemma SweepSettlesAll(world: World, s: Sys, step: Step, k: Key)
    requires Good(world) && ValidScales(world.chain) && Inv(world, s) && step.Sweep? && Enabled(world, s, step)
    requires Do(world, s, step) != s && k in Do(world, s, step).db.transfers
    ensures Do(world, s, step).db.cursor == step.to
    ensures Do(world, s, step).db.transfers[k].status == Pending ==> Do(world, s, step).db.transfers[k].block > step.to
  {
    SweepCases(world, s, step);
    SliceGood(world, s.db.cursor, step.to);
    SweptRowsHold(world, s, step.to, step.leftovers);
  }

  /** At most once: over all watches a log is counted at most once, and exactly when its row is confirmed. */
  lemma AtMostOnce(world: World, s: Sys, steps: seq<Step>, k: Key)
    requires Good(world) && ValidScales(world.chain) && Initial(s) && Run(world, s, steps)
    ensures var now := After(world, s, steps).db;
            && (forall id, i, id', i' ::
                  ReportedAt(now.events, id, i, PaymentConfirmed, k)
                      && ReportedAt(now.events, id', i', PaymentConfirmed, k) ==>
                    id == id' && i == i')
            && ((exists id, i :: ReportedAt(now.events, id, i, PaymentConfirmed, k))
                <==> k in now.transfers && now.transfers[k].status == Confirmed)
  {
    RunStreams(world, s, steps);
    var now := After(world, s, steps).db;
    forall id, i | ReportedAt(now.events, id, i, PaymentConfirmed, k)
      ensures k in now.transfers && now.transfers[k].status == Confirmed
    {
      NotYetReported(now.transfers, now.events, id, i, PaymentConfirmed, k);
    }
    if k in now.transfers {
      assert RowLinked(now.transfers, now.events, k);
    }
  }

  /** A pending report of `k` precedes position `i` of the stream. */
  ghost predicate PendingBefore(events: map<Id, seq<Event>>, id: Id, i: nat, k: Key) {
    exists j :: 0 <= j < i && ReportedAt(events, id, j, PaymentPending, k)
  }

  lemma OrphanAfterPending(db: Db, id: Id, i: nat, k: Key)
    requires Linked(db.transfers, db.events) && ReportedAt(db.events, id, i, PaymentOrphaned, k)
    ensures PendingBefore(db.events, id, i, k)
    ensures forall id', i' :: !ReportedAt(db.events, id', i', PaymentConfirmed, k)
  {
    assert EventLinked(db.transfers, db.events, id, i);
    forall id', i' | ReportedAt(db.events, id', i', PaymentConfirmed, k)
      ensures false
    {
      NotYetReported(db.transfers, db.events, id', i', PaymentConfirmed, k);
    }
  }

  /** A log never gets both a confirmed and an orphaned report, and an orphaned report follows its own pending one. */
  lemma ReportsConsistent(world: World, s: Sys, steps: seq<Step>, id: Id, i: nat, k: Key)
    requires Good(world) && ValidScales(world.chain) && Initial(s) && Run(world, s, steps)
    requires ReportedAt(After(world, s, steps).db.events, id, i, PaymentOrphaned, k)
    ensures PendingBefore(After(world, s, steps).db.events, id, i, k)
    ensures forall id', i' :: !ReportedAt(After(world, s, steps).db.events, id', i', PaymentConfirmed, k)
  {
    RunStreams(world, s, steps);
    OrphanAfterPending(After(world, s, steps).db, id, i, k);
  }

  /** The event stream of a watch: sequence numbers 1, 2, ..., `nextEventSeq`, each with the running total of the
      confirmed amounts; their sum is the watch's total; a terminal event is unique and last. */
  lemma EventStream(world: World, s: Sys, steps: seq<Step>, id: Id)
    requires Good(world) && ValidScales(world.chain) && Initial(s) && Run(world, s, steps)
    requires id in After(world, s, steps).db.watches
    ensures var now := After(world, s, steps).db; var w := now.watches[id];
            && id in now.events
            && var es := now.events[id];
               && |es| == w.nextEventSeq && Credits(es) == w.confirmed
               && (forall i :: 0 <= i < |es| ==>
                     es[i].sequence == i + 1 && es[i].confirmedAmount == Credits(es[..i + 1])
                         && (Terminal(es[i].kind) ==> i == |es| - 1))
               && ((exists i :: 0 <= i < |es| && es[i].kind == ThresholdReached) <==> w.status == Completed)
               && ((exists i :: 0 <= i < |es| && es[i].kind == WatchExpired) <==> w.status == Expired)
  {
    RunStreams(world, s, steps);
    var now := After(world, s, steps).db;
    var es := now.events[id];
    assert StreamOk(now.watches[id], es);
    forall i | 0 <= i < |es|
      ensures es[i].sequence == i + 1 && es[i].confirmedAmount == Credits(es[..i + 1])
              && (Terminal(es[i].kind) ==> i == |es| - 1)
    {
      assert EventOk(es, i);
    }
  }

  // ------------------------------------------------------------------ the cursor

  lemma {:induction false} RunPrefix(world: World, s: Sys, steps: seq<Step>, n: nat)
    requires Good(world) && ValidScales(world.chain) && Run(world, s, steps) && n <= |steps|
    ensures Run(world, s, steps[..n])
  {
    if n < |steps| {
      assert steps[..|steps| - 1][..n] == steps[..n];
      RunPrefix(world, s, steps[..|steps| - 1], n);
    } else {
      assert steps[..n] == steps;
    }
  }

  /** The state after the first `n` steps. */
  ghost function StateAt(world: World, s: Sys, steps: seq<Step>, n: nat): Sys
    requires Good(world) && ValidScales(world.chain) && Run(world, s, steps) && n <= |steps|
  {
    RunPrefix(world, s, steps, n);
    After(world, s, steps[..n])
  }

  ghost function CursorAt(world: World, s: Sys, steps: seq<Step>, n: nat): nat
    requires Good(world) && ValidScales(world.chain) && Run(world, s, steps) && n <= |steps|
  {
    StateAt(world, s, steps, n).db.cursor
  }

  /** A step moves the cursor forward only: by a sweep planned from exactly where it stands, or over blocks below the
      start of every active watch. A sweep planned from anywhere else writes nothing. */
  ghost predicate MovesCursor(world: World, s: Sys, step: Step)
    requires Good(world) && ValidScales(world.chain) && Enabled(world, s, step)
  {
    var c, c' := s.db.cursor, Do(world, s, step).db.cursor;
    && c <= c'
    && (c < c' ==>
       || (step.Sweep? && step.expected == c && step.to == c')
       || (step.FastForward? && forall id :: IsActive(s.db.watches, id) ==> c' < s.db.watches[id].start))
    && (step.Sweep? && step.expected != c ==> Do(world, s, step) == s)
  }

  lemma {:induction false} ExpireKeepsCursor(db: Db, ids: seq<Id>, now: nat)
    ensures ExpiredDb(db, ids, now).cursor == db.cursor
  {
    if ids != [] {
      ExpireKeepsCursor(db, ids[..|ids| - 1], now);
    }
  }

  lemma StepMovesCursor(world: World, s: Sys, step: Step)
    requires Good(world) && ValidScales(world.chain) && Enabled(world, s, step)
    ensures MovesCursor(world, s, step)
  {
    match step
    case Expire(ids, now) => ExpireKeepsCursor(s.db, ids, now);
    case FastForward(target, min) =>
      forall id | IsActive(s.db.watches, id) && Do(world, s, step).db.cursor > s.db.cursor
        ensures Do(world, s, step).db.cursor < s.db.watches[id].start
      {
        SkipBelowActive(s.db, target, min, id);
      }
    case _ =>
  }

  lemma {:induction false} CursorMonotone(world: World, s: Sys, steps: seq<Step>, i: nat, j: nat)
    requires Good(world) && ValidScales(world.chain) && Run(world, s, steps) && i <= j <= |steps|
    ensures CursorAt(world, s, steps, i) <= CursorAt(world, s, steps, j)
  {
    if i < j {
      CursorMonotone(world, s, steps, i, j - 1);
      CursorStep(world, s, steps, j - 1);
    }
  }

  lemma RunStep(world: World, s: Sys, steps: seq<Step>, i: nat)
    requires Good(world) && ValidScales(world.chain) && Run(world, s, steps) && i < |steps|
    ensures Run(world, s, steps[..i]) && Enabled(world, After(world, s, steps[..i]), steps[i])
    ensures Run(world, s, steps[..i + 1])
    ensures After(world, s, steps[..i + 1]) == Do(world, After(world, s, steps[..i]), steps[i])
  {
    RunPrefix(world, s, steps, i + 1);
    assert steps[..i + 1][..i] == steps[..i];
  }

  lemma CursorStep(world: World, s: Sys, steps: seq<Step>, i: nat)
    requires Good(world) && ValidScales(world.chain) && Run(world, s, steps) && i < |steps|
    ensures Run(world, s, steps[..i]) && Enabled(world, After(world, s, steps[..i]), steps[i])
    ensures MovesCursor(world, After(world, s, steps[..i]), steps[i])
    ensures StateAt(world, s, steps, i) == After(world, s, steps[..i])
    ensures StateAt(world, s, steps, i + 1) == Do(world, After(world, s, steps[..i]), steps[i])
  {
    RunStep(world, s, steps, i);
    StepMovesCursor(world, After(world, s, steps[..i]), steps[i]);
  }

  /** Step `i` takes the cursor past block `b`. */
  ghost predicate Passes(world: World, s: Sys, steps: seq<Step>, i: nat, b: nat)
    requires Good(world) && ValidScales(world.chain) && Run(world, s, steps) && i < |steps|
  {
    CursorAt(world, s, steps, i) < b <= CursorAt(world, s, steps, i + 1)
  }

  /** Cursor history: every block the cursor has passed was passed by exactly one step of the run, and that step
      either scanned it or skipped it while it lay below the start of every active watch. Sweeps planned from a cursor
      that had moved wrote nothing. */
  lemma CursorHistory(world: World, s: Sys, steps: seq<Step>, b: nat) returns (i: nat)
    requires Good(world) && ValidScales(world.chain) && Run(world, s, steps)
    requires s.db.cursor < b <= After(world, s, steps).db.cursor
    ensures i < |steps| && Passes(world, s, steps, i, b)
    ensures forall j :: 0 <= j < |steps| && Passes(world, s, steps, j, b) ==> j == i
    ensures Run(world, s, steps[..i])
    ensures || (steps[i].Sweep? && steps[i].expected < b <= steps[i].to)
            || (steps[i].FastForward? && forall id :: IsActive(After(world, s, steps[..i]).db.watches, id) ==>
                  b < After(world, s, steps[..i]).db.watches[id].start)
    ensures forall j :: 0 <= j < |steps| && steps[j].Sweep? && steps[j].expected != CursorAt(world, s, steps, j) ==>
              StateAt(world, s, steps, j + 1) == StateAt(world, s, steps, j)
  {
    assert steps[..|steps|] == steps;
    i := FindPassing(world, s, steps, b, |steps|);
    forall j | 0 <= j < |steps| && Passes(world, s, steps, j, b)
      ensures j == i
    {
      if j < i {
        CursorMonotone(world, s, steps, j + 1, i);
      } else if i < j {
        CursorMonotone(world, s, steps, i + 1, j);
      }
    }
    CursorStep(world, s, steps, i);
    forall j | 0 <= j < |steps| && steps[j].Sweep? && steps[j].expected != CursorAt(world, s, steps, j)
      ensures StateAt(world, s, steps, j + 1) == StateAt(world, s, steps, j)
    {
      CursorStep(world, s, steps, j);
    }
  }

  lemma {:induction false} FindPassing(world: World, s: Sys, steps: seq<Step>, b: nat, n: nat) returns (i: nat)
    requires Good(world) && ValidScales(world.chain) && Run(world, s, steps) && n <= |steps|
    requires s.db.cursor < b <= CursorAt(world, s, steps, n)
    ensures i < |steps| && Passes(world, s, steps, i, b)
  {
    assert steps[..0] == [];
    if CursorAt(world, s, steps, n - 1) < b {
      i := n - 1;
    } else {
      i := FindPassing(world, s, steps, b, n - 1);
    }
  }
}
