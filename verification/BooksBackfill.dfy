/** A backfill keeps the books, and counts exactly the blocks its watches were registered too late for. */
module BooksBackfill {
  import opened Base
  import opened Registry
  import opened Matcher
  import opened Ledger
  import opened Chain
  import opened Join
  import opened Accounts
  import opened Machine
  import opened Books
  import opened BooksSweep

  /** The state a backfill commits, described without its answer. */
  ghost function BackfilledSys(world: World, s: Sys, batch: seq<PendingBackfill>): Sys
    requires Good(world) && ValidScales(world.chain)
  {
    var tx := BackfillJoin(world, s.db, batch);
    var done := tx.(db := tx.db.(watches := BackfillsDone(tx.db.watches, BatchIds(batch))));
    s.(db := Committed(done, s.db, s.db.cursor), filled := FilledAfter(s, batch))
  }

  lemma BackfillCases(world: World, s: Sys, step: Step)
    requires Good(world) && ValidScales(world.chain) && Shape(s) && step.Backfill? && Enabled(world, s, step)
    ensures Do(world, s, step) == s
         || (!BackfillJoin(world, s.db, step.batch).failed && Do(world, s, step) == BackfilledSys(world, s, step.batch))
  {
    BackfillIsJoin(world, s, step.batch, step.logs);
  }

  // ------------------------------------------------------------------ effects of a batch on one watch

  lemma TotalSnoc(amounts: seq<nat>, a: nat)
    ensures Total(amounts + [a]) == Total(amounts) + a
  {
    assert (amounts + [a])[..|amounts|] == amounts;
  }

  lemma AmountsSnoc(chain: ChainSpec, terms: Terms, logs: seq<Log>)
    requires ValidScales(chain) && logs != []
    ensures Amounts(chain, terms, logs) == Amounts(chain, terms, logs[..|logs| - 1])
            + [Pay(chain, terms, logs[|logs| - 1])]
  {
  }

  lemma OpenSnoc(chain: ChainSpec, found: set<Key>, terms: Terms, logs: seq<Log>)
    requires ValidScales(chain) && Ordered(logs) && logs != []
    ensures var n := |logs| - 1; var pay := Pay(chain, terms, logs[n]); var hit := logs[n].Key() in found;
            && OpenAmounts(chain, found, terms, logs) == OpenAmounts(chain, found, terms, logs[..n])
               + [if hit then 0 else pay]
            && BlockedAmounts(chain, found, terms, logs) == BlockedAmounts(chain, found, terms, logs[..n])
               + [if hit then pay else 0]
  {
  }

  /** What was found resolved and what was not add up to everything. */
  lemma {:induction false} OpenAndBlocked(chain: ChainSpec, found: set<Key>, terms: Terms, logs: seq<Log>)
    requires ValidScales(chain) && Ordered(logs)
    ensures Total(OpenAmounts(chain, found, terms, logs)) + Total(BlockedAmounts(chain, found, terms, logs))
         == Total(Amounts(chain, terms, logs))
  {
    if logs != [] {
      var n := |logs| - 1;
      OpenAndBlocked(chain, found, terms, logs[..n]);
      var pay, hit := Pay(chain, terms, logs[n]), logs[n].Key() in found;
      OpenSnoc(chain, found, terms, logs);
      AmountsSnoc(chain, terms, logs);
      TotalSnoc(OpenAmounts(chain, found, terms, logs[..n]), if hit then 0 else pay);
      TotalSnoc(BlockedAmounts(chain, found, terms, logs[..n]), if hit then pay else 0);
      TotalSnoc(Amounts(chain, terms, logs[..n]), pay);
    }
  }

  lemma EffectsConcat(chain: ChainSpec, rows: map<Key, Row>, scope: Scope, id: Id, terms: Terms, logs: seq<Log>, h: nat)
    requires ValidScales(chain) && Ordered(logs) && h <= |logs| && Ordered(logs[..h]) && Ordered(logs[h..])
    ensures Effects(chain, rows, scope, id, terms, logs)
         == Effects(chain, rows, scope, id, terms, logs[..h]) + Effects(chain, rows, scope, id, terms, logs[h..])
  {
  }

  /** A watch outside the batch is not touched. */
  lemma BackfillSpares(world: World, s: Sys, batch: seq<PendingBackfill>, id: Id)
    requires Good(world) && ValidScales(world.chain) && UniqueActive(s.db.watches) && id in s.db.watches
    requires WatchOk(s, id)
    requires !BackfillJoin(world, s.db, batch).failed && id !in BatchUntil(world.chain, batch)
    ensures id in BackfillJoin(world, s.db, batch).db.watches
    ensures var w := s.db.watches[id]; var w' := BackfillJoin(world, s.db, batch).db.watches[id];
            w' == w.(nextEventSeq := w'.nextEventSeq)
  {
    CanonGood(world);
    var scope := Only(BatchUntil(world.chain, batch));
    var w := s.db.watches[id];
    JoinedTally(world.chain, Begin(s.db), scope, world.canon, id);
    if w.status == Active {
      TalliedZeros(Tally(w.confirmed, false), w.threshold,
                   Effects(world.chain, s.db.transfers, scope, id, TermsOf(w), world.canon));
    }
  }

  /** A backfill that is not outstanding has nothing to count for its watch: all it could count is resolved. */
  lemma RerunEffects(world: World, s: Sys, batch: seq<PendingBackfill>, id: Id)
    requires Good(world) && ValidScales(world.chain) && id in s.db.watches && WatchOk(s, id) && BatchOk(s, batch)
    requires Covered(world, s, id) && s.db.watches[id].backfillTo.None? && s.db.watches[id].status == Active
    ensures var w := s.db.watches[id];
            forall i :: 0 <= i < |world.canon| ==>
              Effects(world.chain, s.db.transfers, Only(BatchUntil(world.chain, batch)), id, TermsOf(w),
                      world.canon)[i] == 0
  {
    BatchUntilFacts(s, world.chain, batch);
    var until, w := BatchUntil(world.chain, batch), s.db.watches[id];
    forall i | 0 <= i < |world.canon|
      ensures Effects(world.chain, s.db.transfers, Only(until), id, TermsOf(w), world.canon)[i] == 0
    {
      if Eligible(Only(until), id, world.canon[i].block.value) && Pay(world.chain, TermsOf(w), world.canon[i]) > 0 {
        assert Due(world, w, i) && i < Height(world.canon, s.db.cursor);
      }
    }
  }

  /** Running a backfill again, in a stale batch, counts nothing: every log it could count is resolved. */
  lemma RerunCountsNothing(world: World, s: Sys, batch: seq<PendingBackfill>, id: Id)
    requires Good(world) && ValidScales(world.chain) && UniqueActive(s.db.watches) && id in s.db.watches
    requires WatchOk(s, id)
    requires BatchOk(s, batch) && Covered(world, s, id) && s.db.watches[id].backfillTo.None?
    requires !BackfillJoin(world, s.db, batch).failed
    ensures id in BackfillJoin(world, s.db, batch).db.watches
    ensures var w := s.db.watches[id]; var w' := BackfillJoin(world, s.db, batch).db.watches[id];
            w' == w.(nextEventSeq := w'.nextEventSeq)
  {
    CanonGood(world);
    var scope := Only(BatchUntil(world.chain, batch));
    var w := s.db.watches[id];
    JoinedTally(world.chain, Begin(s.db), scope, world.canon, id);
    if w.status == Active {
      RerunEffects(world, s, batch, id);
      TalliedZeros(Tally(w.confirmed, false), w.threshold,
                   Effects(world.chain, s.db.transfers, scope, id, TermsOf(w), world.canon));
    }
  }

  /** A watch whose token is not configured is paid by nothing. */
  lemma DormantUnpaid(world: World, w: Watch, logs: seq<Log>)
    requires Good(world) && ValidScales(world.chain) && CacheKey(world.chain, w).None?
    ensures Total(Amounts(world.chain, TermsOf(w), logs)) == 0
    ensures forall l :: Pay(world.chain, TermsOf(w), l) == 0
  {
    TalliedZeros(Tally(0, false), 1, Amounts(world.chain, TermsOf(w), logs));
  }

  // ------------------------------------------------------------------ the invariant

  lemma DoneWatch(watches: map<Id, Watch>, ids: set<Id>, id: Id)
    requires id in watches
    ensures id in BackfillsDone(watches, ids)
    ensures BackfillsDone(watches, ids)[id] == if id in ids then watches[id].(backfillTo := None) else watches[id]
  {
  }

  lemma BackfilledWatch(world: World, s: Sys, batch: seq<PendingBackfill>, id: Id)
    requires Good(world) && ValidScales(world.chain) && id in BackfillJoin(world, s.db, batch).db.watches
    ensures id in BackfilledSys(world, s, batch).db.watches
    ensures var w := BackfillJoin(world, s.db, batch).db.watches[id];
            BackfilledSys(world, s, batch).db.watches[id] == if id in BatchIds(batch) then w.(backfillTo := None) else w
  {
    DoneWatch(BackfillJoin(world, s.db, batch).db.watches, BatchIds(batch), id);
  }

  ghost predicate Fillable(world: World, s: Sys, batch: seq<PendingBackfill>)
    requires Good(world) && ValidScales(world.chain)
  {
    Inv(world, s) && BatchOk(s, batch) && !BackfillJoin(world, s.db, batch).failed
  }

  lemma FilledAfterAt(s: Sys, batch: seq<PendingBackfill>, id: Id)
    ensures id in FilledAfter(s, batch) <==> id in s.filled || Outstanding(s.db.watches, BatchIds(batch), id)
    ensures Outstanding(s.db.watches, BatchIds(batch), id) ==>
              FilledAfter(s, batch)[id] == Fill(s.db.cursor, ResolvedKeys(s.db.transfers))
    ensures !Outstanding(s.db.watches, BatchIds(batch), id) && id in s.filled ==>
              FilledAfter(s, batch)[id] == s.filled[id]
  {
  }

  lemma BackfilledAccounted(world: World, s: Sys, batch: seq<PendingBackfill>, id: Id)
    requires Good(world) && ValidScales(world.chain) && Fillable(world, s, batch) && id in s.db.watches
    ensures id in BackfilledSys(world, s, batch).db.watches
    ensures Accounted(world, BackfilledSys(world, s, batch), id)
  {
    assert WatchOk(s, id) && Accounted(world, s, id) && Covered(world, s, id);
    if Outstanding(s.db.watches, BatchIds(batch), id) {
      AccountedFilled(world, s, batch, id);
    } else {
      AccountedUnfilled(world, s, batch, id);
    }
  }

  /** A batch leaves a watch alone whose backfill it does not run. */
  lemma UnfilledWatch(world: World, s: Sys, batch: seq<PendingBackfill>, id: Id)
    requires Good(world) && ValidScales(world.chain) && UniqueActive(s.db.watches) && id in s.db.watches
    requires WatchOk(s, id)
    requires BatchOk(s, batch) && !BackfillJoin(world, s.db, batch).failed
    requires Covered(world, s, id) && !Outstanding(s.db.watches, BatchIds(batch), id)
    ensures id in BackfilledSys(world, s, batch).db.watches
    ensures var w := s.db.watches[id]; var w' := BackfilledSys(world, s, batch).db.watches[id];
            w' == w.(nextEventSeq := w'.nextEventSeq)
  {
    BatchUntilFacts(s, world.chain, batch);
    if id in BatchUntil(world.chain, batch) {
      RerunCountsNothing(world, s, batch, id);
    } else {
      BackfillSpares(world, s, batch, id);
    }
    BackfilledWatch(world, s, batch, id);
  }

  lemma AccountedUnfilled(world: World, s: Sys, batch: seq<PendingBackfill>, id: Id)
    requires Good(world) && ValidScales(world.chain) && UniqueActive(s.db.watches) && id in s.db.watches
    requires WatchOk(s, id)
    requires BatchOk(s, batch) && !BackfillJoin(world, s.db, batch).failed
    requires Accounted(world, s, id) && Covered(world, s, id) && !Outstanding(s.db.watches, BatchIds(batch), id)
    ensures id in BackfilledSys(world, s, batch).db.watches
    ensures Accounted(world, BackfilledSys(world, s, batch), id)
  {
    UnfilledWatch(world, s, batch, id);
    FilledAfterAt(s, batch, id);
    AccountedSame(world, s, BackfilledSys(world, s, batch), id);
  }

  /** The books of a watch depend on its terms, total and status, the cursor and its backfill. */
  lemma AccountedSame(world: World, s: Sys, s': Sys, id: Id)
    requires Good(world) && ValidScales(world.chain) && id in s.db.watches && id in s'.db.watches
    requires Accounted(world, s, id) && s'.db.cursor == s.db.cursor
    requires (id in s'.late <==> id in s.late) && (id in s.late ==> s'.late[id] == s.late[id])
    requires (id in s'.filled <==> id in s.filled) && (id in s.filled ==> s'.filled[id] == s.filled[id])
    requires var w := s.db.watches[id]; var w' := s'.db.watches[id];
             w' == w.(backfillTo := w'.backfillTo, nextEventSeq := w'.nextEventSeq)
    ensures Accounted(world, s', id)
  {
    var w, w', course := s.db.watches[id], s'.db.watches[id], Course(world, s, id);
    assert TermsOf(w') == TermsOf(w);
    assert Course(world, s', id) == course;
    if w.status != Active && w.status != Completed {
      var n: nat :| StoppedAt(w, course, n);
      assert StoppedAt(w', course, n);
    }
  }

  /** On a watch with an outstanding backfill, a batch that holds it has the effect of what nobody resolved before. */
  lemma MissedEffects(world: World, s: Sys, batch: seq<PendingBackfill>, id: Id)
    requires Good(world) && ValidScales(world.chain) && id in s.db.watches && WatchOk(s, id) && id in s.late
    requires BatchOk(s, batch) && id in BatchUntil(world.chain, batch)
    requires s.db.watches[id].confirmed < s.db.watches[id].threshold
    ensures var w := s.db.watches[id];
            Tallied(Tally(w.confirmed, false), w.threshold,
                    Effects(world.chain, s.db.transfers, Only(BatchUntil(world.chain, batch)), id, TermsOf(w),
                            world.canon))
            == Tallied(Tally(w.confirmed, false), w.threshold,
                       Missed(world, TermsOf(w), ResolvedKeys(s.db.transfers), s.late[id]))
  {
    BatchUntilFacts(s, world.chain, batch);
    var until, w := BatchUntil(world.chain, batch), s.db.watches[id];
    var h := Height(world.canon, s.late[id]);
    UpToGood(world, s.late[id]);
    EffectsConcat(world.chain, s.db.transfers, Only(until), id, TermsOf(w), world.canon, h);
    var below := Effects(world.chain, s.db.transfers, Only(until), id, TermsOf(w), world.canon[..h]);
    var above := Effects(world.chain, s.db.transfers, Only(until), id, TermsOf(w), world.canon[h..]);
    assert below == Missed(world, TermsOf(w), ResolvedKeys(s.db.transfers), s.late[id]);
    TalliedConcat(Tally(w.confirmed, false), w.threshold, below, above);
    TalliedMore(Tally(w.confirmed, false), w.threshold, below);
    TalliedZeros(Tallied(Tally(w.confirmed, false), w.threshold, below), w.threshold, above);
  }

  /** A tally that has not stopped is below its threshold. */
  lemma {:induction false} TalliedMore(t: Tally, threshold: nat, amounts: seq<nat>)
    requires !t.done ==> t.amount < threshold
    ensures !Tallied(t, threshold, amounts).done ==> Tallied(t, threshold, amounts).amount < threshold
  {
    if amounts != [] {
      TalliedMore(t, threshold, amounts[..|amounts| - 1]);
    }
  }

  /** What a committing batch does to one watch whose backfill it runs. */
  lemma FilledWatch(world: World, s: Sys, batch: seq<PendingBackfill>, id: Id)
    requires Good(world) && ValidScales(world.chain) && UniqueActive(s.db.watches) && id in s.db.watches
    requires WatchOk(s, id)
    requires BatchOk(s, batch) && !BackfillJoin(world, s.db, batch).failed
    requires Outstanding(s.db.watches, BatchIds(batch), id)
    ensures id in s.late && id in BackfilledSys(world, s, batch).db.watches
    ensures var w := s.db.watches[id]; var w' := BackfilledSys(world, s, batch).db.watches[id];
            && TermsOf(w') == TermsOf(w) && w'.backfillTo.None?
            && (w.status != Active ==> w'.status == w.status && w'.confirmed == w.confirmed)
            && (w.status == Active ==>
                  && (w'.status == Active || w'.status == Completed)
                  && Tally(w'.confirmed, w'.status == Completed)
                     == Tallied(Tally(w.confirmed, false), w.threshold,
                                Missed(world, TermsOf(w), ResolvedKeys(s.db.transfers), s.late[id])))
  {
    CanonGood(world);
    BatchUntilFacts(s, world.chain, batch);
    var w := s.db.watches[id];
    JoinedTally(world.chain, Begin(s.db), Only(BatchUntil(world.chain, batch)), world.canon, id);
    BackfilledWatch(world, s, batch, id);
    if w.status == Active {
      if id in BatchUntil(world.chain, batch) {
        MissedEffects(world, s, batch, id);
      } else {
        BackfillSpares(world, s, batch, id);
        DormantMissed(world, w, ResolvedKeys(s.db.transfers), s.late[id]);
      }
    }
  }

  lemma DormantMissed(world: World, w: Watch, found: set<Key>, b: nat)
    requires Good(world) && ValidScales(world.chain) && CacheKey(world.chain, w).None? && w.confirmed < w.threshold
    ensures Tallied(Tally(w.confirmed, false), w.threshold, Missed(world, TermsOf(w), found, b))
            == Tally(w.confirmed, false)
  {
    DormantUnpaid(world, w, []);
    TalliedZeros(Tally(w.confirmed, false), w.threshold, Missed(world, TermsOf(w), found, b));
  }

  lemma AccountedFilled(world: World, s: Sys, batch: seq<PendingBackfill>, id: Id)
    requires Good(world) && ValidScales(world.chain) && UniqueActive(s.db.watches) && id in s.db.watches
    requires WatchOk(s, id)
    requires BatchOk(s, batch) && !BackfillJoin(world, s.db, batch).failed
    requires Outstanding(s.db.watches, BatchIds(batch), id)
    requires Accounted(world, s, id)
    ensures id in BackfilledSys(world, s, batch).db.watches
    ensures Accounted(world, BackfilledSys(world, s, batch), id)
  {
    FilledWatch(world, s, batch, id);
    CourseFilled(world, s, batch, id);
    AccountedGrows(s.db.watches[id], BackfilledSys(world, s, batch).db.watches[id], Course(world, s, id),
                   Missed(world, TermsOf(s.db.watches[id]), ResolvedKeys(s.db.transfers), s.late[id]));
  }

  lemma CourseFilled(world: World, s: Sys, batch: seq<PendingBackfill>, id: Id)
    requires Good(world) && ValidScales(world.chain) && id in s.db.watches && WatchOk(s, id)
    requires Outstanding(s.db.watches, BatchIds(batch), id) && id in BackfilledSys(world, s, batch).db.watches
    requires TermsOf(BackfilledSys(world, s, batch).db.watches[id]) == TermsOf(s.db.watches[id])
    ensures id in s.late
    ensures Course(world, BackfilledSys(world, s, batch), id)
         == Course(world, s, id) + Missed(world, TermsOf(s.db.watches[id]), ResolvedKeys(s.db.transfers), s.late[id])
  {
    FilledAfterAt(s, batch, id);
    assert Slice(world.canon, s.db.cursor, s.db.cursor) == [];
    assert Paid(world, TermsOf(s.db.watches[id]), s.db.cursor, s.db.cursor) == [];
  }

  lemma BackfilledCovered(world: World, s: Sys, batch: seq<PendingBackfill>, id: Id)
    requires Good(world) && ValidScales(world.chain) && Fillable(world, s, batch) && id in s.db.watches
    ensures id in BackfilledSys(world, s, batch).db.watches
    ensures Covered(world, BackfilledSys(world, s, batch), id)
  {
    var s' := BackfilledSys(world, s, batch);
    var tx := BackfillJoin(world, s.db, batch);
    var scope := Only(BatchUntil(world.chain, batch));
    JoinedAged(world.chain, Begin(s.db), scope, world.canon);
    JoinedRows(world.chain, Begin(s.db), scope, world.canon);
    BackfilledWatch(world, s, batch, id);
    BatchUntilFacts(s, world.chain, batch);
    assert WatchOk(s, id) && Covered(world, s, id);
    CanonGood(world);
    JoinedTally(world.chain, Begin(s.db), scope, world.canon, id);
    var w, w' := s.db.watches[id], s'.db.watches[id];
    forall i | w'.status == Active && 0 <= i < Height(world.canon, s.db.cursor) && Due(world, w', i)
      ensures Resolved(s'.db.transfers, world.canon[i].Key())
    {
      if Due(world, w, i) {
        assert Resolved(s.db.transfers, world.canon[i].Key());
      } else if id in BatchUntil(world.chain, batch) {
        JoinedCovers(world.chain, Begin(s.db), scope, world.canon, id, i);
      } else {
        DormantUnpaid(world, w, []);
      }
    }
  }

  lemma FilledKeys(s: Sys, batch: seq<PendingBackfill>)
    requires s.filled.Keys <= s.db.watches.Keys
    ensures FilledAfter(s, batch).Keys <= s.db.watches.Keys
  {
    forall id | id in FilledAfter(s, batch)
      ensures id in s.db.watches
    {
      FilledAfterAt(s, batch, id);
    }
  }

  lemma DoneAged(watches: map<Id, Watch>, ids: set<Id>)
    ensures Aged(watches, BackfillsDone(watches, ids))
  {
  }

  lemma BackfilledAged(world: World, s: Sys, batch: seq<PendingBackfill>)
    requires Good(world) && ValidScales(world.chain) && s.db.events.Keys == s.db.watches.Keys
    ensures var s' := BackfilledSys(world, s, batch);
            Aged(s.db.watches, s'.db.watches) && s'.db.events.Keys == s'.db.watches.Keys
  {
    var s' := BackfilledSys(world, s, batch);
    var tx := BackfillJoin(world, s.db, batch);
    var scope := Only(BatchUntil(world.chain, batch));
    JoinedAged(world.chain, Begin(s.db), scope, world.canon);
    JoinedEvents(world.chain, Begin(s.db), scope, world.canon);
    DoneAged(tx.db.watches, BatchIds(batch));
    AgedTransitive(s.db.watches, tx.db.watches, s'.db.watches);
  }

  lemma BackfilledShape(world: World, s: Sys, batch: seq<PendingBackfill>)
    requires Good(world) && ValidScales(world.chain) && Fillable(world, s, batch)
    ensures Aged(s.db.watches, BackfilledSys(world, s, batch).db.watches)
    ensures Shape(BackfilledSys(world, s, batch))
  {
    var s' := BackfilledSys(world, s, batch);
    BackfilledAged(world, s, batch);
    FilledKeys(s, batch);
    AgedUnique(s.db.watches, s'.db.watches);
    AgedSerials(s.db.watches, s'.db.watches);
    forall id | id in s'.db.watches
      ensures WatchOk(s', id)
    {
      BackfilledWatchOk(world, s, batch, id);
    }
  }

  lemma BackfilledWatchOk(world: World, s: Sys, batch: seq<PendingBackfill>, id: Id)
    requires Good(world) && ValidScales(world.chain) && UniqueActive(s.db.watches) && id in s.db.watches
    requires WatchOk(s, id)
    requires BatchOk(s, batch) && !BackfillJoin(world, s.db, batch).failed
    ensures id in BackfilledSys(world, s, batch).db.watches
    ensures WatchOk(BackfilledSys(world, s, batch), id)
  {
    BatchUntilFacts(s, world.chain, batch);
    CanonGood(world);
    var scope := Only(BatchUntil(world.chain, batch));
    var w := s.db.watches[id];
    JoinedTally(world.chain, Begin(s.db), scope, world.canon, id);
    JoinedBounded(world.chain, Begin(s.db), scope, world.canon, id);
    if w.status == Active {
      TalliedThreshold(Tally(w.confirmed, false), w.threshold,
                       Effects(world.chain, s.db.transfers, scope, id, TermsOf(w), world.canon));
    }
    BackfilledWatch(world, s, batch, id);
  }

  lemma BackfilledRowsOk(world: World, s: Sys, batch: seq<PendingBackfill>)
    requires Good(world) && ValidScales(world.chain) && Fillable(world, s, batch)
    ensures RowsOk(world, BackfilledSys(world, s, batch).db, s.db.cursor)
  {
    BatchUntilFacts(s, world.chain, batch);
    var scope := Only(BatchUntil(world.chain, batch));
    forall i, id | 0 <= i < |world.canon| && id in s.db.watches && Eligible(scope, id, world.canon[i].block.value)
      ensures world.canon[i].block.value <= s.db.cursor
    {
      assert WatchOk(s, id);
    }
    RowsOkJoined(world, Begin(s.db), scope, world.canon, s.db.cursor);
    var mid := BackfillJoin(world, s.db, batch).db;
    var db' := BackfilledSys(world, s, batch).db;
    forall k | k in db'.transfers
      ensures RowOk(world, db', k) && (db'.transfers[k].status != Pending ==> db'.transfers[k].block <= s.db.cursor)
    {
      assert RowOk(world, mid, k);
      DoneWatch(mid.watches, BatchIds(batch), mid.transfers[k].watchId);
    }
  }

  lemma BackfilledOrphans(world: World, s: Sys, batch: seq<PendingBackfill>, k: Key)
    requires Good(world) && ValidScales(world.chain) && Fillable(world, s, batch)
    requires k in BackfilledSys(world, s, batch).db.transfers
    ensures OrphanOk(world, BackfilledSys(world, s, batch), k)
  {
    JoinedRows(world.chain, Begin(s.db), Only(BatchUntil(world.chain, batch)), world.canon);
    if k in s.db.transfers {
      assert OrphanOk(world, s, k);
    }
  }

  lemma BackfillKeepsInv(world: World, s: Sys, step: Step)
    requires Good(world) && ValidScales(world.chain) && Inv(world, s) && step.Backfill? && Enabled(world, s, step)
    ensures Inv(world, Do(world, s, step))
  {
    BackfillCases(world, s, step);
    if Do(world, s, step) != s {
      BackfilledInv(world, s, step.batch);
    }
  }

  lemma BackfilledInv(world: World, s: Sys, batch: seq<PendingBackfill>)
    requires Good(world) && ValidScales(world.chain) && Fillable(world, s, batch)
    ensures Inv(world, BackfilledSys(world, s, batch))
  {
    var s' := BackfilledSys(world, s, batch);
    BackfilledShape(world, s, batch);
    BackfilledRowsOk(world, s, batch);
    forall id | id in s'.db.watches
      ensures Accounted(world, s', id) && Covered(world, s', id)
    {
      BackfilledAccounted(world, s, batch, id);
      BackfilledCovered(world, s, batch, id);
    }
    forall k | k in s'.db.transfers
      ensures OrphanOk(world, s', k)
    {
      BackfilledOrphans(world, s, batch, k);
    }
  }
}
