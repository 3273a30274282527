/** The backfills still to be run, and how one of them can starve the others (src/ingest/sweeper.rs:247-308,
    src/store/sweep.rs:188-209). */
module BackfillQueue {
  import opened Base
  import opened Registry
  import opened Ledger
  import opened Chain
  import opened Machine
  import opened Books
  import opened BooksBackfill
  import opened Rollback

  /** A batch fresh from the query is one the accounting machine allows. */
  lemma PendingBatchOk(s: Sys, limit: nat, batch: seq<PendingBackfill>)
    requires Shape(s) && OldestPending(s.db.watches, limit, batch)
    ensures BatchOk(s, batch)
    ensures forall i :: 0 <= i < |batch| ==> batch[i].start > 0
  {
    forall i | 0 <= i < |batch|
      ensures batch[i].id in s.late && batch[i].backfillTo == s.late[batch[i].id] && batch[i].start > 0
    {
      assert WatchOk(s, batch[i].id);
    }
  }

  lemma FilledBacklog(world: World, s: Sys, batch: seq<PendingBackfill>, id: Id)
    requires Good(world) && ValidScales(world.chain) && Fillable(world, s, batch) && id in s.db.watches
    ensures id in BackfilledSys(world, s, batch).db.watches
    ensures id in Backlog(BackfilledSys(world, s, batch).db.watches) <==> id in Backlog(s.db.watches) - BatchIds(batch)
  {
    assert WatchOk(s, id) && Covered(world, s, id);
    if Outstanding(s.db.watches, BatchIds(batch), id) {
      FilledWatch(world, s, batch, id);
    } else {
      UnfilledWatch(world, s, batch, id);
    }
  }

  /** A batch that commits takes exactly its own watches off the backlog. */
  lemma BacklogShrinks(world: World, s: Sys, batch: seq<PendingBackfill>)
    requires Good(world) && ValidScales(world.chain) && Fillable(world, s, batch)
    ensures Backlog(BackfilledSys(world, s, batch).db.watches) == Backlog(s.db.watches) - BatchIds(batch)
  {
    BackfilledAged(world, s, batch);
    forall id | id in s.db.watches
      ensures id in Backlog(BackfilledSys(world, s, batch).db.watches) <==>
                id in Backlog(s.db.watches) - BatchIds(batch)
    {
      FilledBacklog(world, s, batch, id);
    }
  }

  // ------------------------------------------------------------------ starvation

  /** The backfills that come before `id` in the query. */
  ghost function Older(watches: map<Id, Watch>, id: Id): set<Id>
    requires id in watches
  {
    set v | v in Backlog(watches) && v != id && watches[v].serial <= watches[id].serial
  }

  lemma {:induction false} BatchSize(batch: seq<PendingBackfill>)
    requires forall i, j :: 0 <= i < j < |batch| ==> batch[i].id != batch[j].id
    ensures |BatchIds(batch)| == |batch|
  {
    if batch != [] {
      var n := |batch| - 1;
      BatchSize(batch[..n]);
      assert forall b :: b in batch <==> b in batch[..n] || b == batch[n];
      assert BatchIds(batch) == BatchIds(batch[..n]) + {batch[n].id};
    }
  }

  lemma SubsetSize(a: set<Id>, b: set<Id>)
    requires a <= b
    ensures |a| <= |b|
  {
    assert b == a + (b - a);
  }

  /** A backfill with fewer than `limit` older ones is in every batch. */
  lemma OldInBatch(watches: map<Id, Watch>, limit: nat, batch: seq<PendingBackfill>, id: Id)
    requires OldestPending(watches, limit, batch) && id in Backlog(watches) && |Older(watches, id)| < limit
    ensures id in BatchIds(batch)
  {
    if id !in BatchIds(batch) {
      BatchSize(batch);
      SubsetSize(BatchIds(batch), Older(watches, id));
      assert false;
    }
  }

  /** Active watch `id` would outgrow a uint256 on its backfill, and fewer than `limit` backfills are older. */
  ghost predicate Jams(world: World, s: Sys, limit: nat, id: Id)
    requires Good(world) && ValidScales(world.chain)
  {
    && IsActive(s.db.watches, id) && id in Backlog(s.db.watches) && id in s.late
    && |Older(s.db.watches, id)| < limit
    && Outgrows(s.db.watches[id],
                Missed(world, TermsOf(s.db.watches[id]), ResolvedKeys(s.db.transfers), s.late[id]))
  }

  /** A batch of the query from `s`. */
  ghost predicate FromQuery(s: Sys, limit: nat, step: Step) {
    step.Backfill? && OldestPending(s.db.watches, limit, step.batch)
  }

  /** One backfill that cannot be committed starves all the others: as long as it is among the oldest `limit`, whoever
      runs a batch and however often, no backfill of any watch gets anywhere. */
  lemma {:induction false} OldestStarvesAll(world: World, s: Sys, limit: nat, id: Id, steps: seq<Step>)
    requires Good(world) && ValidScales(world.chain) && Inv(world, s) && Jams(world, s, limit, id)
    requires Run(world, s, steps)
    requires forall i :: 0 <= i < |steps| ==> FromQuery(s, limit, steps[i])
    ensures After(world, s, steps) == s
  {
    if steps != [] {
      var n := |steps| - 1;
      OldestStarvesAll(world, s, limit, id, steps[..n]);
      OldInBatch(s.db.watches, limit, steps[n].batch, id);
      assert OverfillsAt(world, s, steps[n].batch, id);
      BackfillCommitsIff(world, s, steps[n]);
    }
  }
}
