/** What has to be recorded and reported is: transfers seen at the head, and pending ones that turn out not to be
    canonical (src/store/sweep.rs:44-74, src/store/sweep.rs:333-359). */
module Notices {
  import opened Base
  import opened Registry
  import opened Matcher
  import opened Ledger
  import opened Chain
  import opened Join
  import opened AnswerOrder
  import opened Accounts
  import opened Machine
  import opened Books
  import opened BooksSweep
  import opened BooksBackfill
  import opened BooksOther
  import opened Streams
  import opened Reports

  // ------------------------------------------------------------------ the head path

  /** Recorded in `db'`: a pending row for `view` and one event that reports it to watch `id`, which is still active. */
  ghost predicate Recorded(db: Db, db': Db, id: Id, view: TransferView)
    requires id in db.watches
  {
    var w := db.watches[id];
    && db'.transfers == db.transfers[view.key := Row(view.block, view.txHash, id, view.from, view.amount, Pending)]
    && db'.watches == db.watches[id := w.(nextEventSeq := w.nextEventSeq + 1)]
    && db'.events == db.events[id := EventsOf(db.events, id)
                                     + [Event(w.nextEventSeq + 1, PaymentPending, w.confirmed, Active, Some(view))]]
    && db'.cursor == db.cursor && db'.stats == db.stats
  }

  lemma PendedRecords(db: Db, m: MatchedTransfer)
    requires IsActive(db.watches, m.watch.id) && m.key !in db.transfers
    ensures Recorded(db, Pended(db, m), m.watch.id, TransferView(m.key, m.block, m.txHash, m.from, m.amount, Pending))
  {
  }

  /** A log that pays an active watch and is not known yet gets a pending row with the log's own data, and an event that
      says the same. Any other notification changes nothing. */
  lemma PendRecords(world: World, s: Sys, id: Id, log: Log)
    requires Good(world) && ValidScales(world.chain) && Enabled(world, s, Pend(id, log))
    ensures |log.topics| == 3
    ensures var w := s.db.watches[id]; var s' := Do(world, s, Pend(id, log));
            if w.status == Active && log.Key() !in s.db.transfers then
              && s' == s.(db := s'.db)
              && Recorded(s.db, s'.db, id,
                          TransferView(log.Key(), log.block.value, log.txHash.value, FromWord(log.topics[1]),
                                       Pay(world.chain, TermsOf(w), log), Pending))
            else s' == s
  {
    if s.db.watches[id].status == Active && log.Key() !in s.db.transfers {
      PendedRecords(s.db, Genuine(world.chain, id, s.db.watches[id], log));
    }
  }

  // ------------------------------------------------------------------ orphans

  ghost predicate OrphanReported(db: Db, k: Key)
    requires k in db.transfers
  {
    exists i :: ReportedAt(db.events, db.transfers[k].watchId, i, PaymentOrphaned, k)
  }

  /** Every orphaned transfer of a watch that is still active has been reported to it. */
  ghost predicate OrphansReported(db: Db) {
    forall k :: k in db.transfers && db.transfers[k].status == Orphaned
                && IsActive(db.watches, db.transfers[k].watchId) ==>
      OrphanReported(db, k)
  }

  lemma ReportStays(before: map<Id, seq<Event>>, after: map<Id, seq<Event>>, id: Id, i: int, kind: EventType, k: Key)
    requires Grown(before, after) && ReportedAt(before, id, i, kind, k)
    ensures ReportedAt(after, id, i, kind, k)
  {
    assert before[id] <= after[id];
  }

  lemma StaysReported(db: Db, db': Db, k: Key)
    requires k in db.transfers && k in db'.transfers && OrphanReported(db, k) && Grown(db.events, db'.events)
    requires db'.transfers[k].watchId == db.transfers[k].watchId
    ensures OrphanReported(db', k)
  {
    var i :| ReportedAt(db.events, db.transfers[k].watchId, i, PaymentOrphaned, k);
    ReportStays(db.events, db'.events, db.transfers[k].watchId, i, PaymentOrphaned, k);
  }

  lemma SettleGrows(tx: Tx, key: Key, canonical: set<Key>)
    ensures Grown(tx.db.events, Settled(tx, key, canonical).db.events)
  {
  }

  lemma SettleReportsOne(tx: Tx, key: Key, canonical: set<Key>)
    requires key in tx.db.transfers && key !in canonical && IsActive(tx.db.watches, tx.db.transfers[key].watchId)
    ensures var id := tx.db.transfers[key].watchId;
            ReportedAt(Settled(tx, key, canonical).db.events, id, |EventsOf(tx.db.events, id)|, PaymentOrphaned, key)
  {
  }

  lemma SettleTellsOne(tx: Tx, key: Key, canonical: set<Key>)
    requires key in tx.db.transfers && key !in canonical && IsActive(tx.db.watches, tx.db.transfers[key].watchId)
    ensures key in Settled(tx, key, canonical).db.transfers && OrphanReported(Settled(tx, key, canonical).db, key)
  {
    SettleReportsOne(tx, key, canonical);
  }

  lemma SettleKeepsTold(tx: Tx, key: Key, canonical: set<Key>, k: Key)
    requires k in tx.db.transfers && OrphanReported(tx.db, k)
    ensures k in Settled(tx, key, canonical).db.transfers && OrphanReported(Settled(tx, key, canonical).db, k)
  {
    SettleGrows(tx, key, canonical);
    StaysReported(tx.db, Settled(tx, key, canonical).db, k);
  }

  /** A pending row that is not canonical is reported to its watch if that is active. */
  lemma {:induction false} SettlingReports(tx: Tx, keys: seq<Key>, canonical: set<Key>, k: Key)
    requires k in keys && k !in canonical && k in tx.db.transfers && IsActive(tx.db.watches, tx.db.transfers[k].watchId)
    ensures k in SettledAll(tx, keys, canonical).db.transfers && OrphanReported(SettledAll(tx, keys, canonical).db, k)
  {
    var n := |keys| - 1;
    var mid := SettledAll(tx, keys[..n], canonical);
    if keys[n] == k {
      SettledFacts(tx, keys[..n], canonical);
      SettleTellsOne(mid, k, canonical);
    } else {
      SettlingReports(tx, keys[..n], canonical, k);
      SettleKeepsTold(mid, keys[n], canonical, k);
    }
  }

  /** What has been reported so far, when `next` is settled. */
  lemma SettledBefore(tx: Tx, keys: seq<Key>, canonical: set<Key>, k: Key, next: Key) returns (i: nat)
    requires k in keys && k !in canonical && k in tx.db.transfers && IsActive(tx.db.watches, tx.db.transfers[k].watchId)
    requires next in tx.db.transfers && tx.db.transfers[next].watchId == tx.db.transfers[k].watchId
    ensures var mid := SettledAll(tx, keys, canonical).db; var id := tx.db.transfers[k].watchId;
            && next in mid.transfers && mid.transfers[next].watchId == id && IsActive(mid.watches, id)
            && i < |EventsOf(mid.events, id)| && ReportedAt(mid.events, id, i, PaymentOrphaned, k)
  {
    SettledFacts(tx, keys, canonical);
    SettlingReports(tx, keys, canonical, k);
    i :| ReportedAt(SettledAll(tx, keys, canonical).db.events, tx.db.transfers[k].watchId, i, PaymentOrphaned, k);
  }

  /** Of two such rows of one watch, the one that is settled first is reported first. */
  lemma {:induction false} SettlingOrder(tx: Tx, keys: seq<Key>, canonical: set<Key>, a: nat, b: nat)
    returns (i: nat, j: nat)
    requires a < b < |keys| && keys[a] !in canonical && keys[b] !in canonical
    requires keys[a] in tx.db.transfers && keys[b] in tx.db.transfers
    requires tx.db.transfers[keys[a]].watchId == tx.db.transfers[keys[b]].watchId
    requires IsActive(tx.db.watches, tx.db.transfers[keys[a]].watchId)
    ensures var events := SettledAll(tx, keys, canonical).db.events; var id := tx.db.transfers[keys[a]].watchId;
            && ReportedAt(events, id, i, PaymentOrphaned, keys[a])
               && ReportedAt(events, id, j, PaymentOrphaned, keys[b])
            && i < j
  {
    var n, id := |keys| - 1, tx.db.transfers[keys[a]].watchId;
    var mid := SettledAll(tx, keys[..n], canonical);
    var last := Settled(mid, keys[n], canonical);
    SettleGrows(mid, keys[n], canonical);
    if b < n {
      i, j := SettlingOrder(tx, keys[..n], canonical, a, b);
      ReportStays(mid.db.events, last.db.events, id, j, PaymentOrphaned, keys[b]);
    } else {
      i := SettledBefore(tx, keys[..n], canonical, keys[a], keys[n]);
      SettleReportsOne(mid, keys[n], canonical);
      j := |EventsOf(mid.db.events, id)|;
    }
    ReportStays(mid.db.events, last.db.events, id, i, PaymentOrphaned, keys[a]);
  }

  /** Rows that were orphaned before are as they were; watches only retire. */
  lemma OldOrphans(db: Db, db': Db)
    requires OrphansReported(db) && Grown(db.events, db'.events)
    requires forall k :: k in db'.transfers && db'.transfers[k].status == Orphaned ==>
               && k in db.transfers && db'.transfers[k] == db.transfers[k]
               && db.transfers[k].watchId in db.watches
    requires forall id :: id in db.watches && IsActive(db'.watches, id) ==> IsActive(db.watches, id)
    ensures OrphansReported(db')
  {
    forall k | k in db'.transfers && db'.transfers[k].status == Orphaned
        && IsActive(db'.watches, db'.transfers[k].watchId)
      ensures OrphanReported(db', k)
    {
      StaysReported(db, db', k);
    }
  }

  lemma SweptOrphan(world: World, s: Sys, t: nat, leftovers: seq<Key>, k: Key)
    requires Good(world) && ValidScales(world.chain) && s.db.cursor <= t && OrphansReported(s.db)
    requires s.db.events.Keys == s.db.watches.Keys && Grown(s.db.events, SweptSys(world, s, t, leftovers).db.events)
    requires var db' := SweptSys(world, s, t, leftovers).db;
             && k in db'.transfers && db'.transfers[k].status == Orphaned
             && IsActive(db'.watches, db'.transfers[k].watchId)
    ensures OrphanReported(SweptSys(world, s, t, leftovers).db, k)
  {
    SliceGood(world, s.db.cursor, t);
    var slice := Slice(world.canon, s.db.cursor, t);
    var tx, db' := SweepJoin(world, s.db, s.db.cursor, t), SweptSys(world, s, t, leftovers).db;
    JoinedRows(world.chain, Begin(s.db), All, slice);
    JoinedAged(world.chain, Begin(s.db), All, slice);
    SettledFacts(tx, leftovers, KeysOf(slice));
    if k in leftovers {
      SettlingReports(tx, leftovers, KeysOf(slice), k);
      assert db'.events == SettledAll(tx, leftovers, KeysOf(slice)).db.events;
    } else {
      assert k in s.db.transfers && s.db.transfers[k] == db'.transfers[k];
      StaysReported(s.db, db', k);
    }
  }

  /** A sweep reports the orphans of a watch in the order of the chain: of two pending rows that it does not find, the
      one in the lower block, or lower in the same block, is reported first. */
  lemma SweepReportsInOrder(world: World, s: Sys, t: nat, leftovers: seq<Key>, a: Key, b: Key) returns (i: nat, j: nat)
    requires Good(world) && ValidScales(world.chain) && s.db.cursor <= t && Ordered(Slice(world.canon, s.db.cursor, t))
    requires var tx := SweepJoin(world, s.db, s.db.cursor, t);
             && Leftovers(tx.db.transfers, t, leftovers) && a in leftovers && b in leftovers
             && (var x, y := tx.db.transfers[a], tx.db.transfers[b];
                 && x.watchId == y.watchId && IsActive(tx.db.watches, x.watchId)
                 && (x.block < y.block || (x.block == y.block && a.index < b.index)))
    requires a !in KeysOf(Slice(world.canon, s.db.cursor, t)) && b !in KeysOf(Slice(world.canon, s.db.cursor, t))
    ensures var tx := SweepJoin(world, s.db, s.db.cursor, t); var events := SweptSys(world, s, t, leftovers).db.events;
            && a in tx.db.transfers
            && ReportedAt(events, tx.db.transfers[a].watchId, i, PaymentOrphaned, a)
            && ReportedAt(events, tx.db.transfers[a].watchId, j, PaymentOrphaned, b) && i < j
  {
    var tx := SweepJoin(world, s.db, s.db.cursor, t);
    var m :| 0 <= m < |leftovers| && leftovers[m] == a;
    var n :| 0 <= n < |leftovers| && leftovers[n] == b;
    assert m < n;
    i, j := SettlingOrder(tx, leftovers, KeysOf(Slice(world.canon, s.db.cursor, t)), m, n);
  }

  lemma SweepReports(world: World, s: Sys, step: Step)
    requires Good(world) && ValidScales(world.chain) && Inv(world, s) && step.Sweep? && Enabled(world, s, step)
    requires OrphansReported(s.db)
    ensures OrphansReported(Do(world, s, step).db)
  {
    SweepCases(world, s, step);
    StepGrows(world, s, step);
    var db' := Do(world, s, step).db;
    if Do(world, s, step) != s {
      forall k | k in db'.transfers && db'.transfers[k].status == Orphaned
          && IsActive(db'.watches, db'.transfers[k].watchId)
        ensures OrphanReported(db', k)
      {
        SweptOrphan(world, s, step.to, step.leftovers, k);
      }
    }
  }

  /** Rows that are orphaned after a backfill were so before. */
  lemma BackfillRows(world: World, s: Sys, batch: seq<PendingBackfill>)
    requires Good(world) && ValidScales(world.chain) && s.db.events.Keys == s.db.watches.Keys
    ensures var db' := BackfilledSys(world, s, batch).db;
            && (forall k :: k in db'.transfers && db'.transfers[k].status == Orphaned ==>
                  k in s.db.transfers && db'.transfers[k] == s.db.transfers[k])
            && (forall id :: IsActive(db'.watches, id) ==> IsActive(s.db.watches, id))
  {
    JoinedRows(world.chain, Begin(s.db), Only(BatchUntil(world.chain, batch)), world.canon);
    BackfilledAged(world, s, batch);
  }

  lemma RowWatches(world: World, s: Sys)
    requires Good(world) && ValidScales(world.chain) && Inv(world, s)
    ensures forall k :: k in s.db.transfers ==> s.db.transfers[k].watchId in s.db.watches
  {
    forall k | k in s.db.transfers
      ensures s.db.transfers[k].watchId in s.db.watches
    {
      assert RowOk(world, s.db, k);
    }
  }

  /** Steps that orphan nothing and revive no watch. */
  lemma HeadKeeps(world: World, s: Sys, step: Step)
    requires Good(world) && ValidScales(world.chain) && Enabled(world, s, step) && !step.Sweep? && !step.Backfill?
    ensures var db' := Do(world, s, step).db;
            && (forall k :: k in db'.transfers && db'.transfers[k].status == Orphaned ==>
                  k in s.db.transfers && db'.transfers[k] == s.db.transfers[k])
            && (forall id :: id in s.db.watches && IsActive(db'.watches, id) ==> IsActive(s.db.watches, id))
  {
    if step.Expire? {
      ExpiredKeeps(s.db, step.ids, step.now);
    }
  }

  lemma HeadReports(world: World, s: Sys, step: Step)
    requires Good(world) && ValidScales(world.chain) && Inv(world, s) && Enabled(world, s, step)
    requires OrphansReported(s.db)
    requires !step.Sweep? && !step.Backfill?
    ensures OrphansReported(Do(world, s, step).db)
  {
    RowWatches(world, s);
    StepGrows(world, s, step);
    HeadKeeps(world, s, step);
    OldOrphans(s.db, Do(world, s, step).db);
  }

  lemma {:induction false} ExpiredKeeps(db: Db, ids: seq<Id>, now: nat)
    ensures ExpiredDb(db, ids, now).transfers == db.transfers
    ensures forall id :: IsActive(ExpiredDb(db, ids, now).watches, id) ==> IsActive(db.watches, id)
  {
    if ids != [] {
      ExpiredKeeps(db, ids[..|ids| - 1], now);
    }
  }

  lemma StepReports(world: World, s: Sys, step: Step)
    requires Good(world) && ValidScales(world.chain) && Inv(world, s) && Enabled(world, s, step)
    requires OrphansReported(s.db)
    ensures OrphansReported(Do(world, s, step).db)
  {
    match step
    case Sweep(_, _, _, _, _, _) => SweepReports(world, s, step);
    case Backfill(batch, _) =>
      BackfillCases(world, s, step);
      if Do(world, s, step) != s {
        StepGrows(world, s, step);
        RowWatches(world, s);
        BackfillRows(world, s, batch);
        OldOrphans(s.db, Do(world, s, step).db);
      }
    case _ => HeadReports(world, s, step);
  }

  /** No orphan goes unreported: in every reachable state, an active watch has been told of each of its transfers that
      was orphaned. */
  lemma {:induction false} OrphansTold(world: World, s: Sys, steps: seq<Step>)
    requires Good(world) && ValidScales(world.chain) && Initial(s) && Run(world, s, steps)
    ensures OrphansReported(After(world, s, steps).db)
  {
    if steps != [] {
      var n := |steps| - 1;
      OrphansTold(world, s, steps[..n]);
      RunKeepsInv(world, s, steps[..n]);
      StepReports(world, After(world, s, steps[..n]), steps[n]);
    }
  }
}
