/** The invariant that ties every watch and every row to the canonical chain. */
module Books {
  import opened Base
  import opened Registry
  import opened Matcher
  import opened Ledger
  import opened Chain
  import opened Join
  import opened AnswerOrder
  import opened Accounts
  import opened Machine

  // ------------------------------------------------------------------ the invariant

  /** Totals stay below the threshold until the watch completes, and are always a uint256. */
  ghost predicate WatchOk(s: Sys, id: Id)
    requires id in s.db.watches
  {
    var w := s.db.watches[id];
    && 0 < w.threshold < UINT256 && 0 < w.start
    && w.confirmed < UINT256
    && (w.status == Completed <==> w.confirmed >= w.threshold)
    && (if id in s.late
        then w.start <= s.late[id] <= s.db.cursor && w.backfillTo == if id in s.filled then None else Some(s.late[id])
        else w.backfillTo.None? && id !in s.filled)
    && (id in s.filled ==> id in s.late && s.late[id] <= s.filled[id].at <= s.db.cursor)
  }

  ghost predicate Shape(s: Sys) {
    && s.db.events.Keys == s.db.watches.Keys
    && s.late.Keys <= s.db.watches.Keys
    && s.filled.Keys <= s.db.watches.Keys
    && (forall id :: id in s.db.watches ==> WatchOk(s, id))
    && UniqueActive(s.db.watches)
    && SerialOrder(s.db.watches)
  }

  /** A row records a log of its key that pays its watch. */
  ghost predicate RowOk(world: World, db: Db, k: Key)
    requires ValidScales(world.chain) && k in db.transfers
  {
    var row := db.transfers[k];
    && k in world.universe && world.universe[k].Complete() && row.watchId in db.watches
    && row.block == world.universe[k].block.value
    && row.amount == Pay(world.chain, TermsOf(db.watches[row.watchId]), world.universe[k]) > 0
  }

  /** Resolved rows are at or below `bound`. */
  ghost predicate RowsOk(world: World, db: Db, bound: nat)
    requires ValidScales(world.chain)
  {
    forall k :: k in db.transfers ==>
      RowOk(world, db, k) && (db.transfers[k].status != Pending ==> db.transfers[k].block <= bound)
  }

  /** What the canonical logs of blocks (c, t] pay. */
  ghost function Paid(world: World, terms: Terms, c: nat, t: nat): seq<nat>
    requires Good(world) && ValidScales(world.chain)
  {
    if c <= t then Amounts(world.chain, terms, Slice(world.canon, c, t)) else []
  }

  ghost function Missed(world: World, terms: Terms, found: set<Key>, b: nat): seq<nat>
    requires Good(world) && ValidScales(world.chain)
  {
    UpToGood(world, b);
    OpenAmounts(world.chain, found, terms, UpTo(world.canon, b))
  }

  /** What the canonical logs up to `b` pay in keys that were found resolved. */
  ghost function Blocked(world: World, terms: Terms, found: set<Key>, b: nat): nat
    requires Good(world) && ValidScales(world.chain)
  {
    UpToGood(world, b);
    Total(BlockedAmounts(world.chain, found, terms, UpTo(world.canon, b)))
  }

  /** The payments a watch gets to see, in the order in which it sees them. One registered in time sees the
      canonical logs from the beginning to the cursor. One registered late sees those above the cursor it recorded;
      then, when its backfill commits, those below that nobody had resolved; and then those above again. */
  ghost function Course(world: World, s: Sys, id: Id): seq<nat>
    requires Good(world) && ValidScales(world.chain) && id in s.db.watches
  {
    var terms := TermsOf(s.db.watches[id]);
    if id !in s.late then Amounts(world.chain, terms, UpTo(world.canon, s.db.cursor))
    else if id !in s.filled then Paid(world, terms, s.late[id], s.db.cursor)
    else
      var fill := s.filled[id];
      Paid(world, terms, s.late[id], fill.at) + Missed(world, terms, fill.found, s.late[id])
      + Paid(world, terms, fill.at, s.db.cursor)
  }

  /** The watch stopped after the first `n` payments of its course, short of its threshold. */
  predicate StoppedAt(w: Watch, course: seq<nat>, n: nat) {
    n <= |course| && Tallied(Tally(0, false), w.threshold, course[..n]) == Tally(w.confirmed, false)
  }

  /** An active or completed watch has the total and status of one pass over its course that stops at the
      threshold; a cancelled or expired one the total of a pass over a part of it. */
  ghost predicate AccountedBy(w: Watch, course: seq<nat>) {
    if w.status == Active || w.status == Completed
    then Tally(w.confirmed, w.status == Completed) == Tallied(Tally(0, false), w.threshold, course)
    else exists n :: StoppedAt(w, course, n)
  }

  /** What the books say about one watch. */
  ghost predicate Accounted(world: World, s: Sys, id: Id)
    requires Good(world) && ValidScales(world.chain) && id in s.db.watches
  {
    AccountedBy(s.db.watches[id], Course(world, s, id))
  }

  /** The course grows by `more`: an active watch tallies it, any other one is left alone. */
  lemma AccountedGrows(w: Watch, w': Watch, course: seq<nat>, more: seq<nat>)
    requires AccountedBy(w, course) && w'.threshold == w.threshold
    requires w.status == Active ==>
               && (w'.status == Active || w'.status == Completed)
               && Tally(w'.confirmed, w'.status == Completed) == Tallied(Tally(w.confirmed, false), w.threshold, more)
    requires w.status != Active ==> w'.status == w.status && w'.confirmed == w.confirmed
    ensures AccountedBy(w', course + more)
  {
    TalliedConcat(Tally(0, false), w.threshold, course, more);
    if w.status == Completed {
      TalliedOpen(Tally(w.confirmed, true), w.threshold, more);
    } else if w.status != Active {
      var n: nat :| StoppedAt(w, course, n);
      assert (course + more)[..n] == course[..n];
      assert StoppedAt(w', course + more, n);
    }
  }

  /** A watch that is retired below its threshold stops where it is. */
  lemma AccountedStops(w: Watch, w': Watch, course: seq<nat>)
    requires AccountedBy(w, course) && w.status == Active && w'.confirmed == w.confirmed && w'.threshold == w.threshold
    requires w'.status == Cancelled || w'.status == Expired
    ensures AccountedBy(w', course)
  {
    assert course[..|course|] == course;
    assert StoppedAt(w', course, |course|);
  }

  lemma UpToGood(world: World, b: nat)
    requires Good(world)
    ensures Ordered(UpTo(world.canon, b)) && Ordered(world.canon[Height(world.canon, b)..])
  {
  }

  /** Canonical log number `i` is one that watch `w` has had its turn at. */
  ghost predicate Due(world: World, w: Watch, i: nat)
    requires Good(world) && ValidScales(world.chain) && i < |world.canon|
  {
    && Pay(world.chain, TermsOf(w), world.canon[i]) > 0
    && (w.backfillTo.Some? ==> world.canon[i].block.value > w.backfillTo.value)
  }

  /** Every log that an active watch has had its turn at is resolved. */
  ghost predicate Covered(world: World, s: Sys, id: Id)
    requires Good(world) && ValidScales(world.chain) && id in s.db.watches
  {
    s.db.watches[id].status == Active ==>
      forall i :: 0 <= i < Height(world.canon, s.db.cursor) && Due(world, s.db.watches[id], i) ==>
        Resolved(s.db.transfers, world.canon[i].Key())
  }

  ghost predicate Canonical(world: World, k: Key)
    requires Good(world)
  {
    k in KeysOf(world.canon)
  }

  /** A canonical log is only ever orphaned for a watch that was registered with a backfill covering it. */
  ghost predicate OrphanOk(world: World, s: Sys, k: Key)
    requires Good(world) && k in s.db.transfers
  {
    var row := s.db.transfers[k];
    && (Canonical(world, k) && (row.status == Orphaned || (row.status == Pending && row.block <= s.db.cursor)) ==>
          row.watchId in s.late && row.block <= s.late[row.watchId])
    && (row.status == Confirmed || row.status == Ignored ==> Canonical(world, k))
  }

  ghost predicate Inv(world: World, s: Sys)
    requires Good(world) && ValidScales(world.chain)
  {
    && Shape(s)
    && RowsOk(world, s.db, s.db.cursor)
    && (forall id :: id in s.db.watches ==> Accounted(world, s, id) && Covered(world, s, id))
    && (forall k :: k in s.db.transfers ==> OrphanOk(world, s, k))
  }

  // ------------------------------------------------------------------ small facts

  lemma CanonicalAt(world: World, k: Key) returns (i: nat)
    requires Good(world) && Canonical(world, k)
    ensures i < |world.canon| && world.canon[i].Key() == k
    ensures k in world.universe && world.universe[k] == world.canon[i]
  {
    i :| 0 <= i < |world.canon| && world.canon[i].Key() == k;
  }

  lemma CanonKey(world: World, i: nat)
    requires Good(world) && i < |world.canon|
    ensures Canonical(world, world.canon[i].Key())
  {
  }

  lemma SliceAt(world: World, c: nat, t: nat, j: nat)
    requires Good(world) && c <= t && j < |Slice(world.canon, c, t)|
    ensures Height(world.canon, c) + j < Height(world.canon, t)
    ensures Slice(world.canon, c, t)[j] == world.canon[Height(world.canon, c) + j]
    ensures c < Slice(world.canon, c, t)[j].block.value <= t
  {
    HeightMonotone(world.canon, c, t);
  }

  lemma SliceGood(world: World, c: nat, t: nat)
    requires Good(world) && c <= t
    ensures Ordered(Slice(world.canon, c, t)) && Distinct(Slice(world.canon, c, t))
  {
    HeightMonotone(world.canon, c, t);
    CanonDistinct(world, Height(world.canon, c), Height(world.canon, t));
  }

  lemma CanonGood(world: World)
    requires Good(world)
    ensures Distinct(world.canon)
  {
    CanonDistinct(world, 0, |world.canon|);
    assert world.canon[0..|world.canon|] == world.canon;
  }

  /** Logs above the cursor are unresolved, so a sweep's effects are the amounts themselves. */
  lemma SliceEffects(world: World, db: Db, t: nat, id: Id, terms: Terms)
    requires Good(world) && ValidScales(world.chain) && RowsOk(world, db, db.cursor) && db.cursor <= t
    requires Ordered(Slice(world.canon, db.cursor, t))
    ensures Effects(world.chain, db.transfers, All, id, terms, Slice(world.canon, db.cursor, t))
         == Amounts(world.chain, terms, Slice(world.canon, db.cursor, t))
  {
    var slice := Slice(world.canon, db.cursor, t);
    forall j | 0 <= j < |slice|
      ensures !Resolved(db.transfers, slice[j].Key())
    {
      SliceAt(world, db.cursor, t, j);
      if slice[j].Key() in db.transfers {
        assert RowOk(world, db, slice[j].Key());
      }
    }
  }

  // ------------------------------------------------------------------ settling leftovers

  lemma SettledOne(tx: Tx, key: Key, canonical: set<Key>)
    ensures var rows := tx.db.transfers; var tx' := Settled(tx, key, canonical);
            && tx'.db.transfers == (if key in rows
                                    then rows[key := rows[key].(status := if key in canonical then Ignored
                                                                else Orphaned)]
                                    else rows)
            && tx'.db.watches.Keys == tx.db.watches.Keys
            && (forall id :: id in tx.db.watches ==>
                  tx'.db.watches[id] == tx.db.watches[id].(nextEventSeq := tx'.db.watches[id].nextEventSeq))
  {
  }

  /** Settling changes the status of exactly the leftover rows, and of watches only the event sequence. */
  lemma {:induction false} SettledFacts(tx: Tx, keys: seq<Key>, canonical: set<Key>)
    ensures var rows := tx.db.transfers; var rows' := SettledAll(tx, keys, canonical).db.transfers;
            && rows'.Keys == rows.Keys
            && forall k :: k in rows ==>
                 rows'[k] == if k in keys then rows[k].(status := if k in canonical then Ignored else Orphaned)
                     else rows[k]
    ensures var ws := tx.db.watches; var ws' := SettledAll(tx, keys, canonical).db.watches;
            && ws'.Keys == ws.Keys
            && forall id :: id in ws ==> ws'[id] == ws[id].(nextEventSeq := ws'[id].nextEventSeq)
  {
    if keys != [] {
      var n := |keys| - 1;
      SettledFacts(tx, keys[..n], canonical);
      SettledOne(SettledAll(tx, keys[..n], canonical), keys[n], canonical);
      assert forall k :: k in keys <==> k in keys[..n] || k == keys[n];
    }
  }

  // ------------------------------------------------------------------ rows

  lemma RowsOkCounted(world: World, tx: Tx, id: Id, log: Log, bound: nat)
    requires Good(world) && ValidScales(world.chain) && RowsOk(world, tx.db, bound) && id in tx.db.watches
    requires log.Complete() && log.Key() in world.universe && world.universe[log.Key()] == log
    requires log.block.value <= bound && Pay(world.chain, TermsOf(tx.db.watches[id]), log) > 0
    ensures RowsOk(world, Counted(tx, Genuine(world.chain, id, tx.db.watches[id], log)).db, bound)
  {
    var m := Genuine(world.chain, id, tx.db.watches[id], log);
    var db' := Counted(tx, m).db;
    CountedRows(tx, m);
    CountedAgedOne(tx, m);
    forall k | k in db'.transfers
      ensures RowOk(world, db', k) && (db'.transfers[k].status != Pending ==> db'.transfers[k].block <= bound)
    {
      if k in tx.db.transfers {
        assert RowOk(world, tx.db, k);
      }
    }
  }

  lemma {:induction false} RowsOkJoined(world: World, tx: Tx, scope: Scope, logs: seq<Log>, bound: nat)
    requires Good(world) && ValidScales(world.chain) && RowsOk(world, tx.db, bound) && Ordered(logs)
    requires forall i :: 0 <= i < |logs| ==> logs[i] in world.canon
    requires forall i :: 0 <= i < |logs| ==>
               forall id :: id in tx.db.watches && Eligible(scope, id, logs[i].block.value) ==>
                     logs[i].block.value <= bound
    ensures RowsOk(world, JoinedAll(world.chain, tx, scope, logs).db, bound)
  {
    if logs != [] {
      var n := |logs| - 1;
      RowsOkJoined(world, tx, scope, logs[..n], bound);
      JoinedAged(world.chain, tx, scope, logs[..n]);
      var mid := JoinedAll(world.chain, tx, scope, logs[..n]);
      var p := JoinedCases(world.chain, mid, scope, logs[n]);
      if p.Some? {
        var i :| 0 <= i < |world.canon| && world.canon[i] == logs[n];
        CanonKey(world, i);
        RowsOkCounted(world, mid, p.value, logs[n], bound);
      }
    }
  }
}
