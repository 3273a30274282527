/** How far the cursor moves when blocks are skipped, in terms of the columns (src/store/sweep.rs:389-425). */
module Skips {
  import opened Base
  import opened Ledger

  /** Nothing that a sweep would have to look at: no active watch and no pending row. */
  ghost predicate Idle(db: Db) {
    && (forall id :: id in db.watches ==> db.watches[id].status != Active)
    && (forall k :: k in db.transfers ==> db.transfers[k].status != Pending)
  }

  /** From `db` to `db'` only the cursor moved, forward and not beyond `target`: not at all while a row is pending, and
      else as far as it can. It stops below `target` only at the block before the start of an active watch, or where it
      was if one starts no later than the next block. */
  ghost predicate SkipDone(db: Db, db': Db, target: nat) {
    && db' == db.(cursor := db'.cursor)
    && db.cursor <= db'.cursor <= Max(db.cursor, target)
    && ((exists k :: k in db.transfers && db.transfers[k].status == Pending) ==> db'.cursor == db.cursor)
    && ((forall k :: k in db.transfers ==> db.transfers[k].status != Pending) && db'.cursor < target ==>
          exists id :: id in db.watches && db.watches[id].status == Active
                       && if db'.cursor == db.cursor then db.watches[id].start <= db'.cursor + 1
                          else db.watches[id].start == db'.cursor + 1)
    && (forall id :: id in db.watches && db.watches[id].status == Active && db'.cursor > db.cursor ==>
          db'.cursor < db.watches[id].start)
  }

  lemma SkipMeans(db: Db, target: nat, min: Option<nat>)
    requires IsMinStart(db.watches, min)
    ensures SkipDone(db, FastForwarded(db, target, min), target)
  {
    if min.Some? {
      var id :| IsActive(db.watches, id) && db.watches[id].start == min.value;
    }
    assert forall id :: id in db.watches && db.watches[id].status == Active ==> IsActive(db.watches, id);
  }

  /** With nothing to look at, all of the way is skipped. */
  lemma IdleSkips(db: Db, db': Db, target: nat)
    requires SkipDone(db, db', target) && Idle(db)
    ensures db'.cursor == Max(db.cursor, target)
  {
  }
}
