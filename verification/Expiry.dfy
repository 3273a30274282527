/** What expiring watches does to each of them, field by field (src/store/mod.rs:319-341). */
module Expiry {
  import opened Base
  import opened Ledger

  /** `w` and its stream `es` after its expiry. */
  predicate Lapsed(w: Watch, es: seq<Event>, w': Watch, es': seq<Event>) {
    && w' == w.(status := Expired, nextEventSeq := w.nextEventSeq + 1)
    && es' == es + [Event(w.nextEventSeq + 1, WatchExpired, w.confirmed, Expired, None)]
  }

  /** Of the watches picked, those that are active and whose time has come lapse; everything else stays. */
  lemma {:induction false} LapsedExactly(db: Db, ids: seq<Id>, now: nat, id: Id)
    requires id in db.watches
    ensures var db' := ExpiredDb(db, ids, now); var w := db.watches[id];
            && id in db'.watches
            && if id in ids && w.status == Active && w.expiresAt.Some? && w.expiresAt.value <= now
               then Lapsed(w, EventsOf(db.events, id), db'.watches[id], EventsOf(db'.events, id))
               else db'.watches[id] == w && EventsOf(db'.events, id) == EventsOf(db.events, id)
  {
    if ids != [] {
      var n := |ids| - 1;
      LapsedExactly(db, ids[..n], now, id);
      assert id in ids <==> id in ids[..n] || id == ids[n];
    }
  }

  lemma {:induction false} ExpiryFrame(db: Db, ids: seq<Id>, now: nat)
    ensures var db' := ExpiredDb(db, ids, now);
            && db'.watches.Keys == db.watches.Keys && db'.transfers == db.transfers
            && db'.cursor == db.cursor && db'.stats == db.stats
  {
    if ids != [] {
      ExpiryFrame(db, ids[..|ids| - 1], now);
    }
  }

  /** What the query picked, in terms of the columns. */
  lemma PickedMeans(watches: map<Id, Watch>, limit: nat, now: nat, locked: set<Id>, ids: seq<Id>, id: Id)
    requires OverdueAnswer(watches, limit, now, locked, ids) && id in watches
    ensures var w := watches[id]; var due := w.status == Active && w.expiresAt.Some? && w.expiresAt.value <= now;
            && (id in ids ==> due && id !in locked)
            && (due && id !in locked && |ids| < limit ==> id in ids)
  {
  }

  /** A watch that is left active, though its time has come and nobody holds it, is due no sooner than those picked. */
  lemma LongestFirst(watches: map<Id, Watch>, limit: nat, now: nat, locked: set<Id>, ids: seq<Id>, id: Id, v: Id)
    requires OverdueAnswer(watches, limit, now, locked, ids) && id in ids && v in watches && v !in ids && v !in locked
    requires watches[v].status == Active && watches[v].expiresAt.Some? && watches[v].expiresAt.value <= now
    ensures id in watches && watches[id].expiresAt.Some?
    ensures watches[id].expiresAt.value <= watches[v].expiresAt.value
  {
    var i :| 0 <= i < |ids| && ids[i] == id;
    assert ExpiresFirst(watches, ids[i], v);
  }

  /** From `db` to `db'` exactly the watches `ids` lapsed. All of them were active, their time had come, and nobody else
      held them. Unless there were `limit` of them no other such watch remains, and what remains is due no sooner. */
  ghost predicate ExpiryDone(db: Db, db': Db, limit: nat, now: nat, locked: set<Id>, ids: seq<Id>) {
    && |ids| <= limit && NoDup(ids) && (forall id :: id in ids ==> id in db.watches && id !in locked)
    && db'.watches.Keys == db.watches.Keys && db'.transfers == db.transfers
    && db'.cursor == db.cursor && db'.stats == db.stats
    && (forall id :: id in ids ==>
          var w := db.watches[id];
          && w.status == Active && w.expiresAt.Some? && w.expiresAt.value <= now
          && id in db'.watches && Lapsed(w, EventsOf(db.events, id), db'.watches[id], EventsOf(db'.events, id)))
    && (forall id :: id in db.watches && id !in ids ==>
          id in db'.watches && db'.watches[id] == db.watches[id] && EventsOf(db'.events, id) == EventsOf(db.events, id))
    && (forall id :: id in db'.watches && id !in locked && db'.watches[id].status == Active
                     && db'.watches[id].expiresAt.Some? && db'.watches[id].expiresAt.value <= now ==>
          && |ids| == limit
          && forall v :: v in ids ==> db.watches[v].expiresAt.value <= db'.watches[id].expiresAt.value)
  }

  lemma ExpiryMeans(db: Db, limit: nat, now: nat, locked: set<Id>, ids: seq<Id>)
    requires OverdueAnswer(db.watches, limit, now, locked, ids)
    ensures ExpiryDone(db, ExpiredDb(db, ids, now), limit, now, locked, ids)
  {
    ExpiryFrame(db, ids, now);
    forall id | id in db.watches
      ensures LapseOf(db, ExpiredDb(db, ids, now), now, ids, id)
      ensures id in ids ==> id !in locked
      ensures id !in ids && id !in locked && Timely(db.watches[id], now) ==> |ids| == limit
    {
      LapsedExactly(db, ids, now, id);
      PickedMeans(db.watches, limit, now, locked, ids, id);
    }
    forall id, v | v in ids && id in db.watches && id !in ids && id !in locked && Timely(db.watches[id], now)
      ensures db.watches[v].expiresAt.value <= db.watches[id].expiresAt.value
    {
      LongestFirst(db.watches, limit, now, locked, ids, v, id);
    }
  }

  /** Active, and its time has come. */
  predicate Timely(w: Watch, now: nat) {
    w.status == Active && w.expiresAt.Some? && w.expiresAt.value <= now
  }

  ghost predicate LapseOf(db: Db, db': Db, now: nat, ids: seq<Id>, id: Id)
    requires id in db.watches
  {
    && id in db'.watches
    && if id in ids
       then Timely(db.watches[id], now)
            && Lapsed(db.watches[id], EventsOf(db.events, id), db'.watches[id], EventsOf(db'.events, id))
       else db'.watches[id] == db.watches[id] && EventsOf(db'.events, id) == EventsOf(db.events, id)
  }
}
