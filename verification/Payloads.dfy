/** What the transfer rows and the webhook payloads say is what the chain says: every field of every row and of every
    reported transfer is that of the log with its key (src/store/sweep.rs:20-74, src/store/sweep.rs:343-356). */
module Payloads {
  import opened Base
  import opened Registry
  import opened Matcher
  import opened Ledger
  import opened Chain
  import opened Join
  import opened AnswerOrder
  import opened Accounts
  import opened Machine
  import opened Books
  import opened BooksSweep
  import opened BooksBackfill
  import opened BooksOther

  /** Block, transaction and sender of the log with that key, and what it pays on the terms. */
  ghost predicate Tells(world: World, terms: Terms, key: Key, block: nat, txHash: Hash, from: Address, amount: nat)
    requires ValidScales(world.chain)
  {
    && key in world.universe
    && var log := world.universe[key];
       && log.Complete() && |log.topics| == 3
       && block == log.block.value && txHash == log.txHash.value && from == FromWord(log.topics[1])
       && amount == Pay(world.chain, terms, log) > 0
  }

  ghost predicate RowTrue(world: World, watches: map<Id, Watch>, k: Key, row: Row)
    requires ValidScales(world.chain)
  {
    && row.watchId in watches
    && Tells(world, TermsOf(watches[row.watchId]), k, row.block, row.txHash, row.from, row.amount)
  }

  /** A reported transfer, with the status its kind stands for. */
  ghost predicate EventTrue(world: World, watches: map<Id, Watch>, id: Id, e: Event)
    requires ValidScales(world.chain)
  {
    id in watches
    && (e.transfer.Some? ==>
          var v := e.transfer.value;
          && Tells(world, TermsOf(watches[id]), v.key, v.block, v.txHash, v.from, v.amount)
          && (|| (e.kind == PaymentPending && v.status == Pending)
              || (e.kind == PaymentConfirmed && v.status == Confirmed)
              || (e.kind == PaymentOrphaned && v.status == Orphaned)))
  }

  ghost predicate Truthful(world: World, db: Db)
    requires ValidScales(world.chain)
  {
    && (forall k :: k in db.transfers ==> RowTrue(world, db.watches, k, db.transfers[k]))
    && (forall id, i :: id in db.events && 0 <= i < |db.events[id]| ==>
          EventTrue(world, db.watches, id, db.events[id][i]))
  }

  // ------------------------------------------------------------------ what keeps it

  ghost predicate TermsKept(before: map<Id, Watch>, after: map<Id, Watch>) {
    forall id :: id in before ==> id in after && TermsOf(after[id]) == TermsOf(before[id])
  }

  /** An old row with another status, or a true one. */
  ghost predicate RowsFollow(world: World, db: Db, db': Db)
    requires ValidScales(world.chain)
  {
    forall k :: k in db'.transfers ==>
      || (k in db.transfers && db'.transfers[k] == db.transfers[k].(status := db'.transfers[k].status))
      || RowTrue(world, db'.watches, k, db'.transfers[k])
  }

  ghost predicate EventsFollow(world: World, db: Db, db': Db)
    requires ValidScales(world.chain)
  {
    forall id, i :: id in db'.events && 0 <= i < |db'.events[id]| ==>
      || (id in db.events && i < |db.events[id]| && db'.events[id][i] == db.events[id][i])
      || EventTrue(world, db'.watches, id, db'.events[id][i])
  }

  lemma Follows(world: World, db: Db, db': Db)
    requires ValidScales(world.chain) && Truthful(world, db) && TermsKept(db.watches, db'.watches)
    requires RowsFollow(world, db, db') && EventsFollow(world, db, db')
    ensures Truthful(world, db')
  {
    forall k | k in db'.transfers
      ensures RowTrue(world, db'.watches, k, db'.transfers[k])
    {
      if k in db.transfers {
        assert RowTrue(world, db.watches, k, db.transfers[k]);
      }
    }
    forall id, i | id in db'.events && 0 <= i < |db'.events[id]|
      ensures EventTrue(world, db'.watches, id, db'.events[id][i])
    {
      if id in db.events && i < |db.events[id]| && db'.events[id][i] == db.events[id][i] {
        assert EventTrue(world, db.watches, id, db.events[id][i]);
      }
    }
  }

  /** Events appended to one stream. */
  lemma AppendedFollow(world: World, db: Db, db': Db, id: Id, es: seq<Event>)
    requires ValidScales(world.chain) && db'.events == db.events[id := EventsOf(db.events, id) + es]
    requires forall i :: 0 <= i < |es| ==> EventTrue(world, db'.watches, id, es[i])
    ensures EventsFollow(world, db, db')
  {
    forall v, i | v in db'.events && 0 <= i < |db'.events[v]|
      ensures || (v in db.events && i < |db.events[v]| && db'.events[v][i] == db.events[v][i])
              || EventTrue(world, db'.watches, v, db'.events[v][i])
    {
      var n := |EventsOf(db.events, id)|;
      if v == id && i >= n {
        assert db'.events[v][i] == es[i - n];
      }
    }
  }

  lemma GenuineTells(world: World, id: Id, w: Watch, log: Log)
    requires ValidScales(world.chain) && Pay(world.chain, TermsOf(w), log) > 0
    requires log.Key() in world.universe && world.universe[log.Key()] == log
    ensures var m := Genuine(world.chain, id, w, log);
            && Tells(world, TermsOf(w), m.key, m.block, m.txHash, m.from, m.amount)
            && m.watch.id == id
  {
  }

  lemma CountTrue(world: World, tx: Tx, m: MatchedTransfer)
    requires ValidScales(world.chain) && Truthful(world, tx.db) && m.watch.id in tx.db.watches
    requires Tells(world, TermsOf(tx.db.watches[m.watch.id]), m.key, m.block, m.txHash, m.from, m.amount)
    ensures Truthful(world, Counted(tx, m).db)
  {
    var db, db', id := tx.db, Counted(tx, m).db, m.watch.id;
    if db' != db {
      assert TermsOf(db'.watches[id]) == TermsOf(db.watches[id]);
      AppendedFollow(world, db, db', id, CreditEvents(db.watches[id], m));
      Follows(world, db, db');
    }
  }

  lemma {:induction false} JoinTrue(world: World, tx: Tx, scope: Scope, logs: seq<Log>)
    requires Good(world) && ValidScales(world.chain) && Truthful(world, tx.db) && Ordered(logs)
    requires forall i :: 0 <= i < |logs| ==> logs[i] in world.canon
    ensures Truthful(world, JoinedAll(world.chain, tx, scope, logs).db)
  {
    if logs != [] {
      var n := |logs| - 1;
      JoinTrue(world, tx, scope, logs[..n]);
      var mid := JoinedAll(world.chain, tx, scope, logs[..n]);
      var p := JoinedCases(world.chain, mid, scope, logs[n]);
      if p.Some? {
        var i :| 0 <= i < |world.canon| && world.canon[i] == logs[n];
        GenuineTells(world, p.value, mid.db.watches[p.value], logs[n]);
        CountTrue(world, mid, Genuine(world.chain, p.value, mid.db.watches[p.value], logs[n]));
      }
    }
  }

  lemma SettleTrue(world: World, tx: Tx, key: Key, canonical: set<Key>)
    requires ValidScales(world.chain) && Truthful(world, tx.db)
    ensures Truthful(world, Settled(tx, key, canonical).db)
  {
    var db, db' := tx.db, Settled(tx, key, canonical).db;
    if key in db.transfers {
      var row := db.transfers[key];
      assert RowTrue(world, db.watches, key, row);
      if key !in canonical && IsActive(db.watches, row.watchId) {
        var e := EventFor(db'.watches[row.watchId], PaymentOrphaned, Some(RowView(key, row)));
        assert TermsOf(db'.watches[row.watchId]) == TermsOf(db.watches[row.watchId]);
        AppendedFollow(world, db, db', row.watchId, [e]);
      }
      Follows(world, db, db');
    }
  }

  lemma {:induction false} SettleAllTrue(world: World, tx: Tx, keys: seq<Key>, canonical: set<Key>)
    requires ValidScales(world.chain) && Truthful(world, tx.db)
    ensures Truthful(world, SettledAll(tx, keys, canonical).db)
  {
    if keys != [] {
      SettleAllTrue(world, tx, keys[..|keys| - 1], canonical);
      SettleTrue(world, SettledAll(tx, keys[..|keys| - 1], canonical), keys[|keys| - 1], canonical);
    }
  }

  lemma PendTrue(world: World, db: Db, id: Id, log: Log)
    requires ValidScales(world.chain) && Truthful(world, db) && PendEnabled(world, db, id, log)
    ensures Truthful(world, Pended(db, Genuine(world.chain, id, db.watches[id], log)))
  {
    var m := Genuine(world.chain, id, db.watches[id], log);
    var db' := Pended(db, m);
    GenuineTells(world, id, db.watches[id], log);
    if db' != db {
      assert TermsOf(db'.watches[id]) == TermsOf(db.watches[id]);
      AppendedFollow(world, db, db', id, [EventFor(db'.watches[id], PaymentPending, Some(View(m, Pending)))]);
      Follows(world, db, db');
    }
  }

  lemma ExpireOneTrue(world: World, db: Db, id: Id, now: nat)
    requires ValidScales(world.chain) && Truthful(world, db)
    ensures Truthful(world, ExpiredOne(db, id, now))
  {
    var db' := ExpiredOne(db, id, now);
    if db' != db {
      AppendedFollow(world, db, db', id, [EventFor(db'.watches[id], WatchExpired, None)]);
      Follows(world, db, db');
    }
  }

  lemma {:induction false} ExpireTrue(world: World, db: Db, ids: seq<Id>, now: nat)
    requires ValidScales(world.chain) && Truthful(world, db)
    ensures Truthful(world, ExpiredDb(db, ids, now))
  {
    if ids != [] {
      ExpireTrue(world, db, ids[..|ids| - 1], now);
      ExpireOneTrue(world, ExpiredDb(db, ids[..|ids| - 1], now), ids[|ids| - 1], now);
    }
  }

  lemma SweepTrue(world: World, s: Sys, t: nat, leftovers: seq<Key>)
    requires Good(world) && ValidScales(world.chain) && Truthful(world, s.db) && s.db.cursor <= t
    ensures Truthful(world, SweptSys(world, s, t, leftovers).db)
  {
    SliceGood(world, s.db.cursor, t);
    var slice := Slice(world.canon, s.db.cursor, t);
    forall i | 0 <= i < |slice|
      ensures slice[i] in world.canon
    {
      SliceAt(world, s.db.cursor, t, i);
    }
    JoinTrue(world, Begin(s.db), All, slice);
    var tx := SweepJoin(world, s.db, s.db.cursor, t);
    SettleAllTrue(world, tx, leftovers, KeysOf(slice));
    Follows(world, SettledAll(tx, leftovers, KeysOf(slice)).db, SweptSys(world, s, t, leftovers).db);
  }

  lemma BackfillTrue(world: World, s: Sys, batch: seq<PendingBackfill>)
    requires Good(world) && ValidScales(world.chain) && Truthful(world, s.db)
    ensures Truthful(world, BackfilledSys(world, s, batch).db)
  {
    JoinTrue(world, Begin(s.db), Only(BatchUntil(world.chain, batch)), world.canon);
    Follows(world, BackfillJoin(world, s.db, batch).db, BackfilledSys(world, s, batch).db);
  }

  lemma CreateTrue(world: World, db: Db, id: Id, serial: nat, new_: NewWatch)
    requires ValidScales(world.chain) && Truthful(world, db) && id !in db.watches
    ensures Truthful(world, Registered(db, id, serial, new_))
  {
    Follows(world, db, Registered(db, id, serial, new_));
  }

  lemma CancelTrue(world: World, db: Db, id: Id)
    requires ValidScales(world.chain) && Truthful(world, db)
    ensures Truthful(world, CancelledDb(db, id))
  {
    Follows(world, db, CancelledDb(db, id));
  }

  lemma StepTrue(world: World, s: Sys, step: Step)
    requires Good(world) && ValidScales(world.chain) && Shape(s) && Truthful(world, s.db) && Enabled(world, s, step)
    ensures Truthful(world, Do(world, s, step).db)
  {
    match step
    case Create(id, serial, new_) => CreateTrue(world, s.db, id, serial, new_);
    case Cancel(id) => CancelTrue(world, s.db, id);
    case Expire(ids, now) => ExpireTrue(world, s.db, ids, now);
    case Pend(id, log) => PendTrue(world, s.db, id, log);
    case Sweep(_, _, to, _, _, leftovers) =>
      SweepCases(world, s, step);
      if Do(world, s, step) != s {
        SweepTrue(world, s, to, leftovers);
      }
    case Backfill(batch, _) =>
      BackfillCases(world, s, step);
      if Do(world, s, step) != s {
        BackfillTrue(world, s, batch);
      }
    case FastForward(_, _) =>
  }

  /** In every reachable state all rows and all reports tell what the chain does. */
  lemma {:induction false} RunTrue(world: World, s: Sys, steps: seq<Step>)
    requires Good(world) && ValidScales(world.chain) && Initial(s) && Run(world, s, steps)
    ensures Truthful(world, After(world, s, steps).db)
  {
    if steps != [] {
      var n := |steps| - 1;
      RunTrue(world, s, steps[..n]);
      RunKeepsInv(world, s, steps[..n]);
      StepTrue(world, After(world, s, steps[..n]), steps[n]);
    }
  }

  /** In every reachable state, a transfer reported to a watch has the block, transaction and sender of the log with its
      key, the amount that this log pays the watch, and the status that the kind of the event stands for. */
  lemma PayloadsTrue(world: World, s: Sys, steps: seq<Step>, id: Id, i: nat)
    requires Good(world) && ValidScales(world.chain) && Initial(s) && Run(world, s, steps)
    requires id in After(world, s, steps).db.events && i < |After(world, s, steps).db.events[id]|
    requires After(world, s, steps).db.events[id][i].transfer.Some?
    ensures var db := After(world, s, steps).db; var e := db.events[id][i]; var v := e.transfer.value;
            && id in db.watches && v.key in world.universe
            && (var log := world.universe[v.key];
                && log.block == Some(v.block) && log.txHash == Some(v.txHash)
                && |log.topics| == 3 && v.from == FromWord(log.topics[1])
                && v.amount == Pay(world.chain, TermsOf(db.watches[id]), log) > 0)
            && (v.status == Pending <==> e.kind == PaymentPending)
            && (v.status == Confirmed <==> e.kind == PaymentConfirmed)
            && (v.status == Orphaned <==> e.kind == PaymentOrphaned)
  {
    RunTrue(world, s, steps);
    assert EventTrue(world, After(world, s, steps).db.watches, id, After(world, s, steps).db.events[id][i]);
  }
}
