/** The transactions themselves, updating the tables in place (src/store/mod.rs, src/store/sweep.rs).
    Each method is proved to do what its function in `Ledger` says, rollbacks included. */
module Store {
  import opened Base
  import opened Registry
  import opened Cache
  import opened Matcher
  import opened Ledger
  import opened Expiry
  import opened Skips

  lemma BatchIdsSnoc(batch: seq<PendingBackfill>, b: PendingBackfill)
    ensures BatchIds(batch + [b]) == BatchIds(batch) + {b.id}
    ensures forall i :: 0 <= i < |batch| ==> batch[i].id in BatchIds(batch)
  {
    assert forall x :: x in batch + [b] <==> x in batch || x == b;
    assert forall i :: 0 <= i < |batch| ==> batch[i] in batch;
  }

  /** `batch` holds rows of the backlog by serial, none above what is still `todo`. */
  ghost predicate PickedFirst(watches: map<Id, Watch>, batch: seq<PendingBackfill>, todo: set<Id>) {
    && todo <= Backlog(watches)
    && (forall i :: 0 <= i < |batch| ==>
          && batch[i].id in Backlog(watches) && batch[i].id !in todo
          && var w := watches[batch[i].id];
             batch[i] == PendingBackfill(batch[i].id, w.serial, w.token, w.payee, w.start, w.backfillTo.value))
    && (forall i, j :: 0 <= i < j < |batch| ==> batch[i].id != batch[j].id && batch[i].serial <= batch[j].serial)
    && (forall i, id :: 0 <= i < |batch| && id in todo ==> batch[i].serial <= watches[id].serial)
  }

  lemma PickedNext(watches: map<Id, Watch>, batch: seq<PendingBackfill>, todo: set<Id>, id: Id)
    requires PickedFirst(watches, batch, todo) && id in todo
    requires forall x :: x in todo ==> watches[id].serial <= watches[x].serial
    ensures var w := watches[id];
            var more := batch + [PendingBackfill(id, w.serial, w.token, w.payee, w.start, w.backfillTo.value)];
            PickedFirst(watches, more, todo - {id}) && BatchIds(more) == BatchIds(batch) + {id}
  {
    var w := watches[id];
    BatchIdsSnoc(batch, PendingBackfill(id, w.serial, w.token, w.payee, w.start, w.backfillTo.value));
  }

  class ChainStore {
    var cursor: nat
    var watches: map<Id, Watch>
    var transfers: map<Key, Row>
    var events: map<Id, seq<Event>>
    var stats: map<int, Stats>

    function Content(): Db
      reads this
    {
      Db(cursor, watches, transfers, events, stats)
    }

    method Rollback(to: Db)
      modifies this
      ensures Content() == to
    {
      cursor := to.cursor;
      watches := to.watches;
      transfers := to.transfers;
      events := to.events;
      stats := to.stats;
    }

    /** Bumps the event sequence of an active watch and returns its row. */
    method LockActiveWatch(id: Id) returns (r: Option<Watch>)
      modifies this`watches
      ensures r.Some? <==> IsActive(old(watches), id)
      ensures r.Some? ==>
                && r.value == old(watches)[id].(nextEventSeq := old(watches)[id].nextEventSeq + 1)
                && watches == old(watches)[id := r.value]
      ensures r.None? ==> watches == old(watches)
    {
      if !IsActive(watches, id) {
        return None;
      }
      var w := watches[id].(nextEventSeq := watches[id].nextEventSeq + 1);
      watches := watches[id := w];
      r := Some(w);
    }

    method InsertEvent(id: Id, w: Watch, kind: EventType, transfer: Option<TransferView>)
      modifies this`events
      ensures events == Appended(old(events), id, EventFor(w, kind, transfer))
    {
      events := Appended(events, id, EventFor(w, kind, transfer));
    }

    /** `id` is a fresh UUID. */
    method CreateWatch(id: Id, serial: nat, new_: NewWatch) returns (r: CreateOutcome)
      requires id !in watches
      modifies this
      ensures Content() == Registered(old(Content()), id, serial, new_)
      ensures r.Created? <==> !Occupied(old(watches), new_.token, new_.payee)
      ensures r.Created? ==> r.id == id
      ensures !r.Created? ==>
                && IsActive(watches, r.id)
                && watches[r.id].token == new_.token && watches[r.id].payee == new_.payee
                && (r.Existing? <==> watches[r.id].threshold == new_.threshold && watches[r.id].url == new_.url)
    {
      var rivals := set i | i in watches && watches[i].status == Active
                            && watches[i].token == new_.token && watches[i].payee == new_.payee;
      if rivals == {} {
        assert forall i :: IsActive(watches, i) && watches[i].token == new_.token && watches[i].payee == new_.payee
                           ==> i in rivals;
        watches := watches[id := NewRow(cursor, serial, new_)];
        events := events[id := []];
        return Created(id);
      }
      var rival :| rival in rivals;
      assert IsActive(watches, rival);
      var w := watches[rival];
      r := if w.threshold == new_.threshold && w.url == new_.url then Existing(rival) else Conflict(rival);
    }

    method CancelWatch(id: Id) returns (r: Option<Watch>)
      modifies this
      ensures Content() == CancelledDb(old(Content()), id)
      ensures r.Some? <==> id in old(watches) && old(watches)[id].status == Active
      ensures r.Some? ==>
                && r.value == old(watches)[id].(status := Cancelled) && watches == old(watches)[id := r.value]
      ensures r.None? ==> watches == old(watches)
      ensures cursor == old(cursor) && transfers == old(transfers) && events == old(events) && stats == old(stats)
    {
      if !IsActive(watches, id) {
        return None;
      }
      watches := watches[id := watches[id].(status := Cancelled)];
      r := Some(watches[id]);
    }

    /** Retires the overdue watches that have been so the longest, `limit` at most; `locked` are rows that other
        transactions hold. */
    method ExpireWatches(limit: nat, now: nat, locked: set<Id>) returns (ids: seq<Id>)
      modifies this
      ensures OverdueAnswer(old(watches), limit, now, locked, ids)
      ensures Content() == ExpiredDb(old(Content()), ids, now)
      ensures ExpiryDone(old(Content()), Content(), limit, now, locked, ids)
    {
      ids := SelectOverdue(limit, now, locked);
      ExpireAll(ids, now);
      ExpiryMeans(old(Content()), limit, now, locked, ids);
    }

    method SelectOverdue(limit: nat, now: nat, locked: set<Id>) returns (ids: seq<Id>)
      ensures OverdueAnswer(watches, limit, now, locked, ids)
    {
      ids := [];
      var todo := set id | id in watches && Overdue(watches, id, now) && id !in locked;
      while todo != {} && |ids| < limit
        invariant |ids| <= limit && NoDup(ids)
        invariant forall id :: id in ids ==> id !in todo
        invariant forall id :: Overdue(watches, id, now) && id !in locked <==> id in ids || id in todo
        invariant forall i, id :: 0 <= i < |ids| && id in todo ==> ExpiresFirst(watches, ids[i], id)
        invariant forall i, j :: 0 <= i < j < |ids| ==> ExpiresFirst(watches, ids[i], ids[j])
        decreases todo
      {
        var id := FirstToExpire(todo, now);
        ids := ids + [id];
        todo := todo - {id};
      }
    }

    method FirstToExpire(todo: set<Id>, now: nat) returns (best: Id)
      requires todo != {} && forall id :: id in todo ==> Overdue(watches, id, now)
      ensures best in todo && forall id :: id in todo ==> ExpiresFirst(watches, best, id)
    {
      best :| best in todo;
      var rest := todo - {best};
      while rest != {}
        invariant rest <= todo && best in todo
        invariant forall id :: id in todo && id !in rest ==> ExpiresFirst(watches, best, id)
      {
        var id :| id in rest;
        if watches[id].expiresAt.value < watches[best].expiresAt.value {
          best := id;
        }
        rest := rest - {id};
      }
    }

    method ExpireAll(ids: seq<Id>, now: nat)
      modifies this
      ensures Content() == ExpiredDb(old(Content()), ids, now)
    {
      var i := 0;
      while i < |ids|
        invariant 0 <= i <= |ids|
        invariant Content() == ExpiredDb(old(Content()), ids[..i], now)
      {
        assert ids[..i + 1][..i] == ids[..i];
        var id := ids[i];
        if Overdue(watches, id, now) {
          var w := watches[id].(status := Expired, nextEventSeq := watches[id].nextEventSeq + 1);
          watches := watches[id := w];
          InsertEvent(id, w, WatchExpired, None);
        }
        i := i + 1;
      }
      assert ids[..i] == ids;
    }

    method RecordPending(m: MatchedTransfer) returns (recorded: bool)
      modifies this
      ensures Content() == Pended(old(Content()), m)
      ensures recorded <==> Content() != old(Content())
      ensures recorded <==> IsActive(old(watches), m.watch.id) && m.key !in old(transfers)
    {
      var before := Content();
      var locked := LockActiveWatch(m.watch.id);
      if locked.None? {
        return false;
      }
      if m.key in transfers {
        Rollback(before); // undoes the sequence bump
        return false;
      }
      transfers := transfers[m.key := RowFor(m, Pending)];
      InsertEvent(m.watch.id, locked.value, PaymentPending, Some(View(m, Pending)));
      assert m.key in transfers && m.key !in before.transfers;
      recorded := true;
    }

    /** Counts one transfer. On failure the caller rolls back; otherwise exactly `Counted`. */
    method CountConfirmed(m: MatchedTransfer, delta: map<int, Stats>, completed: seq<(WatchKey, Id)>)
      returns (delta': map<int, Stats>, completed': seq<(WatchKey, Id)>, failed: bool)
      modifies this
      ensures failed == Counted(Tx(old(Content()), delta, completed, false), m).failed
      ensures !failed ==>
                Tx(Content(), delta', completed', false) == Counted(Tx(old(Content()), delta, completed, false), m)
    {
      delta', completed', failed := delta, completed, false;
      var id := m.watch.id;
      var locked := LockActiveWatch(id);
      if locked.None? {
        return;
      }
      if Resolved(transfers, m.key) {
        // Already resolved: undo the speculative sequence bump.
        watches := watches[id := watches[id].(nextEventSeq := watches[id].nextEventSeq - 1)];
        assert watches == old(watches);
        return;
      }
      delta', completed', failed := Credit(id, m, delta, completed);
    }

    /** Confirms the row and adds its amount to the watch, whose sequence was already bumped. */
    method Credit(id: Id, m: MatchedTransfer, delta: map<int, Stats>, completed: seq<(WatchKey, Id)>)
      returns (delta': map<int, Stats>, completed': seq<(WatchKey, Id)>, failed: bool)
      requires IsActive(watches, id) && watches[id].nextEventSeq > 0 && id == m.watch.id
      modifies this
      ensures failed <==> old(watches)[id].confirmed + m.amount >= UINT256
      ensures !failed ==>
                var w := old(watches)[id].(nextEventSeq := old(watches)[id].nextEventSeq - 1);
                && cursor == old(cursor) && stats == old(stats)
                && watches == old(watches)[id := Credited(w, m.amount)]
                && transfers == old(transfers)[m.key := ConfirmedRow(old(transfers), m)]
                && events == old(events)[id := EventsOf(old(events), id) + CreditEvents(w, m)]
                && delta' == CreditStats(delta, w, m.amount)
                && completed' == if Reaches(w, m.amount) then completed + [(WatchKey(m.tokenIdx, m.to), id)]
                   else completed
    {
      delta', completed', failed := delta, completed, false;
      transfers := transfers[m.key := ConfirmedRow(transfers, m)];
      var w := watches[id].(confirmed := watches[id].confirmed + m.amount);
      watches := watches[id := w];
      if w.confirmed >= UINT256 {
        failed := true;
        return;
      }
      InsertEvent(id, w, PaymentConfirmed, Some(View(m, Confirmed)));
      delta' := Accrued(delta', w.token, Stats(1, 0, 0, m.amount));
      if w.confirmed >= w.threshold {
        w := w.(status := Completed, nextEventSeq := w.nextEventSeq + 1);
        watches := watches[id := w];
        InsertEvent(id, w, ThresholdReached, None);
        delta' := Accrued(delta', w.token, Stats(0, 0, 1, 0));
        completed' := completed' + [(WatchKey(m.tokenIdx, m.to), id)];
      }
      ghost var w0 := old(watches)[id].(nextEventSeq := old(watches)[id].nextEventSeq - 1);
      assert events[id] == EventsOf(old(events), id) + CreditEvents(w0, m);
    }

    method CountAll(ms: seq<MatchedTransfer>)
      returns (delta: map<int, Stats>, completed: seq<(WatchKey, Id)>, failed: bool)
      modifies this
      ensures failed == CountedAll(Begin(old(Content())), ms).failed
      ensures !failed ==> Tx(Content(), delta, completed, false) == CountedAll(Begin(old(Content())), ms)
    {
      ghost var begin := Begin(Content());
      delta, completed, failed := map[], [], false;
      var i := 0;
      while i < |ms|
        invariant 0 <= i <= |ms|
        invariant !failed && Tx(Content(), delta, completed, false) == CountedAll(begin, ms[..i])
      {
        assert ms[..i + 1][..i] == ms[..i];
        delta, completed, failed := CountConfirmed(ms[i], delta, completed);
        i := i + 1;
        if failed {
          FailureSticks(begin, ms, i);
          return;
        }
      }
      assert ms[..i] == ms;
    }

    /** Resolves one leftover pending row. */
    method SettleOne(key: Key, canonical: set<Key>, delta: map<int, Stats>, ghost completed: seq<(WatchKey, Id)>)
      returns (delta': map<int, Stats>)
      modifies this
      ensures Tx(Content(), delta', completed, false)
              == Settled(Tx(old(Content()), delta, completed, false), key, canonical)
    {
      delta' := delta;
      if key !in transfers {
        return;
      }
      var row := transfers[key];
      if key in canonical {
        transfers := transfers[key := row.(status := Ignored)];
        return;
      }
      transfers := transfers[key := row.(status := Orphaned)];
      var locked := LockActiveWatch(row.watchId);
      if locked.Some? {
        InsertEvent(row.watchId, locked.value, PaymentOrphaned, Some(RowView(key, row)));
        delta' := Accrued(delta', locked.value.token, Stats(0, 1, 0, 0));
      }
    }

    /** Resolves the leftover pending rows. */
    method Settle(keys: seq<Key>, canonical: set<Key>, delta: map<int, Stats>, ghost completed: seq<(WatchKey, Id)>)
      returns (delta': map<int, Stats>)
      modifies this
      ensures Tx(Content(), delta', completed, false)
           == SettledAll(Tx(old(Content()), delta, completed, false), keys, canonical)
    {
      delta' := delta;
      ghost var begin := Tx(Content(), delta, completed, false);
      var i := 0;
      while i < |keys|
        invariant 0 <= i <= |keys|
        invariant Tx(Content(), delta', completed, false) == SettledAll(begin, keys[..i], canonical)
      {
        assert keys[..i + 1][..i] == keys[..i];
        delta' := SettleOne(keys[i], canonical, delta', completed);
        i := i + 1;
      }
      assert keys[..i] == keys;
    }

    method ApplyStats(delta: map<int, Stats>)
      modifies this`stats
      ensures stats == RolledUp(old(stats), delta)
    {
      var todo := delta.Keys;
      while todo != {}
        invariant todo <= delta.Keys
        invariant stats.Keys == old(stats).Keys + (delta.Keys - todo)
        invariant forall t :: t in stats ==>
                    stats[t] == if t in delta && t !in todo then AddStats(StatOf(old(stats), t), delta[t])
                                else StatOf(old(stats), t)
      {
        assert exists t :: t in todo by {
          assert (forall t :: t !in todo) ==> todo == {};
        }
        var t :| t in todo;
        stats := stats[t := AddStats(StatOf(stats, t), delta[t])];
        todo := todo - {t};
      }
    }

    /** The delta-load query. */
    method SelectActiveAbove(above: nat) returns (ids: seq<Id>)
      ensures ActiveAbove(watches, above, ids)
    {
      ghost var all := set id | id in watches && watches[id].status == Active && watches[id].serial > above;
      var todo := set id | id in watches && watches[id].status == Active && watches[id].serial > above;
      ids := [];
      while todo != {}
        invariant todo <= all
        invariant forall id :: id in all <==> id in ids || id in todo
        invariant forall id :: id in ids ==> id !in todo
        invariant NoDup(ids) && forall i :: 0 <= i < |ids| ==> ids[i] in watches
        invariant forall i, x :: 0 <= i < |ids| && x in todo ==> watches[ids[i]].serial <= watches[x].serial
        invariant forall i, j :: 0 <= i < j < |ids| ==> watches[ids[i]].serial <= watches[ids[j]].serial
      {
        var best := LowestSerial(todo);
        ids := ids + [best];
        todo := todo - {best};
      }
      assert forall id :: id in all <==> IsActive(watches, id) && watches[id].serial > above;
    }

    method LowestSerial(ids: set<Id>) returns (best: Id)
      requires ids != {} && ids <= watches.Keys
      ensures best in ids && forall x :: x in ids ==> watches[best].serial <= watches[x].serial
    {
      best :| best in ids;
      var rest := ids - {best};
      while rest != {}
        invariant rest <= ids && best in ids
        invariant forall x :: x in ids && x !in rest ==> watches[best].serial <= watches[x].serial
      {
        var x :| x in rest;
        if watches[x].serial < watches[best].serial {
          best := x;
        }
        rest := rest - {x};
      }
    }

    method PendingBackfills(limit: nat) returns (batch: seq<PendingBackfill>)
      ensures OldestPending(watches, limit, batch)
    {
      var todo := Backlog(watches);
      batch := [];
      while todo != {} && |batch| < limit
        invariant |batch| <= limit && todo == Backlog(watches) - BatchIds(batch) && PickedFirst(watches, batch, todo)
      {
        var id := LowestSerial(todo);
        var w := watches[id];
        PickedNext(watches, batch, todo, id);
        batch := batch + [PendingBackfill(id, w.serial, w.token, w.payee, w.start, w.backfillTo.value)];
        todo := todo - {id};
      }
    }

    /** The leftovers query. */
    method SelectLeftovers(to: nat) returns (keys: seq<Key>)
      ensures Leftovers(transfers, to, keys)
    {
      ghost var all := set k | k in transfers && transfers[k].status == Pending && transfers[k].block <= to;
      var todo := set k | k in transfers && transfers[k].status == Pending && transfers[k].block <= to;
      keys := [];
      while todo != {}
        invariant todo <= all
        invariant forall k :: k in all <==> k in keys || k in todo
        invariant forall k :: k in keys ==> k !in todo
        invariant NoDup(keys) && forall i :: 0 <= i < |keys| ==> keys[i] in transfers
        invariant forall i, x :: 0 <= i < |keys| && x in todo ==> EarlierRow(transfers, keys[i], x)
        invariant forall i, j :: 0 <= i < j < |keys| ==> EarlierRow(transfers, keys[i], keys[j])
      {
        var best := Earliest(todo);
        keys := keys + [best];
        todo := todo - {best};
      }
    }

    method Earliest(keys: set<Key>) returns (best: Key)
      requires keys != {} && keys <= transfers.Keys
      ensures best in keys && forall x :: x in keys ==> EarlierRow(transfers, best, x)
    {
      best :| best in keys;
      var rest := keys - {best};
      while rest != {}
        invariant rest <= keys && best in keys
        invariant forall x :: x in keys && x !in rest ==> EarlierRow(transfers, best, x)
      {
        var x :| x in rest;
        if EarlierRow(transfers, x, best) {
          best := x;
        }
        rest := rest - {x};
      }
    }

    method DeltaLoad(chain: ChainSpec, cache: WatchCache) returns (ghost ids: seq<Id>)
      modifies cache
      ensures ActiveAbove(watches, old(cache.lastSeq), ids)
      ensures cache.State() == Loaded(chain, watches, old(cache.State()), ids)
    {
      var rows := SelectActiveAbove(cache.lastSeq);
      ids := rows;
      var i := 0;
      while i < |rows|
        invariant 0 <= i <= |rows|
        invariant cache.State() == Loaded(chain, watches, old(cache.State()), rows[..i])
      {
        assert rows[..i + 1][..i] == rows[..i];
        var key := CacheKey(chain, watches[rows[i]]);
        if key.Some? {
          var _ := cache.Insert(key.value, RefOf(rows[i], watches[rows[i]]));
        }
        i := i + 1;
      }
      assert rows[..i] == rows;
    }

    method ApplySweep(chain: ChainSpec, cache: WatchCache, expected: nat, to: nat, logs: seq<Log>)
      returns (r: SweepResult, ghost loads: seq<Id>, ghost leftovers: seq<Key>)
      requires ValidScales(chain)
      modifies this, cache
      ensures forall id :: id in loads ==> id in old(watches)
      ensures r.CursorMoved? <==> old(cursor) != expected
      ensures r.CursorMoved? ==> r.expected == expected && r.actual == old(cursor) && Content() == old(Content())
      ensures Outcome(Content(), cache.State(), r)
           == Swept(chain, old(Content()), old(cache.State()), expected, to, logs, loads, leftovers)
      ensures old(cursor) == expected ==> ActiveAbove(old(watches), old(cache.lastSeq), loads)
      ensures r.Applied? ==>
                var counted := CountedChunk(chain, old(Content()),
                                            Loaded(chain, old(watches), old(cache.State()), loads), logs);
                Leftovers(counted.db.transfers, to, leftovers)
    {
      loads, leftovers := [], [];
      var before := Content();
      if cursor != expected {
        return CursorMoved(expected, cursor), loads, leftovers;
      }
      loads := DeltaLoad(chain, cache);
      var matched := Sorted(Hits(chain, cache.entries, logs));
      var delta, completed, failed := CountAll(matched);
      if failed {
        Rollback(before);
        r := Corrupt;
        return;
      }
      var keys := SelectLeftovers(to);
      leftovers := keys;
      delta := Settle(keys, CanonicalKeys(logs), delta, completed);
      SettlingKeepsStats(CountedAll(Begin(before), matched), keys, CanonicalKeys(logs));
      CountingKeepsStats(Begin(before), matched);
      ApplyStats(delta);
      cursor := to;
      Evict(cache, completed);
      r := Applied(completed);
    }

    method Evict(cache: WatchCache, completed: seq<(WatchKey, Id)>)
      modifies cache
      ensures cache.State() == Evicted(old(cache.State()), completed)
    {
      var i := 0;
      while i < |completed|
        invariant 0 <= i <= |completed|
        invariant cache.State() == Evicted(old(cache.State()), completed[..i])
      {
        assert completed[..i + 1][..i] == completed[..i];
        var _ := cache.Remove(completed[i].0, completed[i].1);
        i := i + 1;
      }
      assert completed[..i] == completed;
    }

    method ApplyBackfill(chain: ChainSpec, cache: WatchCache, batch: seq<PendingBackfill>, logs: seq<Log>)
      returns (r: SweepResult)
      requires ValidScales(chain)
      modifies this, cache
      ensures Outcome(Content(), cache.State(), r)
           == Backfilled(chain, old(Content()), old(cache.State()), batch, logs)
    {
      var before := Content();
      var matched := Sorted(Within(BatchUntil(chain, batch), Hits(chain, BatchScope(chain, batch), logs)));
      var delta, completed, failed := CountAll(matched);
      if failed {
        Rollback(before);
        return Corrupt;
      }
      CountingKeepsStats(Begin(before), matched);
      ghost var tx := CountedBatch(chain, before, batch, logs);
      assert Tx(Content(), delta, completed, false) == tx;
      watches := BackfillsDone(watches, BatchIds(batch));
      ApplyStats(delta);
      assert Content() == Committed(tx.(db := tx.db.(watches := BackfillsDone(tx.db.watches, BatchIds(batch)))), before,
                                    before.cursor);
      Evict(cache, completed);
      r := Applied(completed);
    }

    method FastForward(target: nat) returns (c: nat, ghost min: Option<nat>)
      modifies this
      ensures IsMinStart(old(watches), min)
      ensures Content() == FastForwarded(old(Content()), target, min)
      ensures SkipDone(old(Content()), Content(), target) && c == cursor
    {
      var active := set id | id in watches && watches[id].status == Active;
      var ceiling := target;
      min := None;
      if active != {} {
        var start := LowestStart(active);
        ceiling := if start == 0 then 0 else start - 1;
        min := Some(start);
      } else {
        assert forall id :: IsActive(watches, id) ==> id in active;
      }
      if !HasPending(transfers) {
        cursor := Max(cursor, Min(ceiling, target));
      }
      SkipMeans(old(Content()), target, min);
      c := cursor;
    }

    method LowestStart(ids: set<Id>) returns (start: nat)
      requires ids != {} && forall id :: id in ids <==> IsActive(watches, id)
      ensures IsMinStart(watches, Some(start))
    {
      var best :| best in ids;
      var rest := ids - {best};
      while rest != {}
        invariant rest <= ids && best in ids
        invariant forall x :: x in ids && x !in rest ==> watches[best].start <= watches[x].start
      {
        var x :| x in rest;
        if watches[x].start < watches[best].start {
          best := x;
        }
        rest := rest - {x};
      }
      start := watches[best].start;
    }
  }

  /** Once a transfer fails the transaction, counting more changes nothing. */
  lemma {:induction false} FailureSticks(tx: Tx, ms: seq<MatchedTransfer>, i: nat)
    requires i <= |ms| && CountedAll(tx, ms[..i]).failed
    ensures CountedAll(tx, ms).failed
  {
    if i < |ms| {
      if i == |ms| - 1 {
        assert ms[..i] == ms[..|ms| - 1];
      } else {
        assert ms[..|ms| - 1][..i] == ms[..i];
        FailureSticks(tx, ms[..|ms| - 1], i);
      }
    } else {
      assert ms[..i] == ms;
    }
  }

  /** Counting leaves the rollup and the cursor to the end of the transaction. */
  lemma {:induction false} CountingKeepsStats(tx: Tx, ms: seq<MatchedTransfer>)
    ensures CountedAll(tx, ms).db.stats == tx.db.stats
    ensures CountedAll(tx, ms).db.cursor == tx.db.cursor
  {
    if ms != [] {
      CountingKeepsStats(tx, ms[..|ms| - 1]);
    }
  }

  lemma {:induction false} SettlingKeepsStats(tx: Tx, keys: seq<Key>, canonical: set<Key>)
    ensures SettledAll(tx, keys, canonical).db.stats == tx.db.stats
    ensures SettledAll(tx, keys, canonical).db.cursor == tx.db.cursor
  {
    if keys != [] {
      SettlingKeepsStats(tx, keys[..|keys| - 1], canonical);
    }
  }
}
