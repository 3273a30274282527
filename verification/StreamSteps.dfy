/** Every transaction keeps the event streams and only ever moves rows forward. */
module StreamSteps {
  import opened Base
  import opened Registry
  import opened Cache
  import opened Matcher
  import opened Ledger
  import opened Chain
  import opened Join
  import opened Machine
  import opened Books
  import opened Streams

  ghost predicate StreamsInv(db: Db) {
    && db.events.Keys == db.watches.Keys
    && (forall id :: id in db.watches ==> StreamOk(db.watches[id], db.events[id]))
    && Linked(db.transfers, db.events)
  }

  /** Rows are never removed or rewritten; only the status moves, and only from pending. */
  ghost predicate RowsForward(rows: map<Key, Row>, rows': map<Key, Row>) {
    forall k :: k in rows ==>
      k in rows' && rows'[k] == rows[k].(status := rows'[k].status)
          && (rows[k].status != Pending ==> rows'[k] == rows[k])
  }

  lemma ForwardTransitive(a: map<Key, Row>, b: map<Key, Row>, c: map<Key, Row>)
    requires RowsForward(a, b) && RowsForward(b, c)
    ensures RowsForward(a, c)
  {
    forall k | k in a
      ensures k in c && c[k] == a[k].(status := c[k].status) && (a[k].status != Pending ==> c[k] == a[k])
    {
      assert k in b && k in c;
    }
  }

  /** One watch and its stream change, together with at most one row. */
  lemma OneAppend(db: Db, db': Db, id: Id, e: Event)
    requires StreamsInv(db) && id in db.watches && id in db'.watches
    requires db'.watches == db.watches[id := db'.watches[id]]
    requires db'.events == Appended(db.events, id, e) && StreamOk(db'.watches[id], db.events[id] + [e])
    requires Fits(db.transfers, db'.transfers, id, e)
    ensures StreamsInv(db') && RowsForward(db.transfers, db'.transfers)
  {
    AppendLinked(db.transfers, db'.transfers, db.events, id, e);
  }

  lemma PendStreams(db: Db, m: MatchedTransfer)
    requires StreamsInv(db)
    ensures StreamsInv(Pended(db, m)) && RowsForward(db.transfers, Pended(db, m).transfers)
  {
    var id := m.watch.id;
    if IsActive(db.watches, id) && m.key !in db.transfers {
      var db' := Pended(db, m);
      var w' := db'.watches[id];
      var e := EventFor(w', PaymentPending, Some(View(m, Pending)));
      AppendKeepsStream(db.watches[id], db.events[id], w', e);
      OneAppend(db, db', id, e);
    }
  }

  lemma ExpireStreams(db: Db, id: Id, now: nat)
    requires StreamsInv(db)
    ensures StreamsInv(ExpiredOne(db, id, now)) && ExpiredOne(db, id, now).transfers == db.transfers
  {
    if Overdue(db.watches, id, now) {
      var db' := ExpiredOne(db, id, now);
      ExpiryKeepsStream(db.watches[id], db.events[id], db'.watches[id]);
      OneAppend(db, db', id, EventFor(db'.watches[id], WatchExpired, None));
    }
  }

  /** The events of a credit, appended one by one. */
  lemma CreditLinked(rows: map<Key, Row>, rows': map<Key, Row>, events: map<Id, seq<Event>>, w: Watch,
                     m: MatchedTransfer)
    requires Linked(rows, events) && m.watch.id in events && !Resolved(rows, m.key)
    requires rows' == rows[m.key := ConfirmedRow(rows, m)]
    ensures Linked(rows', events[m.watch.id := EventsOf(events, m.watch.id) + CreditEvents(w, m)])
  {
    var id := m.watch.id;
    var es := CreditEvents(w, m);
    AppendLinked(rows, rows', events, id, es[0]);
    if Reaches(w, m.amount) {
      AppendLinked(rows', rows', Appended(events, id, es[0]), id, es[1]);
      assert EventsOf(events, id) + [es[0]] + [es[1]] == EventsOf(events, id) + es;
      assert Appended(Appended(events, id, es[0]), id, es[1]) == events[id := EventsOf(events, id) + es];
    }
  }

  lemma CountStreams(tx: Tx, m: MatchedTransfer)
    requires StreamsInv(tx.db)
    ensures StreamsInv(Counted(tx, m).db) && RowsForward(tx.db.transfers, Counted(tx, m).db.transfers)
  {
    var db := tx.db;
    var id := m.watch.id;
    if !tx.failed && Countable(db, m) && db.watches[id].confirmed + m.amount < UINT256 {
      CreditKeepsStream(db.watches[id], db.events[id], m);
      CreditLinked(db.transfers, Counted(tx, m).db.transfers, db.events, db.watches[id], m);
    }
  }

  lemma {:induction false} CountAllStreams(tx: Tx, ms: seq<MatchedTransfer>)
    requires StreamsInv(tx.db)
    ensures StreamsInv(CountedAll(tx, ms).db) && RowsForward(tx.db.transfers, CountedAll(tx, ms).db.transfers)
  {
    if ms != [] {
      var n := |ms| - 1;
      CountAllStreams(tx, ms[..n]);
      CountStreams(CountedAll(tx, ms[..n]), ms[n]);
      ForwardTransitive(tx.db.transfers, CountedAll(tx, ms[..n]).db.transfers, CountedAll(tx, ms).db.transfers);
    }
  }

  lemma SettleStreams(tx: Tx, key: Key, canonical: set<Key>)
    requires StreamsInv(tx.db) && key in tx.db.transfers && tx.db.transfers[key].status == Pending
    ensures StreamsInv(Settled(tx, key, canonical).db)
    ensures RowsForward(tx.db.transfers, Settled(tx, key, canonical).db.transfers)
  {
    var db := tx.db;
    var db' := Settled(tx, key, canonical).db;
    var id := db.transfers[key].watchId;
    if key in canonical || !IsActive(db.watches, id) {
      SilentResolution(db.transfers, db.events, key, if key in canonical then Ignored else Orphaned);
    } else {
      var e := EventFor(db'.watches[id], PaymentOrphaned, Some(RowView(key, db.transfers[key])));
      AppendKeepsStream(db.watches[id], db.events[id], db'.watches[id], e);
      OneAppend(db, db', id, e);
    }
  }

  lemma {:induction false} SettleAllStreams(tx: Tx, keys: seq<Key>, canonical: set<Key>)
    requires StreamsInv(tx.db) && NoDup(keys)
    requires forall k :: k in keys ==> k in tx.db.transfers && tx.db.transfers[k].status == Pending
    ensures StreamsInv(SettledAll(tx, keys, canonical).db)
    ensures RowsForward(tx.db.transfers, SettledAll(tx, keys, canonical).db.transfers)
  {
    if keys != [] {
      var n := |keys| - 1;
      SettleAllStreams(tx, keys[..n], canonical);
      SettledFacts(tx, keys[..n], canonical);
      assert keys[n] in keys && keys[n] !in keys[..n];
      var mid := SettledAll(tx, keys[..n], canonical);
      SettleStreams(mid, keys[n], canonical);
      ForwardTransitive(tx.db.transfers, mid.db.transfers, SettledAll(tx, keys, canonical).db.transfers);
    }
  }

  // ------------------------------------------------------------------ steps and runs

  lemma CreateStreams(db: Db, id: Id, serial: nat, new_: NewWatch)
    requires StreamsInv(db) && CreateEnabled(db, id, serial, new_)
    ensures StreamsInv(Registered(db, id, serial, new_))
  {
    if !Occupied(db.watches, new_.token, new_.payee) {
      NewStream(db.transfers, db.events, id);
    }
  }

  lemma {:induction false} ExpireAllStreams(db: Db, ids: seq<Id>, now: nat)
    requires StreamsInv(db)
    ensures StreamsInv(ExpiredDb(db, ids, now)) && ExpiredDb(db, ids, now).transfers == db.transfers
  {
    if ids != [] {
      ExpireAllStreams(db, ids[..|ids| - 1], now);
      ExpireStreams(ExpiredDb(db, ids[..|ids| - 1], now), ids[|ids| - 1], now);
    }
  }

  lemma SweepStreams(chain: ChainSpec, db: Db, c: CacheState, expected: nat, to: nat, logs: seq<Log>, loads: seq<Id>,
                     leftovers: seq<Key>)
    requires ValidScales(chain) && StreamsInv(db) && (forall id :: id in loads ==> id in db.watches)
    requires var counted := CountedChunk(chain, db, Loaded(chain, db.watches, c, loads), logs);
             db.cursor == expected && !counted.failed ==> Leftovers(counted.db.transfers, to, leftovers)
    ensures var db' := Swept(chain, db, c, expected, to, logs, loads, leftovers).db;
            StreamsInv(db') && RowsForward(db.transfers, db'.transfers)
  {
    var loaded := Loaded(chain, db.watches, c, loads);
    var counted := CountedChunk(chain, db, loaded, logs);
    CountAllStreams(Begin(db), Sorted(Hits(chain, loaded.entries, logs)));
    if db.cursor == expected && !counted.failed {
      SettleAllStreams(counted, leftovers, CanonicalKeys(logs));
      ForwardTransitive(db.transfers, counted.db.transfers,
                        SettledAll(counted, leftovers, CanonicalKeys(logs)).db.transfers);
    }
  }

  lemma BackfillStreams(chain: ChainSpec, db: Db, batch: seq<PendingBackfill>, logs: seq<Log>)
    requires ValidScales(chain) && StreamsInv(db)
    ensures var db' := Backfilled(chain, db, EMPTY, batch, logs).db;
            StreamsInv(db') && RowsForward(db.transfers, db'.transfers)
  {
    CountAllStreams(Begin(db), Sorted(Within(BatchUntil(chain, batch), Hits(chain, BatchScope(chain, batch), logs))));
    var tx := CountedBatch(chain, db, batch, logs);
    DoneStreams(tx.db, BatchIds(batch));
  }

  lemma DoneStreams(db: Db, ids: set<Id>)
    requires StreamsInv(db)
    ensures StreamsInv(db.(watches := BackfillsDone(db.watches, ids)))
  {
    forall id | id in db.watches
      ensures StreamOk(BackfillsDone(db.watches, ids)[id], db.events[id])
    {
      assert StreamOk(db.watches[id], db.events[id]);
    }
  }

  /** Each step keeps the streams and moves rows only forward. */
  lemma StepStreams(world: World, s: Sys, step: Step)
    requires Good(world) && ValidScales(world.chain) && StreamsInv(s.db) && Enabled(world, s, step)
    ensures StreamsInv(Do(world, s, step).db)
    ensures RowsForward(s.db.transfers, Do(world, s, step).db.transfers)
  {
    match step
    case Create(id, serial, new_) => CreateStreams(s.db, id, serial, new_);
    case Cancel(_) =>
    case Expire(ids, now) => ExpireAllStreams(s.db, ids, now);
    case Pend(id, log) => PendStreams(s.db, Genuine(world.chain, id, s.db.watches[id], log));
    case Sweep(c, expected, to, logs, loads, leftovers) =>
      SweepStreams(world.chain, s.db, c, expected, to, logs, loads, leftovers);
    case Backfill(batch, logs) => BackfillStreams(world.chain, s.db, batch, logs);
    case FastForward(_, _) =>
  }

  lemma {:induction false} RunStreams(world: World, s: Sys, steps: seq<Step>)
    requires Good(world) && ValidScales(world.chain) && Initial(s) && Run(world, s, steps)
    ensures StreamsInv(After(world, s, steps).db)
  {
    if steps != [] {
      RunStreams(world, s, steps[..|steps| - 1]);
      StepStreams(world, After(world, s, steps[..|steps| - 1]), steps[|steps| - 1]);
    }
  }
}
