/** From the ledger to the outbox: the events a transaction writes are the rows the dispatchers lease, so what a watch's
    consumer is sent follows the watch's stream (src/store/mod.rs:546-580, src/store/outbox.rs:24-63). */
module Reports {
  import opened Base
  import opened Ledger
  import opened Chain
  import opened Machine
  import opened Streams
  import opened StreamSteps
  import opened Registry
  import opened Cache
  import opened Matcher
  import Outbox

  // ------------------------------------------------------------------ streams only grow

  ghost predicate Grown(before: map<Id, seq<Event>>, after: map<Id, seq<Event>>) {
    forall id :: id in before ==> id in after && before[id] <= after[id]
  }

  lemma GrownTransitive(a: map<Id, seq<Event>>, b: map<Id, seq<Event>>, c: map<Id, seq<Event>>)
    requires Grown(a, b) && Grown(b, c)
    ensures Grown(a, c)
  {
    forall id | id in a
      ensures id in c && a[id] <= c[id]
    {
      assert b[id] <= c[id];
    }
  }

  lemma {:induction false} CountedGrown(tx: Tx, ms: seq<MatchedTransfer>)
    ensures Grown(tx.db.events, CountedAll(tx, ms).db.events)
  {
    if ms != [] {
      var mid := CountedAll(tx, ms[..|ms| - 1]);
      CountedGrown(tx, ms[..|ms| - 1]);
      assert Grown(mid.db.events, Counted(mid, ms[|ms| - 1]).db.events);
      GrownTransitive(tx.db.events, mid.db.events, CountedAll(tx, ms).db.events);
    }
  }

  lemma {:induction false} SettledGrown(tx: Tx, keys: seq<Key>, canonical: set<Key>)
    ensures Grown(tx.db.events, SettledAll(tx, keys, canonical).db.events)
  {
    if keys != [] {
      var mid := SettledAll(tx, keys[..|keys| - 1], canonical);
      SettledGrown(tx, keys[..|keys| - 1], canonical);
      assert Grown(mid.db.events, Settled(mid, keys[|keys| - 1], canonical).db.events);
      GrownTransitive(tx.db.events, mid.db.events, SettledAll(tx, keys, canonical).db.events);
    }
  }

  lemma {:induction false} ExpiredGrown(db: Db, ids: seq<Id>, now: nat)
    ensures Grown(db.events, ExpiredDb(db, ids, now).events)
  {
    if ids != [] {
      var mid := ExpiredDb(db, ids[..|ids| - 1], now);
      ExpiredGrown(db, ids[..|ids| - 1], now);
      assert Grown(mid.events, ExpiredOne(mid, ids[|ids| - 1], now).events);
      GrownTransitive(db.events, mid.events, ExpiredDb(db, ids, now).events);
    }
  }

  lemma SweptGrown(chain: ChainSpec, db: Db, c: CacheState, expected: nat, to: nat, logs: seq<Log>, loads: seq<Id>,
                   leftovers: seq<Key>)
    requires ValidScales(chain) && forall id :: id in loads ==> id in db.watches
    ensures Grown(db.events, Swept(chain, db, c, expected, to, logs, loads, leftovers).db.events)
  {
    var loaded := Loaded(chain, db.watches, c, loads);
    var ms := Sorted(Hits(chain, loaded.entries, logs));
    var counted := CountedAll(Begin(db), ms);
    CountedGrown(Begin(db), ms);
    SettledGrown(counted, leftovers, CanonicalKeys(logs));
    GrownTransitive(db.events, counted.db.events, SettledAll(counted, leftovers, CanonicalKeys(logs)).db.events);
  }

  /** No step removes or rewrites an event. */
  lemma StepGrows(world: World, s: Sys, step: Step)
    requires Good(world) && ValidScales(world.chain) && s.db.events.Keys == s.db.watches.Keys && Enabled(world, s, step)
    ensures Grown(s.db.events, Do(world, s, step).db.events)
  {
    match step
    case Expire(ids, now) => ExpiredGrown(s.db, ids, now);
    case Sweep(c, expected, to, logs, loads, leftovers) =>
      SweptGrown(world.chain, s.db, c, expected, to, logs, loads, leftovers);
    case Backfill(batch, logs) =>
      CountedGrown(Begin(s.db), Sorted(Within(BatchUntil(world.chain, batch),
                                              Hits(world.chain, BatchScope(world.chain, batch), logs))));
    case _ =>
  }

  // ------------------------------------------------------------------ the tables together

  /** The rows of the events that are new in `events`, each under the sequence its transaction wrote. */
  function Published(q: Outbox.Queue, events: map<Id, seq<Event>>, now: nat): Outbox.Queue {
    var keys := set id, i | id in events && 0 <= i < |events[id]| :: Outbox.EventKey(id, events[id][i].sequence);
    Outbox.Queue(map k | k in q.items.Keys + keys ::
                 if k in q.items then q.items[k] else Outbox.Item(Outbox.Waiting, 0, now),
                 map id | id in events :: |events[id]|)
  }

  datatype Tables = Tables(sys: Sys, q: Outbox.Queue)

  /** Transactions, each of which writes its events to the outbox, and statements by dispatchers. */
  datatype Move = Account(step: Step, now: nat) | Deliver(qstep: Outbox.QStep)

  ghost predicate MoveOk(world: World, x: Tables, move: Move)
    requires Good(world) && ValidScales(world.chain)
  {
    match move
    case Account(step, _) => Enabled(world, x.sys, step)
    case Deliver(qstep) => !qstep.Enqueue? && Outbox.QEnabled(x.q, qstep)
  }

  ghost function Made(world: World, x: Tables, move: Move): Tables
    requires Good(world) && ValidScales(world.chain) && MoveOk(world, x, move)
  {
    match move
    case Account(step, now) =>
      var sys := Do(world, x.sys, step);
      Tables(sys, Published(x.q, sys.db.events, now))
    case Deliver(qstep) => x.(q := Outbox.QDo(x.q, qstep))
  }

  ghost predicate Moves(world: World, x: Tables, moves: seq<Move>)
    requires Good(world) && ValidScales(world.chain)
    decreases |moves|, 0
  {
    moves == [] ||
    (Moves(world, x, moves[..|moves| - 1])
     && MoveOk(world, AfterMoves(world, x, moves[..|moves| - 1]), moves[|moves| - 1]))
  }

  ghost function AfterMoves(world: World, x: Tables, moves: seq<Move>): Tables
    requires Good(world) && ValidScales(world.chain) && Moves(world, x, moves)
    decreases |moves|, 1
  {
    if moves == [] then x else Made(world, AfterMoves(world, x, moves[..|moves| - 1]), moves[|moves| - 1])
  }

  /** Everything leased, in order. */
  function LeasedBy(moves: seq<Move>): seq<Outbox.EventKey> {
    if moves == [] then []
    else
      var last := moves[|moves| - 1];
      LeasedBy(moves[..|moves| - 1]) + if last.Deliver? && last.qstep.Lease? then last.qstep.keys else []
  }

  /** The outbox holds the events of every stream and nothing else: row (watch, n) is event number n of the watch. */
  ghost predicate Matches(events: map<Id, seq<Event>>, q: Outbox.Queue) {
    && Outbox.GapFree(q)
    && (forall id :: Outbox.LastOf(q, id) == |EventsOf(events, id)|)
  }

  ghost predicate Sequenced(events: map<Id, seq<Event>>) {
    forall id, i :: id in events && 0 <= i < |events[id]| ==> events[id][i].sequence == i + 1
  }

  lemma StreamsSequenced(db: Db)
    requires StreamsInv(db)
    ensures Sequenced(db.events)
  {
    forall id, i | id in db.events && 0 <= i < |db.events[id]|
      ensures db.events[id][i].sequence == i + 1
    {
      assert StreamOk(db.watches[id], db.events[id]);
      assert EventOk(db.events[id], i);
    }
  }

  /** The rows of a transaction's events continue the sequence of their watch without gap or overlap. */
  lemma PublishedMatches(before: map<Id, seq<Event>>, after: map<Id, seq<Event>>, q: Outbox.Queue, now: nat)
    requires Matches(before, q) && Grown(before, after) && Sequenced(after)
    ensures Matches(after, Published(q, after, now))
    ensures forall k :: k in q.items ==>
              k in Published(q, after, now).items && Published(q, after, now).items[k] == q.items[k]
  {
    var q' := Published(q, after, now);
    forall k: Outbox.EventKey
      ensures k in q'.items <==> 1 <= k.serial <= Outbox.LastOf(q', k.watch)
    {
      PublishedKey(before, after, q, now, k);
    }
  }

  lemma PublishedKey(before: map<Id, seq<Event>>, after: map<Id, seq<Event>>, q: Outbox.Queue, now: nat,
                     k: Outbox.EventKey)
    requires Matches(before, q) && Grown(before, after) && Sequenced(after)
    ensures var q' := Published(q, after, now); k in q'.items <==> 1 <= k.serial <= Outbox.LastOf(q', k.watch)
  {
    var q' := Published(q, after, now);
    if k in q.items {
      assert k.serial <= Outbox.LastOf(q, k.watch) && |EventsOf(before, k.watch)| <= |EventsOf(after, k.watch)|;
    } else if k in q'.items {
      var id, i :| id in after && 0 <= i < |after[id]| && k == Outbox.EventKey(id, after[id][i].sequence);
    }
    if 1 <= k.serial <= Outbox.LastOf(q', k.watch) {
      var i := k.serial - 1;
      assert k.watch in after && after[k.watch][i].sequence == i + 1;
      assert k == Outbox.EventKey(k.watch, after[k.watch][i].sequence);
    }
  }

  lemma StatementMatches(events: map<Id, seq<Event>>, q: Outbox.Queue, qstep: Outbox.QStep)
    requires Matches(events, q) && !qstep.Enqueue?
    ensures Matches(events, Outbox.QDo(q, qstep))
  {
    Outbox.GapFreeKept(q, qstep);
    if qstep.Lease? {
      Outbox.LeasedItems(q, qstep.keys, qstep.until);
    }
    assert Outbox.QDo(q, qstep).last == q.last;
  }

  /** Rows that are only added to leave the order of past leases as it was. */
  lemma ExtendedLeases(q: Outbox.Queue, q': Outbox.Queue, leases: seq<Outbox.EventKey>)
    requires Outbox.LeasesOk(q, leases)
    requires forall k :: k in q.items ==> k in q'.items && q'.items[k] == q.items[k]
    ensures Outbox.LeasesOk(q', leases)
  {
    forall i | 0 <= i < |leases|
      ensures leases[i] in q'.items && Outbox.LowerResolved(q', leases[i])
    {
      assert Outbox.LowerResolved(q, leases[i]);
      forall n | 1 <= n < leases[i].serial
        ensures Outbox.IsResolved(q', Outbox.EventKey(leases[i].watch, n))
      {
        assert Outbox.IsResolved(q, Outbox.EventKey(leases[i].watch, n));
      }
    }
  }

  /** What holds of the ledger and the outbox together. */
  ghost predicate InStep(x: Tables, leases: seq<Outbox.EventKey>) {
    StreamsInv(x.sys.db) && Matches(x.sys.db.events, x.q) && Outbox.LeasesOk(x.q, leases)
  }

  lemma AccountKeeps(world: World, x: Tables, step: Step, now: nat, leases: seq<Outbox.EventKey>)
    requires Good(world) && ValidScales(world.chain) && InStep(x, leases) && Enabled(world, x.sys, step)
    ensures InStep(Made(world, x, Account(step, now)), leases)
  {
    var after := Do(world, x.sys, step).db;
    StepStreams(world, x.sys, step);
    StepGrows(world, x.sys, step);
    StreamsSequenced(after);
    PublishedMatches(x.sys.db.events, after.events, x.q, now);
    ExtendedLeases(x.q, Published(x.q, after.events, now), leases);
  }

  lemma DeliverKeeps(x: Tables, qstep: Outbox.QStep, leases: seq<Outbox.EventKey>)
    requires InStep(x, leases) && !qstep.Enqueue? && Outbox.QEnabled(x.q, qstep)
    ensures InStep(x.(q := Outbox.QDo(x.q, qstep)), leases + if qstep.Lease? then qstep.keys else [])
  {
    StatementMatches(x.sys.db.events, x.q, qstep);
    if qstep.Lease? {
      Outbox.NewLeasesOk(x.q, leases, qstep);
    } else {
      Outbox.OldLeasesOk(x.q, qstep, leases);
      assert leases + [] == leases;
    }
  }

  /** Under any interleaving of transactions and dispatchers, the outbox holds exactly the events of the watches'
      streams, and the leases of a watch follow its stream: never back to an earlier event, and never on to a later one
      before all earlier ones are delivered or dead. So nothing a consumer is sent overtakes what its watch reported
      before. */
  lemma {:induction false} DeliveriesFollowStreams(world: World, x: Tables, moves: seq<Move>)
    requires Good(world) && ValidScales(world.chain) && Initial(x.sys) && x.q == Outbox.Queue(map[], map[])
    requires Moves(world, x, moves)
    ensures InStep(AfterMoves(world, x, moves), LeasedBy(moves))
  {
    if moves == [] {
      RunStreams(world, x.sys, []);
    } else {
      var n := |moves| - 1;
      DeliveriesFollowStreams(world, x, moves[..n]);
      var mid := AfterMoves(world, x, moves[..n]);
      match moves[n]
      case Account(step, now) =>
        AccountKeeps(world, mid, step, now, LeasedBy(moves[..n]));
        assert LeasedBy(moves[..n]) + [] == LeasedBy(moves[..n]);
      case Deliver(qstep) =>
        DeliverKeeps(mid, qstep, LeasedBy(moves[..n]));
    }
  }
}
