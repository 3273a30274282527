/** The accounting protocol as a state machine. Its steps are the committed transactions, interleaved in any
    order and issued by any number of instances: a sweep carries the cache of whichever instance ran it. */
module Machine {
  import opened Base
  import opened Registry
  import opened Cache
  import opened Matcher
  import opened Ledger
  import opened Chain
  import opened Join
  import opened AnswerOrder
  import opened Sync

  /** A committed backfill: where the cursor stood, and the keys it found resolved and so did not count. */
  datatype Fill = Fill(at: nat, found: set<Key>)

  /** The database plus two history variables. `late` maps each watch that was registered with a backfill to
      the cursor it recorded; `filled` each one whose backfill has committed to that backfill. */
  datatype Sys = Sys(db: Db, late: map<Id, nat>, filled: map<Id, Fill>)

  datatype Step =
    | Create(id: Id, serial: nat, new_: NewWatch)
    | Cancel(id: Id)
    | Expire(ids: seq<Id>, now: nat)
    | Pend(id: Id, log: Log)
    | Sweep(cache: CacheState, expected: nat, to: nat, logs: seq<Log>, loads: seq<Id>, leftovers: seq<Key>)
    | Backfill(batch: seq<PendingBackfill>, logs: seq<Log>)
    | FastForward(target: nat, min: Option<nat>)

  ghost predicate Initial(s: Sys) {
    s.db == Db(s.db.cursor, map[], map[], map[], map[]) && s.late == map[] && s.filled == map[]
  }

  // ------------------------------------------------------------------ enabling conditions

  /** A fresh id and serial; serials on one target follow the order of registration. */
  ghost predicate CreateEnabled(db: Db, id: Id, serial: nat, new_: NewWatch) {
    && id !in db.watches
    && 0 < new_.threshold < UINT256
    && (forall v :: v in db.watches ==> db.watches[v].serial != serial)
    && (forall v :: v in db.watches && db.watches[v].token == new_.token && db.watches[v].payee == new_.payee ==>
          db.watches[v].serial < serial)
  }

  /** The head path matched `log` to the cached watch `id`, active or not. */
  ghost predicate PendEnabled(world: World, db: Db, id: Id, log: Log)
    requires ValidScales(world.chain)
  {
    && id in db.watches
    && log.Complete() && log.Key() in world.universe && world.universe[log.Key()] == log
    && Pay(world.chain, TermsOf(db.watches[id]), log) > 0
  }

  /** The chunk (expected, to] was answered completely and, if the cursor is still there, the instance's cache
      is faithful and prefix-complete. */
  ghost predicate SweepEnabled(world: World, db: Db, step: Step)
    requires Good(world) && ValidScales(world.chain) && step.Sweep?
  {
    && step.expected < step.to
    && Answers(step.logs, Slice(world.canon, step.expected, step.to))
    && (forall id :: id in step.loads ==> id in db.watches)
    && (db.cursor == step.expected ==>
          && Faithful(world.chain, db.watches, step.cache.entries)
          && PrefixComplete(world.chain, db.watches, step.cache)
          && ActiveAbove(db.watches, step.cache.lastSeq, step.loads)
          && var counted := CountedChunk(world.chain, db,
                                         Loaded(world.chain, db.watches, step.cache, step.loads), step.logs);
             (!counted.failed ==> Leftovers(counted.db.transfers, step.to, step.leftovers)))
  }

  /** `log` is in the blocks, emitters and recipients that a batch asks the provider for. */
  ghost predicate Wanted(chain: ChainSpec, batch: seq<PendingBackfill>, log: Log)
    requires log.Complete()
  {
    && |log.topics| > 2
    && (exists i :: 0 <= i < |batch| && Emits(chain, batch[i], log))
    && (exists i :: 0 <= i < |batch| && log.topics[2] == batch[i].payee)
    && (exists i :: 0 <= i < |batch| && batch[i].start <= log.block.value)
    && (exists i :: 0 <= i < |batch| && log.block.value <= batch[i].backfillTo)
  }

  predicate Emits(chain: ChainSpec, b: PendingBackfill, log: Log) {
    var t := TokenByAddress(chain, b.token);
    t.Some? && chain.tokens[t.value].logAddress == log.emitter
  }

  ghost function Asked(chain: ChainSpec, batch: seq<PendingBackfill>, logs: seq<Log>): seq<Log>
    requires Ordered(logs)
  {
    if logs == [] then []
    else
      var rest := Asked(chain, batch, logs[..|logs| - 1]);
      if Wanted(chain, batch, logs[|logs| - 1]) then rest + [logs[|logs| - 1]] else rest
  }

  /** Rows once returned by `pending_backfills`. They may be stale: another instance may have run them. */
  ghost predicate BatchOk(s: Sys, batch: seq<PendingBackfill>) {
    && (forall i :: 0 <= i < |batch| ==>
          && batch[i].id in s.late && batch[i].id in s.db.watches
          && batch[i].backfillTo == s.late[batch[i].id]
          && var w := s.db.watches[batch[i].id];
             batch[i] == PendingBackfill(batch[i].id, w.serial, w.token, w.payee, w.start, batch[i].backfillTo))
    && (forall i, j :: 0 <= i < j < |batch| ==> batch[i].id != batch[j].id && batch[i].serial <= batch[j].serial)
  }

  ghost predicate Enabled(world: World, s: Sys, step: Step)
    requires Good(world) && ValidScales(world.chain)
  {
    match step
    case Create(id, serial, new_) => CreateEnabled(s.db, id, serial, new_)
    case Cancel(_) => true
    case Expire(_, _) => true
    case Pend(id, log) => PendEnabled(world, s.db, id, log)
    case Sweep(_, _, _, _, _, _) => SweepEnabled(world, s.db, step)
    case Backfill(batch, logs) => BatchOk(s, batch) && Answers(logs, Asked(world.chain, batch, world.canon))
    case FastForward(_, min) => IsMinStart(s.db.watches, min)
  }

  // ------------------------------------------------------------------ effects

  /** What the logs pay on `terms`, of those with a key in `found`. */
  ghost function BlockedAmounts(chain: ChainSpec, found: set<Key>, terms: Terms, logs: seq<Log>): (r: seq<nat>)
    requires ValidScales(chain) && Ordered(logs)
    ensures |r| == |logs|
  {
    seq(|logs|, i requires 0 <= i < |logs| => if logs[i].Key() in found then Pay(chain, terms, logs[i]) else 0)
  }

  /** And of the others. */
  ghost function OpenAmounts(chain: ChainSpec, found: set<Key>, terms: Terms, logs: seq<Log>): (r: seq<nat>)
    requires ValidScales(chain) && Ordered(logs)
    ensures |r| == |logs|
  {
    seq(|logs|, i requires 0 <= i < |logs| => if logs[i].Key() in found then 0 else Pay(chain, terms, logs[i]))
  }

  predicate Outstanding(watches: map<Id, Watch>, ids: set<Id>, id: Id) {
    id in ids && id in watches && watches[id].backfillTo.Some?
  }

  function ResolvedKeys(rows: map<Key, Row>): set<Key> {
    set k | k in rows && rows[k].status != Pending
  }

  function FilledAfter(s: Sys, batch: seq<PendingBackfill>): map<Id, Fill> {
    var ids := BatchIds(batch);
    map id | id in s.filled.Keys + ids && (id in s.filled || Outstanding(s.db.watches, ids, id)) ::
      if Outstanding(s.db.watches, ids, id) then Fill(s.db.cursor, ResolvedKeys(s.db.transfers)) else s.filled[id]
  }

  ghost function Do(world: World, s: Sys, step: Step): Sys
    requires Good(world) && ValidScales(world.chain) && Enabled(world, s, step)
  {
    match step
    case Create(id, serial, new_) =>
      var db := Registered(s.db, id, serial, new_);
      s.(db := db,
         late := if id in db.watches && db.watches[id].backfillTo.Some?
                 then s.late[id := db.watches[id].backfillTo.value] else s.late)
    case Cancel(id) => s.(db := CancelledDb(s.db, id))
    case Expire(ids, now) => s.(db := ExpiredDb(s.db, ids, now))
    case Pend(id, log) => s.(db := Pended(s.db, Genuine(world.chain, id, s.db.watches[id], log)))
    case Sweep(cache, expected, to, logs, loads, leftovers) =>
      s.(db := Swept(world.chain, s.db, cache, expected, to, logs, loads, leftovers).db)
    case Backfill(batch, logs) =>
      var r := Backfilled(world.chain, s.db, EMPTY, batch, logs);
      s.(db := r.db, filled := if r.result.Applied? then FilledAfter(s, batch) else s.filled)
    case FastForward(target, min) => s.(db := FastForwarded(s.db, target, min))
  }

  // ------------------------------------------------------------------ runs

  ghost predicate Run(world: World, s: Sys, steps: seq<Step>)
    requires Good(world) && ValidScales(world.chain)
    decreases |steps|, 0
  {
    steps == [] ||
    (Run(world, s, steps[..|steps| - 1])
     && Enabled(world, After(world, s, steps[..|steps| - 1]), steps[|steps| - 1]))
  }

  ghost function After(world: World, s: Sys, steps: seq<Step>): Sys
    requires Good(world) && ValidScales(world.chain) && Run(world, s, steps)
    decreases |steps|, 1
  {
    if steps == [] then s
    else Do(world, After(world, s, steps[..|steps| - 1]), steps[|steps| - 1])
  }

  // ------------------------------------------------------------------ sweeps and backfills without caches

  /** The canonical logs have distinct keys. */
  lemma CanonDistinct(world: World, lo: nat, hi: nat)
    requires Good(world) && lo <= hi <= |world.canon|
    ensures Ordered(world.canon[lo..hi])
    ensures forall i, j :: 0 <= i < j < |world.canon[lo..hi]| ==>
              world.canon[lo..hi][i].Key() != world.canon[lo..hi][j].Key()
  {
    forall i, j | 0 <= i < j < |world.canon|
      ensures world.canon[i].Key() != world.canon[j].Key()
    {
      assert Before(world.canon[i], world.canon[j]);
    }
  }

  ghost function SweepJoin(world: World, db: Db, c: nat, t: nat): Tx
    requires Good(world) && ValidScales(world.chain) && c <= t
  {
    HeightMonotone(world.canon, c, t);
    CanonDistinct(world, Height(world.canon, c), Height(world.canon, t));
    JoinedAll(world.chain, Begin(db), All, Slice(world.canon, c, t))
  }

  /** A sweep by any instance with a prefix-complete cache joins its canonical logs with the watch table. */
  lemma SweepIsJoin(world: World, db: Db, step: Step)
    requires Good(world) && ValidScales(world.chain) && step.Sweep? && SweepEnabled(world, db, step)
    requires db.cursor == step.expected && UniqueActive(db.watches)
    ensures CountedChunk(world.chain, db, Loaded(world.chain, db.watches, step.cache, step.loads), step.logs)
         == SweepJoin(world, db, step.expected, step.to)
    ensures Ordered(Slice(world.canon, step.expected, step.to))
    ensures CanonicalKeys(step.logs) == KeysOf(Slice(world.canon, step.expected, step.to))
  {
    var slice := Slice(world.canon, step.expected, step.to);
    HeightMonotone(world.canon, step.expected, step.to);
    CanonDistinct(world, Height(world.canon, step.expected), Height(world.canon, step.to));
    var loaded := Loaded(world.chain, db.watches, step.cache, step.loads);
    SortedAnswer(world.chain, loaded.entries, step.logs, slice);
    AnswerKeys(step.logs, slice);
    DeltaLoadExact(world.chain, db.watches, step.cache, step.loads);
    CacheAgreement(world.chain, loaded.entries, All, Begin(db), slice);
  }

  ghost function BackfillJoin(world: World, db: Db, batch: seq<PendingBackfill>): Tx
    requires Good(world) && ValidScales(world.chain)
  {
    JoinedAll(world.chain, Begin(db), Only(BatchUntil(world.chain, batch)), world.canon)
  }

  /** On one target the active watch is the one registered last. */
  ghost predicate SerialOrder(watches: map<Id, Watch>) {
    forall a, b :: IsActive(watches, a) && b in watches && a != b && SameTarget(watches[a], watches[b]) ==>
      watches[b].serial < watches[a].serial
  }

  lemma {:induction false} BatchUntilFacts(s: Sys, chain: ChainSpec, batch: seq<PendingBackfill>)
    requires BatchOk(s, batch)
    ensures BatchUntil(chain, batch).Keys <= BatchIds(batch) <= s.late.Keys
    ensures forall id :: id in BatchUntil(chain, batch) ==>
              id in s.db.watches && BatchUntil(chain, batch)[id] == s.late[id]
                  && CacheKey(chain, s.db.watches[id]).Some?
    ensures forall id :: id in BatchIds(batch) && id !in BatchUntil(chain, batch) ==>
              id in s.db.watches && CacheKey(chain, s.db.watches[id]).None?
  {
    if batch != [] {
      var n := |batch| - 1;
      BatchUntilFacts(s, chain, batch[..n]);
      assert forall b :: b in batch <==> b in batch[..n] || b == batch[n];
      forall id
        ensures id in BatchIds(batch) <==> id in BatchIds(batch[..n]) || id == batch[n].id
      {
        if id in BatchIds(batch[..n]) {
          var b :| b in batch[..n] && b.id == id;
          assert b in batch;
        }
        assert batch[n] in batch;
      }
      assert batch[n].id !in BatchIds(batch[..n]);
    }
  }

  lemma ScopeInsert(chain: ChainSpec, watches: map<Id, Watch>, entries: map<WatchKey, WatchRef>,
                    until: map<Id, nat>, key: WatchKey, id: Id, to: nat)
    requires Serves(chain, watches, entries, Only(until)) && id in watches && CacheKey(chain, watches[id]) == Some(key)
    requires forall v :: IsActive(watches, v) && v in until && v != id ==> CacheKey(chain, watches[v]) != Some(key)
    ensures Serves(chain, watches, entries[key := RefOf(id, watches[id])], Only(until[id := to]))
  {
    var after := entries[key := RefOf(id, watches[id])];
    forall v: Id | IsActive(watches, v) && v in until[id := to]
      ensures Holds(chain, watches, after, v)
    {
      if v != id {
        assert Holds(chain, watches, entries, v);
      }
    }
  }

  /** Of two backfills on one target, the earlier one is not active. */
  lemma LaterBackfillWins(s: Sys, chain: ChainSpec, batch: seq<PendingBackfill>, v: Id)
    requires BatchOk(s, batch) && SerialOrder(s.db.watches) && batch != []
    requires v in BatchUntil(chain, batch[..|batch| - 1]) && IsActive(s.db.watches, v)
    ensures CacheKey(chain, s.db.watches[v]) != CacheKey(chain, s.db.watches[batch[|batch| - 1].id])
  {
    var n := |batch| - 1;
    var b := batch[n];
    BatchUntilFacts(s, chain, batch[..n]);
    var x :| x in batch[..n] && x.id == v;
    var i :| 0 <= i < n && batch[i] == x;
    if CacheKey(chain, s.db.watches[v]) == CacheKey(chain, s.db.watches[b.id]) {
      SameKeySameTarget(chain, s.db.watches[v], s.db.watches[b.id]);
      assert false;
    }
  }

  /** The scope of a batch finds every active watch in it. */
  lemma {:induction false} BatchScopeServes(s: Sys, chain: ChainSpec, batch: seq<PendingBackfill>)
    requires BatchOk(s, batch) && SerialOrder(s.db.watches)
    ensures Serves(chain, s.db.watches, BatchScope(chain, batch), Only(BatchUntil(chain, batch)))
  {
    if batch != [] {
      var n := |batch| - 1;
      var b := batch[n];
      var watches := s.db.watches;
      BatchScopeServes(s, chain, batch[..n]);
      var key := CacheKey(chain, watches[b.id]);
      if key.Some? {
        forall v: Id | IsActive(watches, v) && v in BatchUntil(chain, batch[..n]) && v != b.id
          ensures CacheKey(chain, watches[v]) != key
        {
          LaterBackfillWins(s, chain, batch, v);
        }
        ScopeInsert(chain, watches, BatchScope(chain, batch[..n]), BatchUntil(chain, batch[..n]), key.value, b.id,
                    b.backfillTo);
      }
    }
  }

  lemma {:induction false} ScopeTraced(chain: ChainSpec, batch: seq<PendingBackfill>, key: WatchKey) returns (i: nat)
    requires key in BatchScope(chain, batch)
    ensures i < |batch| && batch[i].id == BatchScope(chain, batch)[key].id
  {
    var n := |batch| - 1;
    var t := TokenByAddress(chain, batch[n].token);
    if t.Some? && key == WatchKey(t.value, batch[n].payee) {
      i := n;
    } else {
      i := ScopeTraced(chain, batch[..n], key);
    }
  }

  lemma WantedBy(chain: ChainSpec, batch: seq<PendingBackfill>, i: nat, log: Log)
    requires log.Complete() && i < |batch| && |log.topics| > 2 && Emits(chain, batch[i], log)
    requires log.topics[2] == batch[i].payee && batch[i].start <= log.block.value <= batch[i].backfillTo
    ensures Wanted(chain, batch, log)
  {
  }

  /** A log that pays a watch comes from that watch's emitter, to its address. */
  lemma PayerAsked(chain: ChainSpec, w: Watch, b: PendingBackfill, log: Log)
    requires ValidSpec(chain) && ValidScales(chain) && log.Complete() && Padded(log)
    requires Pay(chain, TermsOf(w), log) > 0 && b.token == w.token && b.payee == w.payee
    ensures |log.topics| > 2 && Emits(chain, b, log) && log.topics[2] == b.payee && w.start <= log.block.value
  {
    LookupsAgree(chain, TokenByEmitter(chain, log.emitter).value);
  }

  /** Logs that a batch does not ask for are no payments to it. */
  lemma UnwantedOutside(world: World, s: Sys, batch: seq<PendingBackfill>, log: Log)
    requires Good(world) && ValidScales(world.chain) && BatchOk(s, batch) && SerialOrder(s.db.watches)
    requires log.Complete() && Padded(log) && !Wanted(world.chain, batch, log)
    ensures Within(BatchUntil(world.chain, batch), Hits(world.chain, BatchScope(world.chain, batch), [log])) == []
  {
    var scope := BatchScope(world.chain, batch);
    var until := BatchUntil(world.chain, batch);
    var r := MatchLog(world.chain, scope, log);
    assert [log][..0] == [] && Hits(world.chain, scope, []) == [] && Within(until, []) == [];
    if r.Hit? && InScope(until, r.transfer) {
      var i := ScopeMember(s, world.chain, batch, log);
      PayerAsked(world.chain, s.db.watches[batch[i].id], batch[i], log);
      WantedBy(world.chain, batch, i, log);
      assert false;
    }
  }

  lemma ScopeMember(s: Sys, chain: ChainSpec, batch: seq<PendingBackfill>, log: Log) returns (i: nat)
    requires ValidSpec(chain) && ValidScales(chain) && BatchOk(s, batch) && SerialOrder(s.db.watches)
    requires MatchLog(chain, BatchScope(chain, batch), log).Hit?
    ensures i < |batch| && batch[i].id in s.db.watches && Pay(chain, TermsOf(s.db.watches[batch[i].id]), log) > 0
    ensures var m := MatchLog(chain, BatchScope(chain, batch), log).transfer;
            && m.block == log.block.value
            && (InScope(BatchUntil(chain, batch), m) ==> log.block.value <= batch[i].backfillTo)
  {
    var scope := BatchScope(chain, batch);
    BatchScopeServes(s, chain, batch);
    MatchPays(chain, s.db.watches, scope, log);
    var key := WatchKey(TokenByEmitter(chain, log.emitter).value, FromWord(log.topics[2]));
    i := ScopeTraced(chain, batch, key);
    BatchUntilFacts(s, chain, batch);
  }

  lemma {:induction false} AskedOrdered(chain: ChainSpec, batch: seq<PendingBackfill>, logs: seq<Log>)
    requires Ordered(logs)
    ensures Ordered(Asked(chain, batch, logs)) && forall l :: l in Asked(chain, batch, logs) ==> l in logs
  {
    if logs != [] {
      var n := |logs| - 1;
      AskedOrdered(chain, batch, logs[..n]);
      var rest := Asked(chain, batch, logs[..n]);
      forall i | 0 <= i < |rest|
        ensures Before(rest[i], logs[n])
      {
        assert rest[i] in logs[..n];
      }
    }
  }

  lemma {:induction false} AskedSuffices(world: World, s: Sys, batch: seq<PendingBackfill>, logs: seq<Log>)
    requires Good(world) && ValidScales(world.chain) && BatchOk(s, batch) && SerialOrder(s.db.watches)
    requires Ordered(logs) && forall i :: 0 <= i < |logs| ==> Padded(logs[i])
    ensures var until := BatchUntil(world.chain, batch); var scope := BatchScope(world.chain, batch);
            Within(until, Hits(world.chain, scope, Asked(world.chain, batch, logs)))
            == Within(until, Hits(world.chain, scope, logs))
  {
    if logs != [] {
      var n := |logs| - 1;
      var until := BatchUntil(world.chain, batch);
      var scope := BatchScope(world.chain, batch);
      AskedSuffices(world, s, batch, logs[..n]);
      WithinSnoc(world.chain, scope, until, logs[..n], logs[n]);
      assert logs == logs[..n] + [logs[n]];
      if Wanted(world.chain, batch, logs[n]) {
        WithinSnoc(world.chain, scope, until, Asked(world.chain, batch, logs[..n]), logs[n]);
      } else {
        UnwantedOutside(world, s, batch, logs[n]);
      }
    }
  }

  lemma WithinSnoc(chain: ChainSpec, scope: map<WatchKey, WatchRef>, until: map<Id, nat>, logs: seq<Log>, log: Log)
    requires ValidScales(chain)
    ensures Within(until, Hits(chain, scope, logs + [log]))
         == Within(until, Hits(chain, scope, logs)) + Within(until, Hits(chain, scope, [log]))
  {
    HitsConcat(chain, scope, logs, [log]);
    WithinConcat(until, Hits(chain, scope, logs), Hits(chain, scope, [log]));
  }

  lemma {:induction false} WithinConcat(until: map<Id, nat>, a: seq<MatchedTransfer>, b: seq<MatchedTransfer>)
    ensures Within(until, a + b) == Within(until, a) + Within(until, b)
  {
    if b == [] {
      assert a + b == a;
    } else {
      WithinConcat(until, a, b[..|b| - 1]);
      assert (a + b)[..|a + b| - 1] == a + b[..|b| - 1];
    }
  }

  /** A backfill joins the canonical logs with its batch, each watch up to its own `backfillTo`. */
  lemma BackfillIsJoin(world: World, s: Sys, batch: seq<PendingBackfill>, logs: seq<Log>)
    requires Good(world) && ValidScales(world.chain) && BatchOk(s, batch)
    requires Answers(logs, Asked(world.chain, batch, world.canon))
    requires UniqueActive(s.db.watches) && SerialOrder(s.db.watches)
    ensures CountedBatch(world.chain, s.db, batch, logs) == BackfillJoin(world, s.db, batch)
  {
    var until := BatchUntil(world.chain, batch);
    var scope := BatchScope(world.chain, batch);
    AskedSuffices(world, s, batch, world.canon);
    AskedOrdered(world.chain, batch, world.canon);
    SortedBatchAnswer(world.chain, scope, until, logs, Asked(world.chain, batch, world.canon));
    BatchScopeServes(s, world.chain, batch);
    CacheAgreement(world.chain, scope, Only(until), Begin(s.db), world.canon);
  }
}
