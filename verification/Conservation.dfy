/** The stats rollup always agrees with the ledger (src/store/mod.rs:519-543). */
module Conservation {
  import opened Base
  import opened Registry
  import opened Matcher
  import opened Ledger
  import opened Chain
  import opened Join
  import opened AnswerOrder
  import opened Accounts
  import opened Machine
  import opened Books
  import opened BooksSweep
  import opened BooksBackfill
  import opened BooksOther

  // ------------------------------------------------------------------ what the rollup counts

  /** The token of the log behind a key. */
  ghost predicate OfToken(world: World, k: Key, t: Address) {
    k in world.universe &&
    var i := TokenByEmitter(world.chain, world.universe[k].emitter);
    i.Some? && world.chain.tokens[i.value].address == t
  }

  ghost function ConfirmedKeys(world: World, rows: map<Key, Row>, t: Address): set<Key> {
    set k | k in rows && rows[k].status == Confirmed && OfToken(world, k, t)
  }

  function OrphanCount(es: seq<Event>): nat {
    if es == [] then 0
    else OrphanCount(es[..|es| - 1]) + if es[|es| - 1].kind == PaymentOrphaned then 1 else 0
  }

  /** What one watch contributes to the rollup of `t`, transfers aside. */
  function Part(db: Db, id: Id, t: Address): Stats {
    if id in db.watches && db.watches[id].token == t
    then Stats(0, OrphanCount(EventsOf(db.events, id)),
               if db.watches[id].status == Completed then 1 else 0, db.watches[id].confirmed)
    else NO_STATS
  }

  function SumOver(f: Id -> int, ids: seq<Id>): int {
    if ids == [] then 0 else SumOver(f, ids[..|ids| - 1]) + f(ids[|ids| - 1])
  }

  function OrphanPart(db: Db, t: Address): Id -> int {
    (id: Id) => Part(db, id, t).orphaned
  }

  function ThresholdPart(db: Db, t: Address): Id -> int {
    (id: Id) => Part(db, id, t).thresholds
  }

  function VolumePart(db: Db, t: Address): Id -> int {
    (id: Id) => Part(db, id, t).volume
  }

  function Parts(db: Db, ids: seq<Id>, t: Address): Stats {
    Stats(0, SumOver(OrphanPart(db, t), ids), SumOver(ThresholdPart(db, t), ids), SumOver(VolumePart(db, t), ids))
  }

  /** `ids` lists the watch table, and perhaps watches that are yet to come. */
  ghost predicate Lists(watches: map<Id, Watch>, ids: seq<Id>) {
    NoDup(ids) && forall id :: id in watches ==> id in ids
  }

  /** What the tables say the rollup of `t` should be: confirmed rows of the token, orphan reports, completed
      watches and the sum of the confirmed totals of its watches. */
  ghost function Census(world: World, db: Db, ids: seq<Id>, t: Address): Stats {
    Parts(db, ids, t).(confirmed := |ConfirmedKeys(world, db.transfers, t)|)
  }

  lemma {:induction false} SumSame(f: Id -> int, g: Id -> int, ids: seq<Id>)
    requires forall id :: id in ids ==> f(id) == g(id)
    ensures SumOver(f, ids) == SumOver(g, ids)
  {
    if ids != [] {
      assert ids[|ids| - 1] in ids;
      SumSame(f, g, ids[..|ids| - 1]);
    }
  }

  lemma {:induction false} SumConcat(f: Id -> int, a: seq<Id>, b: seq<Id>)
    ensures SumOver(f, a + b) == SumOver(f, a) + SumOver(f, b)
  {
    if b == [] {
      assert a + b == a;
    } else {
      SumConcat(f, a, b[..|b| - 1]);
      assert (a + b)[..|a + b| - 1] == a + b[..|b| - 1];
    }
  }

  lemma SumSplit(f: Id -> int, ids: seq<Id>, i: nat)
    requires i < |ids|
    ensures SumOver(f, ids) == SumOver(f, ids[..i]) + f(ids[i]) + SumOver(f, ids[i + 1..])
  {
    SumConcat(f, ids[..i + 1], ids[i + 1..]);
    assert ids[..i + 1] + ids[i + 1..] == ids && ids[..i + 1][..i] == ids[..i];
  }

  lemma SumOne(f: Id -> int, g: Id -> int, ids: seq<Id>, id: Id)
    requires NoDup(ids) && id in ids && forall v :: v in ids && v != id ==> f(v) == g(v)
    ensures SumOver(g, ids) - SumOver(f, ids) == g(id) - f(id)
  {
    var i :| 0 <= i < |ids| && ids[i] == id;
    SumSplit(f, ids, i);
    SumSplit(g, ids, i);
    SumSame(f, g, ids[..i]);
    SumSame(f, g, ids[i + 1..]);
  }

  lemma PartsSame(db: Db, db': Db, ids: seq<Id>, t: Address)
    requires forall id :: id in ids ==> Part(db', id, t) == Part(db, id, t)
    ensures Parts(db', ids, t) == Parts(db, ids, t)
  {
    SumSame(OrphanPart(db', t), OrphanPart(db, t), ids);
    SumSame(ThresholdPart(db', t), ThresholdPart(db, t), ids);
    SumSame(VolumePart(db', t), VolumePart(db, t), ids);
  }

  /** One watch of the list changes what it contributes. */
  lemma PartsOne(db: Db, db': Db, ids: seq<Id>, id: Id, t: Address)
    requires NoDup(ids) && id in ids && forall v :: v in ids && v != id ==> Part(db', v, t) == Part(db, v, t)
    ensures Diff(Parts(db, ids, t), Parts(db', ids, t)) == Diff(Part(db, id, t), Part(db', id, t))
  {
    SumOne(OrphanPart(db, t), OrphanPart(db', t), ids, id);
    SumOne(ThresholdPart(db, t), ThresholdPart(db', t), ids, id);
    SumOne(VolumePart(db, t), VolumePart(db', t), ids, id);
  }

  /** Counts agree exactly; the volume up to multiples of 2^256. */
  predicate Agrees(s: Stats, census: Stats) {
    && s.confirmed == census.confirmed && s.thresholds == census.thresholds && s.orphaned == census.orphaned
    && s.volume <= census.volume && (census.volume - s.volume) % UINT256 == 0
  }

  ghost predicate LedgerOk(world: World, db: Db) {
    forall t: Address, ids :: Lists(db.watches, ids) ==> Agrees(StatOf(db.stats, t), Census(world, db, ids, t))
  }

  // ------------------------------------------------------------------ a transaction in flight

  /** The deltas `d` are exactly what changed between two censuses, the volume modulo 2^256. */
  predicate Delta(before: Stats, after: Stats, d: Stats) {
    && before.confirmed + d.confirmed == after.confirmed
    && before.thresholds + d.thresholds == after.thresholds
    && before.orphaned + d.orphaned == after.orphaned
    && before.volume <= after.volume && d.volume == (after.volume - before.volume) % UINT256
  }

  ghost predicate DeltaOk(world: World, begin: Stats, tx: Tx, ids: seq<Id>, t: Address) {
    Delta(begin, Census(world, tx.db, ids, t), StatOf(tx.delta, t))
  }

  lemma DeltaAdds(before: Stats, mid: Stats, after: Stats, d: Stats, d': Stats, c: nat, o: nat, x: nat, v: nat)
    requires Delta(before, mid, d)
    requires after == Stats(mid.confirmed + c, mid.orphaned + o, mid.thresholds + x, mid.volume + v)
    requires d' == Stats(d.confirmed + c, d.orphaned + o, d.thresholds + x, WrappingAdd(d.volume, v)) && v < UINT256
    ensures Delta(before, after, d')
  {
    ModAdd(mid.volume - before.volume, v);
  }

  lemma ModAdd(x: nat, a: nat)
    requires a < UINT256
    ensures WrappingAdd(x % UINT256, a) == (x + a) % UINT256
  {
  }

  lemma OrphanCountSnoc(es: seq<Event>, e: Event)
    ensures OrphanCount(es + [e]) == OrphanCount(es) + if e.kind == PaymentOrphaned then 1 else 0
  {
    assert (es + [e])[..|es|] == es;
  }

  /** The row of `k` becomes confirmed. */
  lemma OneConfirmed(world: World, rows: map<Key, Row>, rows': map<Key, Row>, k: Key, t: Address)
    requires k in rows' && rows' == rows[k := rows'[k]] && rows'[k].status == Confirmed
    requires k in rows ==> rows[k].status != Confirmed
    ensures |ConfirmedKeys(world, rows', t)| == |ConfirmedKeys(world, rows, t)| + if OfToken(world, k, t) then 1 else 0
  {
    if OfToken(world, k, t) {
      assert ConfirmedKeys(world, rows', t) == ConfirmedKeys(world, rows, t) + {k};
    } else {
      assert ConfirmedKeys(world, rows', t) == ConfirmedKeys(world, rows, t);
    }
  }

  /** The row of `k` changes without being confirmed before or after. */
  lemma NoneConfirmed(world: World, rows: map<Key, Row>, rows': map<Key, Row>, k: Key, t: Address)
    requires k in rows' && rows' == rows[k := rows'[k]] && rows'[k].status != Confirmed
    requires k in rows ==> rows[k].status != Confirmed
    ensures ConfirmedKeys(world, rows', t) == ConfirmedKeys(world, rows, t)
  {
  }

  lemma PaidToken(world: World, terms: Terms, log: Log, t: Address)
    requires ValidScales(world.chain) && Pay(world.chain, terms, log) > 0
    requires log.Complete() && log.Key() in world.universe && world.universe[log.Key()] == log
    ensures OfToken(world, log.Key(), t) <==> t == terms.token
  {
  }

  lemma AccruedAt(delta: map<int, Stats>, token: int, d: Stats, t: int)
    ensures var s := StatOf(delta, t);
            StatOf(Accrued(delta, token, d), t)
            == if t == token then Stats(s.confirmed + d.confirmed, s.orphaned + d.orphaned, s.thresholds + d.thresholds,
                                        WrappingAdd(s.volume, d.volume))
               else s
  {
  }

  /** The deltas of one counted transfer. */
  lemma CountedDelta(tx: Tx, m: MatchedTransfer, t: Address)
    requires !tx.failed && Countable(tx.db, m) && !Counted(tx, m).failed
    requires StatOf(tx.delta, t).volume < UINT256 && m.amount < UINT256
    ensures var d := StatOf(tx.delta, t); var d' := StatOf(Counted(tx, m).delta, t); var w := tx.db.watches[m.watch.id];
            if t == w.token then
              && d'.confirmed == d.confirmed + 1
              && d'.orphaned == d.orphaned
              && d'.thresholds == d.thresholds + (if Reaches(w, m.amount) then 1 else 0)
              && d'.volume == WrappingAdd(d.volume, m.amount)
            else d' == d
  {
    var w := tx.db.watches[m.watch.id];
    AccruedAt(tx.delta, w.token, Stats(1, 0, 0, m.amount), t);
    AccruedAt(Accrued(tx.delta, w.token, Stats(1, 0, 0, m.amount)), w.token, Stats(0, 0, 1, 0), t);
  }

  lemma CreditOrphans(before: seq<Event>, w: Watch, m: MatchedTransfer)
    ensures OrphanCount(before + CreditEvents(w, m)) == OrphanCount(before)
  {
    var es := CreditEvents(w, m);
    OrphanCountSnoc(before, es[0]);
    if |es| == 2 {
      OrphanCountSnoc(before + [es[0]], es[1]);
      assert before + es == before + [es[0]] + [es[1]];
    }
  }

  /** Watches that do not change contribute what they did. */
  lemma PartsApart(db: Db, db': Db, id: Id, t: Address)
    requires id in db'.watches && db'.watches == db.watches[id := db'.watches[id]]
    requires id in db'.events && db'.events == db.events[id := db'.events[id]]
    ensures forall v :: v != id ==> Part(db', v, t) == Part(db, v, t)
  {
  }

  /** What a credited watch contributes. */
  lemma CreditPart(db: Db, db': Db, m: MatchedTransfer, t: Address)
    requires var id := m.watch.id;
             IsActive(db.watches, id) && db'.watches == db.watches[id := Credited(db.watches[id], m.amount)]
    requires var id := m.watch.id;
             db'.events == db.events[id := EventsOf(db.events, id) + CreditEvents(db.watches[id], m)]
    ensures forall v :: v != m.watch.id ==> Part(db', v, t) == Part(db, v, t)
    ensures var w := db.watches[m.watch.id];
            Diff(Part(db, m.watch.id, t), Part(db', m.watch.id, t))
            == if t == w.token then Stats(0, 0, if Reaches(w, m.amount) then 1 else 0, m.amount) else NO_STATS
  {
    PartsApart(db, db', m.watch.id, t);
    CreditOrphans(EventsOf(db.events, m.watch.id), db.watches[m.watch.id], m);
    var w := db.watches[m.watch.id];
    assert EventsOf(db'.events, m.watch.id) == EventsOf(db.events, m.watch.id) + CreditEvents(w, m);
  }

  /** The contributions after one counted transfer. */
  lemma CountedParts(tx: Tx, m: MatchedTransfer, ids: seq<Id>, t: Address)
    requires !tx.failed && Countable(tx.db, m) && !Counted(tx, m).failed && NoDup(ids) && m.watch.id in ids
    ensures var w := tx.db.watches[m.watch.id];
            Diff(Parts(tx.db, ids, t), Parts(Counted(tx, m).db, ids, t))
            == if t == w.token then Stats(0, 0, if Reaches(w, m.amount) then 1 else 0, m.amount) else NO_STATS
  {
    CreditPart(tx.db, Counted(tx, m).db, m, t);
    PartsOne(tx.db, Counted(tx, m).db, ids, m.watch.id, t);
  }

  lemma CountedCensus(world: World, tx: Tx, m: MatchedTransfer, ids: seq<Id>, t: Address)
    requires !tx.failed && Countable(tx.db, m) && !Counted(tx, m).failed && NoDup(ids) && m.watch.id in ids
    requires OfToken(world, m.key, t) <==> t == tx.db.watches[m.watch.id].token
    ensures var w := tx.db.watches[m.watch.id]; var c := Census(world, tx.db, ids, t);
            Census(world, Counted(tx, m).db, ids, t)
            == if t != w.token then c
               else Stats(c.confirmed + 1, c.orphaned, c.thresholds + (if Reaches(w, m.amount) then 1 else 0),
                          c.volume + m.amount)
  {
    CountedParts(tx, m, ids, t);
    OneConfirmed(world, tx.db.transfers, Counted(tx, m).db.transfers, m.key, t);
  }

  lemma CountKeepsDelta(world: World, begin: Stats, tx: Tx, id: Id, log: Log, ids: seq<Id>, t: Address)
    requires Good(world) && ValidScales(world.chain) && DeltaOk(world, begin, tx, ids, t)
    requires id in tx.db.watches && Lists(tx.db.watches, ids)
    requires log.Complete() && log.Key() in world.universe && world.universe[log.Key()] == log
    requires Pay(world.chain, TermsOf(tx.db.watches[id]), log) > 0
    requires !Counted(tx, Genuine(world.chain, id, tx.db.watches[id], log)).failed
    ensures DeltaOk(world, begin, Counted(tx, Genuine(world.chain, id, tx.db.watches[id], log)), ids, t)
  {
    var m := Genuine(world.chain, id, tx.db.watches[id], log);
    var w := tx.db.watches[id];
    if Countable(tx.db, m) && !tx.failed {
      PaidToken(world, TermsOf(w), log, t);
      PayAmountBound(world.chain, w.token, w.payee, w.start, log);
      CountedCensus(world, tx, m, ids, t);
      CountedDelta(tx, m, t);
      if t == w.token {
        DeltaAdds(begin, Census(world, tx.db, ids, t), Census(world, Counted(tx, m).db, ids, t), StatOf(tx.delta, t),
                  StatOf(Counted(tx, m).delta, t), 1, 0, if Reaches(w, m.amount) then 1 else 0, m.amount);
      }
    }
  }

  lemma {:induction false} JoinKeepsDelta(world: World, begin: Stats, tx: Tx, scope: Scope, logs: seq<Log>,
                                          ids: seq<Id>, t: Address)
    requires Good(world) && ValidScales(world.chain) && DeltaOk(world, begin, tx, ids, t) && Ordered(logs)
    requires Lists(tx.db.watches, ids) && forall i :: 0 <= i < |logs| ==> logs[i] in world.canon
    requires !JoinedAll(world.chain, tx, scope, logs).failed
    ensures DeltaOk(world, begin, JoinedAll(world.chain, tx, scope, logs), ids, t)
  {
    if logs != [] {
      var n := |logs| - 1;
      var mid := JoinedAll(world.chain, tx, scope, logs[..n]);
      JoinedAgedOne(world.chain, mid, scope, logs[n]);
      JoinedAged(world.chain, tx, scope, logs[..n]);
      JoinKeepsDelta(world, begin, tx, scope, logs[..n], ids, t);
      var p := JoinedCases(world.chain, mid, scope, logs[n]);
      if p.Some? {
        var i :| 0 <= i < |world.canon| && world.canon[i] == logs[n];
        CountKeepsDelta(world, begin, mid, p.value, logs[n], ids, t);
      }
    }
  }

  /** What a watch contributes when one of its transfers is reported as orphaned. */
  lemma OrphanedPart(db: Db, db': Db, id: Id, e: Event, t: Address)
    requires IsActive(db.watches, id) && e.kind == PaymentOrphaned && db'.events == Appended(db.events, id, e)
    requires db'.watches == db.watches[id := db.watches[id].(nextEventSeq := db.watches[id].nextEventSeq + 1)]
    ensures forall v :: v != id ==> Part(db', v, t) == Part(db, v, t)
    ensures Diff(Part(db, id, t), Part(db', id, t)) == if t == db.watches[id].token then Stats(0, 1, 0, 0) else NO_STATS
  {
    PartsApart(db, db', id, t);
    OrphanCountSnoc(EventsOf(db.events, id), e);
  }

  /** The contributions after one settled row. */
  lemma SettledParts(tx: Tx, key: Key, canonical: set<Key>, ids: seq<Id>, t: Address)
    requires key in tx.db.transfers && Lists(tx.db.watches, ids)
    ensures var id := tx.db.transfers[key].watchId;
            Diff(Parts(tx.db, ids, t), Parts(Settled(tx, key, canonical).db, ids, t))
            == if key !in canonical && IsActive(tx.db.watches, id) && tx.db.watches[id].token == t
               then Stats(0, 1, 0, 0) else NO_STATS
  {
    var db, db' := tx.db, Settled(tx, key, canonical).db;
    var row := db.transfers[key];
    var id := row.watchId;
    if key !in canonical && IsActive(db.watches, id) {
      OrphanedPart(db, db', id, EventFor(db'.watches[id], PaymentOrphaned, Some(RowView(key, row))), t);
      PartsOne(db, db', ids, id, t);
    } else {
      PartsSame(db, db', ids, t);
    }
  }

  lemma SettledCensus(world: World, tx: Tx, key: Key, canonical: set<Key>, ids: seq<Id>, t: Address)
    requires key in tx.db.transfers && tx.db.transfers[key].status == Pending && Lists(tx.db.watches, ids)
    ensures var id := tx.db.transfers[key].watchId; var c := Census(world, tx.db, ids, t);
            Census(world, Settled(tx, key, canonical).db, ids, t)
            == if key !in canonical && IsActive(tx.db.watches, id) && tx.db.watches[id].token == t
               then c.(orphaned := c.orphaned + 1) else c
  {
    SettledParts(tx, key, canonical, ids, t);
    NoneConfirmed(world, tx.db.transfers, Settled(tx, key, canonical).db.transfers, key, t);
  }

  lemma SettleKeepsDelta(world: World, begin: Stats, tx: Tx, key: Key, canonical: set<Key>, ids: seq<Id>, t: Address)
    requires DeltaOk(world, begin, tx, ids, t) && key in tx.db.transfers && tx.db.transfers[key].status == Pending
    requires Lists(tx.db.watches, ids)
    ensures DeltaOk(world, begin, Settled(tx, key, canonical), ids, t)
  {
    SettledCensus(world, tx, key, canonical, ids, t);
    var id := tx.db.transfers[key].watchId;
    if key !in canonical && IsActive(tx.db.watches, id) {
      AccruedAt(tx.delta, tx.db.watches[id].token, Stats(0, 1, 0, 0), t);
      if tx.db.watches[id].token == t {
        DeltaAdds(begin, Census(world, tx.db, ids, t), Census(world, Settled(tx, key, canonical).db, ids, t),
                  StatOf(tx.delta, t),
                  StatOf(Settled(tx, key, canonical).delta, t), 0, 1, 0, 0);
      }
    }
  }

  lemma {:induction false} SettleAllKeepsDelta(world: World, begin: Stats, tx: Tx, keys: seq<Key>, canonical: set<Key>,
                                               ids: seq<Id>, t: Address)
    requires DeltaOk(world, begin, tx, ids, t) && NoDup(keys) && Lists(tx.db.watches, ids)
    requires forall k :: k in keys ==> k in tx.db.transfers && tx.db.transfers[k].status == Pending
    ensures DeltaOk(world, begin, SettledAll(tx, keys, canonical), ids, t)
  {
    if keys != [] {
      var n := |keys| - 1;
      SettleAllKeepsDelta(world, begin, tx, keys[..n], canonical, ids, t);
      SettledFacts(tx, keys[..n], canonical);
      assert keys[n] in keys && keys[n] !in keys[..n];
      SettleKeepsDelta(world, begin, SettledAll(tx, keys[..n], canonical), keys[n], canonical, ids, t);
    }
  }

  // ------------------------------------------------------------------ commits

  /** The rollup of `t` moved by exactly what changed in the tables, the volume modulo 2^256. */
  ghost predicate Moves(world: World, db: Db, db': Db, ids: seq<Id>, t: Address) {
    Delta(Census(world, db, ids, t), Census(world, db', ids, t), Diff(StatOf(db.stats, t), StatOf(db'.stats, t)))
  }

  function Diff(a: Stats, b: Stats): Stats {
    Stats(b.confirmed - a.confirmed, b.orphaned - a.orphaned, b.thresholds - a.thresholds, b.volume - a.volume)
  }

  lemma RolledUpAt(stats: map<int, Stats>, delta: map<int, Stats>, t: int)
    ensures StatOf(RolledUp(stats, delta), t) == AddStats(StatOf(stats, t), StatOf(delta, t))
  {
  }

  lemma CommitCensus(world: World, db: Db, tx: Tx, cursor: nat, ids: seq<Id>, t: Address)
    ensures Census(world, Committed(tx, db, cursor), ids, t) == Census(world, tx.db, ids, t)
  {
    PartsSame(tx.db, Committed(tx, db, cursor), ids, t);
  }

  lemma CommitDiff(db: Db, tx: Tx, cursor: nat, t: Address)
    ensures Diff(StatOf(db.stats, t), StatOf(Committed(tx, db, cursor).stats, t)) == StatOf(tx.delta, t)
  {
    RolledUpAt(db.stats, tx.delta, t);
  }

  lemma CommitMoves(world: World, db: Db, tx: Tx, cursor: nat, ids: seq<Id>, t: Address)
    requires DeltaOk(world, Census(world, db, ids, t), tx, ids, t)
    ensures Moves(world, db, Committed(tx, db, cursor), ids, t)
  {
    CommitCensus(world, db, tx, cursor, ids, t);
    CommitDiff(db, tx, cursor, t);
  }

  lemma AgreementMoves(s: Stats, s': Stats, before: Stats, after: Stats)
    requires Agrees(s, before) && Delta(before, after, Diff(s, s'))
    ensures Agrees(s', after)
  {
    var x := after.volume - before.volume;
    ModSplit(x);
    assert after.volume - s'.volume == (before.volume - s.volume) + (x / UINT256) * UINT256;
    ModMultiple(before.volume - s.volume, x / UINT256);
  }

  lemma ModSplit(x: nat)
    ensures x == (x / UINT256) * UINT256 + x % UINT256
  {
  }

  lemma ModMultiple(x: nat, k: nat)
    requires x % UINT256 == 0
    ensures (x + k * UINT256) % UINT256 == 0
  {
  }

  lemma BeginDelta(world: World, db: Db, ids: seq<Id>, t: Address)
    ensures DeltaOk(world, Census(world, db, ids, t), Begin(db), ids, t)
  {
  }

  lemma SweptMoves(world: World, s: Sys, to: nat, leftovers: seq<Key>, ids: seq<Id>, t: Address)
    requires Good(world) && ValidScales(world.chain) && s.db.cursor <= to && Lists(s.db.watches, ids)
    requires !SweepJoin(world, s.db, s.db.cursor, to).failed
    requires Leftovers(SweepJoin(world, s.db, s.db.cursor, to).db.transfers, to, leftovers)
    ensures Moves(world, s.db, SweptSys(world, s, to, leftovers).db, ids, t)
  {
    SliceGood(world, s.db.cursor, to);
    var slice := Slice(world.canon, s.db.cursor, to);
    forall i | 0 <= i < |slice|
      ensures slice[i] in world.canon
    {
      SliceAt(world, s.db.cursor, to, i);
    }
    var counted := SweepJoin(world, s.db, s.db.cursor, to);
    var begin := Census(world, s.db, ids, t);
    BeginDelta(world, s.db, ids, t);
    JoinKeepsDelta(world, begin, Begin(s.db), All, slice, ids, t);
    JoinedAged(world.chain, Begin(s.db), All, slice);
    SettleAllKeepsDelta(world, begin, counted, leftovers, KeysOf(slice), ids, t);
    CommitMoves(world, s.db, SettledAll(counted, leftovers, KeysOf(slice)), to, ids, t);
  }

  lemma DoneParts(db: Db, filled: set<Id>, ids: seq<Id>, t: Address)
    ensures Parts(db.(watches := BackfillsDone(db.watches, filled)), ids, t) == Parts(db, ids, t)
  {
    PartsSame(db, db.(watches := BackfillsDone(db.watches, filled)), ids, t);
  }

  lemma BackfilledMoves(world: World, s: Sys, batch: seq<PendingBackfill>, ids: seq<Id>, t: Address)
    requires Good(world) && ValidScales(world.chain) && !BackfillJoin(world, s.db, batch).failed
    requires Lists(s.db.watches, ids)
    ensures Moves(world, s.db, BackfilledSys(world, s, batch).db, ids, t)
  {
    var tx := BackfillJoin(world, s.db, batch);
    assert forall i :: 0 <= i < |world.canon| ==> world.canon[i] in world.canon;
    BeginDelta(world, s.db, ids, t);
    JoinKeepsDelta(world, Census(world, s.db, ids, t), Begin(s.db), Only(BatchUntil(world.chain, batch)), world.canon,
                   ids, t);
    var done := tx.(db := tx.db.(watches := BackfillsDone(tx.db.watches, BatchIds(batch))));
    assert DeltaOk(world, Census(world, s.db, ids, t), done, ids, t) by {
      DoneParts(tx.db, BatchIds(batch), ids, t);
    }
    CommitMoves(world, s.db, done, s.db.cursor, ids, t);
  }

  // ------------------------------------------------------------------ the other steps

  /** Steps that count nothing leave rollup and census alone. */
  ghost predicate Neutral(world: World, db: Db, db': Db, ids: seq<Id>, t: Address) {
    db'.stats == db.stats && Census(world, db', ids, t) == Census(world, db, ids, t)
  }

  lemma PendNeutral(world: World, db: Db, m: MatchedTransfer, ids: seq<Id>, t: Address)
    requires Lists(db.watches, ids)
    ensures Neutral(world, db, Pended(db, m), ids, t)
  {
    var id := m.watch.id;
    if IsActive(db.watches, id) && m.key !in db.transfers {
      var db' := Pended(db, m);
      OrphanCountSnoc(EventsOf(db.events, id), EventFor(db'.watches[id], PaymentPending, Some(View(m, Pending))));
      NoneConfirmed(world, db.transfers, db'.transfers, m.key, t);
      PartsSame(db, db', ids, t);
    }
  }

  lemma {:induction false} ExpireNeutral(world: World, db: Db, expired: seq<Id>, now: nat, ids: seq<Id>, t: Address)
    ensures Neutral(world, db, ExpiredDb(db, expired, now), ids, t)
  {
    if expired != [] {
      var n := |expired| - 1;
      ExpireNeutral(world, db, expired[..n], now, ids, t);
      var mid := ExpiredDb(db, expired[..n], now);
      if Overdue(mid.watches, expired[n], now) {
        var db' := ExpiredOne(mid, expired[n], now);
        OrphanCountSnoc(EventsOf(mid.events, expired[n]), EventFor(db'.watches[expired[n]], WatchExpired, None));
        PartsSame(mid, db', ids, t);
      }
    }
  }

  lemma CancelNeutral(world: World, db: Db, id: Id, ids: seq<Id>, t: Address)
    ensures Neutral(world, db, CancelledDb(db, id), ids, t)
  {
    PartsSame(db, CancelledDb(db, id), ids, t);
  }

  /** A new watch contributes nothing yet, whatever the list it is entered in. */
  lemma CreateNeutral(world: World, db: Db, id: Id, serial: nat, new_: NewWatch, ids: seq<Id>, t: Address)
    requires id !in db.watches
    ensures Neutral(world, db, Registered(db, id, serial, new_), ids, t)
  {
    if !Occupied(db.watches, new_.token, new_.payee) {
      PartsSame(db, Registered(db, id, serial, new_), ids, t);
    }
  }

  lemma NeutralMoves(world: World, db: Db, db': Db, ids: seq<Id>, t: Address)
    requires Neutral(world, db, db', ids, t)
    ensures Moves(world, db, db', ids, t)
  {
  }

  lemma ForwardNeutral(world: World, db: Db, target: nat, min: Option<nat>, ids: seq<Id>, t: Address)
    ensures Neutral(world, db, FastForwarded(db, target, min), ids, t)
  {
    PartsSame(db, FastForwarded(db, target, min), ids, t);
  }

  lemma HeadStepNeutral(world: World, s: Sys, step: Step, ids: seq<Id>, t: Address)
    requires Good(world) && ValidScales(world.chain) && Enabled(world, s, step) && Lists(s.db.watches, ids)
    requires !step.Sweep? && !step.Backfill?
    ensures Neutral(world, s.db, Do(world, s, step).db, ids, t)
  {
    match step
    case Create(id, serial, new_) => CreateNeutral(world, s.db, id, serial, new_, ids, t);
    case Cancel(id) => CancelNeutral(world, s.db, id, ids, t);
    case Expire(expired, now) => ExpireNeutral(world, s.db, expired, now, ids, t);
    case Pend(id, log) => PendNeutral(world, s.db, Genuine(world.chain, id, s.db.watches[id], log), ids, t);
    case FastForward(target, min) => ForwardNeutral(world, s.db, target, min, ids, t);
  }

  /** Every step moves the rollup of every token with the tables. */
  lemma StepMoves(world: World, s: Sys, step: Step, ids: seq<Id>, t: Address)
    requires Good(world) && ValidScales(world.chain) && Shape(s) && Enabled(world, s, step) && Lists(s.db.watches, ids)
    ensures Moves(world, s.db, Do(world, s, step).db, ids, t)
  {
    if step.Sweep? {
      SweepMoves(world, s, step, ids, t);
    } else if step.Backfill? {
      BackfillMoves(world, s, step, ids, t);
    } else {
      HeadStepNeutral(world, s, step, ids, t);
      NeutralMoves(world, s.db, Do(world, s, step).db, ids, t);
    }
  }

  lemma SweepMoves(world: World, s: Sys, step: Step, ids: seq<Id>, t: Address)
    requires Good(world) && ValidScales(world.chain) && Shape(s) && Enabled(world, s, step) && step.Sweep?
    requires Lists(s.db.watches, ids)
    ensures Moves(world, s.db, Do(world, s, step).db, ids, t)
  {
    SweepCases(world, s, step);
    if Do(world, s, step) != s {
      SweptMoves(world, s, step.to, step.leftovers, ids, t);
    }
  }

  lemma BackfillMoves(world: World, s: Sys, step: Step, ids: seq<Id>, t: Address)
    requires Good(world) && ValidScales(world.chain) && Shape(s) && Enabled(world, s, step) && step.Backfill?
    requires Lists(s.db.watches, ids)
    ensures Moves(world, s.db, Do(world, s, step).db, ids, t)
  {
    BackfillCases(world, s, step);
    if Do(world, s, step) != s {
      BackfilledMoves(world, s, step.batch, ids, t);
    }
  }

  // ------------------------------------------------------------------ runs

  lemma StepAgrees(world: World, s: Sys, step: Step, ids: seq<Id>, t: Address)
    requires Good(world) && ValidScales(world.chain) && Inv(world, s) && Enabled(world, s, step)
    requires LedgerOk(world, s.db) && Lists(Do(world, s, step).db.watches, ids)
    ensures Agrees(StatOf(Do(world, s, step).db.stats, t), Census(world, Do(world, s, step).db, ids, t))
  {
    StepKeepsTable(world, s, step);
    assert Lists(s.db.watches, ids);
    StepMoves(world, s, step, ids, t);
    AgreementMoves(StatOf(s.db.stats, t), StatOf(Do(world, s, step).db.stats, t),
                   Census(world, s.db, ids, t), Census(world, Do(world, s, step).db, ids, t));
  }

  lemma {:induction false} ExpireKeepsTable(db: Db, ids: seq<Id>, now: nat)
    ensures ExpiredDb(db, ids, now).watches.Keys == db.watches.Keys
  {
    if ids != [] {
      ExpireKeepsTable(db, ids[..|ids| - 1], now);
    }
  }

  lemma StepKeepsTable(world: World, s: Sys, step: Step)
    requires Good(world) && ValidScales(world.chain) && Inv(world, s) && Enabled(world, s, step)
    ensures s.db.watches.Keys <= Do(world, s, step).db.watches.Keys
  {
    match step
    case Expire(ids, now) => ExpireKeepsTable(s.db, ids, now);
    case Sweep(_, _, _, _, _, _) =>
      SweepCases(world, s, step);
      if Do(world, s, step) != s {
        SweptAged(world, s, step.to, step.leftovers);
      }
    case Backfill(_, _) =>
      BackfillCases(world, s, step);
      if Do(world, s, step) != s {
        BackfilledShape(world, s, step.batch);
      }
    case _ =>
  }

  lemma {:induction false} SumZero(f: Id -> int, ids: seq<Id>)
    requires forall id :: f(id) == 0
    ensures SumOver(f, ids) == 0
  {
    if ids != [] {
      SumZero(f, ids[..|ids| - 1]);
    }
  }

  lemma EmptyAgrees(world: World, db: Db, ids: seq<Id>, t: Address)
    requires db.watches == map[] && db.transfers == map[] && db.stats == map[] && Lists(db.watches, ids)
    ensures Agrees(StatOf(db.stats, t), Census(world, db, ids, t))
  {
    assert ConfirmedKeys(world, db.transfers, t) == {};
    SumZero(OrphanPart(db, t), ids);
    SumZero(ThresholdPart(db, t), ids);
    SumZero(VolumePart(db, t), ids);
  }

  /** In every reachable state the rollup of every token agrees with the ledger: the confirmed count is the
      number of confirmed rows, thresholds the number of completed watches, orphans the number of orphan reports,
      and the volume the sum of the watches' totals, up to the wrapping of per-chunk sums. */
  lemma {:induction false} RunConserves(world: World, s: Sys, steps: seq<Step>)
    requires Good(world) && ValidScales(world.chain) && Initial(s) && Run(world, s, steps)
    ensures LedgerOk(world, After(world, s, steps).db)
  {
    var n := |steps| - 1;
    if steps != [] {
      RunConserves(world, s, steps[..n]);
      RunKeepsInv(world, s, steps[..n]);
    }
    forall t: Address, ids | Lists(After(world, s, steps).db.watches, ids)
      ensures Agrees(StatOf(After(world, s, steps).db.stats, t), Census(world, After(world, s, steps).db, ids, t))
    {
      if steps == [] {
        EmptyAgrees(world, s.db, ids, t);
      } else {
        StepAgrees(world, After(world, s, steps[..n]), steps[n], ids, t);
      }
    }
  }
}
