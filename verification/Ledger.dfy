/** The database of one chain as a value, and what each transaction does to it as a function
    (src/store/mod.rs, src/store/sweep.rs). Answers of SQL queries whose order is not fixed by the data
    are arguments, constrained by predicates next to the query. */
module Ledger {
  import opened Base
  import opened Registry
  import opened Cache
  import opened Matcher

  datatype WatchStatus = Active | Completed | Cancelled | Expired

  datatype Watch = Watch(
    serial: nat,
    token: Address,
    payee: Address,
    threshold: nat,
    confirmed: nat,
    url: string,
    status: WatchStatus,
    start: nat,
    backfillTo: Option<nat>,
    nextEventSeq: nat,
    expiresAt: Option<nat>)

  datatype TransferStatus = Pending | Confirmed | Orphaned | Ignored

  datatype Row = Row(block: nat, txHash: Hash, watchId: Id, from: Address, amount: nat, status: TransferStatus)

  datatype TransferView = TransferView(
    key: Key, block: nat, txHash: Hash, from: Address, amount: nat, status: TransferStatus)

  datatype EventType = PaymentPending | PaymentConfirmed | PaymentOrphaned | ThresholdReached | WatchExpired

  /** A webhook event: its per-watch sequence number and the watch and transfer it reports. */
  datatype Event = Event(
    sequence: nat, kind: EventType, confirmedAmount: nat, status: WatchStatus, transfer: Option<TransferView>)

  datatype Stats = Stats(confirmed: int, orphaned: int, thresholds: int, volume: int)

  datatype Db = Db(
    cursor: nat,
    watches: map<Id, Watch>,
    transfers: map<Key, Row>,
    events: map<Id, seq<Event>>,
    stats: map<int, Stats>)

  const NO_STATS: Stats := Stats(0, 0, 0, 0)

  predicate IsActive(watches: map<Id, Watch>, id: Id) {
    id in watches && watches[id].status == Active
  }

  predicate Resolved(transfers: map<Key, Row>, key: Key) {
    key in transfers && transfers[key].status != Pending
  }

  function StatOf(stats: map<int, Stats>, token: int): Stats {
    if token in stats then stats[token] else NO_STATS
  }

  // ------------------------------------------------------------------ events

  function EventsOf(events: map<Id, seq<Event>>, id: Id): seq<Event> {
    if id in events then events[id] else []
  }

  /** The event `insert_event` writes: `w` is the row after its sequence was bumped. */
  function EventFor(w: Watch, kind: EventType, transfer: Option<TransferView>): Event {
    Event(w.nextEventSeq, kind, w.confirmed, w.status, transfer)
  }

  function Appended(events: map<Id, seq<Event>>, id: Id, e: Event): map<Id, seq<Event>> {
    events[id := EventsOf(events, id) + [e]]
  }

  function View(m: MatchedTransfer, status: TransferStatus): TransferView {
    TransferView(m.key, m.block, m.txHash, m.from, m.amount, status)
  }

  function RowFor(m: MatchedTransfer, status: TransferStatus): Row {
    Row(m.block, m.txHash, m.watch.id, m.from, m.amount, status)
  }

  function RowView(key: Key, row: Row): TransferView {
    TransferView(key, row.block, row.txHash, row.from, row.amount, Orphaned)
  }

  // ------------------------------------------------------------------ registration and retirement

  datatype NewWatch = NewWatch(
    token: Address,
    payee: Address,
    threshold: nat,
    url: string,
    expiresAt: Option<nat>,
    headEstimate: nat,
    lookback: nat)

  datatype CreateOutcome = Created(id: Id) | Existing(id: Id) | Conflict(id: Id)

  /** First block a new watch counts. */
  function StartBlock(cursor: nat, headEstimate: nat, lookback: nat): nat {
    var base := Max(cursor, headEstimate);
    if lookback == 0 then base + 1
    else Min(base + 1, Max(if base < lookback then 0 else base - lookback, 1))
  }

  function NewRow(cursor: nat, serial: nat, new_: NewWatch): Watch {
    var start := StartBlock(cursor, new_.headEstimate, new_.lookback);
    Watch(serial, new_.token, new_.payee, new_.threshold, 0, new_.url, Active, start,
          if start <= cursor then Some(cursor) else None, 0, new_.expiresAt)
  }

  ghost predicate Occupied(watches: map<Id, Watch>, token: Address, payee: Address) {
    exists id :: IsActive(watches, id) && watches[id].token == token && watches[id].payee == payee
  }

  /** `create_watch`: the partial unique index lets the row in only while its target has no active watch. */
  ghost function Registered(db: Db, id: Id, serial: nat, new_: NewWatch): Db {
    if Occupied(db.watches, new_.token, new_.payee) then db
    else db.(watches := db.watches[id := NewRow(db.cursor, serial, new_)], events := db.events[id := []])
  }

  function CancelledDb(db: Db, id: Id): Db {
    if IsActive(db.watches, id)
    then db.(watches := db.watches[id := db.watches[id].(status := Cancelled)])
    else db
  }

  predicate Overdue(watches: map<Id, Watch>, id: Id, now: nat) {
    IsActive(watches, id) && watches[id].expiresAt.Some? && watches[id].expiresAt.value <= now
  }

  predicate ExpiresFirst(watches: map<Id, Watch>, a: Id, b: Id) {
    && a in watches && b in watches && watches[a].expiresAt.Some? && watches[b].expiresAt.Some?
    && watches[a].expiresAt.value <= watches[b].expiresAt.value
  }

  /** Answer of the query for overdue watches: those that no other transaction holds, `limit` at most, by expiry. */
  ghost predicate OverdueAnswer(watches: map<Id, Watch>, limit: nat, now: nat, locked: set<Id>, ids: seq<Id>) {
    && |ids| <= limit && NoDup(ids)
    && (forall id :: id in ids ==> Overdue(watches, id, now) && id !in locked)
    && (|ids| < limit ==> forall id :: Overdue(watches, id, now) ==> id in ids || id in locked)
    && (forall i, j :: 0 <= i < j < |ids| ==> ExpiresFirst(watches, ids[i], ids[j]))
    && (forall i, id :: 0 <= i < |ids| && Overdue(watches, id, now) && id !in ids && id !in locked ==>
          ExpiresFirst(watches, ids[i], id))
  }

  function ExpiredOne(db: Db, id: Id, now: nat): Db {
    if Overdue(db.watches, id, now) then
      var w := db.watches[id].(status := Expired, nextEventSeq := db.watches[id].nextEventSeq + 1);
      db.(watches := db.watches[id := w], events := Appended(db.events, id, EventFor(w, WatchExpired, None)))
    else db
  }

  /** `expire_watches`: `ids` are the overdue watches the query picked. */
  function ExpiredDb(db: Db, ids: seq<Id>, now: nat): Db {
    if ids == [] then db
    else ExpiredOne(ExpiredDb(db, ids[..|ids| - 1], now), ids[|ids| - 1], now)
  }

  // ------------------------------------------------------------------ the head path

  /** `record_pending`. */
  function Pended(db: Db, m: MatchedTransfer): Db {
    var id := m.watch.id;
    if !IsActive(db.watches, id) || m.key in db.transfers then db
    else
      var w := db.watches[id].(nextEventSeq := db.watches[id].nextEventSeq + 1);
      db.(watches := db.watches[id := w],
          transfers := db.transfers[m.key := RowFor(m, Pending)],
          events := Appended(db.events, id, EventFor(w, PaymentPending, Some(View(m, Pending)))))
  }

  // ------------------------------------------------------------------ counting

  /** An accounting transaction in flight. `delta` is written to the rollup at the end, `completed` lists the
      watches that reached their threshold, and `failed` means that it will be rolled back. */
  datatype Tx = Tx(db: Db, delta: map<int, Stats>, completed: seq<(WatchKey, Id)>, failed: bool)

  /** Addition of two uint256 values. */
  function WrappingAdd(a: int, b: int): int {
    if a + b < UINT256 then a + b else a + b - UINT256
  }

  /** Per-chunk volume is a uint256 and wraps. */
  function Accrued(delta: map<int, Stats>, token: int, d: Stats): map<int, Stats> {
    var s := StatOf(delta, token);
    delta[token := Stats(s.confirmed + d.confirmed, s.orphaned + d.orphaned, s.thresholds + d.thresholds,
                         WrappingAdd(s.volume, d.volume))]
  }

  /** Whether `count_confirmed` counts: the watch is still active and the transfer is not resolved. */
  predicate Countable(db: Db, m: MatchedTransfer) {
    IsActive(db.watches, m.watch.id) && !Resolved(db.transfers, m.key)
  }

  /** The upsert: a pending row keeps everything but its status, `watchId` included. */
  function ConfirmedRow(transfers: map<Key, Row>, m: MatchedTransfer): Row {
    if m.key in transfers then transfers[m.key].(status := Confirmed) else RowFor(m, Confirmed)
  }

  predicate Reaches(w: Watch, amount: nat) {
    w.confirmed + amount >= w.threshold
  }

  /** The watch after `amount` is added to its total; one more event if that retires it. */
  function Credited(w: Watch, amount: nat): Watch {
    if Reaches(w, amount)
    then w.(confirmed := w.confirmed + amount, status := Completed, nextEventSeq := w.nextEventSeq + 2)
    else w.(confirmed := w.confirmed + amount, nextEventSeq := w.nextEventSeq + 1)
  }

  /** `payment.confirmed` with the new total, still active, and `threshold.reached` if that retires the watch. */
  function CreditEvents(w: Watch, m: MatchedTransfer): seq<Event> {
    var w1 := w.(confirmed := w.confirmed + m.amount, nextEventSeq := w.nextEventSeq + 1);
    var e1 := EventFor(w1, PaymentConfirmed, Some(View(m, Confirmed)));
    if Reaches(w, m.amount) then [e1, EventFor(Credited(w, m.amount), ThresholdReached, None)] else [e1]
  }

  function CreditStats(delta: map<int, Stats>, w: Watch, amount: nat): map<int, Stats> {
    var d := Accrued(delta, w.token, Stats(1, 0, 0, amount));
    if Reaches(w, amount) then Accrued(d, w.token, Stats(0, 0, 1, 0)) else d
  }

  /** `count_confirmed`. A total that is no uint256 cannot be read back and fails the transaction. */
  function Counted(tx: Tx, m: MatchedTransfer): Tx {
    var db := tx.db;
    var id := m.watch.id;
    if tx.failed || !Countable(db, m) then tx
    else if db.watches[id].confirmed + m.amount >= UINT256 then tx.(failed := true)
    else
      var w := db.watches[id];
      Tx(db.(watches := db.watches[id := Credited(w, m.amount)],
             transfers := db.transfers[m.key := ConfirmedRow(db.transfers, m)],
             events := db.events[id := EventsOf(db.events, id) + CreditEvents(w, m)]),
         CreditStats(tx.delta, w, m.amount),
         if Reaches(w, m.amount) then tx.completed + [(WatchKey(m.tokenIdx, m.to), id)] else tx.completed,
         false)
  }

  function CountedAll(tx: Tx, ms: seq<MatchedTransfer>): Tx {
    if ms == [] then tx else Counted(CountedAll(tx, ms[..|ms| - 1]), ms[|ms| - 1])
  }

  /** Resolves one leftover pending row: `ignored` if its log is among the canonical ones, else `orphaned`, with
      an event if its watch is still active. */
  function Settled(tx: Tx, key: Key, canonical: set<Key>): Tx {
    var db := tx.db;
    if key !in db.transfers then tx
    else
      var row := db.transfers[key];
      var settled := db.transfers[key := row.(status := if key in canonical then Ignored else Orphaned)];
      if key in canonical || !IsActive(db.watches, row.watchId) then tx.(db := db.(transfers := settled))
      else
        var w := db.watches[row.watchId].(nextEventSeq := db.watches[row.watchId].nextEventSeq + 1);
        tx.(db := db.(transfers := settled,
                      watches := db.watches[row.watchId := w],
                      events := Appended(db.events, row.watchId,
                                         EventFor(w, PaymentOrphaned, Some(RowView(key, row))))),
            delta := Accrued(tx.delta, w.token, Stats(0, 1, 0, 0)))
  }

  function SettledAll(tx: Tx, keys: seq<Key>, canonical: set<Key>): Tx {
    if keys == [] then tx else Settled(SettledAll(tx, keys[..|keys| - 1], canonical), keys[|keys| - 1], canonical)
  }

  /** Adding a chunk's deltas to the rollup (`apply_stats`, once per token). */
  function RolledUp(stats: map<int, Stats>, delta: map<int, Stats>): map<int, Stats> {
    map t | t in stats.Keys + delta.Keys :: AddStats(StatOf(stats, t), StatOf(delta, t))
  }

  function AddStats(a: Stats, b: Stats): Stats {
    Stats(a.confirmed + b.confirmed, a.orphaned + b.orphaned, a.thresholds + b.thresholds, a.volume + b.volume)
  }

  // ------------------------------------------------------------------ matching a chunk

  function Hits(chain: ChainSpec, entries: map<WatchKey, WatchRef>, logs: seq<Log>): seq<MatchedTransfer>
    requires ValidScales(chain)
  {
    if logs == [] then []
    else
      var last := logs[|logs| - 1];
      var rest := Hits(chain, entries, logs[..|logs| - 1]);
      var r := MatchLog(chain, entries, last);
      if !last.removed && r.Hit? then rest + [r.transfer] else rest
  }

  predicate PositionLe(a: MatchedTransfer, b: MatchedTransfer) {
    a.block < b.block || (a.block == b.block && a.key.index <= b.key.index)
  }

  function InsertSorted(s: seq<MatchedTransfer>, m: MatchedTransfer): seq<MatchedTransfer> {
    if s == [] || PositionLe(s[|s| - 1], m) then s + [m]
    else InsertSorted(s[..|s| - 1], m) + [s[|s| - 1]]
  }

  /** The stable sort by (block, log index). */
  function Sorted(ms: seq<MatchedTransfer>): seq<MatchedTransfer> {
    if ms == [] then [] else InsertSorted(Sorted(ms[..|ms| - 1]), ms[|ms| - 1])
  }

  /** Keys of the logs that are canonical according to a chunk's answer. */
  function CanonicalKeys(logs: seq<Log>): set<Key> {
    set l | l in logs && !l.removed && l.blockHash.Some? && l.index.Some? :: Key(l.blockHash.value, l.index.value)
  }

  // ------------------------------------------------------------------ the sweep

  function RefOf(id: Id, w: Watch): WatchRef {
    WatchRef(id, w.serial, w.start)
  }

  /** Where a watch lives in a cache; none if its token is not configured. */
  function CacheKey(chain: ChainSpec, w: Watch): Option<WatchKey> {
    var t := TokenByAddress(chain, w.token);
    if t.Some? then Some(WatchKey(t.value, w.payee)) else None
  }

  /** Answer of the delta-load query: active watches above `above`, by serial. */
  ghost predicate ActiveAbove(watches: map<Id, Watch>, above: nat, ids: seq<Id>) {
    && NoDup(ids)
    && (forall id :: id in ids <==> IsActive(watches, id) && watches[id].serial > above)
    && (forall i :: 0 <= i < |ids| ==> ids[i] in watches)
    && (forall i, j :: 0 <= i < j < |ids| ==> watches[ids[i]].serial <= watches[ids[j]].serial)
  }

  function Loaded(chain: ChainSpec, watches: map<Id, Watch>, c: CacheState, ids: seq<Id>): CacheState
    requires forall id :: id in ids ==> id in watches
  {
    if ids == [] then c
    else
      var id := ids[|ids| - 1];
      assert id in ids;
      var rest := Loaded(chain, watches, c, ids[..|ids| - 1]);
      var key := CacheKey(chain, watches[id]);
      if key.Some? then Inserted(rest, key.value, RefOf(id, watches[id])) else rest
  }

  /** Rows in the order of the leftovers query. */
  predicate EarlierRow(rows: map<Key, Row>, a: Key, b: Key)
    requires a in rows && b in rows
  {
    rows[a].block < rows[b].block || (rows[a].block == rows[b].block && a.index <= b.index)
  }

  /** Answer of the leftovers query: pending rows at or below `to`, by position. */
  ghost predicate Leftovers(transfers: map<Key, Row>, to: nat, keys: seq<Key>) {
    && NoDup(keys)
    && (forall k :: k in keys <==> k in transfers && transfers[k].status == Pending && transfers[k].block <= to)
    && (forall i, j :: 0 <= i < j < |keys| ==>
          transfers[keys[i]].block < transfers[keys[j]].block
          || (transfers[keys[i]].block == transfers[keys[j]].block && keys[i].index <= keys[j].index))
  }

  function Evicted(c: CacheState, completed: seq<(WatchKey, Id)>): CacheState {
    if completed == [] then c
    else Removed(Evicted(c, completed[..|completed| - 1]), completed[|completed| - 1].0, completed[|completed| - 1].1)
  }

  datatype SweepResult =
    | Applied(completed: seq<(WatchKey, Id)>)
    | CursorMoved(expected: nat, actual: nat)
    | Corrupt

  datatype Outcome = Outcome(db: Db, cache: CacheState, result: SweepResult)

  function Begin(db: Db): Tx {
    Tx(db, map[], [], false)
  }

  /** The counting half of a sweep: match through the loaded cache, sort, count. */
  function CountedChunk(chain: ChainSpec, db: Db, c: CacheState, logs: seq<Log>): Tx
    requires ValidScales(chain)
  {
    CountedAll(Begin(db), Sorted(Hits(chain, c.entries, logs)))
  }

  /** Commits `tx`: rollup and cursor. */
  function Committed(tx: Tx, before: Db, cursor: nat): Db {
    tx.db.(stats := RolledUp(before.stats, tx.delta), cursor := cursor)
  }

  /** `apply_sweep`, given the answers `loads` and `leftovers` of its two queries. */
  function Swept(chain: ChainSpec, db: Db, c: CacheState, expected: nat, to: nat, logs: seq<Log>,
                 loads: seq<Id>, leftovers: seq<Key>): Outcome
    requires ValidScales(chain)
    requires forall id :: id in loads ==> id in db.watches
  {
    if db.cursor != expected then Outcome(db, c, CursorMoved(expected, db.cursor))
    else
      var loaded := Loaded(chain, db.watches, c, loads);
      var counted := CountedChunk(chain, db, loaded, logs);
      if counted.failed then Outcome(db, loaded, Corrupt)
      else
        var tx := SettledAll(counted, leftovers, CanonicalKeys(logs));
        Outcome(Committed(tx, db, to), Evicted(loaded, tx.completed), Applied(tx.completed))
  }

  // ------------------------------------------------------------------ the backfill

  datatype PendingBackfill = PendingBackfill(
    id: Id, serial: nat, token: Address, payee: Address, start: nat, backfillTo: nat)

  /** The watches with a backfill outstanding, whatever their status. */
  function Backlog(watches: map<Id, Watch>): set<Id> {
    set id | id in watches && watches[id].backfillTo.Some?
  }

  /** Answer of `pending_backfills`: rows of the backlog by serial, the oldest ones if the limit is reached and all of
      them if not. */
  ghost predicate OldestPending(watches: map<Id, Watch>, limit: nat, batch: seq<PendingBackfill>) {
    && |batch| <= limit
    && (forall i :: 0 <= i < |batch| ==>
          && batch[i].id in Backlog(watches)
          && var w := watches[batch[i].id];
             batch[i] == PendingBackfill(batch[i].id, w.serial, w.token, w.payee, w.start, w.backfillTo.value))
    && (forall i, j :: 0 <= i < j < |batch| ==> batch[i].id != batch[j].id && batch[i].serial <= batch[j].serial)
    && (forall id :: id in Backlog(watches) - BatchIds(batch) ==>
          |batch| == limit && forall i :: 0 <= i < |batch| ==> batch[i].serial <= watches[id].serial)
  }

  /** The scope cache of a batch: later entries replace earlier ones on the same target. */
  function BatchScope(chain: ChainSpec, batch: seq<PendingBackfill>): map<WatchKey, WatchRef> {
    if batch == [] then map[]
    else
      var b := batch[|batch| - 1];
      var rest := BatchScope(chain, batch[..|batch| - 1]);
      var t := TokenByAddress(chain, b.token);
      if t.Some? then rest[WatchKey(t.value, b.payee) := WatchRef(b.id, b.serial, b.start)] else rest
  }

  function BatchUntil(chain: ChainSpec, batch: seq<PendingBackfill>): map<Id, nat> {
    if batch == [] then map[]
    else
      var b := batch[|batch| - 1];
      var rest := BatchUntil(chain, batch[..|batch| - 1]);
      if TokenByAddress(chain, b.token).Some? then rest[b.id := b.backfillTo] else rest
  }

  function Within(until: map<Id, nat>, ms: seq<MatchedTransfer>): seq<MatchedTransfer> {
    if ms == [] then []
    else
      var m := ms[|ms| - 1];
      var rest := Within(until, ms[..|ms| - 1]);
      if m.watch.id in until && m.block <= until[m.watch.id] then rest + [m] else rest
  }

  function BatchIds(batch: seq<PendingBackfill>): set<Id> {
    set b | b in batch :: b.id
  }

  /** Clears `backfill_to` of the batch's watches. */
  function BackfillsDone(watches: map<Id, Watch>, ids: set<Id>): map<Id, Watch> {
    map id | id in watches :: if id in ids then watches[id].(backfillTo := None) else watches[id]
  }

  function CountedBatch(chain: ChainSpec, db: Db, batch: seq<PendingBackfill>, logs: seq<Log>): Tx
    requires ValidScales(chain)
  {
    CountedAll(Begin(db), Sorted(Within(BatchUntil(chain, batch), Hits(chain, BatchScope(chain, batch), logs))))
  }

  /** `apply_backfill`. */
  function Backfilled(chain: ChainSpec, db: Db, c: CacheState, batch: seq<PendingBackfill>, logs: seq<Log>): Outcome
    requires ValidScales(chain)
  {
    var tx := CountedBatch(chain, db, batch, logs);
    if tx.failed then Outcome(db, c, Corrupt)
    else
      var done := tx.(db := tx.db.(watches := BackfillsDone(tx.db.watches, BatchIds(batch))));
      Outcome(Committed(done, db, db.cursor), Evicted(c, tx.completed), Applied(tx.completed))
  }

  // ------------------------------------------------------------------ skipping blocks

  predicate HasPending(transfers: map<Key, Row>) {
    exists k :: k in transfers && transfers[k].status == Pending
  }

  /** Answer of `min(start_block)` over active watches. */
  ghost predicate IsMinStart(watches: map<Id, Watch>, min: Option<nat>) {
    && (min.None? ==> forall id :: !IsActive(watches, id))
    && (min.Some? ==>
          && (exists id :: IsActive(watches, id) && watches[id].start == min.value)
          && (forall id :: IsActive(watches, id) ==> min.value <= watches[id].start))
  }

  /** `fast_forward_cursor`. */
  function FastForwarded(db: Db, target: nat, min: Option<nat>): Db {
    var ceiling := if min.None? then target else if min.value == 0 then 0 else min.value - 1;
    if HasPending(db.transfers) then db else db.(cursor := Max(db.cursor, Min(ceiling, target)))
  }
}
