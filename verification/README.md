# Accounting of gum-indexer, modelled and proved in Dafny

gum-indexer watches ERC-20 `Transfer` logs for payments to registered addresses. A *watch* names a token, an
address, a threshold and a start block. A head path records transfers as *pending* as soon as they are seen. An
authoritative *sweep* reads the canonical logs of the blocks between a durable *cursor* and confirmation depth,
counts them, orphans what turned out not to be canonical, retires watches that reach their threshold and advances
the cursor, all in one transaction. A late registration gets a one-off *backfill* of blocks already swept. Every
change of a watch is reported through a webhook outbox that dispatchers lease from.

The model has three layers.

1. **Transactions.** `Ledger` states what each transaction does to the tables as functions on a `Db` value.
   `Store.ChainStore` performs them in place, statement by statement, with rollback, and every method is proved to
   do exactly what its function says. Answers of SQL queries are pinned down by predicates (`ActiveAbove`,
   `Leftovers`, `IsMinStart`, `OldestPending`).
2. **The protocol.** `Machine` interleaves committed transactions in any order, from any number of instances. `Join`
   and `AnswerOrder` replace the two things that make a sweep hard to reason about, the per-instance cache and the
   arbitrary order of an answer, by a join of the ordered canonical logs with the watch table. `Books`,
   `BooksSweep`, `BooksBackfill` and `BooksOther` hold the invariant that ties every total, status and row to the
   chain and prove it for every step; `Streams`, `StreamSteps` and `Conservation` do the same for events and for
   the stats rollup. `Theorems` reads off what holds in every reachable state, `Lifecycle`
   what becomes of a watch, `Payloads` and `Notices` what is reported and that it is true.
3. **Around it.** `Sync` and `Fleet` treat the caches of several instances, `Chunks` and `Sweeping` the cutting of a
   range into provider calls and replays, `Rollback` sweeps and backfills that cannot commit, `BackfillQueue` the
   backlog of backfills, `Volume` the rollup's volume, `Outbox`,
   `Reports` and `Dispatch` the lease queue, its link to the event streams and its timing, `Push` the subscriptions and
   the mode hysteresis, `Lookback` the registration window, `LatePayment` a loss. Predicates over the columns
   (`Expiry.ExpiryDone`, `Skips.SkipDone`, `Outbox.LeaseDone`) say what a statement did without its query, and
   `Payments` what a log means without its decoder.

The reference for all totals is `Chain.Scan`: one pass over the canonical logs in order, adding what each pays the
watch and stopping at the threshold. A watch registered with a backfill sees the same logs in another order
(`Books.Course`): those above the cursor it recorded, then, when its backfill commits, those below, then those above
again.

Hypotheses, each written where it is used:

- transactions are atomic, and no single leader is assumed;
- the canonical logs at confirmation depth do not change, and a log's identity (block hash, index) determines its
  content (`Good`);
- indexed addresses in canonical logs are left-padded with zeros, as the ABI encodes them (`Padded`): the backfill's
  recipient filter compares the whole word, the matcher only its low 20 bytes;
- a provider that answers does so completely, in any order and with any number of entries flagged as removed
  (`Answers`, `Honest`);
- token contracts and log emitters are pairwise distinct and scales positive, as the configuration check enforces
  (`ValidSpec`);
- serials are unique, and on one target they follow the order of registration (`CreateEnabled`): between drawing a
  serial and inserting its row, a registration is not overtaken by another one of the same target that draws a later
  serial, commits and is retired again;
- the cache of an instance whose sweep commits is prefix-complete (`SweepEnabled`, `Fleet.AllSee`). `Fleet` proves this
  of every run in which no addition skips a serial and no registration commits below what some cache has seen, which
  excludes lost notifications that are followed by a later one and concurrent registrations that commit out of serial
  order; `Sync` proves that these provisos are exact.

Six things the source promises turn out to hold only under a condition. Each has a concrete failing input and an
exact condition.

- *A registration is never skipped by a sweep* (src/store/sweep.rs:268-269). A cache takes its high-water mark from any
  single insert, so an instance that is told of serial 2 but not of serial 1 never delta-loads serial 1, and its sweep
  passes a payment by: `Sync.LostRegistration`. Exact condition: `Sync.SweepSeesAllIff`, `Sync.AddKeepsPrefixIff`,
  `Sync.RegistrationKeepsPrefixIff`.
- *A backfill misses nothing* (src/store/mod.rs:239-241). A late notification for a swept block is orphaned by the next
  sweep and then passed over by the backfill: `LatePayment.LatePaymentLost`. Exact condition:
  `Theorems.BackfillCompleteIff`.
- *The rollup's volume is the sum of the totals.* A chunk's volume is a uint256 sum that wraps: `Volume.VolumeLost`.
  Exact condition: no chunk of the run counted 2^256 or more for the token, `Volume.RunVolumeExactIff`.
- *How a range is cut into chunks does not matter.* It does not for cursor, totals, statuses, rows, reports and counts
  (`Chunks.AnyChunks`, `Chunks.ChunksSameRollup`), but it does for the volume: two halves of 2^256 in two blocks of one
  chunk add nothing, in two chunks they add 2^256, `Volume.CutChangesVolume`. Exact condition: the chunks wrap as often
  as one sweep of the whole range would, which can be read off the state before, `Volume.CutsSameVolumeIff`.
- *Overlapping instances do not double-send* (src/store/outbox.rs:26). A delivery may outlive its lease, and then one
  event has two requests in flight: `Dispatch.TwoRequests`. Exact condition: start-up plus acknowledgement below the
  connect timeout plus three seconds, `Dispatch.OneDeliveryPerWatch`.
- *Delivered is final.* Under the same condition it is, `Dispatch.DeliveredForGood`; for any other timing an event that
  was delivered can be marked dead, `Dispatch.DeliveredThenDead`.

`dafny verify dfyconfig.toml` checks the project.

## Model

| member | source | states |
|---|---|---|
| `Theorems.Refinement` | src/store/sweep.rs:270-378 | After every run, a watch registered without a backfill has exactly the total and status of the reference scan of the canonical logs up to the cursor; a cancelled or expired one has those of some prefix of it. |
| `Theorems.BackfillPartition` | src/store/sweep.rs:211-261 | A watch registered with a backfill, whatever its status, has the total and status of one threshold-stopped pass over the payments above the recorded cursor up to where the backfill committed, then those below that nobody had resolved, then those above again; or of a part of that pass if cancelled or expired; until the backfill commits, of the first part only. |
| `Theorems.NeverOvercounts` | src/store/sweep.rs:104-173 | In every reachable state no watch, of any status, holds more than the canonical logs up to the cursor pay it, and every completed one was paid its threshold. |
| `Theorems.BackfillVerdict` | src/store/sweep.rs:211-261 | A backfill that commits completes its active watch exactly if what the chain paid it up to the cursor, less what was resolved before, reaches the threshold, and otherwise leaves it active with exactly that total. |
| `Theorems.BackfillCompleteIff` | src/store/sweep.rs:211-261 | After a backfill its watch is as the chain has it (completed exactly if paid its threshold, else holding all it was paid) if and only if no payment up to `backfill_to` was resolved before, or what was left still reaches the threshold. |
| `Theorems.AsPaidRunIff` | src/store/sweep.rs:211-261 | In every reachable state an active or completed watch is as the chain has it if and only if nothing it was paid is unseen (not yet backfilled, or found resolved by its backfill), or what it saw reaches the threshold; so always if it was registered without a backfill, or its backfill has committed and found nothing resolved. |
| `Theorems.ThresholdExact` | src/store/sweep.rs:145-170 | Active, cancelled and expired watches are strictly below their threshold, completed ones at or above it by less than their last counted amount; totals are uint256 values; one active watch per target. |
| `Theorems.WrittenFits` | migrations/0001_init.sql:19-20 | From every reachable state, at any point of any sweep or backfill, whatever it has counted so far, the sum written before it is read back is below 2^257 and fits NUMERIC(78, 0). |
| `Theorems.OrphanSound` | src/store/sweep.rs:319-360 | A canonical log is orphaned only for a watch registered with a backfill reaching it; confirmed and ignored rows are canonical; resolved rows are at or below the cursor. |
| `Theorems.SweepSettlesAll` | src/store/sweep.rs:319-360 | Right after an applied sweep no row at or below the cursor is pending. |
| `Theorems.AtMostOnce` | src/store/sweep.rs:111-140 | Over any run and all watches a log is counted at most once, and exactly when its row is confirmed. |
| `Theorems.ReportsConsistent` | src/store/sweep.rs:342-358 | A log never gets both a confirmed and an orphaned report, and an orphaned report follows the pending report of the same log in the same stream. |
| `Theorems.EventStream` | src/store/mod.rs:546-580 | Sequence numbers of a watch are 1 to `next_event_seq`, payload totals are the running sums of the confirmed amounts, these sum to the watch's total, and a terminal event is unique, last and matches the status. |
| `Payloads.PayloadsTrue` | src/store/sweep.rs:20-30 | In every reachable state a transfer reported to a watch has the block, transaction and sender of the log with its key, the amount that this log pays the watch, and the status that the kind of its event stands for. |
| `Payloads.RunTrue` | src/store/sweep.rs:343-356 | And every transfer row has the block, transaction and sender of its log and the amount this pays the row's watch. |
| `Notices.OrphansTold` | src/store/sweep.rs:333-359 | In every reachable state an active watch has been told of each of its transfers that was orphaned. |
| `Notices.SweepReportsInOrder` | src/store/sweep.rs:319-328 | A sweep reports the orphans of a watch in the order of the chain. |
| `Notices.PendRecords` | src/store/sweep.rs:44-74 | A log that pays an active watch and is not known gets a pending row with the log's own data and one event that says the same; any other notification changes nothing. |
| `Lifecycle.RetiredForGood` | src/store/sweep.rs:32-42 | Completed, cancelled or expired is for good: over any further run the watch keeps status, total and all else but an outstanding backfill, and its stream gets no further event. |
| `Lifecycle.CancelRetires` | src/store/mod.rs:307-317 | Cancelling an active watch sets its status and changes nothing else; over every further run it stays cancelled, with the same total and no further event. |
| `Lifecycle.TargetFreed` | src/store/mod.rs:254-260 | Right after a cancellation a registration on the same target succeeds. |
| `Lifecycle.RegistersIff` | src/store/mod.rs:242-293 | A registration gets its watch, active, empty and as ordered, if and only if no active watch has its target; otherwise nothing changes. |
| `Lifecycle.WatchesAsOrdered` | src/store/mod.rs:254-272 | In every reachable state every watch has the token, recipient, threshold, webhook address, expiry and serial of a registration of the run. |
| `Lifecycle.ExpiredInTime` | src/store/mod.rs:322-327 | In every reachable state an expired watch has an expiry, and some expiry step of the run was at or after it. |
| `Lifecycle.ExpiresFor` | src/store/mod.rs:322-327 | No other transaction expires a watch, and this one only an active watch whose time has come. |
| `Theorems.CursorMonotone` | src/store/sweep.rs:367-372 | The cursor never decreases over any run. |
| `Theorems.CursorHistory` | src/store/sweep.rs:279-287 | Every block the cursor passed was passed by exactly one step, which scanned it or skipped it while it was below the start of every active watch; a sweep planned from any other cursor value changed nothing. |
| `StreamSteps.StepStreams` | src/store/sweep.rs:104-173 | Every step keeps all streams well formed and linked to the rows; a row only moves from absent or pending to a resolved status, which is final. |
| `StreamSteps.RunStreams` | src/store/sweep.rs:34-74 | The stream invariant holds in every reachable state. |
| `Streams.CreditKeepsStream` | src/store/sweep.rs:145-170 | Counting a transfer appends its confirmed event and, exactly when the threshold is met, one final `threshold.reached`. |
| `Streams.ExpiryKeepsStream` | src/store/mod.rs:319-341 | Expiring a watch ends its stream with one `watch.expired`. |
| `Conservation.RunConserves` | src/store/mod.rs:510-543 | In every reachable state the rollup of each token has the number of confirmed rows, of completed watches and of orphan reports, and as volume the sum of the totals of its watches up to the wrapping of per-chunk sums. |
| `Volume.VolumeExactIff` | src/store/sweep.rs:152-155 | A step keeps the volume exact if and only if what it is going to count for the token, read off the state before it and the canonical logs, is below 2^256. |
| `Volume.RunGap` | src/store/sweep.rs:152-155 | In every reachable state the volume is below the sum of the totals by exactly 2^256 for every time a chunk's volume wrapped, so the gap never closes. |
| `Volume.RunVolumeExactIff` | src/store/mod.rs:510-543 | In every reachable state the volume of a token is the sum of the totals of its watches if and only if no step of the run counted 2^256 or more for it. |
| `Volume.VolumeLost` | src/store/sweep.rs:152-155 | A concrete run: two watches of one token get 2^255 each in one chunk, and the volume ends 2^256 below the sum of their totals. |
| `Volume.StepIntake` | src/store/sweep.rs:145-155 | The sum of the totals grows by what the reference tally takes of the blocks swept, or of the unresolved payments backfilled, watch by watch. |
| `Conservation.StepMoves` | src/store/sweep.rs:362-366 | Each step changes the rollup by exactly what it changes in the tables, volume modulo 2^256. |
| `Chunks.TwoChunks` | src/ingest/sweeper.rs:163-209 | Sweeping (c, m] and (m, t] leaves the same cursor, totals, statuses and rows as sweeping (c, t] at once, and event streams that agree in kind, total, status and transfer once orphan reports are taken out, and commits exactly when that does. |
| `Chunks.AnyChunks` | src/ingest/sweeper.rs:163-209 | The same for any way of cutting a range into any number of chunks. |
| `Chunks.ChunksSameRollup` | src/store/sweep.rs:362-366 | And for the rollup: equal confirmed and threshold counts, volumes equal modulo 2^256 and equal outright if what was counted is a uint256. |
| `Volume.CutsSameVolumeIff` | src/store/sweep.rs:152-155 | Cutting a range never lowers the volume it adds, and leaves it the same if and only if the chunks, each counting what the range up to its end adds beyond the range up to its beginning, wrap as often as one sweep of the whole range; all of it read off the state before and the canonical logs. |
| `Volume.CutChangesVolume` | src/store/sweep.rs:152-155 | A reachable state with two watches of one token, paid 2^255 each in blocks 1 and 2: one sweep of both blocks adds nothing to the volume, two sweeps add 2^256. |
| `Chunks.ReplayCountsNothing` | src/store/sweep.rs:133-140 | In every state that satisfies the invariant, sweeping blocks at or below the cursor again counts nothing, unless a backfill above the replayed range is outstanding. |
| `Chunks.ReplayRestores` | src/store/sweep.rs:133-140 | With the cursor put back, a second sweep of the same blocks by any instance restores the database exactly, sequence numbers included. |
| `Chunks.LeftoversExist` | src/store/sweep.rs:320-328 | The leftovers query has an answer in the order it asks for. |
| `Fleet.FleetRefines` | src/ingest/mod.rs:113-126 | Any run of any number of instances, with notifications lost, late, repeated or out of order and serials in any order, in which sweeps commit only from prefix-complete caches, keeps all caches faithful, and its transactions are a run of the accounting machine ending in the same database. |
| `Fleet.HoleFreeSees` | src/store/mod.rs:235-241 | In any run in which no addition skips a serial and no registration commits below what some cache has seen, every cache is prefix-complete all the time, so every sweep may commit. |
| `Fleet.SweepByEnabled` | src/store/sweep.rs:293-317 | A sweep by any instance from a prefix-complete cache satisfies what the accounting machine assumes of it, and has the same effect. |
| `Fleet.SweepKeepsCache` | src/store/sweep.rs:293-378 | Through its own sweep, applied, yielded or rolled back, an instance's cache stays faithful for the new watch table, and prefix-complete if it was. |
| `Fleet.BackfillKeepsCache` | src/store/sweep.rs:257-259 | The same for a backfill and its evictions. |
| `Fleet.AddTells` | src/ingest/notify.rs:76-80 | An instance that is told of a watch finds it under its token and recipient, and every other one where it was. |
| `Fleet.RemoveForgets` | src/ingest/notify.rs:81-87 | An instance that is told that a watch was retired has no entry of it left, and keeps all others. |
| `Fleet.LocalKeepsFleet` | src/ingest/notify.rs:71-91 | Boots, additions and removals of retired watches never put anything wrong into a cache, and make no hole in one unless an addition skips a serial. |
| `Sync.DeltaLoadExact` | src/store/sweep.rs:293-308 | After the in-transaction delta load the cache finds every active watch if and only if it was prefix-complete before. |
| `Sync.SweepSeesAllIff` | src/store/sweep.rs:263-317 | A sweep matches every possible payment to its active watch if and only if the cache was prefix-complete. |
| `Sync.AddKeepsPrefixIff` | src/cache.rs:57-61 | An insert keeps a cache prefix-complete if and only if it skips over or displaces no other active watch. |
| `Sync.RegistrationKeepsPrefixIff` | src/store/mod.rs:242-293 | A registration keeps a cache prefix-complete if and only if its serial is above the cache's mark or its token is not configured. |
| `Sync.HydrationComplete` | src/store/mod.rs:344-358 | Boot hydration yields a faithful, prefix-complete cache. |
| `Sync.RemoveKeepsPrefix` | src/cache.rs:68-70 | Removing a retired watch never hides an active one, whatever replaced it. |
| `Sync.AgingKeepsPrefix` | src/store/mod.rs:308-341 | Retiring watches and moving totals never harms a cache. |
| `Sync.LostRegistration` | src/cache.rs:57-61 | Two registrations, a prefix-complete cache, one notification that skips a serial, and a sweep: it commits past a payment to the first watch, which stays active with a total of 0 where the reference scan has more. |
| `LatePayment.LatePaymentLost` | src/store/sweep.rs:319-343 | A concrete run (register, late notification, sweep, backfill) that ends with the backfill done, the watch active and its total not what the chain paid it. |
| `LatePayment.LateNotificationLoses` | src/store/sweep.rs:319-343 | The same for every state with a canonical pending row inside an outstanding backfill. |
| `LatePayment.BelowCursorOrphaned` | src/store/sweep.rs:319-343 | A sweep orphans every pending row at or below the cursor it starts from, canonical or not. |
| `BooksOther.LatePendingNeedsBackfill` | src/store/sweep.rs:44-68 | A notification for a canonical, already swept block is recorded only for a watch whose backfill is outstanding. |
| `BooksOther.RunKeepsInv` | src/store/sweep.rs:270-378 | The accounting invariant holds in every reachable state. |
| `BooksOther.StepKeepsInv` | src/store/mod.rs:242-341 | Every step of the protocol keeps the accounting invariant. |
| `BooksOther.CreateKeepsInv` | src/store/mod.rs:242-293 | Registration keeps it, with or without a backfill. |
| `BooksOther.ExpireKeepsInv` | src/store/mod.rs:319-341 | Expiry keeps it. |
| `BooksOther.CancelKeepsInv` | src/store/mod.rs:308-317 | Cancellation keeps it. |
| `BooksOther.PendKeepsInv` | src/store/sweep.rs:44-74 | The head path keeps it, for any log at any time. |
| `BooksOther.FastForwardKeepsInv` | src/store/sweep.rs:389-425 | Skipping blocks keeps it: nothing countable is skipped. |
| `BooksSweep.SweepKeepsInv` | src/store/sweep.rs:270-378 | A sweep by any instance, on any complete answer in any order, keeps it. |
| `BooksSweep.SweptWatch` | src/store/sweep.rs:310-317 | A sweep changes one watch by the reference tally over the blocks swept and by nothing else. |
| `BooksSweep.SweptRowsHold` | src/store/sweep.rs:319-343 | A sweep confirms only canonical logs of its blocks, and leaves pending rows at or below its end ignored if canonical there and orphaned otherwise. |
| `BooksBackfill.BackfillKeepsInv` | src/store/sweep.rs:211-261 | A backfill, stale or repeated, keeps the invariant. |
| `BooksBackfill.FilledWatch` | src/store/sweep.rs:234-247 | A backfill that commits moves an active watch it was outstanding for by the reference tally over its payments up to `backfill_to` that nobody had resolved, marks the backfill done, and leaves the total of a retired watch alone. |
| `BooksBackfill.RerunCountsNothing` | src/store/sweep.rs:211-215 | Running a backfill again after it committed counts nothing. |
| `Machine.SweepIsJoin` | src/store/sweep.rs:293-317 | Matching an answer in any order through a prefix-complete cache, sorting and counting equals joining the ordered canonical logs with the active watches. |
| `Machine.BackfillIsJoin` | src/store/sweep.rs:223-247 | The same for a batch of backfills with its own scope. |
| `Machine.BatchScopeServes` | src/store/sweep.rs:223-233 | The scope of a batch finds every active watch in it. |
| `Machine.LaterBackfillWins` | src/store/sweep.rs:223-233 | Of two backfills on one target in a batch, the one that is overwritten is not active. |
| `Machine.AskedSuffices` | src/ingest/sweeper.rs:257-275 | The emitters, recipients and blocks a batch asks for lose no payment to it. |
| `Join.CacheAgreement` | src/store/sweep.rs:310-317 | Matching through a cache that serves all active watches, with the recheck of the row, equals the join with the table; stale entries have no effect. |
| `Join.PayingLogMatches` | src/ingest/matcher.rs:49-86 | A log that pays a cached watch is matched to that watch, with what it pays, which `Payments` ties to the amount encoded in it. |
| `Join.MatchPays` | src/ingest/matcher.rs:49-86 | A match against a faithful cache is a log that pays the matched watch. |
| `AnswerOrder.SortedAnswer` | src/store/sweep.rs:310-312 | Matching and sorting any permutation of the canonical logs yields the matches in canonical order. |
| `AnswerOrder.SortedCorrect` | src/store/sweep.rs:312-312 | The stable sort permutes its input and orders it by block and log index. |
| `AnswerOrder.AnswerKeys` | src/store/sweep.rs:331-332 | The keys collected from an answer are those of the canonical logs asked for. |
| `Accounts.JoinedTally` | src/store/sweep.rs:104-173 | Joining logs moves a watch's total and status as the reference tally does. |
| `Accounts.JoinedCovers` | src/store/sweep.rs:104-173 | A watch still active after a join has had every log that pays it resolved. |
| `Payments.TransferPays` | src/registry.rs:25-32 | The log of a transfer of v base units and some dust, written by an encoder of its own, pays v to the watch on its token and recipient from its block on, and nothing to any other, whatever the scale. |
| `Payments.TransferMatches` | src/ingest/matcher.rs:49-86 | The matcher reads such a log back: the cached watch, both parties, v base units, block, transaction and position; it is skipped if nobody watches, it came too early, or it is all dust, and says which. |
| `Payments.HitIsTransfer` | src/ingest/matcher.rs:49-86 | Conversely every match is the log of a transfer of at least one base unit of a configured token. |
| `Payments.BaseUnitsRound` | src/registry.rs:25-32 | Base units times the scale is at most the logged amount, and one base unit more would exceed it. |
| `Matcher.PayAmountBound` | src/registry.rs:25-32 | What a log pays is a uint256. |
| `Registry.LookupsAgree` | src/registry.rs:73-83 | With distinct addresses and emitters, a token is found by either one. |
| `Registry.FindByAddress` | src/registry.rs:73-77 | The first token, from a given position on, with that address, or none if there is none. |
| `Registry.FindByEmitter` | src/registry.rs:79-83 | The first token, from a given position on, with that emitter, or none if there is none. |
| `Cache.WatchCache.Insert` | src/cache.rs:57-61 | Replaces the entry, raises the mark, and reports whether the key was new. |
| `Cache.WatchCache.Get` | src/cache.rs:63-66 | The entry under the key, if there is one. |
| `Cache.WatchCache.Remove` | src/cache.rs:68-70 | Removes the entry only while it belongs to the given watch, and reports that. |
| `Cache.RemovalSparesNewer` | src/cache.rs:115-125 | Removing an older watch spares a newer one on the same target. |
| `Cache.RemovalUndoesInsert` | src/cache.rs:57-70 | Removing a watch that was inserted leaves its key empty and every other entry alone. |
| `Evictions.SweepEvicts` | src/store/sweep.rs:374-376 | A sweep that commits lists exactly the active watches it completes, and the cache of its instance has no entry of any of them left. |
| `Evictions.BackfillEvicts` | src/store/sweep.rs:257-259 | The same for a backfill, whatever its instance has cached. |
| `Store.ChainStore.ApplySweep` | src/store/sweep.rs:270-378 | Does what `Swept` says, with its own answers to the delta-load and leftovers queries, including rolling back; yields exactly on a moved cursor, naming the one expected and the one found, and then changes nothing. |
| `Store.ChainStore.ApplyBackfill` | src/store/sweep.rs:216-261 | Does what `Backfilled` says, including rolling back. |
| `Store.ChainStore.CountConfirmed` | src/store/sweep.rs:104-173 | Counts one transfer as `Counted` says; undoes the sequence bump if the row is resolved; fails if the total is no uint256. |
| `Store.ChainStore.SettleOne` | src/store/sweep.rs:333-359 | Resolves one leftover row, with a report if it is orphaned and its watch active; `Payloads` and `Notices` say what that report holds. |
| `Store.ChainStore.SelectLeftovers` | src/store/sweep.rs:319-328 | All pending rows at or below the end of the chunk, once each, by position. |
| `Store.ChainStore.SelectActiveAbove` | src/store/sweep.rs:293-301 | All active watches above the mark, once each, by serial. |
| `Store.ChainStore.DeltaLoad` | src/store/sweep.rs:293-308 | Loads them into the cache. |
| `Store.ChainStore.PendingBackfills` | src/store/sweep.rs:188-209 | The outstanding backfills by serial, the oldest ones if the limit is reached and all of them if not. |
| `Store.ChainStore.LockActiveWatch` | src/store/sweep.rs:33-42 | Bumps the sequence of an active watch and touches nothing otherwise. |
| `Store.ChainStore.RecordPending` | src/store/sweep.rs:44-74 | Records a pending row and its report exactly if the watch is active and the transfer unknown, else changes nothing, and says which. |
| `Store.ChainStore.FastForward` | src/store/sweep.rs:389-425 | Moves only the cursor, not at all while a row is pending, and else as far as it can: it stops below the target only at the block before the start of an active watch, or where it was if one starts no later than the next block. |
| `Skips.SkipMeans` | src/store/sweep.rs:407-416 | The same of the transaction as a function, for every answer of the minimum query. |
| `Store.ChainStore.CreateWatch` | src/store/mod.rs:242-293 | Registers, finds an equal watch or reports a conflict, and writes a row only in the first case. |
| `Store.ChainStore.CancelWatch` | src/store/mod.rs:308-317 | Sets an active watch to cancelled and returns its row, with all other fields as they were; changes nothing otherwise. |
| `Store.ChainStore.ExpireWatches` | src/store/mod.rs:319-341 | Exactly the watches returned lapse, each with one event; they were active, unlocked and at or past their expiry; unless the limit was reached no other such watch remains, and what remains is due no sooner; every other watch is untouched. |
| `Expiry.LapsedExactly` | src/store/mod.rs:322-341 | Of the watches picked, exactly those that are active and whose expiry is at or before now lapse. |
| `Store.ChainStore.ApplyStats` | src/store/mod.rs:519-543 | Adds a chunk's deltas to the rollup, token by token. |
| `Sweeping.Sweeper.Sweep` | src/ingest/sweeper.rs:146-217 | Terminates on any provider; without active watches and pending rows it catches up without a call; the database is what the recorded chunks make of the fast-forwarded state; catches up exactly if the cursor reaches the target; a provider that only objects to size lets it end otherwise only before a chunk that cannot be committed; ceilings keep halving if it gives no hints. |
| `Sweeping.Sweeper.Turn` | src/ingest/sweeper.rs:163-209 | One call: the cursor advances, or the span gets smaller, or the sweep ends with the cursor where it was; with a provider that only objects to size the latter only if the chunk just fetched cannot be committed. |
| `Sweeping.Sweeper.Fetch` | src/ingest/sweeper.rs:164-176 | One call, for as much of the range as the current span allows. |
| `Sweeping.Sweeper.ShrinkRange` | src/ingest/sweeper.rs:219-230 | A rejection makes the span strictly smaller, never zero: the stated limit if that is smaller, else half of what was asked for. |
| `Sweeping.Sweeper.Grow` | src/ingest/sweeper.rs:202-208 | The span doubles up to the ceiling, which is reset only after an hour. |
| `Sweeping.HalvingBound` | src/ingest/sweeper.rs:219-230 | Without hints, rejections since the last reset are at most the logarithm of the largest span. |
| `Sweeping.FallingBound` | src/ingest/sweeper.rs:219-230 | With any hints, they are fewer than the largest span. |
| `Sweeping.Sweeper.Gather` | src/ingest/sweeper.rs:266-286 | Terminates on any provider; what it returns is a complete answer for everything the batch asks for; it succeeds if the provider only objects to size; ceilings keep halving if it gives no hints. |
| `Sweeping.GatheredEnabled` | src/ingest/sweeper.rs:290-290 | A gathered answer is what the accounting machine assumes of a backfill. |
| `Sweeping.Sweeper.Backfill` | src/ingest/sweeper.rs:247-308 | Terminates on any providers; what it does to the database is a run of the accounting machine; it succeeds only with no backfill outstanding; if providers only object to size it fails only because the oldest batch cannot be committed by anyone. |
| `Sweeping.Sweeper.RunBatch` | src/ingest/sweeper.rs:250-303 | One batch takes exactly its watches off the backlog, or is an error that changes nothing. |
| `BackfillQueue.BacklogShrinks` | src/store/sweep.rs:248-249 | A batch that commits takes exactly its own watches off the backlog, whatever their status. |
| `BackfillQueue.OldestStarvesAll` | src/ingest/sweeper.rs:250-306 | While a backfill that would overflow a uint256 is among the oldest ones of the batch size, no batch of the query changes anything, whoever runs it and however often: it starves all the others. |
| `Sweeping.CutsDoNotMatter` | src/ingest/sweeper.rs:163-209 | However the loop cut the range, the books are those of one sweep over all of it. |
| `Sweeping.LeaderBooks.Apply` | src/ingest/sweeper.rs:180-200 | Applying an answered chunk extends the record of chunks by it, or leaves the database unchanged. |
| `Rollback.RolledBackIff` | src/store/sweep.rs:145-150 | A sweep is rolled back if and only if what its blocks pay some active watch, counted up to its threshold, brings its total to 2^256 or more. |
| `Rollback.SweepCommitsIff` | src/store/mod.rs:95-102 | A sweep by any instance from the current cursor changes the database, and moves the cursor to its end, if and only if no total overflows. |
| `Rollback.BackfillRolledBackIff` | src/store/sweep.rs:234-247 | A batch of backfills is rolled back if and only if what nobody has resolved of the payments of some active watch in it whose backfill is outstanding, counted up to its threshold, brings its total to 2^256 or more. |
| `Rollback.BackfillCommitsIff` | src/store/sweep.rs:216-261 | Whoever runs it, on whatever complete answer, a batch leaves everything as it was if something in it overflows, and otherwise commits for all its watches. |
| `Rollback.StuckUntilRetired` | src/store/sweep.rs:145-150 | From a state with such a watch and block, over any further run in which the watch is not retired, the cursor stays below the block, whoever sweeps. |
| `Rollback.StuckChain` | src/store/sweep.rs:145-150 | A reachable state of that kind: one watch with threshold 2^256 - 1, paid 2^255 in blocks 1 and 2. |
| `Outbox.LeaseOrder` | src/store/outbox.rs:24-63 | Under any interleaving of leases, late or lost acknowledgements and new events, the leases of a watch never go back to a lower sequence, and every sequence below a leased one exists and is delivered or dead. |
| `Outbox.ResolvedForGood` | src/store/outbox.rs:65-113 | No statement makes a delivered or dead event undelivered. |
| `Outbox.OneLeasePerWatch` | src/store/outbox.rs:35-42 | One leasing statement never takes two events of a watch. |
| `Outbox.HeadOfLine` | src/store/outbox.rs:35-42 | A watch with an undelivered event always has one that can be leased once due. |
| `Outbox.Table.LeaseDue` | src/store/outbox.rs:31-63 | Leases undelivered, due, unlocked rows with nothing undelivered before them in their watch, each with one more attempt and due again at the end of the lease, in the order in which they fell due: those due the longest if the limit is reached and all of them if not; no other row changes. |
| `Outbox.GivenBack` | src/store/outbox.rs:77-113 | A lease that is released leaves no trace but the time of the next attempt; one that is retried has cost an attempt. |
| `Outbox.Marking` | src/store/outbox.rs:65-113 | An outcome is recorded whatever the row says by then and changes nothing else of it; a delivered or dead row is not rescheduled. |
| `Outbox.NewEventEligibleIff` | src/store/mod.rs:551-580 | A new event can be leased from the time it is written on, and not before, if and only if all events of its watch before it are delivered or dead. |
| `Outbox.Table.Enqueue` | src/store/mod.rs:551-580 | Inserts the next sequence of the watch, due at once. |
| `Outbox.Table.MarkDelivered` | src/store/outbox.rs:65-75 | Marks the event whatever its status. |
| `Outbox.Table.MarkRetry` | src/store/outbox.rs:77-89 | Reschedules only an undelivered event. |
| `Outbox.Table.MarkDead` | src/store/outbox.rs:91-100 | Gives up on the event whatever its status. |
| `Outbox.Table.Release` | src/store/outbox.rs:102-113 | Reschedules only an undelivered event and gives the attempt back. |
| `Reports.DeliveriesFollowStreams` | src/store/mod.rs:546-580 | Under any interleaving of accounting transactions and dispatchers the outbox holds exactly the events of the watches' streams under their sequence numbers, and the leases of a watch follow its stream. |
| `Reports.StepGrows` | src/store/mod.rs:546-580 | No transaction removes or rewrites an event. |
| `Dispatch.OneDeliveryPerWatch` | src/webhook/mod.rs:72-207 | If start-up and acknowledgement together stay below the connect timeout plus three seconds, then over any run with crashes and failed acknowledgements at most one delivery per watch is in progress over all instances. |
| `Dispatch.DeliveredForGood` | src/store/outbox.rs:65-100 | Under the same bound, in every run a delivered event stays delivered through any further event. |
| `Dispatch.TwoRequests` | src/webhook/mod.rs:72-75 | For every other timing, and every retry delay that a delivery can outlast before its answer (start-up plus slot wait plus request timeout), a run in which one event has two requests in flight at once. |
| `Dispatch.DeliveredThenDead` | src/webhook/mod.rs:180-190 | For every other timing and every age at which deliveries give up, a run in which an event of at least that age is delivered and then marked dead. |
| `Dispatch.AcquireNeverWaits` | src/webhook/mod.rs:78-104 | An instance that reads its free permits, leases a batch of at most that many and then acquires a permit per event never waits for one, whatever finishes, fails or crashes in between. |
| `Dispatch.LeasesFitPermits` | src/webhook/mod.rs:78-104 | In every run, deliveries holding a permit, leased events without one, and what may be leased next never exceed the permits of an instance. |
| `Dispatch.BackoffGrows` | src/webhook/mod.rs:244-248 | The jitter range starts at the base, grows with the attempt and never exceeds the cap, or the base if the cap is below it. |
| `Dispatch.BackoffDoubles` | src/webhook/mod.rs:244-248 | It doubles with every attempt until it meets the cap. |
| `Push.Session.BuildTargeted` | src/ingest/source.rs:268-289 | Covers exactly the watchlist in full buckets and at most one open one; whatever was covered and is still wanted stays covered at every step, also if a subscription is refused. |
| `Push.Session.AddRecipients` | src/ingest/source.rs:291-313 | Covers what was covered and the new recipients; no covered address loses coverage at any step; a refusal changes no bucket. |
| `Push.Session.Serve` | src/ingest/source.rs:361-416 | Over any sequence of rebuilds and additions, up to a refusal, the recipients covered are those of the last rebuild and all additions since, and no address covered before that every rebuild wants is ever uncovered. |
| `Push.PiecesFacts` | src/ingest/source.rs:275-277 | Chunking loses no address, and all chunks but the last are full. |
| `Push.DedupedFacts` | src/ingest/source.rs:271-273 | Sorting and deduplicating keeps the set of addresses. |
| `Push.SwitchesNeedMovement` | src/ingest/source.rs:54-79 | k mode switches force the number of watches to have moved by at least (k - 1) times the width of the hysteresis band. |
| `Push.ModeFollows` | src/ingest/source.rs:54-79 | Above the limit the large-scale mode is asked for, below four fifths of it the targeted one, and in between whichever there is. |
| `Push.LastCrossingDecides` | src/ingest/source.rs:54-79 | The mode after any course of the watchlist is decided by the last count outside that band. |
| `Lookback.LookbackCovers` | src/api/mod.rs:264-269 | If the chain produced at most five quarters of the expected blocks, the start block is at or below every one of them, however stale the head estimate. |
| `Lookback.SufficesIff` | src/api/mod.rs:264-269 | A lookback reaches all those blocks, in every such situation, if and only if it is at least the most blocks there can be plus two. |
| `Lookback.LookbackTight` | src/api/mod.rs:264-269 | The lookback computed reaches them all and is at most one more than the least that does: with two blocks fewer, some watch starts above a block it should count. |
| `Lookback.BackfillRecordedIff` | src/store/mod.rs:250-251 | A backfill is recorded if and only if the registration looks back, the cursor is above zero and the head estimate is within the lookback of it; the start block is between 1 and one past the larger of cursor and estimate. |
| `BooksOther.StartBlockBounds` | src/store/mod.rs:295-300 | The start block is at least 1 and at most one past cursor and head; without lookback it is above both. |

## Left out

- RPC client, WebSocket transport, HTTP handlers, LISTEN/NOTIFY delivery, Prometheus and logging: I/O.
- PostgreSQL itself and the advisory lock: transactions are taken as atomic and no single leader is assumed.
- Reorganisations deeper than the confirmation depth and incomplete provider answers: accepted risks of the system.
- Operator replay of dead webhooks: it breaks the queue's monotonicity on purpose.
- Webhook URL vetting, signing, RPC error classification, the text of range-limit messages (any limit may be stated), configuration loading.
- Chain health, log limiting, metrics and the counters of a sweep's outcome (`confirmed_without_pending`, `orphaned`, `ignored`, `events`, `discovered`): they add only easy members.
- Conversion between U256 and NUMERIC, beyond the bound at 2^256; overflow of the rollup's NUMERIC volume; overflow of 64-bit block numbers and sequences; a missing cursor row.
- Host parking and host slots of the dispatcher: a delivery may be parked or denied a slot at any time.
- Scheduling of sweeps (triggers, safety tick, pending depth) and the poll fallback: which steps happen when.
- Sessions in firehose mode, and the choice between reconnecting and polling.
- Token symbols and decimals beyond the scale factor.
- Sweeping.Sweeper.Sweep: runs without other instances between its transactions, so its `CursorMoved` exit is not in it; interleavings are the subject of `Machine` and `Fleet`.
- Sweeping.Sweeper.Backfill: likewise runs without other instances between its transactions; batches that others have made stale are covered by `Machine` and `BooksBackfill`.
- Fleet.FleetRefines: does not cover a sweep that commits from a cache with a hole, because such a sweep does pass payments by (`Sync.LostRegistration`).
- Chunks.ChunksSameRollup: the volume is compared modulo 2^256 and outright only below it; `Volume.CutsSameVolumeIff` says exactly when it is the same.
- Conservation.RunConserves: the volume is exact only up to multiples of 2^256, because the per-chunk sum wraps; `Volume.RunVolumeExactIff` says when it is exact.
