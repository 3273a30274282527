/** Matching through a cache equals joining the logs with the active-watch table. */
module Join {
  import opened Base
  import opened Registry
  import opened Cache
  import opened Matcher
  import opened Ledger
  import opened Chain

  /** Which watches a transaction counts for: a sweep for all, a backfill for its batch, each up to a block. */
  datatype Scope = All | Only(until: map<Id, nat>)

  predicate Eligible(scope: Scope, id: Id, block: nat) {
    scope.All? || (id in scope.until && block <= scope.until[id])
  }

  function Scoped(scope: Scope, ms: seq<MatchedTransfer>): seq<MatchedTransfer> {
    if scope.All? then ms else Within(scope.until, ms)
  }

  /** `id` is the active watch that `log` pays. */
  ghost predicate Payable(chain: ChainSpec, watches: map<Id, Watch>, scope: Scope, id: Id, log: Log)
    requires ValidScales(chain) && log.Complete()
  {
    IsActive(watches, id) && Eligible(scope, id, log.block.value) && Pay(chain, TermsOf(watches[id]), log) > 0
  }

  /** The matched transfer of a log that pays `w`. */
  function Genuine(chain: ChainSpec, id: Id, w: Watch, log: Log): MatchedTransfer
    requires ValidScales(chain) && Pay(chain, TermsOf(w), log) > 0
  {
    MatchedTransfer(RefOf(id, w), TokenByEmitter(chain, log.emitter).value, FromWord(log.topics[1]), w.payee,
                    Pay(chain, TermsOf(w), log), log.block.value, log.txHash.value, log.Key(), log.removed)
  }

  /** Counts `log` for the active watch it pays, if there is one. No cache is involved. */
  ghost function Joined(chain: ChainSpec, tx: Tx, scope: Scope, log: Log): Tx
    requires ValidScales(chain) && log.Complete()
  {
    if exists id :: Payable(chain, tx.db.watches, scope, id, log) then
      var id :| Payable(chain, tx.db.watches, scope, id, log);
      Counted(tx, Genuine(chain, id, tx.db.watches[id], log))
    else tx
  }

  ghost function JoinedAll(chain: ChainSpec, tx: Tx, scope: Scope, logs: seq<Log>): Tx
    requires ValidScales(chain) && Ordered(logs)
  {
    if logs == [] then tx
    else Joined(chain, JoinedAll(chain, tx, scope, logs[..|logs| - 1]), scope, logs[|logs| - 1])
  }

  // ------------------------------------------------------------------ watch tables over time

  predicate SameTarget(v: Watch, w: Watch) {
    v.token == w.token && v.payee == w.payee
  }

  /** The partial unique index on active targets. */
  ghost predicate UniqueActive(watches: map<Id, Watch>) {
    forall a, b :: IsActive(watches, a) && IsActive(watches, b) && SameTarget(watches[a], watches[b]) ==> a == b
  }

  /** A later table: same watches on the same terms, possibly fewer of them active. */
  ghost predicate Aged(before: map<Id, Watch>, after: map<Id, Watch>) {
    && before.Keys == after.Keys
    && (forall id :: id in before ==>
          && TermsOf(after[id]) == TermsOf(before[id])
          && after[id].serial == before[id].serial
          && (after[id].status == Active ==> before[id].status == Active))
  }

  lemma {:induction false} CountedAged(tx: Tx, ms: seq<MatchedTransfer>)
    ensures Aged(tx.db.watches, CountedAll(tx, ms).db.watches)
  {
    if ms != [] {
      CountedAged(tx, ms[..|ms| - 1]);
    }
  }

  // ------------------------------------------------------------------ caches

  /** Every entry describes a watch that exists, under that watch's own key. */
  ghost predicate Faithful(chain: ChainSpec, watches: map<Id, Watch>, entries: map<WatchKey, WatchRef>) {
    forall key :: key in entries ==>
      && entries[key].id in watches
      && CacheKey(chain, watches[entries[key].id]) == Some(key)
      && entries[key] == RefOf(entries[key].id, watches[entries[key].id])
  }

  ghost predicate Holds(chain: ChainSpec, watches: map<Id, Watch>, entries: map<WatchKey, WatchRef>, id: Id)
    requires id in watches
  {
    var key := CacheKey(chain, watches[id]);
    key.Some? ==> key.value in entries && entries[key.value].id == id
  }

  /** Every active watch the scope is about is found under its key. */
  ghost predicate Serves(chain: ChainSpec, watches: map<Id, Watch>, entries: map<WatchKey, WatchRef>, scope: Scope) {
    && Faithful(chain, watches, entries)
    && (forall id :: IsActive(watches, id) && (scope.All? || id in scope.until) ==> Holds(chain, watches, entries, id))
  }

  /** A log that pays a watch is looked up under that watch's key, and matches with the amount it pays. */
  lemma PayingLogMatches(chain: ChainSpec, entries: map<WatchKey, WatchRef>, id: Id, w: Watch, log: Log)
    requires ValidSpec(chain) && ValidScales(chain) && Pay(chain, TermsOf(w), log) > 0
    ensures CacheKey(chain, w).Some?
    ensures CacheKey(chain, w).value in entries && entries[CacheKey(chain, w).value] == RefOf(id, w) ==>
              MatchLog(chain, entries, log) == Hit(Genuine(chain, id, w, log))
  {
    LookupsAgree(chain, TokenByEmitter(chain, log.emitter).value);
  }

  /** Conversely a match is with a watch that the log pays. */
  lemma MatchPays(chain: ChainSpec, watches: map<Id, Watch>, entries: map<WatchKey, WatchRef>, log: Log)
    requires ValidSpec(chain) && ValidScales(chain) && Faithful(chain, watches, entries)
    requires MatchLog(chain, entries, log).Hit?
    ensures var m := MatchLog(chain, entries, log).transfer;
            && m.watch.id in watches
            && Pay(chain, TermsOf(watches[m.watch.id]), log) > 0
            && m == Genuine(chain, m.watch.id, watches[m.watch.id], log)
  {
    var t := TokenByEmitter(chain, log.emitter).value;
    var key := WatchKey(t, FromWord(log.topics[2]));
    var id := entries[key].id;
    assert CacheKey(chain, watches[id]) == Some(key);
  }

  lemma AgreeOne(chain: ChainSpec, watches: map<Id, Watch>, entries: map<WatchKey, WatchRef>, scope: Scope, tx: Tx,
                 log: Log)
    requires ValidSpec(chain) && ValidScales(chain) && log.Complete()
    requires Serves(chain, watches, entries, scope) && UniqueActive(watches) && Aged(watches, tx.db.watches)
    ensures var r := MatchLog(chain, entries, log);
            Joined(chain, tx, scope, log)
            == if r.Hit? && Eligible(scope, r.transfer.watch.id, r.transfer.block) then Counted(tx, r.transfer) else tx
  {
    var r := MatchLog(chain, entries, log);
    var now := tx.db.watches;
    forall id | Payable(chain, now, scope, id, log)
      ensures r == Hit(Genuine(chain, id, now[id], log)) && Eligible(scope, id, r.transfer.block)
    {
      assert TermsOf(now[id]) == TermsOf(watches[id]);
      PayingLogMatches(chain, entries, id, watches[id], log);
      assert Holds(chain, watches, entries, id);
    }
    if r.Hit? {
      MatchPays(chain, watches, entries, log);
      var id := r.transfer.watch.id;
      assert TermsOf(now[id]) == TermsOf(watches[id]);
      if IsActive(now, id) && Eligible(scope, id, r.transfer.block) {
        assert Payable(chain, now, scope, id, log);
      }
    }
  }

  lemma CountedAllSnoc(tx: Tx, ms: seq<MatchedTransfer>, m: MatchedTransfer)
    ensures CountedAll(tx, ms + [m]) == Counted(CountedAll(tx, ms), m)
  {
    assert (ms + [m])[..|ms|] == ms;
  }

  lemma ScopedSnoc(scope: Scope, ms: seq<MatchedTransfer>, m: MatchedTransfer)
    ensures Scoped(scope, ms + [m]) == Scoped(scope, ms) + if Eligible(scope, m.watch.id, m.block) then [m] else []
  {
    assert (ms + [m])[..|ms|] == ms;
  }

  /** Matching a sequence of canonical logs through a cache that serves the table, and counting the
      matches, is the same as joining each log with the table as it stands when the log is reached. */
  lemma {:induction false} CacheAgreement(chain: ChainSpec, entries: map<WatchKey, WatchRef>, scope: Scope, tx: Tx,
                                          logs: seq<Log>)
    requires ValidSpec(chain) && ValidScales(chain) && Ordered(logs)
    requires Serves(chain, tx.db.watches, entries, scope) && UniqueActive(tx.db.watches)
    ensures CountedAll(tx, Scoped(scope, Hits(chain, entries, logs))) == JoinedAll(chain, tx, scope, logs)
  {
    if logs == [] {
      assert Hits(chain, entries, logs) == [];
    } else {
      var front := logs[..|logs| - 1];
      var hits := Hits(chain, entries, front);
      CacheAgreement(chain, entries, scope, tx, front);
      CountedAged(tx, Scoped(scope, hits));
      AgreeOne(chain, tx.db.watches, entries, scope, CountedAll(tx, Scoped(scope, hits)), logs[|logs| - 1]);
      var r := MatchLog(chain, entries, logs[|logs| - 1]);
      if r.Hit? {
        ScopedSnoc(scope, hits, r.transfer);
        if Eligible(scope, r.transfer.watch.id, r.transfer.block) {
          CountedAllSnoc(tx, Scoped(scope, hits), r.transfer);
        } else {
          assert Scoped(scope, hits) + [] == Scoped(scope, hits);
        }
      }
    }
  }
}
