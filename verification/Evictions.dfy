/** A sweep reports exactly the watches it completes, and its instance forgets them (src/store/sweep.rs:157-170,
    src/store/sweep.rs:374-376). */
module Evictions {
  import opened Base
  import opened Registry
  import opened Cache
  import opened Matcher
  import opened Ledger
  import opened Chain
  import opened Join
  import opened AnswerOrder
  import opened Sync
  import opened Machine
  import opened Books

  ghost predicate Listed(completed: seq<(WatchKey, Id)>, id: Id) {
    exists i :: 0 <= i < |completed| && completed[i].1 == id
  }

  lemma ListedSnoc(completed: seq<(WatchKey, Id)>, c: (WatchKey, Id), id: Id)
    ensures Listed(completed + [c], id) <==> Listed(completed, id) || c.1 == id
  {
    if Listed(completed, id) {
      var i :| 0 <= i < |completed| && completed[i].1 == id;
      assert (completed + [c])[i].1 == id;
    }
    assert (completed + [c])[|completed|] == c;
  }

  /** Counting lists exactly the active watches that it completes. */
  lemma {:induction false} CompletedListed(tx: Tx, ms: seq<MatchedTransfer>, id: Id)
    requires IsActive(tx.db.watches, id) && !Listed(tx.completed, id)
    ensures id in CountedAll(tx, ms).db.watches
    ensures CountedAll(tx, ms).db.watches[id].status == Active || CountedAll(tx, ms).db.watches[id].status == Completed
    ensures CountedAll(tx, ms).db.watches[id].status == Completed <==> Listed(CountedAll(tx, ms).completed, id)
  {
    if ms != [] {
      var n := |ms| - 1;
      CompletedListed(tx, ms[..n], id);
      var mid := CountedAll(tx, ms[..n]);
      ListedSnoc(mid.completed, (WatchKey(ms[n].tokenIdx, ms[n].to), ms[n].watch.id), id);
    }
  }

  /** And lists each under the key its transfer was matched by. */
  lemma {:induction false} ListedKeys(tx: Tx, ms: seq<MatchedTransfer>, i: nat) returns (m: MatchedTransfer)
    requires |tx.completed| <= i < |CountedAll(tx, ms).completed|
    ensures m in ms && CountedAll(tx, ms).completed[i] == (WatchKey(m.tokenIdx, m.to), m.watch.id)
  {
    var n := |ms| - 1;
    var mid := CountedAll(tx, ms[..n]);
    if i < |mid.completed| {
      m := ListedKeys(tx, ms[..n], i);
    } else {
      m := ms[n];
    }
  }

  lemma {:induction false} HitKeys(chain: ChainSpec, entries: map<WatchKey, WatchRef>, logs: seq<Log>,
                                   m: MatchedTransfer)
    requires ValidScales(chain) && m in Hits(chain, entries, logs)
    ensures var key := WatchKey(m.tokenIdx, m.to); key in entries && entries[key] == m.watch
  {
    var rest := Hits(chain, entries, logs[..|logs| - 1]);
    if m in rest {
      HitKeys(chain, entries, logs[..|logs| - 1], m);
    }
  }

  lemma SortedMember(ms: seq<MatchedTransfer>, m: MatchedTransfer)
    requires m in Sorted(ms)
    ensures m in ms
  {
    SortedCorrect(ms);
    assert m in multiset(Sorted(ms));
  }

  lemma {:induction false} EvictionAddsNothing(c: CacheState, completed: seq<(WatchKey, Id)>)
    ensures forall key :: key in Evicted(c, completed).entries ==>
              key in c.entries && Evicted(c, completed).entries[key] == c.entries[key]
  {
    if completed != [] {
      EvictionAddsNothing(c, completed[..|completed| - 1]);
    }
  }

  lemma {:induction false} EvictionRemoves(c: CacheState, completed: seq<(WatchKey, Id)>, i: nat)
    requires i < |completed|
    ensures completed[i].0 in Evicted(c, completed).entries ==>
              Evicted(c, completed).entries[completed[i].0].id != completed[i].1
  {
    if i < |completed| - 1 {
      EvictionRemoves(c, completed[..|completed| - 1], i);
    }
  }

  /** Faithful caches have a watch under one key. */
  lemma OneKey(chain: ChainSpec, watches: map<Id, Watch>, a: map<WatchKey, WatchRef>, b: map<WatchKey, WatchRef>,
               k: WatchKey, l: WatchKey)
    requires Faithful(chain, watches, a) && Faithful(chain, watches, b) && k in a && l in b
    ensures a[k].id == b[l].id ==> k == l
  {
  }

  /** The transfers were matched through `entries`. */
  ghost predicate MatchedBy(entries: map<WatchKey, WatchRef>, ms: seq<MatchedTransfer>) {
    forall m :: m in ms ==> WatchKey(m.tokenIdx, m.to) in entries && entries[WatchKey(m.tokenIdx, m.to)] == m.watch
  }

  /** No cache that is faithful keeps the entry of a watch that was completed. */
  lemma EntryGone(chain: ChainSpec, watches: map<Id, Watch>, entries: map<WatchKey, WatchRef>, c: CacheState, tx: Tx,
                  ms: seq<MatchedTransfer>, id: Id, key: WatchKey)
    requires Faithful(chain, watches, entries) && Faithful(chain, watches, c.entries) && MatchedBy(entries, ms)
    requires tx.completed == [] && Listed(CountedAll(tx, ms).completed, id)
    requires key in Evicted(c, CountedAll(tx, ms).completed).entries
    ensures Evicted(c, CountedAll(tx, ms).completed).entries[key].id != id
  {
    var completed := CountedAll(tx, ms).completed;
    var i :| 0 <= i < |completed| && completed[i].1 == id;
    var m := ListedKeys(tx, ms, i);
    EvictionAddsNothing(c, completed);
    OneKey(chain, watches, c.entries, entries, key, completed[i].0);
    EvictionRemoves(c, completed, i);
  }

  /** `tx` lists exactly the active watches it completed, and eviction leaves `c` without them. */
  ghost predicate Forgets(watches: map<Id, Watch>, tx: Tx, c: CacheState) {
    && (forall id :: IsActive(watches, id) ==>
          && id in tx.db.watches && (tx.db.watches[id].status == Active || tx.db.watches[id].status == Completed)
          && (tx.db.watches[id].status == Completed <==> Listed(tx.completed, id)))
    && (forall key :: key in Evicted(c, tx.completed).entries ==>
          !Listed(tx.completed, Evicted(c, tx.completed).entries[key].id))
  }

  lemma CountingForgets(chain: ChainSpec, db: Db, entries: map<WatchKey, WatchRef>, c: CacheState,
                        ms: seq<MatchedTransfer>)
    requires Faithful(chain, db.watches, entries) && Faithful(chain, db.watches, c.entries) && MatchedBy(entries, ms)
    ensures Forgets(db.watches, CountedAll(Begin(db), ms), c)
  {
    var tx := CountedAll(Begin(db), ms);
    forall id | IsActive(db.watches, id)
      ensures id in tx.db.watches && (tx.db.watches[id].status == Active || tx.db.watches[id].status == Completed)
      ensures tx.db.watches[id].status == Completed <==> Listed(tx.completed, id)
    {
      CompletedListed(Begin(db), ms, id);
    }
    forall key | key in Evicted(c, tx.completed).entries
      ensures !Listed(tx.completed, Evicted(c, tx.completed).entries[key].id)
    {
      if Listed(tx.completed, Evicted(c, tx.completed).entries[key].id) {
        EntryGone(chain, db.watches, entries, c, Begin(db), ms, Evicted(c, tx.completed).entries[key].id, key);
        assert false;
      }
    }
  }

  lemma SortedHits(chain: ChainSpec, entries: map<WatchKey, WatchRef>, logs: seq<Log>)
    requires ValidScales(chain)
    ensures MatchedBy(entries, Sorted(Hits(chain, entries, logs)))
  {
    forall m | m in Sorted(Hits(chain, entries, logs))
      ensures WatchKey(m.tokenIdx, m.to) in entries && entries[WatchKey(m.tokenIdx, m.to)] == m.watch
    {
      SortedMember(Hits(chain, entries, logs), m);
      HitKeys(chain, entries, logs, m);
    }
  }

  lemma {:induction false} WithinMember(until: map<Id, nat>, ms: seq<MatchedTransfer>, m: MatchedTransfer)
    requires m in Within(until, ms)
    ensures m in ms
  {
    if m in Within(until, ms[..|ms| - 1]) {
      WithinMember(until, ms[..|ms| - 1], m);
    }
  }

  lemma SortedBatch(chain: ChainSpec, entries: map<WatchKey, WatchRef>, until: map<Id, nat>, logs: seq<Log>)
    requires ValidScales(chain)
    ensures MatchedBy(entries, Sorted(Within(until, Hits(chain, entries, logs))))
  {
    forall m | m in Sorted(Within(until, Hits(chain, entries, logs)))
      ensures WatchKey(m.tokenIdx, m.to) in entries && entries[WatchKey(m.tokenIdx, m.to)] == m.watch
    {
      SortedMember(Within(until, Hits(chain, entries, logs)), m);
      WithinMember(until, Hits(chain, entries, logs), m);
      HitKeys(chain, entries, logs, m);
    }
  }

  lemma {:induction false} SettlingKeepsList(tx: Tx, keys: seq<Key>, canonical: set<Key>)
    ensures SettledAll(tx, keys, canonical).completed == tx.completed
  {
    if keys != [] {
      SettlingKeepsList(tx, keys[..|keys| - 1], canonical);
    }
  }

  lemma SettlingKeepsStatus(tx: Tx, keys: seq<Key>, canonical: set<Key>)
    ensures var tx' := SettledAll(tx, keys, canonical);
            && tx'.completed == tx.completed && tx'.db.watches.Keys == tx.db.watches.Keys
            && forall id :: id in tx.db.watches ==> tx'.db.watches[id].status == tx.db.watches[id].status
  {
    SettledFacts(tx, keys, canonical);
    SettlingKeepsList(tx, keys, canonical);
  }

  /** The result lists exactly the watches that were active and are completed now, and the cache holds none of them. */
  ghost predicate ForgetsCompleted(before: map<Id, Watch>, r: Outcome)
    requires r.result.Applied?
  {
    && (forall id :: IsActive(before, id) ==>
          && id in r.db.watches && (r.db.watches[id].status == Completed <==> Listed(r.result.completed, id)))
    && (forall key :: key in r.cache.entries && IsActive(before, r.cache.entries[key].id) ==>
          && r.cache.entries[key].id in r.db.watches && r.db.watches[r.cache.entries[key].id].status == Active)
  }

  lemma SettledForgets(before: map<Id, Watch>, tx: Tx, c: CacheState, keys: seq<Key>, canonical: set<Key>, db: Db,
                       to: nat)
    requires Forgets(before, tx, c)
    ensures var done := SettledAll(tx, keys, canonical);
            ForgetsCompleted(before, Outcome(Committed(done, db, to), Evicted(c, done.completed),
                                             Applied(done.completed)))
  {
    SettlingKeepsStatus(tx, keys, canonical);
  }

  /** A sweep that commits lists exactly the active watches that it completes, and the cache of its instance has no
      entry of any of them left. */
  lemma SweepEvicts(world: World, s: Sys, step: Step)
    requires Good(world) && ValidScales(world.chain) && step.Sweep? && Enabled(world, s, step)
    requires step.expected == s.db.cursor && UniqueActive(s.db.watches)
    requires Swept(world.chain, s.db, step.cache, step.expected, step.to, step.logs, step.loads,
                   step.leftovers).result.Applied?
    ensures var r := Swept(world.chain, s.db, step.cache, step.expected, step.to, step.logs, step.loads,
                           step.leftovers);
            ForgetsCompleted(s.db.watches, r)
  {
    var loaded := Loaded(world.chain, s.db.watches, step.cache, step.loads);
    DeltaLoadExact(world.chain, s.db.watches, step.cache, step.loads);
    SortedHits(world.chain, loaded.entries, step.logs);
    CountingForgets(world.chain, s.db, loaded.entries, loaded, Sorted(Hits(world.chain, loaded.entries, step.logs)));
    SettledForgets(s.db.watches, CountedChunk(world.chain, s.db, loaded, step.logs), loaded, step.leftovers,
                   CanonicalKeys(step.logs), s.db, step.to);
  }

  /** And so does a backfill, whatever its instance has cached. */
  lemma BackfillEvicts(world: World, s: Sys, c: CacheState, batch: seq<PendingBackfill>, logs: seq<Log>)
    requires Good(world) && ValidScales(world.chain) && BatchOk(s, batch) && SerialOrder(s.db.watches)
    requires Faithful(world.chain, s.db.watches, c.entries)
    requires Backfilled(world.chain, s.db, c, batch, logs).result.Applied?
    ensures ForgetsCompleted(s.db.watches, Backfilled(world.chain, s.db, c, batch, logs))
  {
    var scope, until := BatchScope(world.chain, batch), BatchUntil(world.chain, batch);
    BatchScopeServes(s, world.chain, batch);
    SortedBatch(world.chain, scope, until, logs);
    CountingForgets(world.chain, s.db, scope, c, Sorted(Within(until, Hits(world.chain, scope, logs))));
  }
}
