/** When an instance's cache is good enough for a sweep: prefix-completeness, what preserves it, and what a
    sweep loses without it (src/cache.rs, src/store/sweep.rs:293-308). */
module Sync {
  import opened Base
  import opened Registry
  import opened Cache
  import opened Matcher
  import opened Ledger
  import opened Chain
  import opened Join

  /** Every active watch up to `lastSeq` is cached under its key. */
  ghost predicate PrefixComplete(chain: ChainSpec, watches: map<Id, Watch>, c: CacheState) {
    forall id :: IsActive(watches, id) && watches[id].serial <= c.lastSeq ==> Holds(chain, watches, c.entries, id)
  }

  lemma SameKeySameTarget(chain: ChainSpec, v: Watch, w: Watch)
    requires CacheKey(chain, v).Some? && CacheKey(chain, v) == CacheKey(chain, w)
    ensures SameTarget(v, w)
  {
  }

  lemma {:induction false} LoadedEntries(chain: ChainSpec, watches: map<Id, Watch>, c: CacheState, ids: seq<Id>)
    requires UniqueActive(watches) && forall id :: id in ids ==> IsActive(watches, id)
    requires Faithful(chain, watches, c.entries)
    ensures Faithful(chain, watches, Loaded(chain, watches, c, ids).entries)
    ensures forall id :: id in ids ==> Holds(chain, watches, Loaded(chain, watches, c, ids).entries, id)
    ensures forall id :: IsActive(watches, id) && id !in ids ==>
              (Holds(chain, watches, Loaded(chain, watches, c, ids).entries, id) <==>
                 Holds(chain, watches, c.entries, id))
  {
    if ids != [] {
      var id := ids[|ids| - 1];
      assert id in ids;
      var front := ids[..|ids| - 1];
      assert forall x :: x in ids <==> x in front || x == id;
      LoadedEntries(chain, watches, c, front);
      var rest := Loaded(chain, watches, c, front);
      var key := CacheKey(chain, watches[id]);
      if key.Some? {
        forall v | IsActive(watches, v) && v != id
          ensures CacheKey(chain, watches[v]) != key
        {
          if CacheKey(chain, watches[v]) == key {
            SameKeySameTarget(chain, watches[v], watches[id]);
          }
        }
      }
    }
  }

  /** The in-transaction delta load yields a cache that finds every active watch exactly when the cache it
      starts from is prefix-complete. */
  lemma DeltaLoadExact(chain: ChainSpec, watches: map<Id, Watch>, c: CacheState, ids: seq<Id>)
    requires UniqueActive(watches) && Faithful(chain, watches, c.entries) && ActiveAbove(watches, c.lastSeq, ids)
    ensures Serves(chain, watches, Loaded(chain, watches, c, ids).entries, All) <==> PrefixComplete(chain, watches, c)
  {
    LoadedEntries(chain, watches, c, ids);
  }

  // ------------------------------------------------------------------ what an incomplete cache costs

  function MaxData(n: nat): (d: seq<Byte>)
    ensures |d| == n
  {
    if n == 0 then [] else MaxData(n - 1) + [255]
  }

  lemma {:induction false} MaxDataValue(n: nat)
    ensures BigEndian(MaxData(n)) == Pow256(n) - 1
  {
    if n > 0 {
      MaxDataValue(n - 1);
      assert MaxData(n)[..n - 1] == MaxData(n - 1);
    }
  }

  /** A mined log that pays `w`. */
  function PaymentTo(chain: ChainSpec, w: Watch): Log
    requires TokenByAddress(chain, w.token).Some?
  {
    Log(chain.tokens[TokenByAddress(chain, w.token).value].logAddress, [TRANSFER_TOPIC, 0, w.payee], MaxData(32),
        Some(w.start), Some(0), Some(0), Some(0), false)
  }

  lemma PaymentPays(chain: ChainSpec, w: Watch)
    requires ValidSpec(chain) && ValidScales(chain) && TokenByAddress(chain, w.token).Some?
    ensures PaymentTo(chain, w).Complete() && Pay(chain, TermsOf(w), PaymentTo(chain, w)) > 0
  {
    var i := TokenByAddress(chain, w.token).value;
    LookupsAgree(chain, i);
    MaxDataValue(32);
    Pow256Is(32);
    var t := chain.tokens[i];
    assert ValidScale(t);
    if t.logScale.Some? {
      DivPositive(UINT256 - 1, t.logScale.value);
    }
    assert FromWord(w.payee) == w.payee;
  }

  lemma DivPositive(a: nat, d: nat)
    requires 0 < d <= a
    ensures a / d > 0
  {
    assert a == d * (a / d) + a % d;
  }

  /** `log`, mined, is matched to every active watch it pays. */
  ghost predicate MatchesPayees(chain: ChainSpec, watches: map<Id, Watch>, entries: map<WatchKey, WatchRef>, log: Log)
    requires ValidScales(chain)
  {
    forall id :: IsActive(watches, id) && Pay(chain, TermsOf(watches[id]), log) > 0 ==>
      MatchLog(chain, entries, log).Hit? && MatchLog(chain, entries, log).transfer.watch.id == id
  }

  ghost predicate SeesAll(chain: ChainSpec, watches: map<Id, Watch>, entries: map<WatchKey, WatchRef>)
    requires ValidScales(chain)
  {
    forall log :: MatchesPayees(chain, watches, entries, log)
  }

  /** A sweep matches every possible payment to its active watch if and only if the instance's cache was
      prefix-complete: an active watch missing below `lastSeq` has a payment that no sweep by this instance
      would see. */
  lemma SweepSeesAllIff(chain: ChainSpec, watches: map<Id, Watch>, c: CacheState, ids: seq<Id>)
    requires ValidSpec(chain) && ValidScales(chain)
    requires UniqueActive(watches) && Faithful(chain, watches, c.entries) && ActiveAbove(watches, c.lastSeq, ids)
    ensures SeesAll(chain, watches, Loaded(chain, watches, c, ids).entries) <==> PrefixComplete(chain, watches, c)
  {
    var loaded := Loaded(chain, watches, c, ids);
    LoadedEntries(chain, watches, c, ids);
    if PrefixComplete(chain, watches, c) {
      forall log: Log
        ensures MatchesPayees(chain, watches, loaded.entries, log)
      {
        forall id | IsActive(watches, id) && Pay(chain, TermsOf(watches[id]), log) > 0
          ensures MatchLog(chain, loaded.entries, log).Hit?
          ensures MatchLog(chain, loaded.entries, log).transfer.watch.id == id
        {
          assert Holds(chain, watches, loaded.entries, id);
          PayingLogMatches(chain, loaded.entries, id, watches[id], log);
        }
      }
    } else {
      var id :| IsActive(watches, id) && watches[id].serial <= c.lastSeq && !Holds(chain, watches, c.entries, id);
      PaymentPays(chain, watches[id]);
      var log := PaymentTo(chain, watches[id]);
      assert id !in ids;
      if MatchesPayees(chain, watches, loaded.entries, log) {
        MatchPays(chain, watches, loaded.entries, log);
        PayingLogMatches(chain, loaded.entries, id, watches[id], log);
      }
      assert !MatchesPayees(chain, watches, loaded.entries, log);
    }
  }

  // ------------------------------------------------------------------ what keeps a cache prefix-complete

  /** Boot hydration caches every active watch. */
  lemma HydrationComplete(chain: ChainSpec, watches: map<Id, Watch>, ids: seq<Id>)
    requires UniqueActive(watches) && ActiveAbove(watches, 0, ids)
    requires forall id :: IsActive(watches, id) ==> watches[id].serial > 0
    ensures Faithful(chain, watches, Loaded(chain, watches, EMPTY, ids).entries)
    ensures PrefixComplete(chain, watches, Loaded(chain, watches, EMPTY, ids))
  {
    LoadedEntries(chain, watches, EMPTY, ids);
  }

  /** A delta load keeps prefix-completeness. */
  lemma LoadKeepsPrefix(chain: ChainSpec, watches: map<Id, Watch>, c: CacheState, ids: seq<Id>)
    requires UniqueActive(watches) && Faithful(chain, watches, c.entries) && ActiveAbove(watches, c.lastSeq, ids)
    ensures Faithful(chain, watches, Loaded(chain, watches, c, ids).entries)
    ensures PrefixComplete(chain, watches, c) ==> PrefixComplete(chain, watches, Loaded(chain, watches, c, ids))
  {
    LoadedEntries(chain, watches, c, ids);
  }

  /** Adding `id` leaves no hole: no other active watch up to the new `lastSeq` is skipped over or displaced. */
  ghost predicate AddSafe(chain: ChainSpec, watches: map<Id, Watch>, c: CacheState, id: Id)
    requires id in watches
  {
    forall v :: IsActive(watches, v) && v != id && watches[v].serial <= Max(c.lastSeq, watches[id].serial) ==>
      && CacheKey(chain, watches[v]) != CacheKey(chain, watches[id])
      && (watches[v].serial > c.lastSeq ==> Holds(chain, watches, c.entries, v))
  }

  /** An add by the API or a notification keeps prefix-completeness exactly when it leaves no hole. */
  lemma AddKeepsPrefixIff(chain: ChainSpec, watches: map<Id, Watch>, c: CacheState, id: Id)
    requires id in watches && CacheKey(chain, watches[id]).Some?
    requires PrefixComplete(chain, watches, c)
    ensures var after := Inserted(c, CacheKey(chain, watches[id]).value, RefOf(id, watches[id]));
            PrefixComplete(chain, watches, after) <==> AddSafe(chain, watches, c, id)
  {
    var key := CacheKey(chain, watches[id]).value;
    var after := Inserted(c, key, RefOf(id, watches[id]));
    if PrefixComplete(chain, watches, after) {
      forall v | IsActive(watches, v) && v != id && watches[v].serial <= after.lastSeq
        ensures CacheKey(chain, watches[v]) != Some(key)
        ensures Holds(chain, watches, c.entries, v)
      {
        assert Holds(chain, watches, after.entries, v);
      }
    }
    if AddSafe(chain, watches, c, id) {
      forall v | IsActive(watches, v) && watches[v].serial <= after.lastSeq
        ensures Holds(chain, watches, after.entries, v)
      {
        if v != id && watches[v].serial <= c.lastSeq {
          assert Holds(chain, watches, c.entries, v);
        }
      }
    }
  }

  /** Removing a retired watch is always safe, whatever has replaced it. */
  lemma RemoveKeepsPrefix(chain: ChainSpec, watches: map<Id, Watch>, c: CacheState, key: WatchKey, id: Id)
    requires Faithful(chain, watches, c.entries) && !IsActive(watches, id)
    ensures Faithful(chain, watches, Removed(c, key, id).entries)
    ensures PrefixComplete(chain, watches, c) ==> PrefixComplete(chain, watches, Removed(c, key, id))
  {
    forall v | PrefixComplete(chain, watches, c) && IsActive(watches, v) && watches[v].serial <= c.lastSeq
      ensures Holds(chain, watches, Removed(c, key, id).entries, v)
    {
      assert Holds(chain, watches, c.entries, v);
    }
  }

  lemma {:induction false} EvictKeepsPrefix(chain: ChainSpec, watches: map<Id, Watch>, c: CacheState,
                                            completed: seq<(WatchKey, Id)>)
    requires Faithful(chain, watches, c.entries)
    requires forall i :: 0 <= i < |completed| ==> !IsActive(watches, completed[i].1)
    ensures Faithful(chain, watches, Evicted(c, completed).entries)
    ensures PrefixComplete(chain, watches, c) ==> PrefixComplete(chain, watches, Evicted(c, completed))
  {
    if completed != [] {
      var n := |completed| - 1;
      EvictKeepsPrefix(chain, watches, c, completed[..n]);
      RemoveKeepsPrefix(chain, watches, Evicted(c, completed[..n]), completed[n].0, completed[n].1);
    }
  }

  /** Nothing that only retires watches or moves their totals harms a cache. */
  lemma AgingKeepsPrefix(chain: ChainSpec, before: map<Id, Watch>, after: map<Id, Watch>, c: CacheState)
    requires Aged(before, after) && Faithful(chain, before, c.entries)
    ensures Faithful(chain, after, c.entries)
    ensures PrefixComplete(chain, before, c) ==> PrefixComplete(chain, after, c)
  {
    forall id | id in before
      ensures CacheKey(chain, after[id]) == CacheKey(chain, before[id]) && RefOf(id, after[id]) == RefOf(id, before[id])
    {
      assert TermsOf(after[id]) == TermsOf(before[id]);
    }
    forall id | PrefixComplete(chain, before, c) && IsActive(after, id) && after[id].serial <= c.lastSeq
      ensures Holds(chain, after, c.entries, id)
    {
      assert Holds(chain, before, c.entries, id);
    }
  }

  /** A registration keeps a cache prefix-complete exactly when its serial is above the cache's `lastSeq`,
      or its token is not configured. */
  lemma RegistrationKeepsPrefixIff(chain: ChainSpec, watches: map<Id, Watch>, c: CacheState, id: Id, w: Watch)
    requires Faithful(chain, watches, c.entries) && id !in watches && w.status == Active
    ensures Faithful(chain, watches[id := w], c.entries)
    ensures PrefixComplete(chain, watches, c) ==>
              (PrefixComplete(chain, watches[id := w], c) <==> w.serial > c.lastSeq || CacheKey(chain, w).None?)
  {
    var after := watches[id := w];
    forall v | PrefixComplete(chain, watches, c) && IsActive(watches, v) && watches[v].serial <= c.lastSeq
      ensures Holds(chain, after, c.entries, v)
    {
      assert Holds(chain, watches, c.entries, v);
    }
    if w.serial <= c.lastSeq && CacheKey(chain, w).Some? {
      assert after[id] == w && IsActive(after, id);
      assert !Holds(chain, after, c.entries, id);
    }
  }

  const DEMO_CHAIN: ChainSpec := ChainSpec([TokenSpec(7, 7, None)])

  function DemoWatch(serial: nat, payee: Address): Watch {
    Watch(serial, 7, payee, 5, 0, "u", Active, 10, None, 0, None)
  }

  const DEMO_WATCHES: map<Id, Watch> := map[11 := DemoWatch(1, 100), 12 := DemoWatch(2, 200)]

  /** The cache of an instance that was told of the second watch but not of the first. */
  const DEMO_CACHE: CacheState := Inserted(EMPTY, WatchKey(0, 200), WatchRef(12, 2, 10))

  lemma DemoUnsafeAdd()
    ensures ValidSpec(DEMO_CHAIN) && ValidScales(DEMO_CHAIN) && UniqueActive(DEMO_WATCHES)
    ensures PrefixComplete(DEMO_CHAIN, DEMO_WATCHES, EMPTY) && !AddSafe(DEMO_CHAIN, DEMO_WATCHES, EMPTY, 12)
  {
    LookupsAgree(DEMO_CHAIN, 0);
    assert IsActive(DEMO_WATCHES, 11) && CacheKey(DEMO_CHAIN, DEMO_WATCHES[11]) == Some(WatchKey(0, 100));
    assert !Holds(DEMO_CHAIN, DEMO_WATCHES, EMPTY.entries, 11);
  }

  const DEMO_START: Db := Db(9, map[], map[], map[], map[])

  function DemoOrder(payee: Address): NewWatch {
    NewWatch(7, payee, 5, "u", None, 9, 0)
  }

  /** After both registrations. */
  ghost function DemoRegistered(): Db {
    Registered(Registered(DEMO_START, 11, 1, DemoOrder(100)), 12, 2, DemoOrder(200))
  }

  lemma DemoTable()
    ensures DemoRegistered().watches == DEMO_WATCHES && DemoRegistered().cursor == 9
    ensures DemoRegistered().transfers == map[] && DemoRegistered().stats == map[]
  {
    assert NewRow(9, 1, DemoOrder(100)) == DemoWatch(1, 100) && NewRow(9, 2, DemoOrder(200)) == DemoWatch(2, 200);
    assert !Occupied(map[], 7, 100) && !Occupied(map[11 := DemoWatch(1, 100)], 7, 200);
  }

  /** A payment to the first watch. */
  function DemoPayment(): Log {
    Log(7, [TRANSFER_TOPIC, 0, 100], MaxData(32), Some(10), Some(0), Some(0), Some(0), false)
  }

  lemma DemoMissed()
    ensures ValidScales(DEMO_CHAIN) && DemoPayment().Complete()
    ensures Pay(DEMO_CHAIN, TermsOf(DemoWatch(1, 100)), DemoPayment()) > 0
    ensures Hits(DEMO_CHAIN, DEMO_CACHE.entries, [DemoPayment()]) == []
  {
    DemoUnsafeAdd();
    LookupsAgree(DEMO_CHAIN, 0);
    assert DemoPayment() == PaymentTo(DEMO_CHAIN, DemoWatch(1, 100));
    PaymentPays(DEMO_CHAIN, DemoWatch(1, 100));
    assert FromWord(100) == 100;
    assert [DemoPayment()][..0] == [];
  }

  /** Two registrations and one lost notification. The cache of an instance is prefix-complete; then it is told of
      serial 2, having never heard of serial 1. The delta load of its next sweep asks for serials above 2, and the
      sweep passes a payment to the first watch by: the cursor is beyond it, the watch is active and has nothing,
      although a scan of the canonical logs pays it. */
  lemma LostRegistration()
    ensures ValidScales(DEMO_CHAIN)
    ensures var db := DemoRegistered(); var log := DemoPayment();
            && PrefixComplete(DEMO_CHAIN, db.watches, EMPTY) && 12 in db.watches
            && CacheKey(DEMO_CHAIN, db.watches[12]) == Some(WatchKey(0, 200))
            && DEMO_CACHE == Inserted(EMPTY, WatchKey(0, 200), RefOf(12, db.watches[12]))
            && ActiveAbove(db.watches, DEMO_CACHE.lastSeq, [])
            && Leftovers(CountedChunk(DEMO_CHAIN, db, DEMO_CACHE, [log]).db.transfers, 10, [])
            && var r := Swept(DEMO_CHAIN, db, DEMO_CACHE, 9, 10, [log], [], []);
               && r.result == Applied([]) && r.db.cursor == 10 && IsActive(r.db.watches, 11)
               && log.block == Some(10) && r.db.watches[11].start <= 10
               && r.db.watches[11].confirmed == 0 < Scan(DEMO_CHAIN, TermsOf(r.db.watches[11]), [log]).amount
  {
    DemoTable();
    DemoMissed();
    DemoUnsafeAdd();
    LookupsAgree(DEMO_CHAIN, 0);
    var db, log := DemoRegistered(), DemoPayment();
    assert CountedChunk(DEMO_CHAIN, db, DEMO_CACHE, [log]) == Begin(db);
    assert Loaded(DEMO_CHAIN, db.watches, DEMO_CACHE, []) == DEMO_CACHE;
    var amounts := Amounts(DEMO_CHAIN, TermsOf(DemoWatch(1, 100)), [log]);
    assert amounts[..0] == [];
  }
}
