/** A payment that registration should have caught and the accounting loses: a notification for a block below the
    cursor arrives while a backfill is outstanding, the next sweep orphans it, and the backfill then passes it by
    (src/store/sweep.rs:46-68, src/store/sweep.rs:319-343, src/store/sweep.rs:111-128). */
module LatePayment {
  import opened Base
  import opened Registry
  import opened Cache
  import opened Matcher
  import opened Ledger
  import opened Chain
  import opened Join
  import opened AnswerOrder
  import opened Sync
  import opened Machine
  import opened Books
  import opened BooksSweep
  import opened BooksOther
  import opened Theorems
  import opened Chunks
  import Fleet

  // ------------------------------------------------------------------ whenever it happens

  lemma BelowSlice(world: World, c: nat, t: nat, k: Key)
    requires Good(world) && c <= t && Ordered(Slice(world.canon, c, t)) && k in world.universe
    requires world.universe[k].block.value <= c
    ensures k !in KeysOf(Slice(world.canon, c, t))
  {
    var slice := Slice(world.canon, c, t);
    if k in KeysOf(slice) {
      var i :| 0 <= i < |slice| && slice[i].Key() == k;
      SliceAt(world, c, t, i);
      assert false;
    }
  }

  /** A sweep orphans every pending row at or below the cursor it starts from, canonical or not. */
  lemma BelowCursorOrphaned(world: World, s: Sys, step: Step, k: Key)
    requires Good(world) && ValidScales(world.chain) && Inv(world, s) && step.Sweep? && Enabled(world, s, step)
    requires Do(world, s, step) != s
    requires k in s.db.transfers && s.db.transfers[k].status == Pending && s.db.transfers[k].block <= s.db.cursor
    ensures k in Do(world, s, step).db.transfers && Do(world, s, step).db.transfers[k].status == Orphaned
  {
    SweepCases(world, s, step);
    assert RowOk(world, s.db, k);
    SweptOrphaned(world, s, step.to, step.leftovers, k);
  }

  lemma SweptOrphaned(world: World, s: Sys, t: nat, leftovers: seq<Key>, k: Key)
    requires Good(world) && ValidScales(world.chain) && Sweepable(world, s, t, leftovers)
    requires k in s.db.transfers && s.db.transfers[k].status == Pending && s.db.transfers[k].block <= s.db.cursor
    requires k in world.universe && world.universe[k].Complete()
    requires world.universe[k].block.value == s.db.transfers[k].block
    ensures k in SweptSys(world, s, t, leftovers).db.transfers
    ensures SweptSys(world, s, t, leftovers).db.transfers[k].status == Orphaned
  {
    SliceGood(world, s.db.cursor, t);
    SweptRowsHold(world, s, t, leftovers);
    BelowSlice(world, s.db.cursor, t, k);
    RowOrphaned(s.db.transfers, SweptSys(world, s, t, leftovers).db.transfers,
                KeysOf(Slice(world.canon, s.db.cursor, t)), t, k);
  }

  lemma RowOrphaned(rows: map<Key, Row>, rows': map<Key, Row>, keys: set<Key>, t: nat, k: Key)
    requires SweptRows(rows, rows', keys, t) && k in rows && rows[k].status == Pending && rows[k].block <= t
    requires k !in keys
    ensures k in rows' && rows'[k].status == Orphaned
  {
  }

  /** So a canonical payment that is pending below the cursor for an outstanding backfill is lost for good: after a
      sweep and then the backfill, the watch's total is not what the chain paid it. */
  lemma LateNotificationLoses(world: World, s: Sys, sweep: Step, backfill: Step, id: Id, k: Key)
    requires Good(world) && ValidScales(world.chain) && Inv(world, s) && Canonical(world, k)
    requires IsActive(s.db.watches, id) && s.db.watches[id].backfillTo.Some?
    requires k in s.db.transfers && s.db.transfers[k].status == Pending && s.db.transfers[k].watchId == id
    requires s.db.transfers[k].block <= s.db.watches[id].backfillTo.value
    requires sweep.Sweep? && Enabled(world, s, sweep) && Do(world, s, sweep) != s
    requires var s1 := Do(world, s, sweep);
             && backfill.Backfill? && Enabled(world, s1, backfill) && id in BatchIds(backfill.batch)
             && IsActive(s1.db.watches, id) && Do(world, s1, backfill) != s1
             && IsActive(Do(world, s1, backfill).db.watches, id)
    ensures var w := Do(world, Do(world, s, sweep), backfill).db.watches[id];
            w.confirmed != Total(Amounts(world.chain, TermsOf(w), UpTo(world.canon, Do(world, s, sweep).db.cursor)))
  {
    assert WatchOk(s, id) && RowOk(world, s.db, k);
    BelowCursorOrphaned(world, s, sweep, k);
    SweepKeepsInv(world, s, sweep);
    SweepKeepsTerms(world, s, sweep, id);
    Dirty(world, Do(world, s, sweep).db.transfers, TermsOf(s.db.watches[id]), s.late[id], k);
    DirtyBackfill(world, Do(world, s, sweep), backfill, id);
  }

  lemma DirtyBackfill(world: World, s: Sys, step: Step, id: Id)
    requires Good(world) && ValidScales(world.chain) && Inv(world, s) && step.Backfill? && Enabled(world, s, step)
    requires IsActive(s.db.watches, id) && Outstanding(s.db.watches, BatchIds(step.batch), id)
    requires Do(world, s, step) != s
    requires id in s.late && !Clean(world, s.db.transfers, TermsOf(s.db.watches[id]), s.late[id])
    requires IsActive(Do(world, s, step).db.watches, id)
    ensures var w := Do(world, s, step).db.watches[id]; w.confirmed != ChainTotal(world, w, s.db.cursor)
  {
    CleanIff(world, s.db.transfers, TermsOf(s.db.watches[id]), s.late[id]);
    BackfillVerdict(world, s, step, id);
  }

  lemma SweepKeepsTerms(world: World, s: Sys, step: Step, id: Id)
    requires Good(world) && ValidScales(world.chain) && Inv(world, s) && step.Sweep? && Enabled(world, s, step)
    requires id in s.db.watches
    ensures id in Do(world, s, step).db.watches
    ensures TermsOf(Do(world, s, step).db.watches[id]) == TermsOf(s.db.watches[id])
    ensures Do(world, s, step).db.watches[id].backfillTo == s.db.watches[id].backfillTo
  {
    SweepCases(world, s, step);
    if Do(world, s, step) != s {
      assert WatchOk(s, id);
      SweptWatch(world, s, step.to, step.leftovers, id);
    }
  }

  lemma Dirty(world: World, rows: map<Key, Row>, terms: Terms, b: nat, k: Key)
    requires Good(world) && ValidScales(world.chain) && Canonical(world, k) && Resolved(rows, k)
    requires world.universe[k].Complete() && world.universe[k].block.value <= b
    requires Pay(world.chain, terms, world.universe[k]) > 0
    ensures !Clean(world, rows, terms, b)
  {
    var i := CanonicalAt(world, k);
    assert i < Height(world.canon, b);
  }

  // ------------------------------------------------------------------ and it does happen

  function Zeros(n: nat): (d: seq<Byte>)
    ensures |d| == n
  {
    if n == 0 then [] else Zeros(n - 1) + [0]
  }

  lemma {:induction false} ZerosValue(n: nat)
    ensures BigEndian(Zeros(n)) == 0
  {
    if n > 0 {
      ZerosValue(n - 1);
      assert Zeros(n)[..n - 1] == Zeros(n - 1);
    }
  }

  /** A transfer of 5 to address 100, mined in block 10. */
  const PAYMENT: Log := Log(7, [TRANSFER_TOPIC, 0, 100], Zeros(31) + [5], Some(10), Some(0), Some(0), Some(0), false)

  const PAID: Key := Key(0, 0)

  const WORLD: World := World(DEMO_CHAIN, [PAYMENT], map[PAID := PAYMENT])

  const ORDER: NewWatch := NewWatch(7, 100, 50, "u", None, 10, 5)

  const BEFORE: Sys := Sys(Db(10, map[], map[], map[], map[]), map[], map[])

  const REGISTER: Step := Create(1, 1, ORDER)

  const NOTIFY: Step := Pend(1, PAYMENT)

  const SWEEP: Step := Sweep(EMPTY, 10, 11, [], [1], [PAID])

  const BACKFILL: Step := Backfill([PendingBackfill(1, 1, 7, 100, 5, 10)], [PAYMENT])

  lemma DemoWorld()
    ensures Good(WORLD) && ValidScales(WORLD.chain)
    ensures Pay(WORLD.chain, Terms(7, 100, 5, 50), PAYMENT) == 5
  {
    DemoUnsafeAdd();
    LookupsAgree(DEMO_CHAIN, 0);
    ZerosValue(31);
    assert (Zeros(31) + [5])[..31] == Zeros(31);
    assert FromWord(100) == 100;
  }

  /** The watch with event sequence `n`: blocks 5 to 10 are to be backfilled. */
  function Late(n: nat): Watch {
    Watch(1, 7, 100, 50, 0, "u", Active, 5, Some(10), n, None)
  }

  lemma DemoRegister()
    ensures Good(WORLD) && ValidScales(WORLD.chain) && Initial(BEFORE) && Enabled(WORLD, BEFORE, REGISTER)
    ensures Do(WORLD, BEFORE, REGISTER)
            == Sys(Db(10, map[1 := Late(0)], map[], map[1 := []], map[]), map[1 := 10], map[])
  {
    DemoWorld();
    assert NewRow(10, 1, ORDER) == Late(0);
  }

  /** After the notification: the payment is pending in block 10, where the cursor already is. */
  ghost predicate Notified(s: Sys) {
    && s.db.cursor == 10 && s.db.watches == map[1 := Late(1)] && s.late == map[1 := 10]
    && s.db.transfers.Keys == {PAID}
    && s.db.transfers[PAID].status == Pending && s.db.transfers[PAID].block == 10 && s.db.transfers[PAID].watchId == 1
  }

  lemma DemoNotify()
    ensures Good(WORLD) && ValidScales(WORLD.chain) && Enabled(WORLD, BEFORE, REGISTER)
    ensures Enabled(WORLD, Do(WORLD, BEFORE, REGISTER), NOTIFY)
    ensures Notified(Do(WORLD, Do(WORLD, BEFORE, REGISTER), NOTIFY))
  {
    DemoWorld();
    DemoRegister();
    assert TermsOf(Late(0)) == Terms(7, 100, 5, 50);
  }

  lemma NoBlocksAbove()
    ensures Good(WORLD) && Slice(WORLD.canon, 10, 11) == []
  {
    DemoWorld();
  }

  /** The sweep of block 11 settles the pending row without counting anything. */
  lemma DemoSweep(s: Sys)
    requires Good(WORLD) && ValidScales(WORLD.chain) && Notified(s)
    ensures Enabled(WORLD, s, SWEEP)
    ensures Do(WORLD, s, SWEEP).db.cursor == 11
  {
    NoBlocksAbove();
    var loaded := Loaded(WORLD.chain, s.db.watches, EMPTY, [1]);
    assert Hits(WORLD.chain, loaded.entries, []) == [];
    assert CountedChunk(WORLD.chain, s.db, loaded, []) == Begin(s.db);
    assert ActiveAbove(s.db.watches, 0, [1]);
    assert Leftovers(s.db.transfers, 11, [PAID]);
  }

  lemma DemoWanted()
    ensures Good(WORLD) && Asked(WORLD.chain, BACKFILL.batch, WORLD.canon) == [PAYMENT]
  {
    DemoWorld();
    LookupsAgree(DEMO_CHAIN, 0);
    assert PAYMENT.topics[2] == 100;
    WantedBy(WORLD.chain, BACKFILL.batch, 0, PAYMENT);
    assert [PAYMENT][..0] == [];
  }

  /** The backfill finds the payment resolved, counts nothing and is marked done. */
  lemma DemoBackfill(s: Sys)
    requires Good(WORLD) && ValidScales(WORLD.chain) && Inv(WORLD, s) && s.late == map[1 := 10]
    requires 1 in s.db.watches && s.db.watches[1].backfillTo == Some(10) && s.db.watches[1].status == Active
    requires TermsOf(s.db.watches[1]) == Terms(7, 100, 5, 50) && s.db.watches[1].serial == 1
    requires Resolved(s.db.transfers, PAID)
    ensures Enabled(WORLD, s, BACKFILL) && 1 in BatchIds(BACKFILL.batch)
    ensures Do(WORLD, s, BACKFILL) != s && IsActive(Do(WORLD, s, BACKFILL).db.watches, 1)
    ensures Do(WORLD, s, BACKFILL).db.watches[1].backfillTo.None?
  {
    DemoBatch(s);
    DemoCounts(s);
  }

  lemma DemoCounts(s: Sys)
    requires Good(WORLD) && ValidScales(WORLD.chain) && Shape(s) && Enabled(WORLD, s, BACKFILL)
    requires Resolved(s.db.transfers, PAID)
    ensures CountedBatch(WORLD.chain, s.db, BACKFILL.batch, BACKFILL.logs) == Begin(s.db)
  {
    BackfillIsJoin(WORLD, s, BACKFILL.batch, BACKFILL.logs);
    assert WORLD.canon[0].Key() == PAID;
    NothingToCount(WORLD.chain, Begin(s.db), Only(BatchUntil(WORLD.chain, BACKFILL.batch)), WORLD.canon);
  }

  lemma DemoBatch(s: Sys)
    requires Good(WORLD) && ValidScales(WORLD.chain) && s.late == map[1 := 10]
    requires 1 in s.db.watches && TermsOf(s.db.watches[1]) == Terms(7, 100, 5, 50) && s.db.watches[1].serial == 1
    ensures Enabled(WORLD, s, BACKFILL) && 1 in BatchUntil(WORLD.chain, BACKFILL.batch) && 1 in BatchIds(BACKFILL.batch)
  {
    DemoWanted();
    LookupsAgree(DEMO_CHAIN, 0);
    assert BACKFILL.batch[..0] == [];
    KeptOne(PAYMENT);
    assert BACKFILL.batch[0] in BACKFILL.batch;
  }

  lemma KeptOne(log: Log)
    requires !log.removed
    ensures Answers([log], [log])
  {
    assert [log][..0] == [];
  }

  lemma StaysActive(s: Sys)
    requires Good(WORLD) && ValidScales(WORLD.chain) && Inv(WORLD, s) && Notified(s) && Enabled(WORLD, s, SWEEP)
    requires Do(WORLD, s, SWEEP) != s
    ensures var s' := Do(WORLD, s, SWEEP);
            && s'.late == s.late && 1 in s'.db.watches
            && s'.db.watches[1] == Late(s'.db.watches[1].nextEventSeq)
  {
    SweepCases(WORLD, s, SWEEP);
    NoBlocksAbove();
    assert WatchOk(s, 1);
    SweptWatch(WORLD, s, 11, [PAID], 1);
    assert Amounts(WORLD.chain, TermsOf(s.db.watches[1]), []) == [];
  }

  /** A reachable state in which a payment inside the registered window is lost: the backfill is done, the watch is
      active, and its total is not what the chain paid it. */
  lemma LatePaymentLost() returns (steps: seq<Step>)
    ensures Good(WORLD) && ValidScales(WORLD.chain) && Initial(BEFORE) && Run(WORLD, BEFORE, steps)
    ensures var now := After(WORLD, BEFORE, steps);
            && IsActive(now.db.watches, 1) && now.db.watches[1].backfillTo.None?
            && now.db.watches[1].confirmed != Total(Amounts(WORLD.chain, TermsOf(now.db.watches[1]),
                                                            UpTo(WORLD.canon, now.db.cursor)))
  {
    DemoNotify();
    DemoRegister();
    steps := [REGISTER];
    assert [] + steps == steps;
    Fleet.RunSnoc(WORLD, BEFORE, [], REGISTER);
    Fleet.RunSnoc(WORLD, BEFORE, steps, NOTIFY);
    steps := steps + [NOTIFY];
    var s := After(WORLD, BEFORE, steps);
    RunKeepsInv(WORLD, BEFORE, steps);
    DemoSweep(s);
    StaysActive(s);
    Fleet.RunSnoc(WORLD, BEFORE, steps, SWEEP);
    steps := steps + [SWEEP];
    FinalStep(s);
    Fleet.RunSnoc(WORLD, BEFORE, steps, BACKFILL);
    steps := steps + [BACKFILL];
  }

  lemma SweptFacts(s: Sys)
    requires Good(WORLD) && ValidScales(WORLD.chain) && Inv(WORLD, s) && Notified(s) && Enabled(WORLD, s, SWEEP)
    requires Do(WORLD, s, SWEEP) != s
    ensures var s1 := Do(WORLD, s, SWEEP);
            && Inv(WORLD, s1) && Enabled(WORLD, s1, BACKFILL) && 1 in BatchIds(BACKFILL.batch)
            && IsActive(s1.db.watches, 1) && Do(WORLD, s1, BACKFILL) != s1
            && IsActive(Do(WORLD, s1, BACKFILL).db.watches, 1) && Do(WORLD, s1, BACKFILL).db.watches[1].backfillTo.None?
  {
    StaysActive(s);
    BelowCursorOrphaned(WORLD, s, SWEEP, PAID);
    SweepKeepsInv(WORLD, s, SWEEP);
    DemoBackfill(Do(WORLD, s, SWEEP));
  }

  lemma BackfillKeepsCursor(world: World, s: Sys, step: Step)
    requires Good(world) && ValidScales(world.chain) && step.Backfill? && Enabled(world, s, step)
    ensures Do(world, s, step).db.cursor == s.db.cursor
  {
  }

  lemma PaidCanonical()
    ensures Good(WORLD) && Canonical(WORLD, PAID)
  {
    DemoWorld();
    assert WORLD.canon[0].Key() == PAID;
    CanonKey(WORLD, 0);
  }

  lemma FinalStep(s: Sys)
    requires Good(WORLD) && ValidScales(WORLD.chain) && Inv(WORLD, s) && Notified(s) && Enabled(WORLD, s, SWEEP)
    requires Do(WORLD, s, SWEEP) != s
    ensures var s1 := Do(WORLD, s, SWEEP);
            && Enabled(WORLD, s1, BACKFILL)
            && var now := Do(WORLD, s1, BACKFILL);
               && IsActive(now.db.watches, 1) && now.db.watches[1].backfillTo.None?
               && now.db.watches[1].confirmed != Total(Amounts(WORLD.chain, TermsOf(now.db.watches[1]),
                                                               UpTo(WORLD.canon, now.db.cursor)))
  {
    PaidCanonical();
    SweptFacts(s);
    LateNotificationLoses(WORLD, s, SWEEP, BACKFILL, 1, PAID);
    BackfillKeepsCursor(WORLD, Do(WORLD, s, SWEEP), BACKFILL);
  }
}
