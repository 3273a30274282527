/** The remaining steps keep the books; hence so does every run. */
module BooksOther {
  import opened Base
  import opened Registry
  import opened Matcher
  import opened Ledger
  import opened Chain
  import opened Join
  import opened Accounts
  import opened Machine
  import opened Books
  import opened BooksSweep
  import opened BooksBackfill

  // ------------------------------------------------------------------ registration

  /** A watch starts above the cursor, or records a backfill up to it (src/store/mod.rs:297-300). */
  lemma StartBlockBounds(cursor: nat, head: nat, lookback: nat)
    ensures 1 <= StartBlock(cursor, head, lookback) <= Max(cursor, head) + 1
    ensures lookback == 0 ==> StartBlock(cursor, head, lookback) > cursor && StartBlock(cursor, head, lookback) > head
  {
  }

  lemma NewAccounted(world: World, s: Sys, s': Sys, id: Id, serial: nat, new_: NewWatch)
    requires Good(world) && ValidScales(world.chain) && new_.threshold > 0
    requires s'.db.cursor == s.db.cursor && id in s'.db.watches
    requires s'.db.watches[id] == NewRow(s.db.cursor, serial, new_)
    requires id in s'.late <==> s'.db.watches[id].backfillTo.Some?
    requires s'.late == s.late || (id in s'.late && s'.late == s.late[id := s.db.cursor])
    requires id !in s'.filled && id !in s.late
    ensures Accounted(world, s', id) && Covered(world, s', id)
  {
    var w := s'.db.watches[id];
    if w.backfillTo.None? {
      NothingBeforeStart(world.chain, TermsOf(w), world.canon, s.db.cursor);
    } else {
      assert Slice(world.canon, s.db.cursor, s.db.cursor) == [];
      assert Course(world, s', id) == [];
    }
  }

  lemma CreateShape(s: Sys, id: Id, serial: nat, new_: NewWatch)
    requires Shape(s) && CreateEnabled(s.db, id, serial, new_) && !Occupied(s.db.watches, new_.token, new_.payee)
    ensures var ws' := s.db.watches[id := NewRow(s.db.cursor, serial, new_)]; UniqueActive(ws') && SerialOrder(ws')
  {
  }

  /** A step leaves the books of `v` as they were. */
  ghost predicate Untouched(s: Sys, s': Sys, v: Id) {
    && v in s.db.watches && v in s'.db.watches
    && s'.db.cursor == s.db.cursor
    && (v in s'.late <==> v in s.late) && (v in s.late ==> s'.late[v] == s.late[v])
    && (v in s'.filled <==> v in s.filled) && (v in s.filled ==> s'.filled[v] == s.filled[v])
    && s'.db.watches[v] == s.db.watches[v].(nextEventSeq := s'.db.watches[v].nextEventSeq)
    && (forall k :: Resolved(s.db.transfers, k) ==> Resolved(s'.db.transfers, k))
  }

  lemma FrameWatch(world: World, s: Sys, s': Sys, v: Id)
    requires Good(world) && ValidScales(world.chain) && Untouched(s, s', v)
    requires WatchOk(s, v) && Accounted(world, s, v) && Covered(world, s, v)
    ensures WatchOk(s', v) && Accounted(world, s', v) && Covered(world, s', v)
  {
    AccountedSame(world, s, s', v);
    PendCovered(world, s, s', v);
  }

  ghost predicate BooksOf(world: World, s: Sys, v: Id)
    requires Good(world) && ValidScales(world.chain) && v in s.db.watches
  {
    WatchOk(s, v) && Accounted(world, s, v) && Covered(world, s, v)
  }

  /** The parts of the invariant after a step that only ages the watch table. */
  lemma Assemble(world: World, s: Sys, s': Sys)
    requires Good(world) && ValidScales(world.chain) && Shape(s) && Aged(s.db.watches, s'.db.watches)
    requires s'.db.events.Keys == s'.db.watches.Keys && s'.late == s.late && s'.filled == s.filled
    requires forall v :: v in s'.db.watches ==> BooksOf(world, s', v)
    requires RowsOk(world, s'.db, s'.db.cursor)
    requires forall k :: k in s'.db.transfers ==> OrphanOk(world, s', k)
    ensures Inv(world, s')
  {
    AgedUnique(s.db.watches, s'.db.watches);
    AgedSerials(s.db.watches, s'.db.watches);
    assert forall v :: v in s'.db.watches ==> BooksOf(world, s', v) && WatchOk(s', v);
  }

  lemma CreatedInv(world: World, s: Sys, s': Sys, id: Id)
    requires Good(world) && ValidScales(world.chain) && Shape(s)
    requires s'.db.watches.Keys == s.db.watches.Keys + {id} == s'.db.events.Keys
    requires s'.late.Keys <= s.late.Keys + {id} && s'.filled == s.filled
    requires UniqueActive(s'.db.watches) && SerialOrder(s'.db.watches)
    requires forall v :: v in s'.db.watches ==> BooksOf(world, s', v)
    requires RowsOk(world, s'.db, s'.db.cursor)
    requires forall k :: k in s'.db.transfers ==> OrphanOk(world, s', k)
    ensures Inv(world, s')
  {
    assert forall v :: v in s'.db.watches ==> BooksOf(world, s', v) && WatchOk(s', v);
  }

  ghost function CreatedSys(s: Sys, id: Id, serial: nat, new_: NewWatch): Sys {
    var w := NewRow(s.db.cursor, serial, new_);
    Sys(s.db.(watches := s.db.watches[id := w], events := s.db.events[id := []]),
        if w.backfillTo.Some? then s.late[id := s.db.cursor] else s.late, s.filled)
  }

  lemma CreateCases(world: World, s: Sys, step: Step)
    requires Good(world) && ValidScales(world.chain) && step.Create? && Enabled(world, s, step)
    ensures Do(world, s, step) == s
         || (&& !Occupied(s.db.watches, step.new_.token, step.new_.payee)
             && Do(world, s, step) == CreatedSys(s, step.id, step.serial, step.new_))
  {
  }

  lemma CreateKeepsInv(world: World, s: Sys, step: Step)
    requires Good(world) && ValidScales(world.chain) && Inv(world, s) && step.Create? && Enabled(world, s, step)
    ensures Inv(world, Do(world, s, step))
  {
    CreateCases(world, s, step);
    if Do(world, s, step) != s {
      CreatedKeepsInv(world, s, step.id, step.serial, step.new_);
    }
  }

  lemma CreatedKeepsInv(world: World, s: Sys, id: Id, serial: nat, new_: NewWatch)
    requires Good(world) && ValidScales(world.chain) && Inv(world, s) && CreateEnabled(s.db, id, serial, new_)
    requires !Occupied(s.db.watches, new_.token, new_.payee)
    ensures Inv(world, CreatedSys(s, id, serial, new_))
  {
    var s' := CreatedSys(s, id, serial, new_);
    CreateShape(s, id, serial, new_);
    CreatedBooksAll(world, s, id, serial, new_);
    CreatedRows(world, s, id, serial, new_);
    CreatedKeys(s, id, serial, new_);
    CreatedInv(world, s, s', id);
  }

  lemma CreatedKeys(s: Sys, id: Id, serial: nat, new_: NewWatch)
    requires s.db.events.Keys == s.db.watches.Keys
    ensures var s' := CreatedSys(s, id, serial, new_);
            && s'.db.watches.Keys == s.db.watches.Keys + {id} == s'.db.events.Keys
            && s'.late.Keys <= s.late.Keys + {id}
  {
  }

  lemma CreatedRows(world: World, s: Sys, id: Id, serial: nat, new_: NewWatch)
    requires Good(world) && ValidScales(world.chain) && RowsOk(world, s.db, s.db.cursor)
    requires forall k :: k in s.db.transfers ==> OrphanOk(world, s, k)
    requires id !in s.db.watches && id !in s.late
    ensures var s' := CreatedSys(s, id, serial, new_);
            RowsOk(world, s'.db, s'.db.cursor) && forall k :: k in s'.db.transfers ==> OrphanOk(world, s', k)
  {
    RowsFrame(world, s, CreatedSys(s, id, serial, new_));
  }

  lemma CreatedBooksAll(world: World, s: Sys, id: Id, serial: nat, new_: NewWatch)
    requires Good(world) && ValidScales(world.chain) && Inv(world, s) && CreateEnabled(s.db, id, serial, new_)
    ensures forall v :: v in CreatedSys(s, id, serial, new_).db.watches ==>
              BooksOf(world, CreatedSys(s, id, serial, new_), v)
  {
    var s' := CreatedSys(s, id, serial, new_);
    forall v | v in s'.db.watches
      ensures BooksOf(world, s', v)
    {
      if v == id {
        NewAccounted(world, s, s', v, serial, new_);
      } else {
        assert BooksOf(world, s, v) && Untouched(s, s', v);
        FrameWatch(world, s, s', v);
      }
    }
  }

  /** Rows stay sound when the rows and the terms of existing watches are untouched. */
  lemma RowsFrame(world: World, s: Sys, s': Sys)
    requires Good(world) && ValidScales(world.chain) && RowsOk(world, s.db, s.db.cursor)
    requires forall k :: k in s.db.transfers ==> OrphanOk(world, s, k)
    requires s'.db.transfers == s.db.transfers && s'.db.cursor == s.db.cursor
    requires forall id :: id in s.db.watches ==>
               id in s'.db.watches && TermsOf(s'.db.watches[id]) == TermsOf(s.db.watches[id])
    requires forall id :: id in s.late ==> id in s'.late && s'.late[id] == s.late[id]
    ensures RowsOk(world, s'.db, s'.db.cursor)
    ensures forall k :: k in s'.db.transfers ==> OrphanOk(world, s', k)
  {
    forall k | k in s'.db.transfers
      ensures RowOk(world, s'.db, k) && OrphanOk(world, s', k)
    {
      assert RowOk(world, s.db, k) && OrphanOk(world, s, k);
    }
  }

  // ------------------------------------------------------------------ retirement

  /** `s'` is `s` with watch `id` retired below its threshold. */
  ghost predicate Retires(s: Sys, s': Sys, id: Id) {
    && IsActive(s.db.watches, id) && id in s'.db.watches
    && s'.late == s.late && s'.filled == s.filled
    && s'.db.cursor == s.db.cursor && s'.db.transfers == s.db.transfers
    && s'.db.watches == s.db.watches[id := s'.db.watches[id]]
    && s'.db.events.Keys == s.db.events.Keys + {id}
    && var w' := s'.db.watches[id];
       && (w'.status == Cancelled || w'.status == Expired)
       && w' == s.db.watches[id].(status := w'.status, nextEventSeq := w'.nextEventSeq)
  }

  lemma RetiredSelf(world: World, s: Sys, s': Sys, id: Id)
    requires Good(world) && ValidScales(world.chain) && Retires(s, s', id) && BooksOf(world, s, id)
    ensures BooksOf(world, s', id)
  {
    assert TermsOf(s'.db.watches[id]) == TermsOf(s.db.watches[id]);
    assert Course(world, s', id) == Course(world, s, id);
    AccountedStops(s.db.watches[id], s'.db.watches[id], Course(world, s, id));
  }

  lemma RetiredBooks(world: World, s: Sys, s': Sys, id: Id, v: Id)
    requires Good(world) && ValidScales(world.chain) && Inv(world, s) && Retires(s, s', id) && v in s.db.watches
    ensures v in s'.db.watches && BooksOf(world, s', v)
  {
    assert BooksOf(world, s, v);
    if v == id {
      RetiredSelf(world, s, s', id);
    } else {
      assert Untouched(s, s', v);
      FrameWatch(world, s, s', v);
    }
  }

  lemma RetiredAged(s: Sys, s': Sys, id: Id)
    requires Retires(s, s', id) && s.db.events.Keys == s.db.watches.Keys
    ensures Aged(s.db.watches, s'.db.watches) && s'.db.events.Keys == s'.db.watches.Keys
  {
  }

  lemma RetiredBooksAll(world: World, s: Sys, s': Sys, id: Id)
    requires Good(world) && ValidScales(world.chain) && Inv(world, s) && Retires(s, s', id)
    ensures forall v :: v in s'.db.watches ==> BooksOf(world, s', v)
  {
    forall v | v in s'.db.watches
      ensures BooksOf(world, s', v)
    {
      RetiredBooks(world, s, s', id, v);
    }
  }

  lemma RetiringKeepsInv(world: World, s: Sys, s': Sys, id: Id)
    requires Good(world) && ValidScales(world.chain) && Inv(world, s) && Retires(s, s', id)
    ensures Inv(world, s')
  {
    RetiredAged(s, s', id);
    RetiredBooksAll(world, s, s', id);
    RowsFrame(world, s, s');
    Assemble(world, s, s');
  }

  lemma CancelKeepsInv(world: World, s: Sys, step: Step)
    requires Good(world) && ValidScales(world.chain) && Inv(world, s) && step.Cancel?
    ensures Inv(world, Do(world, s, step))
  {
    if IsActive(s.db.watches, step.id) {
      assert Retires(s, Do(world, s, step), step.id);
      RetiringKeepsInv(world, s, Do(world, s, step), step.id);
    }
  }

  lemma {:induction false} ExpireKeepsInv(world: World, s: Sys, ids: seq<Id>, now: nat)
    requires Good(world) && ValidScales(world.chain) && Inv(world, s)
    ensures Inv(world, s.(db := ExpiredDb(s.db, ids, now)))
  {
    if ids != [] {
      var n := |ids| - 1;
      ExpireKeepsInv(world, s, ids[..n], now);
      var mid := s.(db := ExpiredDb(s.db, ids[..n], now));
      var after := s.(db := ExpiredDb(s.db, ids, now));
      if Overdue(mid.db.watches, ids[n], now) {
        assert Retires(mid, after, ids[n]);
        RetiringKeepsInv(world, mid, after, ids[n]);
      }
    }
  }

  // ------------------------------------------------------------------ the head path

  /** A late notification for a canonical, already swept block is only recorded for a watch whose backfill is
      outstanding: every other active watch has resolved it. */
  lemma LatePendingNeedsBackfill(world: World, s: Sys, id: Id, log: Log)
    requires Good(world) && ValidScales(world.chain) && Inv(world, s) && PendEnabled(world, s.db, id, log)
    requires IsActive(s.db.watches, id) && log.Key() !in s.db.transfers
    requires Canonical(world, log.Key()) && log.block.value <= s.db.cursor
    ensures s.db.watches[id].backfillTo.Some? && log.block.value <= s.db.watches[id].backfillTo.value
    ensures id in s.late && log.block.value <= s.late[id]
  {
    var i := CanonicalAt(world, log.Key());
    assert world.canon[i] == log && i < Height(world.canon, s.db.cursor);
    assert Covered(world, s, id) && WatchOk(s, id);
    assert !Due(world, s.db.watches[id], i);
  }

  lemma PendKeepsInv(world: World, s: Sys, step: Step)
    requires Good(world) && ValidScales(world.chain) && Inv(world, s) && step.Pend? && Enabled(world, s, step)
    ensures Inv(world, Do(world, s, step))
  {
    var s' := Do(world, s, step);
    if IsActive(s.db.watches, step.id) && step.log.Key() !in s.db.transfers {
      PendRows(world, s, step.id, step.log);
      PendBooks(world, s, s', step.id, step.log);
      Assemble(world, s, s');
    }
  }

  lemma PendUntouched(s: Sys, m: MatchedTransfer)
    requires s.db.events.Keys == s.db.watches.Keys
    ensures var s' := s.(db := Pended(s.db, m));
            && Aged(s.db.watches, s'.db.watches) && s'.db.events.Keys == s'.db.watches.Keys
            && forall v :: v in s'.db.watches ==> Untouched(s, s', v)
  {
  }

  lemma PendBooks(world: World, s: Sys, s': Sys, id: Id, log: Log)
    requires Good(world) && ValidScales(world.chain) && Inv(world, s) && PendEnabled(world, s.db, id, log)
    requires s' == s.(db := Pended(s.db, Genuine(world.chain, id, s.db.watches[id], log)))
    ensures Aged(s.db.watches, s'.db.watches) && s'.db.events.Keys == s'.db.watches.Keys
    ensures forall v :: v in s'.db.watches ==> BooksOf(world, s', v)
  {
    PendUntouched(s, Genuine(world.chain, id, s.db.watches[id], log));
    forall v | v in s'.db.watches
      ensures BooksOf(world, s', v)
    {
      assert BooksOf(world, s, v);
      FrameWatch(world, s, s', v);
    }
  }

  lemma PendCovered(world: World, s: Sys, s': Sys, v: Id)
    requires Good(world) && ValidScales(world.chain) && v in s.db.watches && v in s'.db.watches && Covered(world, s, v)
    requires s'.db.cursor == s.db.cursor
    requires s'.db.watches[v] == s.db.watches[v].(nextEventSeq := s'.db.watches[v].nextEventSeq)
    requires forall k :: Resolved(s.db.transfers, k) ==> Resolved(s'.db.transfers, k)
    ensures Covered(world, s', v)
  {
    forall i | s'.db.watches[v].status == Active && 0 <= i < Height(world.canon, s'.db.cursor)
        && Due(world, s'.db.watches[v], i)
      ensures Resolved(s'.db.transfers, world.canon[i].Key())
    {
      assert Due(world, s.db.watches[v], i);
    }
  }

  lemma PendRows(world: World, s: Sys, id: Id, log: Log)
    requires Good(world) && ValidScales(world.chain) && Inv(world, s) && PendEnabled(world, s.db, id, log)
    requires IsActive(s.db.watches, id) && log.Key() !in s.db.transfers
    ensures var s' := s.(db := Pended(s.db, Genuine(world.chain, id, s.db.watches[id], log)));
            RowsOk(world, s'.db, s'.db.cursor) && forall k :: k in s'.db.transfers ==> OrphanOk(world, s', k)
  {
    var s' := s.(db := Pended(s.db, Genuine(world.chain, id, s.db.watches[id], log)));
    forall k | k in s'.db.transfers
      ensures RowOk(world, s'.db, k) && (s'.db.transfers[k].status != Pending ==>
                                           s'.db.transfers[k].block <= s'.db.cursor)
      ensures OrphanOk(world, s', k)
    {
      if k == log.Key() {
        if Canonical(world, k) && log.block.value <= s.db.cursor {
          LatePendingNeedsBackfill(world, s, id, log);
        }
      } else {
        assert RowOk(world, s.db, k) && OrphanOk(world, s, k);
      }
    }
  }

  // ------------------------------------------------------------------ skipping blocks

  /** The cursor only skips blocks that lie below every active watch. */
  lemma SkipBelowActive(db: Db, target: nat, min: Option<nat>, id: Id)
    requires IsMinStart(db.watches, min) && IsActive(db.watches, id)
    ensures FastForwarded(db, target, min).cursor > db.cursor ==>
              FastForwarded(db, target, min).cursor < db.watches[id].start
  {
  }

  /** Blocks that lie below the start of an active watch pay it nothing. */
  lemma SkippedPayNothing(world: World, w: Watch, c: nat, t: nat)
    requires Good(world) && ValidScales(world.chain) && c <= t < w.start && w.confirmed < w.threshold
    ensures Tallied(Tally(w.confirmed, false), w.threshold, Paid(world, TermsOf(w), c, t)) == Tally(w.confirmed, false)
  {
    var more := Paid(world, TermsOf(w), c, t);
    forall i | 0 <= i < |more|
      ensures more[i] == 0
    {
      SliceAt(world, c, t, i);
    }
    TalliedZeros(Tally(w.confirmed, false), w.threshold, more);
  }

  lemma ForwardAccounted(world: World, s: Sys, c: nat, id: Id)
    requires Good(world) && ValidScales(world.chain) && id in s.db.watches && WatchOk(s, id) && c > s.db.cursor
    requires Accounted(world, s, id) && (s.db.watches[id].status == Active ==> c < s.db.watches[id].start)
    ensures Accounted(world, s.(db := s.db.(cursor := c)), id)
  {
    var w := s.db.watches[id];
    CourseGrows(world, s, s.(db := s.db.(cursor := c)), id);
    if w.status == Active {
      SkippedPayNothing(world, w, s.db.cursor, c);
    }
    AccountedGrows(w, w, Course(world, s, id), Paid(world, TermsOf(w), s.db.cursor, c));
  }

  lemma ForwardCovered(world: World, s: Sys, c: nat, id: Id)
    requires Good(world) && ValidScales(world.chain) && id in s.db.watches && c > s.db.cursor
    requires Covered(world, s, id) && (s.db.watches[id].status == Active ==> c < s.db.watches[id].start)
    ensures Covered(world, s.(db := s.db.(cursor := c)), id)
  {
  }

  lemma FastForwardKeepsInv(world: World, s: Sys, step: Step)
    requires Good(world) && ValidScales(world.chain) && Inv(world, s) && step.FastForward? && Enabled(world, s, step)
    ensures Inv(world, Do(world, s, step))
  {
    var s' := Do(world, s, step);
    if s' != s {
      var c := s'.db.cursor;
      assert s' == s.(db := s.db.(cursor := c)) && !HasPending(s.db.transfers);
      forall v | v in s'.db.watches
        ensures WatchOk(s', v) && Accounted(world, s', v) && Covered(world, s', v)
      {
        assert WatchOk(s, v) && Accounted(world, s, v) && Covered(world, s, v);
        if IsActive(s.db.watches, v) {
          SkipBelowActive(s.db, step.target, step.min, v);
        }
        ForwardAccounted(world, s, c, v);
        ForwardCovered(world, s, c, v);
      }
      forall k | k in s'.db.transfers
        ensures RowOk(world, s'.db, k) && OrphanOk(world, s', k) && s'.db.transfers[k].block <= c
      {
        assert RowOk(world, s.db, k) && OrphanOk(world, s, k);
      }
    }
  }

  // ------------------------------------------------------------------ runs

  lemma InitialInv(world: World, s: Sys)
    requires Good(world) && ValidScales(world.chain) && Initial(s)
    ensures Inv(world, s)
  {
  }

  lemma StepKeepsInv(world: World, s: Sys, step: Step)
    requires Good(world) && ValidScales(world.chain) && Inv(world, s) && Enabled(world, s, step)
    ensures Inv(world, Do(world, s, step))
  {
    match step
    case Create(_, _, _) => CreateKeepsInv(world, s, step);
    case Cancel(_) => CancelKeepsInv(world, s, step);
    case Expire(ids, now) => ExpireKeepsInv(world, s, ids, now);
    case Pend(_, _) => PendKeepsInv(world, s, step);
    case Sweep(_, _, _, _, _, _) => SweepKeepsInv(world, s, step);
    case Backfill(_, _) => BackfillKeepsInv(world, s, step);
    case FastForward(_, _) => FastForwardKeepsInv(world, s, step);
  }

  lemma {:induction false} RunKeepsInv(world: World, s: Sys, steps: seq<Step>)
    requires Good(world) && ValidScales(world.chain) && Initial(s) && Run(world, s, steps)
    ensures Inv(world, After(world, s, steps))
  {
    if steps == [] {
      InitialInv(world, s);
    } else {
      RunKeepsInv(world, s, steps[..|steps| - 1]);
      StepKeepsInv(world, After(world, s, steps[..|steps| - 1]), steps[|steps| - 1]);
    }
  }
}
