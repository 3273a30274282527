/** A sweep keeps the books. */
module BooksSweep {
  import opened Base
  import opened Registry
  import opened Matcher
  import opened Ledger
  import opened Chain
  import opened Join
  import opened AnswerOrder
  import opened Accounts
  import opened Machine
  import opened Books

  /** The state a sweep of (cursor, t] commits, described without caches and without the answer's order. */
  ghost function SweptSys(world: World, s: Sys, t: nat, leftovers: seq<Key>): Sys
    requires Good(world) && ValidScales(world.chain) && s.db.cursor <= t
  {
    SliceGood(world, s.db.cursor, t);
    var tx := SettledAll(SweepJoin(world, s.db, s.db.cursor, t), leftovers, KeysOf(Slice(world.canon, s.db.cursor, t)));
    s.(db := Committed(tx, s.db, t))
  }

  /** A sweep either leaves the database alone or commits `SweptSys`. */
  lemma SweepCases(world: World, s: Sys, step: Step)
    requires Good(world) && ValidScales(world.chain) && Shape(s) && step.Sweep? && Enabled(world, s, step)
    ensures Do(world, s, step) == s
         || (&& s.db.cursor == step.expected < step.to
             && !SweepJoin(world, s.db, s.db.cursor, step.to).failed
             && Leftovers(SweepJoin(world, s.db, s.db.cursor, step.to).db.transfers, step.to, step.leftovers)
             && Do(world, s, step) == SweptSys(world, s, step.to, step.leftovers))
  {
    if s.db.cursor == step.expected {
      SweepIsJoin(world, s.db, step);
    }
  }

  ghost predicate Sweepable(world: World, s: Sys, t: nat, leftovers: seq<Key>)
    requires Good(world) && ValidScales(world.chain)
  {
    && Inv(world, s) && s.db.cursor <= t
    && !SweepJoin(world, s.db, s.db.cursor, t).failed
    && Leftovers(SweepJoin(world, s.db, s.db.cursor, t).db.transfers, t, leftovers)
  }

  /** Counting a sweep's logs moves one watch as the reference tally does. */
  lemma SweepJoinWatch(world: World, s: Sys, t: nat, id: Id)
    requires Good(world) && ValidScales(world.chain) && s.db.cursor <= t && id in s.db.watches
    requires UniqueActive(s.db.watches) && WatchOk(s, id) && RowsOk(world, s.db, s.db.cursor)
    requires !SweepJoin(world, s.db, s.db.cursor, t).failed
    ensures id in SweepJoin(world, s.db, s.db.cursor, t).db.watches
    ensures var w := s.db.watches[id]; var w' := SweepJoin(world, s.db, s.db.cursor, t).db.watches[id];
            && w' == w.(confirmed := w'.confirmed, status := w'.status, nextEventSeq := w'.nextEventSeq)
            && (w.status != Active ==> w' == w)
            && (w.status == Active ==>
                  && (w'.status == Active || w'.status == Completed)
                  && Tally(w'.confirmed, w'.status == Completed)
                     == Tallied(Tally(w.confirmed, false), w.threshold,
                                Amounts(world.chain, TermsOf(w), Slice(world.canon, s.db.cursor, t))))
  {
    SliceGood(world, s.db.cursor, t);
    var slice := Slice(world.canon, s.db.cursor, t);
    JoinedTally(world.chain, Begin(s.db), All, slice, id);
    SliceEffects(world, s.db, t, id, TermsOf(s.db.watches[id]));
  }

  lemma SettlingMoves(world: World, s: Sys, t: nat, leftovers: seq<Key>, id: Id)
    requires Good(world) && ValidScales(world.chain) && s.db.cursor <= t
    requires id in SweepJoin(world, s.db, s.db.cursor, t).db.watches
    ensures id in SweptSys(world, s, t, leftovers).db.watches
    ensures var w := SweepJoin(world, s.db, s.db.cursor, t).db.watches[id];
            var w' := SweptSys(world, s, t, leftovers).db.watches[id];
            w' == w.(nextEventSeq := w'.nextEventSeq)
  {
    SliceGood(world, s.db.cursor, t);
    SettledFacts(SweepJoin(world, s.db, s.db.cursor, t), leftovers, KeysOf(Slice(world.canon, s.db.cursor, t)));
  }

  /** What a sweep does to one watch: the reference tally over its blocks, and nothing else. */
  lemma SweptWatch(world: World, s: Sys, t: nat, leftovers: seq<Key>, id: Id)
    requires Good(world) && ValidScales(world.chain) && s.db.cursor <= t && id in s.db.watches
    requires UniqueActive(s.db.watches) && WatchOk(s, id) && RowsOk(world, s.db, s.db.cursor)
    requires !SweepJoin(world, s.db, s.db.cursor, t).failed
    ensures id in SweptSys(world, s, t, leftovers).db.watches
    ensures id in SweepJoin(world, s.db, s.db.cursor, t).db.watches
    ensures var w := s.db.watches[id]; var w' := SweptSys(world, s, t, leftovers).db.watches[id];
            && w' == w.(confirmed := w'.confirmed, status := w'.status, nextEventSeq := w'.nextEventSeq)
            && (w.status != Active ==> w'.status == w.status && w'.confirmed == w.confirmed)
            && (w.status == Active ==>
                  && (w'.status == Active || w'.status == Completed)
                  && Tally(w'.confirmed, w'.status == Completed)
                     == Tallied(Tally(w.confirmed, false), w.threshold,
                                Amounts(world.chain, TermsOf(w), Slice(world.canon, s.db.cursor, t))))
    ensures SweptSys(world, s, t, leftovers).db.watches[id].status
         == SweepJoin(world, s.db, s.db.cursor, t).db.watches[id].status
  {
    SweepJoinWatch(world, s, t, id);
    SettlingMoves(world, s, t, leftovers, id);
  }

  /** What a sweep does to rows: unresolved rows of its canonical logs may be confirmed; pending rows left at or
      below `t` become ignored if canonical in its blocks and orphaned otherwise; nothing else changes. */
  ghost predicate SweptRows(rows: map<Key, Row>, rows': map<Key, Row>, keys: set<Key>, t: nat) {
    && rows.Keys <= rows'.Keys <= rows.Keys + keys
    && (forall k :: k in rows ==> rows'[k] == rows[k].(status := rows'[k].status))
    && (forall k :: Resolved(rows, k) ==> rows'[k] == rows[k])
    && (forall k :: k in rows' ==>
          match rows'[k].status
          case Pending => rows'[k].block > t && k in rows && rows[k].status == Pending
          case Confirmed => k in keys || (k in rows && rows[k].status == Confirmed)
          case Ignored => k in rows && (rows[k].status == Ignored || k in keys)
          case Orphaned => k in rows && (rows[k].status == Orphaned
                                         || (k !in keys && rows[k].status == Pending && rows[k].block <= t)))
  }

  lemma SweptRowsHold(world: World, s: Sys, t: nat, leftovers: seq<Key>)
    requires Good(world) && ValidScales(world.chain) && Sweepable(world, s, t, leftovers)
    ensures SweptRows(s.db.transfers, SweptSys(world, s, t, leftovers).db.transfers,
                      (SliceGood(world, s.db.cursor, t); KeysOf(Slice(world.canon, s.db.cursor, t))), t)
  {
    SliceGood(world, s.db.cursor, t);
    var slice := Slice(world.canon, s.db.cursor, t);
    JoinedRows(world.chain, Begin(s.db), All, slice);
    SettledFacts(SweepJoin(world, s.db, s.db.cursor, t), leftovers, KeysOf(slice));
    SweptRowsFrom(s.db.transfers, SweepJoin(world, s.db, s.db.cursor, t).db.transfers,
                  SweptSys(world, s, t, leftovers).db.transfers, KeysOf(slice), leftovers, t);
  }

  lemma SweptRowsFrom(rows: map<Key, Row>, mid: map<Key, Row>, rows': map<Key, Row>, keys: set<Key>,
                      leftovers: seq<Key>, t: nat)
    requires RowsAdvance(rows, mid, keys) && Leftovers(mid, t, leftovers)
    requires rows'.Keys == mid.Keys
    requires forall k :: k in mid ==>
               rows'[k] == if k in leftovers then mid[k].(status := if k in keys then Ignored else Orphaned) else mid[k]
    ensures SweptRows(rows, rows', keys, t)
  {
    forall k | k in mid
      ensures k in rows || k in keys
      ensures mid[k].status == Pending ==> k in rows && rows[k] == mid[k]
    {
    }
  }

  lemma SweptWatchOk(world: World, s: Sys, t: nat, leftovers: seq<Key>, id: Id)
    requires Good(world) && ValidScales(world.chain) && s.db.cursor <= t && id in s.db.watches
    requires UniqueActive(s.db.watches) && WatchOk(s, id) && RowsOk(world, s.db, s.db.cursor)
    requires !SweepJoin(world, s.db, s.db.cursor, t).failed
    ensures id in SweptSys(world, s, t, leftovers).db.watches
    ensures WatchOk(SweptSys(world, s, t, leftovers), id)
  {
    SweptWatch(world, s, t, leftovers, id);
    SettlingMoves(world, s, t, leftovers, id);
    SliceGood(world, s.db.cursor, t);
    JoinedBounded(world.chain, Begin(s.db), All, Slice(world.canon, s.db.cursor, t), id);
    var w := s.db.watches[id];
    if w.status == Active {
      TalliedThreshold(Tally(w.confirmed, false), w.threshold,
                       Amounts(world.chain, TermsOf(w), Slice(world.canon, s.db.cursor, t)));
    }
  }

  lemma SweptAged(world: World, s: Sys, t: nat, leftovers: seq<Key>)
    requires Good(world) && ValidScales(world.chain) && s.db.cursor <= t && s.db.events.Keys == s.db.watches.Keys
    ensures Aged(s.db.watches, SweptSys(world, s, t, leftovers).db.watches)
    ensures SweptSys(world, s, t, leftovers).db.events.Keys == SweptSys(world, s, t, leftovers).db.watches.Keys
  {
    SliceGood(world, s.db.cursor, t);
    var slice := Slice(world.canon, s.db.cursor, t);
    var mid := SweepJoin(world, s.db, s.db.cursor, t);
    JoinedAged(world.chain, Begin(s.db), All, slice);
    SettledFacts(mid, leftovers, KeysOf(slice));
    JoinedEvents(world.chain, Begin(s.db), All, slice);
    SettledEvents(mid, leftovers, KeysOf(slice));
    AgedTransitive(s.db.watches, mid.db.watches, SweptSys(world, s, t, leftovers).db.watches);
  }

  lemma SweptShape(world: World, s: Sys, t: nat, leftovers: seq<Key>)
    requires Good(world) && ValidScales(world.chain) && s.db.cursor <= t
    requires Shape(s) && RowsOk(world, s.db, s.db.cursor) && !SweepJoin(world, s.db, s.db.cursor, t).failed
    ensures Shape(SweptSys(world, s, t, leftovers))
  {
    var s' := SweptSys(world, s, t, leftovers);
    SweptAged(world, s, t, leftovers);
    AgedUnique(s.db.watches, s'.db.watches);
    AgedSerials(s.db.watches, s'.db.watches);
    forall id | id in s'.db.watches
      ensures WatchOk(s', id)
    {
      SweptWatchOk(world, s, t, leftovers, id);
    }
  }

  lemma AgedSerials(before: map<Id, Watch>, after: map<Id, Watch>)
    requires Aged(before, after) && SerialOrder(before)
    ensures SerialOrder(after)
  {
    forall a, b | IsActive(after, a) && b in after && a != b && SameTarget(after[a], after[b])
      ensures after[b].serial < after[a].serial
    {
      assert TermsOf(after[a]) == TermsOf(before[a]) && TermsOf(after[b]) == TermsOf(before[b]);
      assert SameTarget(before[a], before[b]);
    }
  }

  /** An open tally is below the threshold, a stopped one at or above it. */
  lemma {:induction false} TalliedThreshold(t: Tally, threshold: nat, amounts: seq<nat>)
    requires t.done <==> t.amount >= threshold
    ensures Tallied(t, threshold, amounts).done <==> Tallied(t, threshold, amounts).amount >= threshold
  {
    if amounts != [] {
      TalliedThreshold(t, threshold, amounts[..|amounts| - 1]);
    }
  }

  lemma {:induction false} JoinedBounded(chain: ChainSpec, tx: Tx, scope: Scope, logs: seq<Log>, id: Id)
    requires ValidScales(chain) && Ordered(logs) && id in tx.db.watches && tx.db.watches[id].confirmed < UINT256
    ensures id in JoinedAll(chain, tx, scope, logs).db.watches
    ensures JoinedAll(chain, tx, scope, logs).db.watches[id].confirmed < UINT256
  {
    if logs != [] {
      JoinedBounded(chain, tx, scope, logs[..|logs| - 1], id);
      var mid := JoinedAll(chain, tx, scope, logs[..|logs| - 1]);
      var p := JoinedCases(chain, mid, scope, logs[|logs| - 1]);
    }
  }

  lemma {:induction false} JoinedEvents(chain: ChainSpec, tx: Tx, scope: Scope, logs: seq<Log>)
    requires ValidScales(chain) && Ordered(logs) && tx.db.events.Keys == tx.db.watches.Keys
    ensures JoinedAll(chain, tx, scope, logs).db.events.Keys == JoinedAll(chain, tx, scope, logs).db.watches.Keys
  {
    if logs != [] {
      JoinedEvents(chain, tx, scope, logs[..|logs| - 1]);
      var p := JoinedCases(chain, JoinedAll(chain, tx, scope, logs[..|logs| - 1]), scope, logs[|logs| - 1]);
    }
  }

  lemma {:induction false} SettledEvents(tx: Tx, keys: seq<Key>, canonical: set<Key>)
    requires tx.db.events.Keys == tx.db.watches.Keys
    ensures SettledAll(tx, keys, canonical).db.events.Keys == SettledAll(tx, keys, canonical).db.watches.Keys
  {
    if keys != [] {
      SettledEvents(tx, keys[..|keys| - 1], canonical);
    }
  }

  lemma SweptRowsOk(world: World, s: Sys, t: nat, leftovers: seq<Key>)
    requires Good(world) && ValidScales(world.chain) && Sweepable(world, s, t, leftovers)
    ensures RowsOk(world, SweptSys(world, s, t, leftovers).db, t)
  {
    SliceGood(world, s.db.cursor, t);
    var slice := Slice(world.canon, s.db.cursor, t);
    var mid := SweepJoin(world, s.db, s.db.cursor, t);
    forall i | 0 <= i < |slice|
      ensures slice[i] in world.canon && slice[i].block.value <= t
    {
      SliceAt(world, s.db.cursor, t, i);
    }
    RowsOkJoined(world, Begin(s.db), All, slice, t);
    SettledFacts(mid, leftovers, KeysOf(slice));
    var db' := SweptSys(world, s, t, leftovers).db;
    forall k | k in db'.transfers
      ensures RowOk(world, db', k) && (db'.transfers[k].status != Pending ==> db'.transfers[k].block <= t)
    {
      assert RowOk(world, mid.db, k);
    }
  }

  lemma SweptAccounted(world: World, s: Sys, t: nat, leftovers: seq<Key>, id: Id)
    requires Good(world) && ValidScales(world.chain) && Sweepable(world, s, t, leftovers) && id in s.db.watches
    ensures id in SweptSys(world, s, t, leftovers).db.watches
    ensures Accounted(world, SweptSys(world, s, t, leftovers), id)
  {
    SweptWatch(world, s, t, leftovers, id);
    assert WatchOk(s, id) && Accounted(world, s, id);
    var s' := SweptSys(world, s, t, leftovers);
    CourseGrows(world, s, s', id);
    AccountedGrows(s.db.watches[id], s'.db.watches[id], Course(world, s, id),
                   Paid(world, TermsOf(s.db.watches[id]), s.db.cursor, t));
  }

  lemma PaidConcat(world: World, terms: Terms, a: nat, b: nat, c: nat)
    requires Good(world) && ValidScales(world.chain) && a <= b <= c
    ensures Paid(world, terms, a, c) == Paid(world, terms, a, b) + Paid(world, terms, b, c)
  {
    SliceConcat(world, a, b, c);
    AmountsConcat(world.chain, terms, Slice(world.canon, a, b), Slice(world.canon, b, c));
  }

  /** When the cursor moves on, every course is continued by what the blocks passed pay. */
  lemma CourseGrows(world: World, s: Sys, s': Sys, id: Id)
    requires Good(world) && ValidScales(world.chain) && id in s.db.watches && id in s'.db.watches && WatchOk(s, id)
    requires s.db.cursor <= s'.db.cursor && s'.late == s.late && s'.filled == s.filled
    requires TermsOf(s'.db.watches[id]) == TermsOf(s.db.watches[id])
    ensures Course(world, s', id)
         == Course(world, s, id) + Paid(world, TermsOf(s.db.watches[id]), s.db.cursor, s'.db.cursor)
  {
    var terms := TermsOf(s.db.watches[id]);
    var c, t := s.db.cursor, s'.db.cursor;
    if id !in s.late {
      SliceExtends(world.canon, c, t);
      AmountsConcat(world.chain, terms, UpTo(world.canon, c), Slice(world.canon, c, t));
    } else if id !in s.filled {
      PaidConcat(world, terms, s.late[id], c, t);
    } else {
      PaidConcat(world, terms, s.filled[id].at, c, t);
    }
  }

  lemma SliceConcat(world: World, a: nat, b: nat, c: nat)
    requires Good(world) && a <= b <= c
    ensures Slice(world.canon, a, c) == Slice(world.canon, a, b) + Slice(world.canon, b, c)
  {
    HeightMonotone(world.canon, a, b);
    HeightMonotone(world.canon, b, c);
  }

  lemma ResolvedStays(rows: map<Key, Row>, rows': map<Key, Row>, keys: set<Key>, t: nat, k: Key)
    requires SweptRows(rows, rows', keys, t)
    ensures Resolved(rows, k) ==> Resolved(rows', k)
  {
  }

  lemma SweptResolves(world: World, s: Sys, t: nat, leftovers: seq<Key>, id: Id, j: nat)
    requires Good(world) && ValidScales(world.chain) && s.db.cursor <= t && id in s.db.watches
    requires UniqueActive(s.db.watches) && !SweepJoin(world, s.db, s.db.cursor, t).failed
    requires IsActive(SweepJoin(world, s.db, s.db.cursor, t).db.watches, id)
    requires j < |Slice(world.canon, s.db.cursor, t)|
    requires Pay(world.chain, TermsOf(s.db.watches[id]), Slice(world.canon, s.db.cursor, t)[j]) > 0
    ensures var log := Slice(world.canon, s.db.cursor, t)[j];
            log.Complete() && Resolved(SweptSys(world, s, t, leftovers).db.transfers, log.Key())
  {
    SliceGood(world, s.db.cursor, t);
    var slice := Slice(world.canon, s.db.cursor, t);
    JoinedCovers(world.chain, Begin(s.db), All, slice, id, j);
    SettledFacts(SweepJoin(world, s.db, s.db.cursor, t), leftovers, KeysOf(slice));
  }

  lemma SweptKeepsResolved(world: World, s: Sys, t: nat, leftovers: seq<Key>, k: Key)
    requires Good(world) && ValidScales(world.chain) && Sweepable(world, s, t, leftovers) && Resolved(s.db.transfers, k)
    ensures Resolved(SweptSys(world, s, t, leftovers).db.transfers, k)
  {
    SliceGood(world, s.db.cursor, t);
    SweptRowsHold(world, s, t, leftovers);
    ResolvedStays(s.db.transfers, SweptSys(world, s, t, leftovers).db.transfers,
                  KeysOf(Slice(world.canon, s.db.cursor, t)), t, k);
  }

  lemma SweptDue(world: World, s: Sys, t: nat, leftovers: seq<Key>, id: Id, i: nat)
    requires Good(world) && ValidScales(world.chain) && Sweepable(world, s, t, leftovers) && id in s.db.watches
    requires id in SweptSys(world, s, t, leftovers).db.watches && i < Height(world.canon, t)
    requires SweptSys(world, s, t, leftovers).db.watches[id].status == Active
    requires Due(world, SweptSys(world, s, t, leftovers).db.watches[id], i)
    ensures Resolved(SweptSys(world, s, t, leftovers).db.transfers, world.canon[i].Key())
  {
    assert WatchOk(s, id);
    SweptWatch(world, s, t, leftovers, id);
    SameDue(world, s.db.watches[id], SweptSys(world, s, t, leftovers).db.watches[id], i);
    if i < Height(world.canon, s.db.cursor) {
      assert Covered(world, s, id);
      SweptKeepsResolved(world, s, t, leftovers, world.canon[i].Key());
    } else {
      SweptDueNew(world, s, t, leftovers, id, i);
    }
  }

  lemma SameDue(world: World, w: Watch, w': Watch, i: nat)
    requires Good(world) && ValidScales(world.chain) && i < |world.canon|
    requires TermsOf(w') == TermsOf(w) && w'.backfillTo == w.backfillTo
    ensures Due(world, w', i) == Due(world, w, i)
  {
  }

  lemma SweptDueNew(world: World, s: Sys, t: nat, leftovers: seq<Key>, id: Id, i: nat)
    requires Good(world) && ValidScales(world.chain) && s.db.cursor <= t && id in s.db.watches
    requires UniqueActive(s.db.watches) && !SweepJoin(world, s.db, s.db.cursor, t).failed
    requires IsActive(SweepJoin(world, s.db, s.db.cursor, t).db.watches, id)
    requires Height(world.canon, s.db.cursor) <= i < Height(world.canon, t) && Due(world, s.db.watches[id], i)
    ensures Resolved(SweptSys(world, s, t, leftovers).db.transfers, world.canon[i].Key())
  {
    HeightMonotone(world.canon, s.db.cursor, t);
    assert Slice(world.canon, s.db.cursor, t)[i - Height(world.canon, s.db.cursor)] == world.canon[i];
    SweptResolves(world, s, t, leftovers, id, i - Height(world.canon, s.db.cursor));
  }

  lemma SweptCovered(world: World, s: Sys, t: nat, leftovers: seq<Key>, id: Id)
    requires Good(world) && ValidScales(world.chain) && Sweepable(world, s, t, leftovers) && id in s.db.watches
    requires id in SweptSys(world, s, t, leftovers).db.watches
    ensures Covered(world, SweptSys(world, s, t, leftovers), id)
  {
    var s' := SweptSys(world, s, t, leftovers);
    forall i | s'.db.watches[id].status == Active && 0 <= i < Height(world.canon, t) && Due(world, s'.db.watches[id], i)
      ensures Resolved(s'.db.transfers, world.canon[i].Key())
    {
      SweptDue(world, s, t, leftovers, id, i);
    }
  }

  /** A canonical log outside the swept blocks but at or below `t` is at or below the cursor. */
  lemma OutsideSlice(world: World, c: nat, t: nat, k: Key)
    requires Good(world) && c <= t && Canonical(world, k)
    requires Ordered(Slice(world.canon, c, t)) && k !in KeysOf(Slice(world.canon, c, t))
    requires k in world.universe && world.universe[k].block.value <= t
    ensures world.universe[k].block.value <= c
  {
    var i := CanonicalAt(world, k);
    HeightMonotone(world.canon, c, t);
  }

  lemma InsideSlice(world: World, c: nat, t: nat, k: Key)
    requires Good(world) && c <= t
    requires Ordered(Slice(world.canon, c, t)) && k in KeysOf(Slice(world.canon, c, t))
    ensures Canonical(world, k)
  {
    var j :| 0 <= j < |Slice(world.canon, c, t)| && Slice(world.canon, c, t)[j].Key() == k;
    SliceAt(world, c, t, j);
    CanonKey(world, Height(world.canon, c) + j);
  }

  lemma SweptOrphans(world: World, s: Sys, t: nat, leftovers: seq<Key>, k: Key)
    requires Good(world) && ValidScales(world.chain) && s.db.cursor <= t
    requires Ordered(Slice(world.canon, s.db.cursor, t))
    requires SweptRows(s.db.transfers, SweptSys(world, s, t, leftovers).db.transfers,
                       KeysOf(Slice(world.canon, s.db.cursor, t)), t)
    requires k in SweptSys(world, s, t, leftovers).db.transfers
    requires k in s.db.transfers ==> OrphanOk(world, s, k) && RowOk(world, s.db, k)
    ensures OrphanOk(world, SweptSys(world, s, t, leftovers), k)
  {
    var row' := SweptSys(world, s, t, leftovers).db.transfers[k];
    if k in KeysOf(Slice(world.canon, s.db.cursor, t)) {
      InsideSlice(world, s.db.cursor, t, k);
    } else if k in s.db.transfers && Canonical(world, k) && row'.status == Orphaned
        && s.db.transfers[k].status == Pending {
      OutsideSlice(world, s.db.cursor, t, k);
    }
  }

  lemma SweptInv(world: World, s: Sys, t: nat, leftovers: seq<Key>)
    requires Good(world) && ValidScales(world.chain) && Sweepable(world, s, t, leftovers)
    ensures Inv(world, SweptSys(world, s, t, leftovers))
  {
    var s' := SweptSys(world, s, t, leftovers);
    SweptShape(world, s, t, leftovers);
    SweptAged(world, s, t, leftovers);
    SweptRowsOk(world, s, t, leftovers);
    forall id | id in s'.db.watches
      ensures Accounted(world, s', id) && Covered(world, s', id)
    {
      SweptAccounted(world, s, t, leftovers, id);
      SweptCovered(world, s, t, leftovers, id);
    }
    SweptOrphansAll(world, s, t, leftovers);
  }

  lemma SweptOrphansAll(world: World, s: Sys, t: nat, leftovers: seq<Key>)
    requires Good(world) && ValidScales(world.chain) && Sweepable(world, s, t, leftovers)
    ensures forall k :: k in SweptSys(world, s, t, leftovers).db.transfers ==>
              OrphanOk(world, SweptSys(world, s, t, leftovers), k)
  {
    SliceGood(world, s.db.cursor, t);
    SweptRowsHold(world, s, t, leftovers);
    forall k | k in SweptSys(world, s, t, leftovers).db.transfers
      ensures OrphanOk(world, SweptSys(world, s, t, leftovers), k)
    {
      SweptOrphans(world, s, t, leftovers, k);
    }
  }

  lemma SweepKeepsInv(world: World, s: Sys, step: Step)
    requires Good(world) && ValidScales(world.chain) && Inv(world, s) && step.Sweep? && Enabled(world, s, step)
    ensures Inv(world, Do(world, s, step))
  {
    SweepCases(world, s, step);
    if Do(world, s, step) != s {
      SweptInv(world, s, step.to, step.leftovers);
    }
  }
}
