/** What joining a run of canonical logs with the watch table does to one watch and to the rows. */
module Accounts {
  import opened Base
  import opened Registry
  import opened Matcher
  import opened Ledger
  import opened Chain
  import opened Join
  import opened AnswerOrder

  ghost predicate Distinct(logs: seq<Log>)
    requires forall i :: 0 <= i < |logs| ==> logs[i].Complete()
  {
    forall i, j :: 0 <= i < j < |logs| ==> logs[i].Key() != logs[j].Key()
  }

  /** What `log` adds to watch `id` when the rows are `rows`: nothing if it is already resolved. */
  function Effect(chain: ChainSpec, rows: map<Key, Row>, scope: Scope, id: Id, terms: Terms, log: Log): nat
    requires ValidScales(chain) && log.Complete()
  {
    if Eligible(scope, id, log.block.value) && !Resolved(rows, log.Key()) then Pay(chain, terms, log) else 0
  }

  ghost function Effects(chain: ChainSpec, rows: map<Key, Row>, scope: Scope, id: Id, terms: Terms,
                         logs: seq<Log>): (r: seq<nat>)
    requires ValidScales(chain) && Ordered(logs)
    ensures |r| == |logs|
  {
    seq(|logs|, i requires 0 <= i < |logs| => Effect(chain, rows, scope, id, terms, logs[i]))
  }

  // ------------------------------------------------------------------ one transfer

  /** The rows after counting one transfer: at most its own row changed, to confirmed. */
  lemma CountedRows(tx: Tx, m: MatchedTransfer)
    ensures var rows := tx.db.transfers; var rows' := Counted(tx, m).db.transfers;
            rows' == rows || (!Resolved(rows, m.key) && rows' == rows[m.key := ConfirmedRow(rows, m)])
    ensures !Counted(tx, m).failed && IsActive(tx.db.watches, m.watch.id) ==>
              Resolved(Counted(tx, m).db.transfers, m.key)
  {
  }

  /** The watches after counting one transfer: at most the payee changed. */
  lemma CountedWatch(tx: Tx, m: MatchedTransfer, id: Id)
    requires id in tx.db.watches && !Counted(tx, m).failed
    ensures id in Counted(tx, m).db.watches
    ensures var w := tx.db.watches[id]; var w' := Counted(tx, m).db.watches[id];
            && w' == w.(confirmed := w'.confirmed, status := w'.status, nextEventSeq := w'.nextEventSeq)
            && if id == m.watch.id && Countable(tx.db, m)
               then && w'.confirmed == w.confirmed + m.amount < UINT256
                    && w'.status == if w'.confirmed >= w.threshold then Completed else Active
               else w' == w
  {
  }

  lemma JoinedCases(chain: ChainSpec, tx: Tx, scope: Scope, log: Log) returns (p: Option<Id>)
    requires ValidScales(chain) && log.Complete()
    ensures p.Some? ==> Payable(chain, tx.db.watches, scope, p.value, log)
    ensures p.Some? ==>
              Joined(chain, tx, scope, log) == Counted(tx, Genuine(chain, p.value, tx.db.watches[p.value], log))
    ensures p.None? ==> Joined(chain, tx, scope, log) == tx
    ensures p.None? ==> forall id :: !Payable(chain, tx.db.watches, scope, id, log)
  {
    if exists id :: Payable(chain, tx.db.watches, scope, id, log) {
      var id :| Payable(chain, tx.db.watches, scope, id, log)
             && Joined(chain, tx, scope, log) == Counted(tx, Genuine(chain, id, tx.db.watches[id], log));
      p := Some(id);
    } else {
      p := None;
    }
  }

  /** A log pays at most one active watch. */
  lemma OnePayee(chain: ChainSpec, watches: map<Id, Watch>, scope: Scope, a: Id, b: Id, log: Log)
    requires ValidScales(chain) && log.Complete() && UniqueActive(watches)
    requires Payable(chain, watches, scope, a, log) && Payable(chain, watches, scope, b, log)
    ensures a == b
  {
    assert SameTarget(watches[a], watches[b]);
  }

  // ------------------------------------------------------------------ a run of logs

  lemma CountedAgedOne(tx: Tx, m: MatchedTransfer)
    ensures Aged(tx.db.watches, Counted(tx, m).db.watches)
    ensures tx.failed ==> Counted(tx, m).failed
  {
  }

  lemma AgedTransitive(a: map<Id, Watch>, b: map<Id, Watch>, c: map<Id, Watch>)
    requires Aged(a, b) && Aged(b, c)
    ensures Aged(a, c)
  {
  }

  lemma JoinedAgedOne(chain: ChainSpec, tx: Tx, scope: Scope, log: Log)
    requires ValidScales(chain) && log.Complete()
    ensures Aged(tx.db.watches, Joined(chain, tx, scope, log).db.watches)
    ensures tx.failed ==> Joined(chain, tx, scope, log).failed
  {
    var p := JoinedCases(chain, tx, scope, log);
    if p.Some? {
      CountedAgedOne(tx, Genuine(chain, p.value, tx.db.watches[p.value], log));
    }
  }

  lemma {:induction false} JoinedAged(chain: ChainSpec, tx: Tx, scope: Scope, logs: seq<Log>)
    requires ValidScales(chain) && Ordered(logs)
    ensures Aged(tx.db.watches, JoinedAll(chain, tx, scope, logs).db.watches)
    ensures UniqueActive(tx.db.watches) ==> UniqueActive(JoinedAll(chain, tx, scope, logs).db.watches)
    ensures tx.failed ==> JoinedAll(chain, tx, scope, logs).failed
  {
    if logs != [] {
      var front := logs[..|logs| - 1];
      JoinedAged(chain, tx, scope, front);
      var mid := JoinedAll(chain, tx, scope, front);
      JoinedAgedOne(chain, mid, scope, logs[|logs| - 1]);
      AgedTransitive(tx.db.watches, mid.db.watches, JoinedAll(chain, tx, scope, logs).db.watches);
    }
    AgedUnique(tx.db.watches, JoinedAll(chain, tx, scope, logs).db.watches);
  }

  lemma AgedUnique(before: map<Id, Watch>, after: map<Id, Watch>)
    requires Aged(before, after)
    ensures UniqueActive(before) ==> UniqueActive(after)
  {
    if UniqueActive(before) {
      forall a, b | IsActive(after, a) && IsActive(after, b) && SameTarget(after[a], after[b])
        ensures a == b
      {
        assert TermsOf(after[a]) == TermsOf(before[a]) && TermsOf(after[b]) == TermsOf(before[b]);
        assert SameTarget(before[a], before[b]);
      }
    }
  }

  /** Rows only change at keys of the logs, only if unresolved, and only to confirmed. */
  ghost predicate RowsAdvance(rows: map<Key, Row>, rows': map<Key, Row>, keys: set<Key>) {
    forall k ::
      && (Resolved(rows, k) || k !in keys ==> (k in rows' <==> k in rows) && (k in rows ==> rows'[k] == rows[k]))
      && (k in rows ==> k in rows' && rows'[k] == rows[k].(status := rows'[k].status))
      && (k in rows' && (k !in rows || rows'[k] != rows[k]) ==> rows'[k].status == Confirmed)
  }

  lemma {:induction false} JoinedRows(chain: ChainSpec, tx: Tx, scope: Scope, logs: seq<Log>)
    requires ValidScales(chain) && Ordered(logs)
    ensures RowsAdvance(tx.db.transfers, JoinedAll(chain, tx, scope, logs).db.transfers, KeysOf(logs))
  {
    if logs != [] {
      var n := |logs| - 1;
      var front := logs[..n];
      JoinedRows(chain, tx, scope, front);
      var mid := JoinedAll(chain, tx, scope, front);
      KeysOfSnoc(logs);
      var p := JoinedCases(chain, mid, scope, logs[n]);
      if p.Some? {
        var m := Genuine(chain, p.value, mid.db.watches[p.value], logs[n]);
        CountedRows(mid, m);
        RowsStep(tx.db.transfers, mid.db.transfers, Counted(mid, m).db.transfers, KeysOf(front), m);
      }
    }
  }

  lemma RowsStep(rows: map<Key, Row>, mid: map<Key, Row>, rows': map<Key, Row>, keys: set<Key>, m: MatchedTransfer)
    requires RowsAdvance(rows, mid, keys)
    requires rows' == mid || (!Resolved(mid, m.key) && rows' == mid[m.key := ConfirmedRow(mid, m)])
    ensures RowsAdvance(rows, rows', keys + {m.key})
  {
    assert Resolved(rows, m.key) ==> Resolved(mid, m.key);
  }

  lemma KeysOfSnoc(logs: seq<Log>)
    requires logs != [] && forall i :: 0 <= i < |logs| ==> logs[i].Complete()
    ensures KeysOf(logs) == KeysOf(logs[..|logs| - 1]) + {logs[|logs| - 1].Key()}
    ensures Distinct(logs) ==> logs[|logs| - 1].Key() !in KeysOf(logs[..|logs| - 1])
  {
    var front := logs[..|logs| - 1];
    forall k
      ensures k in KeysOf(logs) <==> k in KeysOf(front) + {logs[|logs| - 1].Key()}
    {
      if k in KeysOf(front) {
        var i :| 0 <= i < |front| && front[i].Key() == k;
        assert logs[i].Key() == k;
      }
      if k in KeysOf(logs) {
        var i :| 0 <= i < |logs| && logs[i].Key() == k;
        assert i < |front| ==> front[i].Key() == k;
      }
    }
  }

  /** The effect of the last log does not depend on the logs before it. */
  lemma EffectStable(chain: ChainSpec, tx: Tx, scope: Scope, logs: seq<Log>, id: Id, terms: Terms)
    requires ValidScales(chain) && Ordered(logs) && Distinct(logs) && logs != []
    ensures var mid := JoinedAll(chain, tx, scope, logs[..|logs| - 1]);
            && Resolved(mid.db.transfers, logs[|logs| - 1].Key()) == Resolved(tx.db.transfers, logs[|logs| - 1].Key())
            && Effect(chain, mid.db.transfers, scope, id, terms, logs[|logs| - 1])
               == Effect(chain, tx.db.transfers, scope, id, terms, logs[|logs| - 1])
  {
    KeysOfSnoc(logs);
    JoinedRows(chain, tx, scope, logs[..|logs| - 1]);
  }

  /** From `w` to `w'` by tallying `amounts`: nothing moves unless the watch is active, and then it moves as the
      reference does. */
  ghost predicate TalliedWatch(w: Watch, w': Watch, amounts: seq<nat>) {
    && w' == w.(confirmed := w'.confirmed, status := w'.status, nextEventSeq := w'.nextEventSeq)
    && (w.status != Active ==> w' == w)
    && (w.status == Active ==>
          && (w'.status == Active || w'.status == Completed)
          && (w'.status == Active ==> w'.confirmed < w.threshold)
          && Tally(w'.confirmed, w'.status == Completed) == Tallied(Tally(w.confirmed, false), w.threshold, amounts))
  }

  lemma TalliedWatchSnoc(w: Watch, mid: Watch, w': Watch, amounts: seq<nat>, a: nat)
    requires TalliedWatch(w, mid, amounts) && TalliedWatch(mid, w', [a])
    ensures TalliedWatch(w, w', amounts + [a])
  {
    TalliedConcat(Tally(w.confirmed, false), w.threshold, amounts, [a]);
    TalliedOpen(Tally(mid.confirmed, true), w.threshold, [a]);
  }

  /** One log moves every watch by its effect. */
  lemma JoinedMoves(chain: ChainSpec, tx: Tx, scope: Scope, log: Log, id: Id)
    requires ValidScales(chain) && log.Complete() && UniqueActive(tx.db.watches) && id in tx.db.watches
    requires !Joined(chain, tx, scope, log).failed
    requires IsActive(tx.db.watches, id) ==> tx.db.watches[id].confirmed < tx.db.watches[id].threshold
    ensures id in Joined(chain, tx, scope, log).db.watches
    ensures TalliedWatch(tx.db.watches[id], Joined(chain, tx, scope, log).db.watches[id],
                         [Effect(chain, tx.db.transfers, scope, id, TermsOf(tx.db.watches[id]), log)])
  {
    var a := Effect(chain, tx.db.transfers, scope, id, TermsOf(tx.db.watches[id]), log);
    assert [a][..0] == [];
    var p := JoinedCases(chain, tx, scope, log);
    if p.Some? {
      CountedWatch(tx, Genuine(chain, p.value, tx.db.watches[p.value], log), id);
    }
    if IsActive(tx.db.watches, id) && a > 0 {
      assert Payable(chain, tx.db.watches, scope, id, log);
      OnePayee(chain, tx.db.watches, scope, id, p.value, log);
    }
  }

  /** The heart of the accounting: over a run of canonical logs each active watch is tallied exactly as
      the reference scan tallies the effective amounts, and no other watch moves. */
  lemma {:induction false} JoinedTally(chain: ChainSpec, tx: Tx, scope: Scope, logs: seq<Log>, id: Id)
    requires ValidScales(chain) && Ordered(logs) && Distinct(logs) && UniqueActive(tx.db.watches)
    requires id in tx.db.watches && !JoinedAll(chain, tx, scope, logs).failed
    requires IsActive(tx.db.watches, id) ==> tx.db.watches[id].confirmed < tx.db.watches[id].threshold
    ensures id in JoinedAll(chain, tx, scope, logs).db.watches
    ensures TalliedWatch(tx.db.watches[id], JoinedAll(chain, tx, scope, logs).db.watches[id],
                         Effects(chain, tx.db.transfers, scope, id, TermsOf(tx.db.watches[id]), logs))
  {
    if logs != [] {
      var n := |logs| - 1;
      var front := logs[..n];
      var mid := JoinedAll(chain, tx, scope, front);
      JoinedAgedOne(chain, mid, scope, logs[n]);
      JoinedTally(chain, tx, scope, front, id);
      JoinedAged(chain, tx, scope, front);
      JoinedMoves(chain, mid, scope, logs[n], id);
      var terms := TermsOf(tx.db.watches[id]);
      EffectStable(chain, tx, scope, logs, id, terms);
      EffectsSnoc(chain, tx.db.transfers, scope, id, terms, logs);
      TalliedWatchSnoc(tx.db.watches[id], mid.db.watches[id], JoinedAll(chain, tx, scope, logs).db.watches[id],
                       Effects(chain, tx.db.transfers, scope, id, terms, front),
                       Effect(chain, tx.db.transfers, scope, id, terms, logs[n]));
    }
  }

  lemma EffectsSnoc(chain: ChainSpec, rows: map<Key, Row>, scope: Scope, id: Id, terms: Terms, logs: seq<Log>)
    requires ValidScales(chain) && Ordered(logs) && logs != []
    ensures Effects(chain, rows, scope, id, terms, logs)
         == Effects(chain, rows, scope, id, terms, logs[..|logs| - 1])
            + [Effect(chain, rows, scope, id, terms, logs[|logs| - 1])]
  {
  }

  lemma JoinedRowsOne(chain: ChainSpec, tx: Tx, scope: Scope, log: Log, id: Id)
    requires ValidScales(chain) && log.Complete() && UniqueActive(tx.db.watches)
    requires !Joined(chain, tx, scope, log).failed
    ensures forall k :: Resolved(tx.db.transfers, k) ==> Resolved(Joined(chain, tx, scope, log).db.transfers, k)
    ensures Payable(chain, tx.db.watches, scope, id, log) ==>
              Resolved(Joined(chain, tx, scope, log).db.transfers, log.Key())
  {
    var p := JoinedCases(chain, tx, scope, log);
    if p.Some? {
      CountedRows(tx, Genuine(chain, p.value, tx.db.watches[p.value], log));
      if Payable(chain, tx.db.watches, scope, id, log) {
        OnePayee(chain, tx.db.watches, scope, id, p.value, log);
      }
    }
  }

  /** What held at the end held before the last log. */
  lemma FrontFacts(chain: ChainSpec, tx: Tx, scope: Scope, logs: seq<Log>, id: Id)
    requires ValidScales(chain) && Ordered(logs) && UniqueActive(tx.db.watches) && logs != [] && id in tx.db.watches
    requires !JoinedAll(chain, tx, scope, logs).failed && IsActive(JoinedAll(chain, tx, scope, logs).db.watches, id)
    ensures var mid := JoinedAll(chain, tx, scope, logs[..|logs| - 1]);
            && !mid.failed && UniqueActive(mid.db.watches) && IsActive(mid.db.watches, id)
            && TermsOf(mid.db.watches[id]) == TermsOf(tx.db.watches[id])
            && JoinedAll(chain, tx, scope, logs) == Joined(chain, mid, scope, logs[|logs| - 1])
  {
    JoinedAged(chain, tx, scope, logs[..|logs| - 1]);
    JoinedAgedOne(chain, JoinedAll(chain, tx, scope, logs[..|logs| - 1]), scope, logs[|logs| - 1]);
  }

  /** A watch still active at the end has had every log that pays it resolved. */
  lemma {:induction false} JoinedCovers(chain: ChainSpec, tx: Tx, scope: Scope, logs: seq<Log>, id: Id, i: nat)
    requires ValidScales(chain) && Ordered(logs) && UniqueActive(tx.db.watches)
    requires !JoinedAll(chain, tx, scope, logs).failed && IsActive(JoinedAll(chain, tx, scope, logs).db.watches, id)
    requires id in tx.db.watches && i < |logs|
    requires Eligible(scope, id, logs[i].block.value) && Pay(chain, TermsOf(tx.db.watches[id]), logs[i]) > 0
    ensures Resolved(JoinedAll(chain, tx, scope, logs).db.transfers, logs[i].Key())
  {
    var n := |logs| - 1;
    FrontFacts(chain, tx, scope, logs, id);
    var mid := JoinedAll(chain, tx, scope, logs[..n]);
    if i < n {
      assert logs[..n][i] == logs[i];
      JoinedCovers(chain, tx, scope, logs[..n], id, i);
      StaysResolved(chain, mid, scope, logs[n], id, logs[i].Key());
    } else {
      CoversLast(chain, mid, scope, logs[n], id, TermsOf(tx.db.watches[id]));
    }
  }

  lemma StaysResolved(chain: ChainSpec, mid: Tx, scope: Scope, log: Log, id: Id, k: Key)
    requires ValidScales(chain) && log.Complete() && UniqueActive(mid.db.watches)
    requires !Joined(chain, mid, scope, log).failed
    requires Resolved(mid.db.transfers, k)
    ensures Resolved(Joined(chain, mid, scope, log).db.transfers, k)
  {
    JoinedRowsOne(chain, mid, scope, log, id);
  }

  lemma CoversLast(chain: ChainSpec, mid: Tx, scope: Scope, log: Log, id: Id, terms: Terms)
    requires ValidScales(chain) && log.Complete() && UniqueActive(mid.db.watches)
    requires !Joined(chain, mid, scope, log).failed
    requires IsActive(mid.db.watches, id) && TermsOf(mid.db.watches[id]) == terms
    requires Eligible(scope, id, log.block.value) && Pay(chain, terms, log) > 0
    ensures Resolved(Joined(chain, mid, scope, log).db.transfers, log.Key())
  {
    assert Payable(chain, mid.db.watches, scope, id, log);
    JoinedRowsOne(chain, mid, scope, log, id);
  }
}
