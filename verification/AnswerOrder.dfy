/** Sorting the matches of an answer recovers the canonical order, whatever order the provider used. */
module AnswerOrder {
  import opened Base
  import opened Registry
  import opened Cache
  import opened Matcher
  import opened Ledger
  import opened Chain

  predicate Strictly(a: MatchedTransfer, b: MatchedTransfer) {
    a.block < b.block || (a.block == b.block && a.key.index < b.key.index)
  }

  ghost predicate Increasing(ms: seq<MatchedTransfer>) {
    forall i, j :: 0 <= i < j < |ms| ==> Strictly(ms[i], ms[j])
  }

  ghost predicate NonDecreasing(ms: seq<MatchedTransfer>) {
    forall i, j :: 0 <= i < j < |ms| ==> PositionLe(ms[i], ms[j])
  }

  lemma {:induction false} InsertSortedCorrect(s: seq<MatchedTransfer>, m: MatchedTransfer)
    requires NonDecreasing(s)
    ensures NonDecreasing(InsertSorted(s, m))
    ensures multiset(InsertSorted(s, m)) == multiset(s) + multiset{m}
  {
    if s != [] && !PositionLe(s[|s| - 1], m) {
      var front := s[..|s| - 1];
      InsertSortedCorrect(front, m);
      assert s == front + [s[|s| - 1]];
      var r := InsertSorted(front, m);
      forall i | 0 <= i < |r|
        ensures PositionLe(r[i], s[|s| - 1])
      {
        assert r[i] in multiset(r);
        if r[i] != m {
          assert r[i] in front;
        }
      }
    }
  }

  lemma {:induction false} SortedCorrect(ms: seq<MatchedTransfer>)
    ensures NonDecreasing(Sorted(ms))
    ensures multiset(Sorted(ms)) == multiset(ms)
  {
    if ms != [] {
      SortedCorrect(ms[..|ms| - 1]);
      InsertSortedCorrect(Sorted(ms[..|ms| - 1]), ms[|ms| - 1]);
      assert ms == ms[..|ms| - 1] + [ms[|ms| - 1]];
    }
  }

  lemma SplitAt<T>(s: seq<T>, i: nat)
    requires i < |s|
    ensures multiset(s[..i] + s[i + 1..]) == multiset(s) - multiset{s[i]}
  {
    assert s == s[..i] + [s[i]] + s[i + 1..];
  }

  lemma LastAgrees(s: seq<MatchedTransfer>, t: seq<MatchedTransfer>)
    requires NonDecreasing(s) && Increasing(t) && multiset(s) == multiset(t) && |s| == |t| > 0
    ensures s[|s| - 1] == t[|t| - 1]
  {
    var n := |s| - 1;
    assert s[n] in multiset(t) && t[n] in multiset(s);
    var i :| 0 <= i < |t| && t[i] == s[n];
    var j :| 0 <= j < |s| && s[j] == t[n];
    assert j < n ==> PositionLe(s[j], s[n]);
    assert i < n ==> Strictly(t[i], t[n]);
  }

  lemma FrontsAgree<T>(s: seq<T>, t: seq<T>)
    requires multiset(s) == multiset(t) && |s| == |t| > 0 && s[|s| - 1] == t[|t| - 1]
    ensures multiset(s[..|s| - 1]) == multiset(t[..|t| - 1])
  {
    var n := |s| - 1;
    SplitAt(s, n);
    SplitAt(t, n);
    assert s[..n] + s[n + 1..] == s[..n] && t[..n] + t[n + 1..] == t[..n];
  }

  lemma SameLength<T>(s: seq<T>, t: seq<T>)
    requires multiset(s) == multiset(t)
    ensures |s| == |t|
  {
    assert |s| == |multiset(s)|;
  }

  /** Only one arrangement of distinct positions is in order. */
  lemma {:induction false} OrderUnique(s: seq<MatchedTransfer>, t: seq<MatchedTransfer>)
    requires NonDecreasing(s) && Increasing(t) && multiset(s) == multiset(t)
    ensures s == t
  {
    SameLength(s, t);
    if s != [] {
      var s', t' := s[..|s| - 1], t[..|t| - 1];
      assert multiset(s') == multiset(t') by {
        LastAgrees(s, t);
        FrontsAgree(s, t);
      }
      OrderUnique(s', t');
      LastAgrees(s, t);
      assert s == s' + [s[|s| - 1]] && t == t' + [t[|t| - 1]];
    }
  }

  // ------------------------------------------------------------------ matching and multisets

  lemma {:induction false} HitsConcat(chain: ChainSpec, entries: map<WatchKey, WatchRef>, a: seq<Log>, b: seq<Log>)
    requires ValidScales(chain)
    ensures Hits(chain, entries, a + b) == Hits(chain, entries, a) + Hits(chain, entries, b)
  {
    if b == [] {
      assert a + b == a;
    } else {
      HitsConcat(chain, entries, a, b[..|b| - 1]);
      assert (a + b)[..|a + b| - 1] == a + b[..|b| - 1];
    }
  }

  lemma {:induction false} HitsOfKept(chain: ChainSpec, entries: map<WatchKey, WatchRef>, logs: seq<Log>)
    requires ValidScales(chain)
    ensures Hits(chain, entries, Kept(logs)) == Hits(chain, entries, logs)
  {
    if logs != [] {
      var front := logs[..|logs| - 1];
      HitsOfKept(chain, entries, front);
      if !logs[|logs| - 1].removed {
        assert (Kept(front) + [logs[|logs| - 1]])[..|Kept(front)|] == Kept(front);
      }
    }
  }

  lemma HitsWithout(chain: ChainSpec, entries: map<WatchKey, WatchRef>, logs: seq<Log>, i: nat)
    requires ValidScales(chain) && i < |logs|
    ensures multiset(Hits(chain, entries, logs))
         == multiset(Hits(chain, entries, logs[..i] + logs[i + 1..])) + multiset(Hits(chain, entries, [logs[i]]))
  {
    assert logs == logs[..i] + ([logs[i]] + logs[i + 1..]);
    HitsConcat(chain, entries, logs[..i], [logs[i]] + logs[i + 1..]);
    HitsConcat(chain, entries, [logs[i]], logs[i + 1..]);
    HitsConcat(chain, entries, logs[..i], logs[i + 1..]);
  }

  lemma {:induction false} HitsPermute(chain: ChainSpec, entries: map<WatchKey, WatchRef>, a: seq<Log>, b: seq<Log>)
    requires ValidScales(chain) && multiset(a) == multiset(b)
    ensures multiset(Hits(chain, entries, a)) == multiset(Hits(chain, entries, b))
    decreases |a|
  {
    assert |a| == |multiset(a)| == |b|;
    if a != [] {
      var n := |a| - 1;
      assert a[n] in multiset(b);
      var i :| 0 <= i < |b| && b[i] == a[n];
      SplitAt(b, i);
      SplitAt(a, n);
      assert a[..n] + a[n + 1..] == a[..n];
      HitsPermute(chain, entries, a[..n], b[..i] + b[i + 1..]);
      HitsWithout(chain, entries, a, n);
      HitsWithout(chain, entries, b, i);
    }
  }

  /** Every match carries the position of a log it came from. */
  lemma {:induction false} HitsTraceable(chain: ChainSpec, entries: map<WatchKey, WatchRef>, logs: seq<Log>, i: nat)
    returns (j: nat)
    requires ValidScales(chain) && i < |Hits(chain, entries, logs)|
    ensures j < |logs| && !logs[j].removed
    ensures MatchLog(chain, entries, logs[j]) == Hit(Hits(chain, entries, logs)[i])
  {
    var front := logs[..|logs| - 1];
    if i < |Hits(chain, entries, front)| {
      j := HitsTraceable(chain, entries, front, i);
    } else {
      j := |logs| - 1;
    }
  }

  lemma {:induction false} HitsIncreasing(chain: ChainSpec, entries: map<WatchKey, WatchRef>, logs: seq<Log>)
    requires ValidScales(chain) && Ordered(logs)
    ensures Increasing(Hits(chain, entries, logs))
  {
    if logs != [] {
      var front := logs[..|logs| - 1];
      HitsIncreasing(chain, entries, front);
      forall i | 0 <= i < |Hits(chain, entries, front)| && MatchLog(chain, entries, logs[|logs| - 1]).Hit?
        ensures Strictly(Hits(chain, entries, front)[i], MatchLog(chain, entries, logs[|logs| - 1]).transfer)
      {
        var j := HitsTraceable(chain, entries, front, i);
        assert Before(logs[j], logs[|logs| - 1]);
      }
    }
  }

  // ------------------------------------------------------------------ filtering to a batch

  predicate InScope(until: map<Id, nat>, m: MatchedTransfer) {
    m.watch.id in until && m.block <= until[m.watch.id]
  }

  lemma {:induction false} WithinCounts(until: map<Id, nat>, ms: seq<MatchedTransfer>, m: MatchedTransfer)
    ensures multiset(Within(until, ms))[m] == if InScope(until, m) then multiset(ms)[m] else 0
  {
    if ms != [] {
      WithinCounts(until, ms[..|ms| - 1], m);
      assert ms == ms[..|ms| - 1] + [ms[|ms| - 1]];
    }
  }

  lemma WithinPermute(until: map<Id, nat>, a: seq<MatchedTransfer>, b: seq<MatchedTransfer>)
    requires multiset(a) == multiset(b)
    ensures multiset(Within(until, a)) == multiset(Within(until, b))
  {
    forall m: MatchedTransfer
      ensures multiset(Within(until, a))[m] == multiset(Within(until, b))[m]
    {
      WithinCounts(until, a, m);
      WithinCounts(until, b, m);
    }
  }

  lemma {:induction false} WithinIncreasing(until: map<Id, nat>, ms: seq<MatchedTransfer>)
    requires Increasing(ms)
    ensures Increasing(Within(until, ms))
  {
    if ms != [] {
      var front := ms[..|ms| - 1];
      WithinIncreasing(until, front);
      forall i | 0 <= i < |Within(until, front)|
        ensures Strictly(Within(until, front)[i], ms[|ms| - 1])
      {
        WithinCounts(until, front, Within(until, front)[i]);
        assert Within(until, front)[i] in multiset(Within(until, front));
        assert Within(until, front)[i] in front;
      }
    }
  }

  /** A sweep's matches, sorted, are the matches of the canonical logs in order. */
  lemma SortedAnswer(chain: ChainSpec, entries: map<WatchKey, WatchRef>, logs: seq<Log>, expected: seq<Log>)
    requires ValidScales(chain) && Ordered(expected) && Answers(logs, expected)
    ensures Sorted(Hits(chain, entries, logs)) == Hits(chain, entries, expected)
  {
    HitsOfKept(chain, entries, logs);
    HitsPermute(chain, entries, Kept(logs), expected);
    HitsIncreasing(chain, entries, expected);
    SortedCorrect(Hits(chain, entries, logs));
    OrderUnique(Sorted(Hits(chain, entries, logs)), Hits(chain, entries, expected));
  }

  lemma SortedBatchAnswer(chain: ChainSpec, entries: map<WatchKey, WatchRef>, until: map<Id, nat>,
                          logs: seq<Log>, expected: seq<Log>)
    requires ValidScales(chain) && Ordered(expected) && Answers(logs, expected)
    ensures Sorted(Within(until, Hits(chain, entries, logs))) == Within(until, Hits(chain, entries, expected))
  {
    HitsOfKept(chain, entries, logs);
    HitsPermute(chain, entries, Kept(logs), expected);
    WithinPermute(until, Hits(chain, entries, logs), Hits(chain, entries, expected));
    HitsIncreasing(chain, entries, expected);
    WithinIncreasing(until, Hits(chain, entries, expected));
    var ms := Within(until, Hits(chain, entries, logs));
    SortedCorrect(ms);
    OrderUnique(Sorted(ms), Within(until, Hits(chain, entries, expected)));
  }

  lemma {:induction false} KeptMember(logs: seq<Log>, l: Log)
    ensures l in Kept(logs) <==> l in logs && !l.removed
  {
    if logs != [] {
      KeptMember(logs[..|logs| - 1], l);
      assert logs == logs[..|logs| - 1] + [logs[|logs| - 1]];
    }
  }

  ghost function KeysOf(logs: seq<Log>): set<Key>
    requires forall i :: 0 <= i < |logs| ==> logs[i].Complete()
  {
    set i | 0 <= i < |logs| :: logs[i].Key()
  }

  /** The keys a sweep takes for canonical are those of the canonical logs of its range. */
  lemma AnswerKeys(logs: seq<Log>, expected: seq<Log>)
    requires Ordered(expected) && Answers(logs, expected)
    ensures CanonicalKeys(logs) == KeysOf(expected)
  {
    forall l
      ensures l in logs && !l.removed <==> l in expected
    {
      KeptMember(logs, l);
      assert l in Kept(logs) <==> l in multiset(Kept(logs));
      assert l in expected <==> l in multiset(expected);
    }
    forall k | k in KeysOf(expected)
      ensures k in CanonicalKeys(logs)
    {
      var i :| 0 <= i < |expected| && expected[i].Key() == k;
      assert expected[i] in expected;
    }
    forall k | k in CanonicalKeys(logs)
      ensures k in KeysOf(expected)
    {
      var l :| l in logs && !l.removed && l.blockHash.Some? && l.index.Some?
          && Key(l.blockHash.value, l.index.value) == k;
      assert l in expected;
      var i :| 0 <= i < |expected| && expected[i] == l;
      assert expected[i].Key() == k;
    }
  }
}
