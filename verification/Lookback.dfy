/** How far back a registration looks (src/api/mod.rs:264-269, src/store/mod.rs:250-251, src/store/mod.rs:295-300). */
module Lookback {
  import opened Base
  import opened Ledger

  function DivCeil(a: nat, d: nat): nat
    requires d > 0
  {
    (a + d - 1) / d
  }

  /** Blocks produced in `age` milliseconds, over-estimated by a quarter, plus two. */
  function LookbackBlocks(age: nat, blockTime: nat): nat {
    DivCeil(age * 5 / 4, Max(blockTime, 1)) + 2
  }

  lemma DivCeilBounds(a: nat, d: nat)
    requires d > 0
    ensures DivCeil(a, d) * d >= a
    ensures DivCeil(a, d) > 0 ==> (DivCeil(a, d) - 1) * d < a
  {
    var q, r := (a + d - 1) / d, (a + d - 1) % d;
    assert a + d - 1 == q * d + r;
  }

  lemma CeilAtLeast(n: nat, a: nat, d: nat)
    requires d > 0 && n * d <= a
    ensures n <= DivCeil(a, d)
  {
    DivCeilBounds(a, d);
    if DivCeil(a, d) < n {
      MulMonotone(d, DivCeil(a, d) + 1, n);
      assert false;
    }
  }

  /** The chain produced `n` blocks in `age`, at most five quarters of what its block time promises, and `block` is
      one of them or of the two before, up to whatever head the chain really has, however stale the estimate. */
  predicate Recent(age: nat, blockTime: nat, n: nat, cursor: nat, estimate: nat, head: nat, block: nat) {
    && 4 * (n * Max(blockTime, 1)) <= 5 * age
    && Max(cursor, estimate) <= head && 1 <= block && head <= block + n + 2
  }

  /** The watch starts at or before every such block. */
  lemma LookbackCovers(age: nat, blockTime: nat, n: nat, cursor: nat, estimate: nat, head: nat, block: nat)
    requires Recent(age, blockTime, n, cursor, estimate, head, block)
    ensures StartBlock(cursor, estimate, LookbackBlocks(age, blockTime)) <= block
  {
    CeilAtLeast(n, age * 5 / 4, Max(blockTime, 1));
  }

  /** `lookback` reaches every such block. */
  ghost predicate Suffices(age: nat, blockTime: nat, lookback: nat) {
    forall n: nat, cursor: nat, estimate: nat, head: nat, block: nat ::
      Recent(age, blockTime, n, cursor, estimate, head, block) ==> StartBlock(cursor, estimate, lookback) <= block
  }

  /** The most blocks of `d` milliseconds in five quarters of `age`. */
  lemma MostBlocks(age: nat, d: nat)
    requires d > 0
    ensures var n := 5 * age / (4 * d); 4 * (n * d) <= 5 * age < 4 * ((n + 1) * d)
  {
    var n, r := 5 * age / (4 * d), 5 * age % (4 * d);
    assert 5 * age == n * (4 * d) + r;
  }

  lemma FewerBlocks(age: nat, d: nat, n: nat)
    requires d > 0 && 4 * (n * d) <= 5 * age
    ensures n <= 5 * age / (4 * d)
  {
    MostBlocks(age, d);
    var most := 5 * age / (4 * d);
    if most < n {
      MulMonotone(d, most + 1, n);
      assert false;
    }
  }

  /** A lookback reaches every such block if and only if it is at least two more than the blocks there can be. */
  lemma SufficesIff(age: nat, blockTime: nat, lookback: nat)
    ensures Suffices(age, blockTime, lookback) <==> lookback >= 5 * age / (4 * Max(blockTime, 1)) + 2
  {
    var d := Max(blockTime, 1);
    var most := 5 * age / (4 * d);
    MostBlocks(age, d);
    if lookback >= most + 2 {
      forall n: nat, cursor: nat, estimate: nat, head: nat, block: nat |
        Recent(age, blockTime, n, cursor, estimate, head, block)
        ensures StartBlock(cursor, estimate, lookback) <= block
      {
        FewerBlocks(age, d, n);
      }
    } else {
      assert Recent(age, blockTime, most, 0, most + 3, most + 3, 1) && StartBlock(0, most + 3, lookback) > 1;
    }
  }

  /** Rounding down the five quarters costs nothing, rounding up the quotient at most one block. */
  lemma CeilClose(age: nat, d: nat)
    requires d > 0
    ensures 5 * age / (4 * d) <= DivCeil(age * 5 / 4, d) <= 5 * age / (4 * d) + 1
  {
    var most, q := 5 * age / (4 * d), DivCeil(age * 5 / 4, d);
    MostBlocks(age, d);
    CeilAtLeast(most, age * 5 / 4, d);
    DivCeilBounds(age * 5 / 4, d);
    if q > 0 {
      FewerBlocks(age, d, q - 1);
    }
  }

  /** The estimate is the least lookback that reaches them all, or one block more: with two blocks fewer, some watch
      would start above a block it should count. */
  lemma LookbackTight(age: nat, blockTime: nat, lookback: nat)
    requires lookback + 1 < LookbackBlocks(age, blockTime)
    ensures Suffices(age, blockTime, LookbackBlocks(age, blockTime)) && !Suffices(age, blockTime, lookback)
  {
    CeilClose(age, Max(blockTime, 1));
    SufficesIff(age, blockTime, LookbackBlocks(age, blockTime));
    SufficesIff(age, blockTime, lookback);
  }

  /** A registration records a backfill exactly when it looks back and its window reaches a block that was already
      swept; then the backfill and the later sweeps split the window at the cursor. */
  lemma BackfillRecordedIff(cursor: nat, serial: nat, new_: NewWatch)
    ensures NewRow(cursor, serial, new_).backfillTo.Some?
       <==> new_.lookback > 0 && cursor > 0 && new_.headEstimate <= cursor + new_.lookback
    ensures NewRow(cursor, serial, new_).backfillTo.Some? ==>
              NewRow(cursor, serial, new_).backfillTo.value == cursor && NewRow(cursor, serial, new_).start <= cursor
    ensures 1 <= NewRow(cursor, serial, new_).start <= Max(cursor, new_.headEstimate) + 1
  {
  }
}
