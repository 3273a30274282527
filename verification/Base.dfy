/** Types and constants shared by every component. */
module Base {

  datatype Option<+T> = None | Some(value: T)

  /** One more than the largest uint256. */
  const UINT256: nat := 0x1_0000_0000_0000_0000_0000_0000_0000_0000_0000_0000_0000_0000_0000_0000_0000_0000

  /** One more than the largest value of a NUMERIC(78, 0) column. */
  const NUMERIC_78: nat :=
    1_000_000_000_000_000_000_000_000_000_000_000_000_000_000_000_000_000_000_000_000_000_000_000_000_000_000

  /** One more than the largest 20-byte address. */
  const ADDRESS_SPACE: nat := 0x1_0000_0000_0000_0000_0000_0000_0000_0000_0000_0000

  type Address = a: nat | a < ADDRESS_SPACE
  type Word = w: nat | w < UINT256
  type Byte = b: nat | b < 256

  /** Watch ids (UUIDs) and block or transaction hashes are only ever compared. */
  type Id = nat
  type Hash = nat

  /** The identity of a log, and of its row: block hash and log index. */
  datatype Key = Key(hash: Hash, index: nat)

  function Max(a: nat, b: nat): nat {
    if a < b then b else a
  }

  function Min(a: nat, b: nat): nat {
    if a < b then a else b
  }

  predicate NoDup<T(==)>(s: seq<T>) {
    forall i, j :: 0 <= i < j < |s| ==> s[i] != s[j]
  }

  function Pow2(n: nat): (r: nat)
    ensures r >= 1
  {
    if n == 0 then 1 else 2 * Pow2(n - 1)
  }

  lemma MulMonotone(k: nat, a: nat, b: nat)
    requires a <= b
    ensures k * a <= k * b
  {
  }
}
