/** Decides whether a raw log is a Transfer to a watched address (src/ingest/matcher.rs). */
module Matcher {
  import opened Base
  import opened Registry
  import opened Cache

  /** keccak256("Transfer(address,address,uint256)"), the ERC-20 Transfer event of EIP-20. */
  const TRANSFER_TOPIC: Word := 0xddf252ad1be2c89b69c2b068fc378daa952ba7f163c4a11628f55a4df523b3ef

  datatype Log = Log(
    emitter: Address,
    topics: seq<Word>,
    data: seq<Byte>,
    block: Option<nat>,
    blockHash: Option<Hash>,
    txHash: Option<Hash>,
    index: Option<nat>,
    removed: bool)
  {
    /** Mined: the block metadata is present. */
    predicate Complete() {
      block.Some? && blockHash.Some? && txHash.Some? && index.Some?
    }

    function Key(): Key
      requires Complete()
    {
      Base.Key(blockHash.value, index.value)
    }
  }

  datatype MatchedTransfer = MatchedTransfer(
    watch: WatchRef,
    tokenIdx: nat,
    from: Address,
    to: Address,
    amount: nat,
    block: nat,
    txHash: Hash,
    key: Key,
    removed: bool)

  datatype Skip = Foreign | Malformed | Incomplete | ZeroValue | Unwatched | BeforeStart

  datatype Match = Hit(transfer: MatchedTransfer) | Miss(skip: Skip)

  /** The low 20 bytes of a topic. */
  function FromWord(w: Word): Address {
    w % ADDRESS_SPACE
  }

  /** Big-endian value of the log's data. */
  function BigEndian(data: seq<Byte>): nat {
    if data == [] then 0 else 256 * BigEndian(data[..|data| - 1]) + data[|data| - 1]
  }

  function MatchLog(chain: ChainSpec, entries: map<WatchKey, WatchRef>, log: Log): Match
    requires ValidScales(chain)
  {
    if |log.topics| == 0 || log.topics[0] != TRANSFER_TOPIC then Miss(Foreign)
    else
      var token := TokenByEmitter(chain, log.emitter);
      if token.None? then Miss(Foreign)
      else if |log.topics| != 3 || |log.data| != 32 then Miss(Malformed)
      else
        var to := FromWord(log.topics[2]);
        var key := WatchKey(token.value, to);
        if key !in entries then Miss(Unwatched)
        else if !log.Complete() then Miss(Incomplete)
        else if log.block.value < entries[key].start then Miss(BeforeStart)
        else
          var amount := chain.tokens[token.value].BaseUnits(BigEndian(log.data));
          if amount == 0 then Miss(ZeroValue)
          else Hit(MatchedTransfer(entries[key], token.value, FromWord(log.topics[1]), to, amount,
                                   log.block.value, log.txHash.value, log.Key(), log.removed))
  }

  /** What `log` pays to `payee` in `token`, counted from block `start`: the amount in base units, or
      0 when it is no such payment. Says nothing about caches. */
  function PayAmount(chain: ChainSpec, token: Address, payee: Address, start: nat, log: Log): nat
    requires ValidScales(chain)
  {
    var t := TokenByEmitter(chain, log.emitter);
    if && log.Complete()
       && |log.topics| == 3 && log.topics[0] == TRANSFER_TOPIC && |log.data| == 32
       && t.Some? && chain.tokens[t.value].address == token
       && FromWord(log.topics[2]) == payee
       && start <= log.block.value
    then chain.tokens[t.value].BaseUnits(BigEndian(log.data))
    else 0
  }

  function Pow256(n: nat): nat {
    if n == 0 then 1 else 256 * Pow256(n - 1)
  }

  lemma {:induction false} BigEndianBound(data: seq<Byte>)
    ensures BigEndian(data) < Pow256(|data|)
  {
    if data != [] {
      BigEndianBound(data[..|data| - 1]);
    }
  }

  lemma Pow256Is(n: nat)
    requires n == 32
    ensures Pow256(n) == UINT256
  {
    assert Pow256(4) == 0x1_0000_0000;
    assert Pow256(8) == 0x1_0000_0000_0000_0000;
    assert Pow256(12) == 0x1_0000_0000_0000_0000_0000_0000;
    assert Pow256(16) == 0x1_0000_0000_0000_0000_0000_0000_0000_0000;
    assert Pow256(20) == 0x1_0000_0000_0000_0000_0000_0000_0000_0000_0000_0000;
    assert Pow256(24) == 0x1_0000_0000_0000_0000_0000_0000_0000_0000_0000_0000_0000_0000;
    assert Pow256(28) == 0x1_0000_0000_0000_0000_0000_0000_0000_0000_0000_0000_0000_0000_0000_0000;
  }

  /** Every payment is a uint256: scaling never enlarges the logged amount. */
  lemma PayAmountBound(chain: ChainSpec, token: Address, payee: Address, start: nat, log: Log)
    requires ValidScales(chain)
    ensures PayAmount(chain, token, payee, start, log) < UINT256
  {
    BigEndianBound(log.data);
    Pow256Is(32);
    var t := TokenByEmitter(chain, log.emitter);
    if t.Some? && |log.data| == 32 {
      var spec := chain.tokens[t.value];
      assert ValidScale(spec);
      if spec.logScale.Some? {
        DivShrinks(BigEndian(log.data), spec.logScale.value);
      }
    }
  }

  lemma DivShrinks(a: nat, d: nat)
    requires d > 0
    ensures a / d <= a
  {
    var q := a / d;
    assert a == q * d + a % d;
    MulGrows(q, d);
  }

  lemma MulGrows(q: nat, d: nat)
    requires d > 0
    ensures q <= q * d
  {
    assert q * d == q + q * (d - 1);
  }
}
