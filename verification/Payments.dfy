/** What a Transfer log means, told by an encoder of its own: the log that a transfer emits, what it pays, and what the
    matcher makes of it (src/registry.rs:25-32, src/ingest/matcher.rs:49-86). */
module Payments {
  import opened Base
  import opened Registry
  import opened Cache
  import opened Matcher
  import opened Chain

  // ------------------------------------------------------------------ the encoder

  /** `v` in `n` bytes, most significant first, as the ABI encodes a uint256. */
  function Encoded(v: nat, n: nat): (d: seq<Byte>)
    ensures |d| == n
  {
    if n == 0 then [] else Encoded(v / 256, n - 1) + [v % 256]
  }

  /** An address in a 32-byte topic, whatever stands in the 12 bytes above it. */
  function Topic(high: nat, a: Address): Word
    requires high < HIGH
  {
    HighPart(high);
    high * ADDRESS_SPACE + a
  }

  const HIGH: nat := 0x1_0000_0000_0000_0000_0000_0000

  lemma HighPart(high: nat)
    requires high < HIGH
    ensures high * ADDRESS_SPACE + ADDRESS_SPACE <= UINT256
  {
    MulMonotone(ADDRESS_SPACE, high + 1, HIGH);
  }

  /** A transfer of `value`, in the units of the log, with the metadata of the block it was mined in. */
  datatype Transfer = Transfer(
    from: Address,
    to: Address,
    value: nat,
    block: nat,
    blockHash: Hash,
    txHash: Hash,
    index: nat,
    removed: bool)

  /** The log that `emitter` emits for it. */
  function Emitted(emitter: Address, t: Transfer, highFrom: nat, highTo: nat): Log
    requires highFrom < HIGH && highTo < HIGH
  {
    Log(emitter, [TRANSFER_TOPIC, Topic(highFrom, t.from), Topic(highTo, t.to)], Encoded(t.value, 32),
        Some(t.block), Some(t.blockHash), Some(t.txHash), Some(t.index), t.removed)
  }

  // ------------------------------------------------------------------ decoding undoes it

  lemma {:induction false} Decodes(v: nat, n: nat)
    requires v < Pow256(n)
    ensures BigEndian(Encoded(v, n)) == v
  {
    if n > 0 {
      Decodes(v / 256, n - 1);
      assert Encoded(v, n)[..n - 1] == Encoded(v / 256, n - 1);
    }
  }

  lemma {:induction false} Encodes(d: seq<Byte>)
    ensures Encoded(BigEndian(d), |d|) == d
  {
    if d != [] {
      var n := |d| - 1;
      Encodes(d[..n]);
      assert BigEndian(d) / 256 == BigEndian(d[..n]) && BigEndian(d) % 256 == d[n];
    }
  }

  lemma TopicAddress(high: nat, a: Address)
    requires high < HIGH
    ensures FromWord(Topic(high, a)) == a
  {
    DivMod(high, ADDRESS_SPACE, a);
  }

  lemma AddressTopic(w: Word) returns (high: nat)
    ensures high < HIGH && Topic(high, FromWord(w)) == w
  {
    high := w / ADDRESS_SPACE;
    assert w == high * ADDRESS_SPACE + FromWord(w);
    if high >= HIGH {
      MulMonotone(ADDRESS_SPACE, HIGH, high);
      assert false;
    }
  }

  lemma DivMod(q: nat, d: nat, r: nat)
    requires r < d
    ensures (q * d + r) % d == r && (q * d + r) / d == q
  {
    var x := q * d + r;
    assert x == (x / d) * d + x % d;
    if x / d < q {
      MulMonotone(d, x / d + 1, q);
      assert false;
    } else if x / d > q {
      MulMonotone(d, q + 1, x / d);
      assert false;
    }
  }

  // ------------------------------------------------------------------ base units

  /** Log units in one base unit. */
  function Scale(token: TokenSpec): nat {
    if token.logScale.Some? then token.logScale.value else 1
  }

  /** Base units are the whole multiples of the scale; what is left of the logged amount is dropped. */
  lemma BaseUnitsRound(token: TokenSpec, a: nat)
    requires ValidScale(token)
    ensures token.BaseUnits(a) * Scale(token) <= a < (token.BaseUnits(a) + 1) * Scale(token)
  {
    var s, q := Scale(token), token.BaseUnits(a);
    assert token.logScale.Some? ==> a == q * s + a % s;
  }

  lemma BaseUnitsOf(token: TokenSpec, v: nat, dust: nat)
    requires ValidScale(token) && dust < Scale(token)
    ensures token.BaseUnits(v * Scale(token) + dust) == v
  {
    DivMod(v, Scale(token), dust);
  }

  // ------------------------------------------------------------------ payments

  lemma EmittedValue(token: TokenSpec, emitter: Address, t: Transfer, highFrom: nat, highTo: nat, v: nat, dust: nat)
    requires ValidScale(token) && highFrom < HIGH && highTo < HIGH
    requires dust < Scale(token) && t.value == v * Scale(token) + dust < UINT256
    ensures token.BaseUnits(BigEndian(Emitted(emitter, t, highFrom, highTo).data)) == v
  {
    Pow256Is(32);
    Decodes(t.value, 32);
    BaseUnitsOf(token, v, dust);
  }

  /** A transfer of `v` base units and some dust pays `v` to the watch on its token and recipient from its block on, and
      nothing to any other. */
  lemma TransferPays(chain: ChainSpec, i: nat, t: Transfer, highFrom: nat, highTo: nat, v: nat, dust: nat, terms: Terms)
    requires ValidSpec(chain) && ValidScales(chain) && i < |chain.tokens| && highFrom < HIGH && highTo < HIGH
    requires dust < Scale(chain.tokens[i]) && t.value == v * Scale(chain.tokens[i]) + dust < UINT256
    ensures Pay(chain, terms, Emitted(chain.tokens[i].logAddress, t, highFrom, highTo))
         == if terms.token == chain.tokens[i].address && terms.payee == t.to && terms.start <= t.block then v else 0
  {
    LookupsAgree(chain, i);
    TopicAddress(highTo, t.to);
    EmittedValue(chain.tokens[i], chain.tokens[i].logAddress, t, highFrom, highTo, v, dust);
  }

  /** And the matcher reads it back: the watch cached for its token and recipient, both parties, `v` base units, and
      where and when it was mined; unless nobody watches, it came too early, or it is all dust. */
  lemma TransferMatches(chain: ChainSpec, entries: map<WatchKey, WatchRef>, i: nat, t: Transfer, highFrom: nat,
                        highTo: nat, v: nat, dust: nat)
    requires ValidSpec(chain) && ValidScales(chain) && i < |chain.tokens| && highFrom < HIGH && highTo < HIGH
    requires dust < Scale(chain.tokens[i]) && t.value == v * Scale(chain.tokens[i]) + dust < UINT256
    ensures var key := WatchKey(i, t.to);
            MatchLog(chain, entries, Emitted(chain.tokens[i].logAddress, t, highFrom, highTo))
            == if key !in entries then Miss(Unwatched)
               else if t.block < entries[key].start then Miss(BeforeStart)
               else if v == 0 then Miss(ZeroValue)
               else Hit(MatchedTransfer(entries[key], i, t.from, t.to, v, t.block, t.txHash, Key(t.blockHash, t.index),
                                        t.removed))
  {
    LookupsAgree(chain, i);
    TopicAddress(highFrom, t.from);
    TopicAddress(highTo, t.to);
    EmittedValue(chain.tokens[i], chain.tokens[i].logAddress, t, highFrom, highTo, v, dust);
  }

  /** A complete log with three topics and 32 bytes of data is what some transfer emits. */
  lemma LogIsEmitted(log: Log) returns (t: Transfer, highFrom: nat, highTo: nat)
    requires log.Complete() && |log.topics| == 3 && log.topics[0] == TRANSFER_TOPIC && |log.data| == 32
    ensures highFrom < HIGH && highTo < HIGH && log == Emitted(log.emitter, t, highFrom, highTo)
    ensures t.value == BigEndian(log.data) < UINT256
  {
    highFrom := AddressTopic(log.topics[1]);
    highTo := AddressTopic(log.topics[2]);
    t := Transfer(FromWord(log.topics[1]), FromWord(log.topics[2]), BigEndian(log.data), log.block.value,
                  log.blockHash.value, log.txHash.value, log.index.value, log.removed);
    Encodes(log.data);
    BigEndianBound(log.data);
    Pow256Is(32);
  }

  lemma HitShape(chain: ChainSpec, entries: map<WatchKey, WatchRef>, log: Log) returns (i: nat)
    requires ValidScales(chain) && MatchLog(chain, entries, log).Hit?
    ensures log.Complete() && |log.topics| == 3 && log.topics[0] == TRANSFER_TOPIC && |log.data| == 32
    ensures i < |chain.tokens| && chain.tokens[i].logAddress == log.emitter && ValidScale(chain.tokens[i])
    ensures chain.tokens[i].BaseUnits(BigEndian(log.data)) > 0
  {
    i := TokenByEmitter(chain, log.emitter).value;
  }

  /** Nothing else matches: whatever hits is the log of a transfer of at least one base unit of a configured token. */
  lemma HitIsTransfer(chain: ChainSpec, entries: map<WatchKey, WatchRef>, log: Log)
    returns (i: nat, t: Transfer, highFrom: nat, highTo: nat, v: nat, dust: nat)
    requires ValidScales(chain) && MatchLog(chain, entries, log).Hit?
    ensures i < |chain.tokens| && highFrom < HIGH && highTo < HIGH
    ensures log == Emitted(chain.tokens[i].logAddress, t, highFrom, highTo)
    ensures 0 < v && dust < Scale(chain.tokens[i]) && t.value == v * Scale(chain.tokens[i]) + dust < UINT256
  {
    i := HitShape(chain, entries, log);
    t, highFrom, highTo := LogIsEmitted(log);
    v, dust := Parts(chain.tokens[i], t.value);
  }

  lemma Parts(token: TokenSpec, a: nat) returns (v: nat, dust: nat)
    requires ValidScale(token)
    ensures v == token.BaseUnits(a) && dust < Scale(token) && a == v * Scale(token) + dust
  {
    BaseUnitsRound(token, a);
    v := token.BaseUnits(a);
    dust := a - v * Scale(token);
  }
}
