/** The configured tokens of one chain (src/registry.rs). A token's index is its position. */
module Registry {
  import opened Base

  datatype TokenSpec = TokenSpec(address: Address, logAddress: Address, logScale: Option<nat>)
  {
    /** Converts the amount of a Transfer log to base units, rounding down. */
    function BaseUnits(logAmount: nat): nat
      requires logScale.Some? ==> logScale.value > 0
    {
      if logScale.Some? then logAmount / logScale.value else logAmount
    }
  }

  datatype ChainSpec = ChainSpec(tokens: seq<TokenSpec>)

  /** What configuration validation guarantees (src/config.rs:294-305). */
  ghost predicate ValidSpec(chain: ChainSpec) {
    && (forall i, j :: 0 <= i < j < |chain.tokens| ==>
          && chain.tokens[i].address != chain.tokens[j].address
          && chain.tokens[i].logAddress != chain.tokens[j].logAddress)
    && (forall i :: 0 <= i < |chain.tokens| ==> ValidScale(chain.tokens[i]))
  }

  predicate ValidScale(t: TokenSpec) {
    t.logScale.Some? ==> 0 < t.logScale.value < UINT256
  }

  predicate ValidScales(chain: ChainSpec) {
    forall i :: 0 <= i < |chain.tokens| ==> ValidScale(chain.tokens[i])
  }

  function FindByAddress(tokens: seq<TokenSpec>, a: Address, from: nat): (r: Option<nat>)
    requires from <= |tokens|
    ensures r.Some? ==> from <= r.value < |tokens| && tokens[r.value].address == a
    ensures r.Some? ==> forall i :: from <= i < r.value ==> tokens[i].address != a
    ensures r.None? ==> forall i :: from <= i < |tokens| ==> tokens[i].address != a
    decreases |tokens| - from
  {
    if from == |tokens| then None
    else if tokens[from].address == a then Some(from)
    else FindByAddress(tokens, a, from + 1)
  }

  function FindByEmitter(tokens: seq<TokenSpec>, a: Address, from: nat): (r: Option<nat>)
    requires from <= |tokens|
    ensures r.Some? ==> from <= r.value < |tokens| && tokens[r.value].logAddress == a
    ensures r.Some? ==> forall i :: from <= i < r.value ==> tokens[i].logAddress != a
    ensures r.None? ==> forall i :: from <= i < |tokens| ==> tokens[i].logAddress != a
    decreases |tokens| - from
  {
    if from == |tokens| then None
    else if tokens[from].logAddress == a then Some(from)
    else FindByEmitter(tokens, a, from + 1)
  }

  /** The index of the token a watch names. */
  function TokenByAddress(chain: ChainSpec, a: Address): (r: Option<nat>)
    ensures r.Some? ==> r.value < |chain.tokens| && chain.tokens[r.value].address == a
    ensures r.None? ==> forall i :: 0 <= i < |chain.tokens| ==> chain.tokens[i].address != a
  {
    FindByAddress(chain.tokens, a, 0)
  }

  /** The index of the token a Transfer log belongs to, by the log's emitter. */
  function TokenByEmitter(chain: ChainSpec, emitter: Address): (r: Option<nat>)
    ensures r.Some? ==> r.value < |chain.tokens| && chain.tokens[r.value].logAddress == emitter
    ensures r.None? ==> forall i :: 0 <= i < |chain.tokens| ==> chain.tokens[i].logAddress != emitter
  {
    FindByEmitter(chain.tokens, emitter, 0)
  }

  /** Both lookups name the same token: the one read from an emitter is the one a watch names. */
  lemma LookupsAgree(chain: ChainSpec, i: nat)
    requires ValidSpec(chain) && i < |chain.tokens|
    ensures TokenByAddress(chain, chain.tokens[i].address) == Some(i)
    ensures TokenByEmitter(chain, chain.tokens[i].logAddress) == Some(i)
  {
  }
}
