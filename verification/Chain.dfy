/** The canonical chain, what a provider answers about it, and the one-pass scan that is the reference
    for the whole accounting machine. */
module Chain {
  import opened Base
  import opened Registry
  import opened Matcher
  import opened Ledger

  /** `canon` holds the canonical logs at confirmation depth, in order; `universe` every log that was ever
      pushed or returned, by its identity. Both are fixed: deeper reorgs and incomplete answers are outside
      the model, as docs/runbook.md:124 and docs/runbook.md:138 accept. */
  datatype World = World(chain: ChainSpec, canon: seq<Log>, universe: map<Key, Log>)

  predicate Before(a: Log, b: Log)
    requires a.Complete() && b.Complete()
  {
    a.block.value < b.block.value || (a.block.value == b.block.value && a.index.value < b.index.value)
  }

  ghost predicate Ordered(logs: seq<Log>) {
    && (forall i :: 0 <= i < |logs| ==> logs[i].Complete() && !logs[i].removed)
    && (forall i, j :: 0 <= i < j < |logs| ==> Before(logs[i], logs[j]))
  }

  /** Indexed addresses are left-padded with zeros, as the ABI prescribes. */
  predicate Padded(log: Log) {
    |log.topics| == 3 ==> log.topics[2] < ADDRESS_SPACE
  }

  ghost predicate Good(world: World) {
    && ValidSpec(world.chain)
    && Ordered(world.canon)
    && (forall k :: k in world.universe ==> world.universe[k].Complete() && world.universe[k].Key() == k)
    && (forall i :: 0 <= i < |world.canon| ==>
          && Padded(world.canon[i])
          && world.canon[i].Key() in world.universe
          && world.universe[world.canon[i].Key()] == world.canon[i])
  }

  /** Number of canonical logs in blocks up to `c`. */
  ghost function Height(logs: seq<Log>, c: nat): (h: nat)
    requires Ordered(logs)
    ensures h <= |logs|
    ensures forall i :: 0 <= i < h ==> logs[i].block.value <= c
    ensures forall i :: h <= i < |logs| ==> logs[i].block.value > c
  {
    if logs == [] then 0
    else if logs[|logs| - 1].block.value <= c then |logs|
    else Height(logs[..|logs| - 1], c)
  }

  lemma HeightMonotone(logs: seq<Log>, c: nat, t: nat)
    requires Ordered(logs) && c <= t
    ensures Height(logs, c) <= Height(logs, t)
  {
  }

  /** The canonical logs of blocks (c, t]. */
  ghost function Slice(logs: seq<Log>, c: nat, t: nat): seq<Log>
    requires Ordered(logs) && c <= t
  {
    HeightMonotone(logs, c, t);
    logs[Height(logs, c)..Height(logs, t)]
  }

  ghost function UpTo(logs: seq<Log>, c: nat): seq<Log>
    requires Ordered(logs)
  {
    logs[..Height(logs, c)]
  }

  // ------------------------------------------------------------------ answers

  function Kept(logs: seq<Log>): seq<Log> {
    if logs == [] then []
    else
      var rest := Kept(logs[..|logs| - 1]);
      if logs[|logs| - 1].removed then rest else rest + [logs[|logs| - 1]]
  }

  /** A complete `eth_getLogs` answer for the canonical logs `expected`: any order, and any number of
      entries flagged as removed. */
  ghost predicate Answers(logs: seq<Log>, expected: seq<Log>) {
    multiset(Kept(logs)) == multiset(expected)
  }

  // ------------------------------------------------------------------ the reference

  /** What decides which logs a watch counts and when it stops. None of it ever changes. */
  datatype Terms = Terms(token: Address, payee: Address, start: nat, threshold: nat)

  function TermsOf(w: Watch): Terms {
    Terms(w.token, w.payee, w.start, w.threshold)
  }

  function Pay(chain: ChainSpec, terms: Terms, log: Log): nat
    requires ValidScales(chain)
  {
    PayAmount(chain, terms.token, terms.payee, terms.start, log)
  }

  datatype Tally = Tally(amount: nat, done: bool)

  function Added(t: Tally, threshold: nat, a: nat): Tally {
    if t.done then t else Tally(t.amount + a, t.amount + a >= threshold)
  }

  /** Adds the amounts in order and stops at the threshold. */
  function Tallied(t: Tally, threshold: nat, amounts: seq<nat>): Tally {
    if amounts == [] then t
    else Added(Tallied(t, threshold, amounts[..|amounts| - 1]), threshold, amounts[|amounts| - 1])
  }

  function Amounts(chain: ChainSpec, terms: Terms, logs: seq<Log>): (r: seq<nat>)
    requires ValidScales(chain)
    ensures |r| == |logs|
  {
    seq(|logs|, i requires 0 <= i < |logs| => Pay(chain, terms, logs[i]))
  }

  /** The specification of a watch: one pass over the canonical logs, in order, up to the threshold. */
  function Scan(chain: ChainSpec, terms: Terms, logs: seq<Log>): Tally
    requires ValidScales(chain)
  {
    Tallied(Tally(0, false), terms.threshold, Amounts(chain, terms, logs))
  }

  function Total(amounts: seq<nat>): nat {
    if amounts == [] then 0 else Total(amounts[..|amounts| - 1]) + amounts[|amounts| - 1]
  }

  lemma {:induction false} TalliedConcat(t: Tally, threshold: nat, a: seq<nat>, b: seq<nat>)
    ensures Tallied(t, threshold, a + b) == Tallied(Tallied(t, threshold, a), threshold, b)
  {
    if b == [] {
      assert a + b == a;
    } else {
      TalliedConcat(t, threshold, a, b[..|b| - 1]);
      assert (a + b)[..|a + b| - 1] == a + b[..|b| - 1];
    }
  }

  lemma {:induction false} TotalConcat(a: seq<nat>, b: seq<nat>)
    ensures Total(a + b) == Total(a) + Total(b)
  {
    if b == [] {
      assert a + b == a;
    } else {
      TotalConcat(a, b[..|b| - 1]);
      assert (a + b)[..|a + b| - 1] == a + b[..|b| - 1];
    }
  }

  /** A tally that has not stopped holds everything it was given; one that has stopped stays. */
  lemma {:induction false} TalliedOpen(t: Tally, threshold: nat, amounts: seq<nat>)
    ensures t.done ==> Tallied(t, threshold, amounts) == t
    ensures !Tallied(t, threshold, amounts).done ==>
              !t.done && Tallied(t, threshold, amounts).amount == t.amount + Total(amounts)
  {
    if amounts != [] {
      TalliedOpen(t, threshold, amounts[..|amounts| - 1]);
    }
  }

  lemma {:induction false} TalliedZeros(t: Tally, threshold: nat, amounts: seq<nat>)
    requires forall i :: 0 <= i < |amounts| ==> amounts[i] == 0
    requires !t.done ==> t.amount < threshold
    ensures Tallied(t, threshold, amounts) == t
    ensures Total(amounts) == 0
  {
    if amounts != [] {
      TalliedZeros(t, threshold, amounts[..|amounts| - 1]);
    }
  }

  lemma AmountsConcat(chain: ChainSpec, terms: Terms, a: seq<Log>, b: seq<Log>)
    requires ValidScales(chain)
    ensures Amounts(chain, terms, a + b) == Amounts(chain, terms, a) + Amounts(chain, terms, b)
  {
  }

  lemma SliceExtends(logs: seq<Log>, c: nat, t: nat)
    requires Ordered(logs) && c <= t
    ensures UpTo(logs, t) == UpTo(logs, c) + Slice(logs, c, t)
  {
    HeightMonotone(logs, c, t);
  }

  /** Blocks below `start` pay nothing. */
  lemma NothingBeforeStart(chain: ChainSpec, terms: Terms, logs: seq<Log>, c: nat)
    requires ValidScales(chain) && Ordered(logs) && c < terms.start && terms.threshold > 0
    ensures Scan(chain, terms, UpTo(logs, c)) == Tally(0, false)
    ensures Total(Amounts(chain, terms, UpTo(logs, c))) == 0
  {
    var amounts := Amounts(chain, terms, UpTo(logs, c));
    forall i | 0 <= i < |amounts|
      ensures amounts[i] == 0
    {
      assert UpTo(logs, c)[i] == logs[i];
    }
    TalliedZeros(Tally(0, false), terms.threshold, amounts);
  }
}
