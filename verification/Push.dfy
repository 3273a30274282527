/** The push path's subscriptions and its choice of mode (src/ingest/source.rs:54-79, src/ingest/source.rs:207-313). */
module Push {
  import opened Base

  // ------------------------------------------------------------------ recipients

  predicate Ascending(s: seq<Address>) {
    forall i, j :: 0 <= i < j < |s| ==> s[i] < s[j]
  }

  function Placed(s: seq<Address>, a: Address): seq<Address> {
    if s == [] || s[|s| - 1] < a then s + [a]
    else if s[|s| - 1] == a then s
    else Placed(s[..|s| - 1], a) + [s[|s| - 1]]
  }

  /** Sorted, without duplicates. */
  function Deduped(s: seq<Address>): seq<Address> {
    if s == [] then [] else Placed(Deduped(s[..|s| - 1]), s[|s| - 1])
  }

  function Set(s: seq<Address>): set<Address> {
    set a | a in s
  }

  lemma {:induction false} PlacedFacts(s: seq<Address>, a: Address)
    requires Ascending(s)
    ensures Ascending(Placed(s, a)) && forall x :: x in Placed(s, a) <==> x in s || x == a
  {
    if s != [] && s[|s| - 1] > a {
      var n := |s| - 1;
      PlacedFacts(s[..n], a);
      assert s == s[..n] + [s[n]];
      forall i | 0 <= i < |Placed(s[..n], a)|
        ensures Placed(s[..n], a)[i] < s[n]
      {
        assert Placed(s[..n], a)[i] in Placed(s[..n], a);
      }
    }
  }

  lemma {:induction false} DedupedFacts(s: seq<Address>)
    ensures Ascending(Deduped(s)) && Set(Deduped(s)) == Set(s)
  {
    if s != [] {
      var n := |s| - 1;
      DedupedFacts(s[..n]);
      PlacedFacts(Deduped(s[..n]), s[n]);
      assert s == s[..n] + [s[n]];
      assert forall x :: x in Deduped(s[..n]) <==> x in Set(Deduped(s[..n]));
    }
  }

  /** Consecutive pieces of `size`, the last one possibly shorter. */
  function Pieces(s: seq<Address>, size: nat): seq<seq<Address>>
    requires size > 0
    decreases |s|
  {
    if s == [] then []
    else if |s| <= size then [s]
    else [s[..size]] + Pieces(s[size..], size)
  }

  function Union(pieces: seq<seq<Address>>): set<Address> {
    if pieces == [] then {} else Union(pieces[..|pieces| - 1]) + Set(pieces[|pieces| - 1])
  }

  lemma {:induction false} UnionConcat(a: seq<seq<Address>>, b: seq<seq<Address>>)
    ensures Union(a + b) == Union(a) + Union(b)
  {
    if b == [] {
      assert a + b == a;
    } else {
      assert (a + b)[..|a + b| - 1] == a + b[..|b| - 1];
      UnionConcat(a, b[..|b| - 1]);
    }
  }

  lemma {:induction false} PiecesFacts(s: seq<Address>, size: nat)
    requires size > 0
    ensures Union(Pieces(s, size)) == Set(s)
    ensures forall i :: 0 <= i < |Pieces(s, size)| - 1 ==> |Pieces(s, size)[i]| == size
    ensures Pieces(s, size) != [] ==> 0 < |Pieces(s, size)[|Pieces(s, size)| - 1]| <= size
    decreases |s|
  {
    if s != [] && |s| > size {
      PiecesFacts(s[size..], size);
      UnionConcat([s[..size]], Pieces(s[size..], size));
      assert [s[..size]][..0] == [];
      assert s == s[..size] + s[size..];
    } else if s != [] {
      assert [s][..0] == [];
    }
  }

  // ------------------------------------------------------------------ subscriptions

  datatype Bucket = Bucket(addresses: seq<Address>, sub: nat)

  /** Every address some live subscription covers. */
  function Cover(subs: map<nat, seq<Address>>): set<Address> {
    set id, a | id in subs && a in subs[id] :: a
  }

  /** From position `from` on, `base` was covered all along. */
  ghost predicate NoGap(trace: seq<set<Address>>, from: nat, base: set<Address>) {
    forall i :: from <= i < |trace| ==> base <= trace[i]
  }

  class Provider {
    var subs: map<nat, seq<Address>>
    var next: nat
    /** What was covered after each subscription and each cancellation. */
    ghost var trace: seq<set<Address>>

    ghost predicate Valid()
      reads this
    {
      forall id :: id in subs ==> id < next
    }

    constructor ()
      ensures Valid() && subs == map[] && trace == []
    {
      subs, next, trace := map[], 0, [];
    }

    method Subscribe(addresses: seq<Address>) returns (id: nat)
      requires Valid()
      modifies this
      ensures Valid() && id == old(next) && next == id + 1 && subs == old(subs)[id := addresses]
      ensures trace == old(trace) + [Cover(subs)]
    {
      id := next;
      subs := subs[id := addresses];
      next := next + 1;
      trace := trace + [Cover(subs)];
    }

    method Unsubscribe(id: nat)
      requires Valid()
      modifies this
      ensures Valid() && next == old(next) && subs == old(subs) - {id}
      ensures trace == old(trace) + [Cover(subs)]
    {
      subs := subs - {id};
      trace := trace + [Cover(subs)];
    }
  }

  function Addresses(buckets: seq<Bucket>): set<Address> {
    if buckets == [] then {} else Addresses(buckets[..|buckets| - 1]) + Set(buckets[|buckets| - 1].addresses)
  }

  ghost predicate Live(subs: map<nat, seq<Address>>, buckets: seq<Bucket>) {
    && (forall i :: 0 <= i < |buckets| ==> buckets[i].sub in subs && subs[buckets[i].sub] == buckets[i].addresses)
    && (forall i, j :: 0 <= i < j < |buckets| ==> buckets[i].sub != buckets[j].sub)
  }

  lemma {:induction false} AddressesConcat(a: seq<Bucket>, b: seq<Bucket>)
    ensures Addresses(a + b) == Addresses(a) + Addresses(b)
  {
    if b == [] {
      assert a + b == a;
    } else {
      assert (a + b)[..|a + b| - 1] == a + b[..|b| - 1];
      AddressesConcat(a, b[..|b| - 1]);
    }
  }

  lemma {:induction false} LiveCovered(subs: map<nat, seq<Address>>, buckets: seq<Bucket>)
    requires Live(subs, buckets)
    ensures Addresses(buckets) <= Cover(subs)
  {
    if buckets != [] {
      var n := |buckets| - 1;
      LiveCovered(subs, buckets[..n]);
      forall a | a in buckets[n].addresses
        ensures a in Cover(subs)
      {
        assert buckets[n].sub in subs && a in subs[buckets[n].sub];
      }
    }
  }

  function OpenOf(open: Option<Bucket>): seq<Bucket> {
    if open.Some? then [open.value] else []
  }

  /** New buckets but for the last one if it is not full. */
  function Full(buckets: seq<Bucket>, size: nat): seq<Bucket> {
    if buckets != [] && |buckets[|buckets| - 1].addresses| < size then buckets[..|buckets| - 1] else buckets
  }

  function Rest(buckets: seq<Bucket>, size: nat): Option<Bucket> {
    if buckets != [] && |buckets[|buckets| - 1].addresses| < size then Some(buckets[|buckets| - 1]) else None
  }

  lemma SplitFacts(buckets: seq<Bucket>, size: nat)
    requires Filled(buckets, size)
    ensures Full(buckets, size) + OpenOf(Rest(buckets, size)) == buckets
    ensures forall i :: 0 <= i < |Full(buckets, size)| ==> |Full(buckets, size)[i].addresses| == size
    ensures Rest(buckets, size).Some? ==> 0 < |Rest(buckets, size).value.addresses| < size
  {
  }

  lemma SealedFacts(sealed: seq<Bucket>, added: seq<Bucket>, size: nat)
    requires Filled(added, size) && forall i :: 0 <= i < |sealed| ==> |sealed[i].addresses| == size
    ensures var all := sealed + Full(added, size);
            && (forall i :: 0 <= i < |all| ==> |all[i].addresses| == size)
            && all + OpenOf(Rest(added, size)) == sealed + added
    ensures Rest(added, size).Some? ==> 0 < |Rest(added, size).value.addresses| < size
    ensures Addresses(sealed + added) == Addresses(sealed) + Addresses(added)
  {
    SplitFacts(added, size);
    AddressesConcat(sealed, added);
  }

  datatype Call = Build(watchlist: seq<Address>) | Add(recipients: seq<Address>)

  /** What is covered after a call. */
  function Reached(covered: set<Address>, call: Call): set<Address> {
    match call
    case Build(watchlist) => Set(watchlist)
    case Add(recipients) => covered + Set(recipients)
  }

  /** What is covered all through a call. */
  function Through(covered: set<Address>, call: Call): set<Address> {
    match call
    case Build(watchlist) => covered * Set(watchlist)
    case Add(_) => covered
  }

  function Wanted(covered: set<Address>, calls: seq<Call>): set<Address> {
    if calls == [] then covered else Reached(Wanted(covered, calls[..|calls| - 1]), calls[|calls| - 1])
  }

  /** What every rebuild among the calls wants of `covered`. */
  function Kept(covered: set<Address>, calls: seq<Call>): set<Address> {
    if calls == [] then covered else Through(Kept(covered, calls[..|calls| - 1]), calls[|calls| - 1])
  }

  /** What all rebuilds want is covered after any number of calls, and through the next one. */
  lemma {:induction false} KeptWanted(covered: set<Address>, calls: seq<Call>, n: nat)
    requires n <= |calls|
    ensures Kept(covered, calls) <= Wanted(covered, calls[..n])
    ensures n < |calls| ==> Kept(covered, calls) <= Through(Wanted(covered, calls[..n]), calls[n])
    decreases |calls|, n
  {
    if n < |calls| {
      var front := calls[..|calls| - 1];
      KeptWanted(covered, front, n);
      assert front[..n] == calls[..n];
      assert n < |front| ==> front[n] == calls[n];
    } else if calls != [] {
      KeptWanted(covered, calls, n - 1);
      assert calls[..n] == calls && calls[..n - 1] == calls[..|calls| - 1];
    }
  }

  class Session {
    const size: nat
    const provider: Provider
    var sealed: seq<Bucket>
    var open: Option<Bucket>
    var removedSinceRebuild: nat

    function All(): seq<Bucket>
      reads this
    {
      sealed + OpenOf(open)
    }

    /** The recipients this session is subscribed to. */
    function Covered(): set<Address>
      reads this
    {
      Addresses(All())
    }

    /** Sealed buckets are full, the open one is neither full nor empty, and all of them are live. */
    ghost predicate Valid()
      reads this, provider
    {
      && size > 0 && provider.Valid()
      && (forall i :: 0 <= i < |sealed| ==> |sealed[i].addresses| == size)
      && (open.Some? ==> 0 < |open.value.addresses| < size)
      && Live(provider.subs, All())
    }

    constructor (size: nat, provider: Provider)
      requires size > 0 && provider.Valid()
      ensures Valid() && this.size == size && this.provider == provider && Covered() == {}
    {
      this.size, this.provider := size, provider;
      sealed, open, removedSinceRebuild := [], None, 0;
    }

    /** Subscribes one bucket per piece. Earlier subscriptions stay as they are, also when one is refused. */
    method SubscribeAll(pieces: seq<seq<Address>>, refuses: nat -> bool) returns (r: Option<seq<Bucket>>)
      requires provider.Valid()
      modifies provider
      ensures provider.Valid() && Extends(old(provider.subs), provider.subs, old(provider.next))
      ensures Continues(old(provider.trace), provider.trace, Cover(old(provider.subs)))
      ensures r.Some? ==>
                && Live(provider.subs, r.value) && |r.value| == |pieces|
                && (forall i :: 0 <= i < |pieces| ==>
                      r.value[i].addresses == pieces[i] && r.value[i].sub >= old(provider.next))
    {
      var buckets: seq<Bucket> := [];
      while |buckets| < |pieces|
        invariant |buckets| <= |pieces| && provider.Valid() && provider.next >= old(provider.next)
        invariant Extends(old(provider.subs), provider.subs, old(provider.next))
        invariant Continues(old(provider.trace), provider.trace, Cover(old(provider.subs)))
        invariant Live(provider.subs, buckets)
        invariant forall i :: 0 <= i < |buckets| ==>
                    buckets[i].addresses == pieces[i] && buckets[i].sub >= old(provider.next)
      {
        var piece := pieces[|buckets|];
        if refuses(provider.next) {
          return None;
        }
        ghost var subs0 := provider.subs;
        var id := provider.Subscribe(piece);
        CoverGrows(old(provider.subs), provider.subs);
        buckets := buckets + [Bucket(piece, id)];
      }
      r := Some(buckets);
    }

    method Retire(old_: seq<Bucket>, ghost kept: seq<Bucket>)
      requires provider.Valid() && Live(provider.subs, kept + old_)
      modifies provider
      ensures provider.Valid() && Live(provider.subs, kept)
      ensures Continues(old(provider.trace), provider.trace, Addresses(kept))
    {
      var i := 0;
      LiveParts(provider.subs, kept, old_);
      while i < |old_|
        invariant i <= |old_| && provider.Valid() && Live(provider.subs, kept)
        invariant Continues(old(provider.trace), provider.trace, Addresses(kept))
      {
        assert forall j :: 0 <= j < |kept| ==> (kept + old_)[j] == kept[j];
        assert (kept + old_)[|kept| + i] == old_[i];
        provider.Unsubscribe(old_[i].sub);
        LiveCovered(provider.subs, kept);
        i := i + 1;
      }
    }

    /** Subscribes `addresses` in buckets of their own, beside the ones there are. */
    method Replacement(addresses: seq<Address>, refuses: nat -> bool) returns (r: Option<seq<Bucket>>)
      requires Valid()
      modifies provider
      ensures Valid() && Continues(old(provider.trace), provider.trace, Covered())
      ensures r.Some? ==> Live(provider.subs, r.value + All()) && Filled(r.value, size)
      ensures r.Some? ==> Addresses(r.value) == Set(addresses)
    {
      PiecesFacts(addresses, size);
      LiveCovered(provider.subs, All());
      r := SubscribeAll(Pieces(addresses, size), refuses);
      LiveStays(old(provider.subs), provider.subs, old(provider.next), All());
      if r.Some? {
        LiveBoth(old(provider.subs), provider.subs, old(provider.next), r.value, All());
        SameAddresses(r.value, Pieces(addresses, size));
      }
    }

    method ReplaceAll(added: seq<Bucket>)
      requires Valid() && Live(provider.subs, added + All()) && Filled(added, size)
      modifies this, provider
      ensures Valid() && Covered() == Addresses(added) && removedSinceRebuild == 0
      ensures Continues(old(provider.trace), provider.trace, Covered())
    {
      Retire(All(), added);
      SplitFacts(added, size);
      sealed, open, removedSinceRebuild := Full(added, size), Rest(added, size), 0;
    }

    /** Subscribes the whole watchlist from scratch, then lets go of the old buckets. Whatever was covered and still
        is wanted stays covered at every step. */
    method BuildTargeted(watchlist: seq<Address>, refuses: nat -> bool) returns (ok: bool)
      requires Valid()
      modifies this, provider
      ensures Valid()
      ensures ok ==> Covered() == Set(watchlist) && removedSinceRebuild == 0
      ensures !ok ==> sealed == old(sealed) && open == old(open)
      ensures Continues(old(provider.trace), provider.trace, old(Covered()) * Set(watchlist))
    {
      DedupedFacts(watchlist);
      var r := Replacement(Deduped(watchlist), refuses);
      ok := r.Some?;
      if ok {
        ghost var trace0 := provider.trace;
        ReplaceAll(r.value);
        ContinuesOn(old(provider.trace), trace0, provider.trace, old(Covered()), Covered(),
                    old(Covered()) * Set(watchlist));
      }
    }

    method ReplaceOpen(added: seq<Bucket>)
      requires Valid() && Live(provider.subs, added + All()) && Filled(added, size)
      modifies this`sealed, this`open, provider
      ensures Valid() && old(sealed) <= sealed && Covered() == Addresses(old(sealed)) + Addresses(added)
      ensures Continues(old(provider.trace), provider.trace, Covered())
    {
      Swapped(provider.subs, sealed, OpenOf(open), added);
      Retire(OpenOf(open), sealed + added);
      SealedFacts(sealed, added, size);
      sealed, open := sealed + Full(added, size), Rest(added, size);
    }

    /** Replaces the open bucket by one or more that also hold the new recipients. No covered address loses coverage
        at any step. */
    method AddRecipients(new_: seq<Address>, refuses: nat -> bool) returns (ok: bool)
      requires Valid()
      modifies this, provider
      ensures Valid()
      ensures ok ==> Covered() == old(Covered()) + Set(new_) && old(sealed) <= sealed
      ensures !ok ==> sealed == old(sealed) && open == old(open)
      ensures Continues(old(provider.trace), provider.trace, old(Covered()))
    {
      var held := if open.Some? then open.value.addresses else [];
      var addresses := Deduped(held + Deduped(new_));
      AddedSet(held, new_);
      HeldAddresses(sealed, open);
      var r := Replacement(addresses, refuses);
      ok := r.Some?;
      if ok {
        ghost var trace0 := provider.trace;
        ReplaceOpen(r.value);
        ContinuesOn(old(provider.trace), trace0, provider.trace, old(Covered()), Covered(), old(Covered()));
      }
    }

    /** A session: rebuilds and additions one after the other, until one is refused. Then the recipients covered are
        those of the last rebuild and of all additions since, and no address that was covered at the start and that
        every rebuild wanted was ever uncovered in between. The same holds from any call on. */
    method Serve(calls: seq<Call>, refuses: nat -> bool) returns (done: nat)
      requires Valid()
      modifies this, provider
      ensures Valid() && done <= |calls|
      ensures Covered() == Wanted(old(Covered()), calls[..done])
      ensures Continues(old(provider.trace), provider.trace, Kept(old(Covered()), calls))
    {
      done := 0;
      ghost var base, trace0 := Covered(), provider.trace;
      while done < |calls|
        invariant Valid() && done <= |calls| && Covered() == Wanted(base, calls[..done])
        invariant Continues(trace0, provider.trace, Kept(base, calls))
      {
        ghost var covered, trace1 := Covered(), provider.trace;
        WantedSnoc(base, calls, done);
        var ok := Perform(calls[done], refuses);
        ServedOn(trace0, trace1, provider.trace, base, calls, done, covered);
        if !ok {
          return;
        }
        done := done + 1;
      }
    }

    method Perform(call: Call, refuses: nat -> bool) returns (ok: bool)
      requires Valid()
      modifies this, provider
      ensures Valid() && Covered() == if ok then Reached(old(Covered()), call) else old(Covered())
      ensures Continues(old(provider.trace), provider.trace, Through(old(Covered()), call))
    {
      match call
      case Build(watchlist) =>
        ok := BuildTargeted(watchlist, refuses);
      case Add(recipients) =>
        ok := AddRecipients(recipients, refuses);
    }
  }

  // ------------------------------------------------------------------ facts about live buckets

  /** New subscriptions only, numbered from `next`. */
  ghost predicate Extends(before: map<nat, seq<Address>>, after: map<nat, seq<Address>>, next: nat) {
    && (forall id :: id in before ==> id in after && after[id] == before[id])
    && (forall id :: id in before ==> id < next)
  }

  /** `after` continues `before`, and all along `base` was covered. */
  ghost predicate Continues(before: seq<set<Address>>, after: seq<set<Address>>, base: set<Address>) {
    |before| <= |after| && after[..|before|] == before && NoGap(after, |before|, base)
  }

  lemma ContinuesOn(a: seq<set<Address>>, b: seq<set<Address>>, c: seq<set<Address>>,
                    x: set<Address>, y: set<Address>, base: set<Address>)
    requires Continues(a, b, x) && Continues(b, c, y) && base <= x && base <= y
    ensures Continues(a, c, base)
  {
    assert c[..|a|] == c[..|b|][..|a|];
    forall i | |a| <= i < |c|
      ensures base <= c[i]
    {
      if i < |b| {
        assert c[i] == c[..|b|][i];
      }
    }
  }

  lemma WantedSnoc(base: set<Address>, calls: seq<Call>, n: nat)
    requires n < |calls|
    ensures Wanted(base, calls[..n + 1]) == Reached(Wanted(base, calls[..n]), calls[n])
  {
    assert calls[..n + 1][..n] == calls[..n];
  }

  lemma ServedOn(a: seq<set<Address>>, b: seq<set<Address>>, c: seq<set<Address>>, base: set<Address>, calls: seq<Call>,
                 n: nat, covered: set<Address>)
    requires n < |calls| && covered == Wanted(base, calls[..n])
    requires Continues(a, b, Kept(base, calls)) && Continues(b, c, Through(covered, calls[n]))
    ensures Continues(a, c, Kept(base, calls))
  {
    KeptWanted(base, calls, n);
    ContinuesOn(a, b, c, Kept(base, calls), Through(covered, calls[n]), Kept(base, calls));
  }

  lemma CoverGrows(before: map<nat, seq<Address>>, after: map<nat, seq<Address>>)
    requires forall id :: id in before ==> id in after && after[id] == before[id]
    ensures Cover(before) <= Cover(after)
  {
  }

  lemma LiveStays(before: map<nat, seq<Address>>, after: map<nat, seq<Address>>, next: nat, buckets: seq<Bucket>)
    requires Extends(before, after, next) && Live(before, buckets)
    ensures Live(after, buckets)
  {
  }

  lemma LiveBoth(before: map<nat, seq<Address>>, after: map<nat, seq<Address>>, next: nat, added: seq<Bucket>,
                 held: seq<Bucket>)
    requires Extends(before, after, next) && Live(before, held) && Live(after, added)
    requires forall i :: 0 <= i < |added| ==> added[i].sub >= next
    ensures Live(after, added + held)
  {
  }

  lemma LiveParts(subs: map<nat, seq<Address>>, a: seq<Bucket>, b: seq<Bucket>)
    requires Live(subs, a + b)
    ensures Live(subs, a)
  {
    assert forall i :: 0 <= i < |a| ==> (a + b)[i] == a[i];
  }

  lemma Swapped(subs: map<nat, seq<Address>>, sealed: seq<Bucket>, open: seq<Bucket>, added: seq<Bucket>)
    requires Live(subs, added + (sealed + open))
    ensures Live(subs, (sealed + added) + open)
  {
    var x, y := added + (sealed + open), (sealed + added) + open;
    forall i | 0 <= i < |y|
      ensures y[i].sub in subs && subs[y[i].sub] == y[i].addresses
    {
      assert y[i] == x[From(|sealed|, |added|, i)];
    }
    forall i, j | 0 <= i < j < |y|
      ensures y[i].sub != y[j].sub
    {
      assert y[i] == x[From(|sealed|, |added|, i)] && y[j] == x[From(|sealed|, |added|, j)];
    }
  }

  function From(s: nat, a: nat, i: nat): nat {
    if i < s then a + i else if i < s + a then i - s else i
  }

  /** All buckets are full but possibly the last, which is not empty. */
  ghost predicate Filled(buckets: seq<Bucket>, size: nat) {
    && (forall i :: 0 <= i < |buckets| - 1 ==> |buckets[i].addresses| == size)
    && (buckets != [] ==> 0 < |buckets[|buckets| - 1].addresses| <= size)
  }

  lemma AddedSet(held: seq<Address>, new_: seq<Address>)
    ensures Set(Deduped(held + Deduped(new_))) == Set(held) + Set(new_)
  {
    DedupedFacts(new_);
    DedupedFacts(held + Deduped(new_));
    SetConcat(held, Deduped(new_));
  }

  ghost predicate Same(buckets: seq<Bucket>, pieces: seq<seq<Address>>) {
    |buckets| == |pieces| && forall i :: 0 <= i < |pieces| ==> buckets[i].addresses == pieces[i]
  }

  lemma {:induction false} SameAddresses(buckets: seq<Bucket>, pieces: seq<seq<Address>>)
    requires Same(buckets, pieces)
    ensures Addresses(buckets) == Union(pieces)
  {
    if buckets != [] {
      SameAddresses(buckets[..|buckets| - 1], pieces[..|pieces| - 1]);
    }
  }

  lemma HeldAddresses(sealed: seq<Bucket>, open: Option<Bucket>)
    ensures Addresses(sealed + OpenOf(open)) == Addresses(sealed) + Set(if open.Some? then open.value.addresses else [])
  {
    AddressesConcat(sealed, OpenOf(open));
    if open.Some? {
      assert [open.value][..0] == [];
    }
  }

  lemma SetConcat(a: seq<Address>, b: seq<Address>)
    ensures Set(a + b) == Set(a) + Set(b)
  {
  }

  // ------------------------------------------------------------------ hysteresis

  datatype Mode = Targeted | Firehose | Poll

  /** `auto`: what mode a watchlist of `watches` entries asks for. */
  function DesiredMode(max: nat, large: Mode, current: Option<Mode>, watches: nat): Mode {
    if current.Some? && current.value == large && large != Targeted
    then if watches < max * 8 / 10 then Targeted else large
    else if watches > max then large else Targeted
  }

  /** Above the limit the large-scale mode is asked for, well below it the targeted one, and in between whichever of the
      two there is, or the targeted one to begin with. */
  lemma ModeFollows(max: nat, large: Mode, current: Option<Mode>, watches: nat)
    requires large != Targeted && (current.Some? ==> current.value == large || current.value == Targeted)
    ensures watches > max ==> DesiredMode(max, large, current, watches) == large
    ensures 10 * (watches + 1) <= 8 * max ==> DesiredMode(max, large, current, watches) == Targeted
    ensures watches <= max && 10 * (watches + 1) > 8 * max ==>
              DesiredMode(max, large, current, watches) == if current.Some? then current.value else Targeted
  {
  }

  /** The mode after watching the list go through `counts`. */
  function ModeAfter(max: nat, large: Mode, first: Mode, counts: seq<nat>): Mode {
    if counts == [] then first
    else DesiredMode(max, large, Some(ModeAfter(max, large, first, counts[..|counts| - 1])), counts[|counts| - 1])
  }

  function Switches(max: nat, large: Mode, first: Mode, counts: seq<nat>): nat {
    if counts == [] then 0
    else
      var front := counts[..|counts| - 1];
      Switches(max, large, first, front)
      + if ModeAfter(max, large, first, counts) != ModeAfter(max, large, first, front) then 1 else 0
  }

  function Apart(a: nat, b: nat): nat {
    if a <= b then b - a else a - b
  }

  /** How much the list moved in all. */
  function Variation(counts: seq<nat>): nat {
    if |counts| < 2 then 0
    else Variation(counts[..|counts| - 1]) + Apart(counts[|counts| - 2], counts[|counts| - 1])
  }

  /** Distance between the two limits, in entries. */
  function Band(max: nat): nat {
    max - max * 8 / 10 + 2
  }

  /** What the list has moved since the last switch at the least. */
  function Since(max: nat, mode: Mode, large: Mode, count: nat): nat {
    if mode == large then if count <= max then max + 1 - count else 0
    else if count >= max * 8 / 10 then count + 1 - max * 8 / 10 else 0
  }

  lemma OneCount(max: nat, large: Mode, mode: Mode, before: nat, count: nat)
    requires large != Targeted && (mode == large || mode == Targeted)
    ensures var mode' := DesiredMode(max, large, Some(mode), count);
            && (mode' == large || mode' == Targeted)
            && (mode' == mode ==>
                  Since(max, mode, large, count) <= Since(max, mode, large, before) + Apart(before, count))
            && (mode' != mode ==> Since(max, mode', large, count) == 0
                                  && Band(max) <= Since(max, mode, large, before) + Apart(before, count))
  {
  }

  predicate Earned(max: nat, large: Mode, mode: Mode, k: nat, count: nat, moved: nat) {
    && (mode == large || mode == Targeted)
    && (k > 0 ==> (k - 1) * Band(max) + Since(max, mode, large, count) <= moved)
  }

  lemma Accrue(k: nat, band: nat, since: nat, gap: nat, moved: nat)
    requires k > 0 && (k - 1) * band + since <= moved
    ensures band <= since + gap ==> k * band <= moved + gap
  {
    assert k * band == (k - 1) * band + band;
  }

  lemma EarnedOn(max: nat, large: Mode, mode: Mode, k: nat, before: nat, count: nat, moved: nat)
    requires large != Targeted && Earned(max, large, mode, k, before, moved)
    ensures var mode' := DesiredMode(max, large, Some(mode), count);
            Earned(max, large, mode', if mode' != mode then k + 1 else k, count, moved + Apart(before, count))
  {
    OneCount(max, large, mode, before, count);
    if k > 0 {
      Accrue(k, Band(max), Since(max, mode, large, before), Apart(before, count), moved);
    }
  }

  /** No flapping: k switches force the list to have moved by at least k - 1 times the width of the band. */
  lemma {:induction false} SwitchesNeedMovement(max: nat, large: Mode, first: Mode, counts: seq<nat>)
    requires large != Targeted && (first == large || first == Targeted) && counts != []
    ensures Earned(max, large, ModeAfter(max, large, first, counts), Switches(max, large, first, counts),
                   counts[|counts| - 1], Variation(counts))
    ensures var k := Switches(max, large, first, counts); k > 0 ==> (k - 1) * Band(max) <= Variation(counts)
  {
    var n := |counts| - 1;
    var front := counts[..n];
    if n == 0 {
      assert front == [];
      OneCount(max, large, first, counts[0], counts[0]);
    } else {
      SwitchesNeedMovement(max, large, first, front);
      EarnedOn(max, large, ModeAfter(max, large, first, front), Switches(max, large, first, front),
               counts[n - 1], counts[n], Variation(front));
    }
  }

  /** Inside the band in which the mode stays. */
  predicate Within(max: nat, count: nat) {
    count <= max && 10 * (count + 1) > 8 * max
  }

  /** The mode is decided by the last count outside the band. */
  lemma {:induction false} LastCrossingDecides(max: nat, large: Mode, first: Mode, counts: seq<nat>, i: nat)
    requires large != Targeted && (first == large || first == Targeted)
    requires i < |counts| && !Within(max, counts[i]) && forall j :: i < j < |counts| ==> Within(max, counts[j])
    ensures ModeAfter(max, large, first, counts) == if counts[i] > max then large else Targeted
  {
    var n := |counts| - 1;
    KnownMode(max, large, first, counts[..n]);
    if i < n {
      LastCrossingDecides(max, large, first, counts[..n], i);
    }
    ModeFollows(max, large, Some(ModeAfter(max, large, first, counts[..n])), counts[n]);
  }

  lemma {:induction false} KnownMode(max: nat, large: Mode, first: Mode, counts: seq<nat>)
    requires first == large || first == Targeted
    ensures ModeAfter(max, large, first, counts) == large || ModeAfter(max, large, first, counts) == Targeted
  {
    if counts != [] {
      KnownMode(max, large, first, counts[..|counts| - 1]);
    }
  }
}
