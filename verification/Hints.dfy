/** Enumerating the addresses of a hint server set by priority, then by shuffle. */
module Hints {
  import opened Wire
  import opened Selection
  import opened Shuffle

  /** struct dns_hints_soa: the priorities of its addresses, as unsigned 32-bit integers. */
  type Priorities = p: seq<int> | |p| < 0x1_0000 && forall i :: 0 <= i < |p| ==> 0 <= p[i] < 0x1_0000_0000

  const HALF := 0x8000_0000

  /** An unsigned difference stored in a signed int. */
  function Signed(x: int): int {
    (x + HALF) % 0x1_0000_0000 - HALF
  }

  /** dns_hints_i_cmp. */
  function Cmp(p: Priorities, seed: nat, a: nat, b: nat): int
    requires a < |p| && b < |p|
  {
    var d := Signed(p[a] - p[b]);
    if d != 0 then d else Shuffle16(a, seed) - Shuffle16(b, seed)
  }

  ghost function Addresses(p: Priorities): nat -> bool {
    (a: nat) => a < |p|
  }

  function KeyOf(p: Priorities, seed: nat, a: nat): int {
    if a < |p| then 0x1_0000 * p[a] + Shuffle16(a, seed) else -1
  }

  ghost function Key(p: Priorities, seed: nat): nat -> int {
    (a: nat) => KeyOf(p, seed, a)
  }

  function Found(p: Priorities, a: nat): Option<nat> {
    if a < |p| then Some(a) else None
  }

  lemma KeysDiffer(p: Priorities, seed: nat)
    ensures Keyed(Addresses(p), Key(p, seed))
  {
    hide Shuffle16;
    forall a: nat, b: nat | a < |p| && b < |p| && KeyOf(p, seed, a) == KeyOf(p, seed, b)
      ensures a == b
    {
      ShuffleInjective(a, b, seed);
    }
  }

  /**
   * The comparison is the order by priority, then shuffle, of addresses less than 2 ** 31 apart; exactly that
   * far apart either of two compares as the smaller one, and beyond it the larger one does.
   */
  lemma CmpSign(p: Priorities, seed: nat, a: nat, b: nat)
    requires a < |p| && b < |p|
    ensures var d, ka, kb := p[a] - p[b], KeyOf(p, seed, a), KeyOf(p, seed, b);
      && (-HALF < d < HALF ==> (Cmp(p, seed, a, b) < 0 <==> ka < kb) && (Cmp(p, seed, a, b) > 0 <==> ka > kb))
      && (d == HALF || d == -HALF || d > HALF ==> Cmp(p, seed, a, b) < 0)
      && (d < -HALF ==> Cmp(p, seed, a, b) > 0)
  {
    hide Shuffle16;
  }

  // ---- The two searches -----------------------------------------------------------------------

  ghost function StartFrom(p: Priorities, seed: nat, q: nat, p0: nat): (r: nat)
    requires p0 < |p|
    ensures r < |p| && (r == p0 || r >= q)
    decreases |p| - q
  {
    if q >= |p| then p0 else StartFrom(p, seed, q + 1, if Cmp(p, seed, q, p0) < 0 then q else p0)
  }

  ghost function StartOf(p: Priorities, seed: nat): nat {
    if |p| == 0 then 0 else StartFrom(p, seed, 1, 0)
  }

  /** dns_hints_i_start. */
  method Start(p: Priorities, seed: nat) returns (p0: nat)
    ensures p0 == StartOf(p, seed)
    ensures Orderly(p, seed) ==> Shows(Addresses(p), Key(p, seed), -1, Found(p, p0))
  {
    hide Shuffle16, Cmp, Orderly, Shows;
    p0 := 0;
    var q := 1;
    while q < |p|
      invariant 1 <= q && (p0 == 0 || p0 < |p|)
      invariant |p| > 0 ==> StartFrom(p, seed, q, p0) == StartOf(p, seed)
    {
      if Cmp(p, seed, q, p0) < 0 {
        p0 := q;
      }
      q := q + 1;
    }
    if Orderly(p, seed) {
      OrderlyFaithful(p, seed);
    }
  }

  ghost function FirstAbove(p: Priorities, seed: nat, p0: nat, z: nat): nat
    requires p0 < |p|
    decreases |p| - z
  {
    if z >= |p| then |p| else if Cmp(p, seed, z, p0) > 0 then z else FirstAbove(p, seed, p0, z + 1)
  }

  ghost function SkipFrom(p: Priorities, seed: nat, p0: nat, pz: nat, q: nat): nat
    requires p0 < |p| && pz < |p|
    decreases |p| - q
  {
    if q >= |p| then pz
    else SkipFrom(p, seed, p0, if Cmp(p, seed, q, p0) > 0 && Cmp(p, seed, q, pz) < 0 then q else pz, q + 1)
  }

  ghost function SkipOf(p: Priorities, seed: nat, p0: nat): nat
    requires p0 < |p|
  {
    var z := FirstAbove(p, seed, p0, 0);
    if z >= |p| then |p| else SkipFrom(p, seed, p0, z, z + 1)
  }

  /** dns_hints_i_skip. */
  method Skip(p: Priorities, seed: nat, p0: nat) returns (pz: nat)
    requires p0 < |p|
    ensures pz == SkipOf(p, seed, p0)
    ensures Orderly(p, seed) ==> Shows(Addresses(p), Key(p, seed), KeyOf(p, seed, p0), Found(p, pz))
  {
    hide Shuffle16, Cmp, Orderly, Shows, KeyOf;
    pz := 0;
    while pz < |p|
      invariant pz <= |p| && FirstAbove(p, seed, p0, pz) == FirstAbove(p, seed, p0, 0)
    {
      if Cmp(p, seed, pz, p0) > 0 {
        break;
      }
      pz := pz + 1;
    }
    if pz < |p| {
      var q := pz + 1;
      while q < |p|
        invariant pz < q && pz < |p| && SkipFrom(p, seed, p0, pz, q) == SkipOf(p, seed, p0)
      {
        if Cmp(p, seed, q, p0) > 0 && Cmp(p, seed, q, pz) < 0 {
          pz := q;
        }
        q := q + 1;
      }
    }
    if Orderly(p, seed) {
      OrderlyFaithful(p, seed);
    }
  }

  // ---- When they keep to the order --------------------------------------------------------------

  /** The two searches find the smallest key, and the next larger one or that there is none. */
  ghost predicate Faithful(p: Priorities, seed: nat) {
    && Shows(Addresses(p), Key(p, seed), -1, Found(p, StartOf(p, seed)))
    && forall a: nat :: a < |p| ==> Shows(Addresses(p), Key(p, seed), KeyOf(p, seed, a), Found(p, SkipOf(p, seed, a)))
  }

  /** No two priorities are more than 2 ** 31 apart. */
  ghost predicate Spanned(p: Priorities) {
    forall a, z :: 0 <= a < |p| && 0 <= z < |p| ==> p[z] - p[a] <= HALF
  }

  ghost predicate IsLeast(p: Priorities, seed: nat, a: nat) {
    a < |p| && forall d: nat :: d < |p| ==> KeyOf(p, seed, a) <= KeyOf(p, seed, d)
  }

  /** An address `z` lies exactly 2 ** 31 above `a`. */
  ghost predicate Opposite(p: Priorities, a: nat, z: nat) {
    a < |p| && z < |p| && p[z] - p[a] == HALF
  }

  /**
   * Priorities are less than 2 ** 31 apart; or some are exactly that far apart, but others lie between, and the
   * address that comes first by priority and shuffle stands behind all of the highest priority in the list.
   */
  ghost predicate Orderly(p: Priorities, seed: nat) {
    && Spanned(p)
    && forall a: nat, z: nat :: Opposite(p, a, z) ==>
        && (exists m: nat :: m < |p| && p[a] < p[m] < p[z])
        && (IsLeast(p, seed, a) ==> z < a)
  }

  // Sufficient

  /** The address with the least key above `lo`. */
  ghost predicate Next(p: Priorities, seed: nat, lo: int, c: nat) {
    && c < |p| && KeyOf(p, seed, c) > lo
    && forall d: nat :: d < |p| && KeyOf(p, seed, d) > lo ==> KeyOf(p, seed, c) <= KeyOf(p, seed, d)
  }

  /** What a search among the addresses that compare larger than `p0` needs. */
  ghost predicate Sorted(p: Priorities, seed: nat, p0: nat)
    requires p0 < |p|
  {
    && (forall q: nat :: q < |p| && Cmp(p, seed, q, p0) > 0 ==> KeyOf(p, seed, q) > KeyOf(p, seed, p0))
    && (forall q: nat, r: nat :: q < |p| && r < |p| && Cmp(p, seed, q, p0) > 0 && Cmp(p, seed, r, p0) > 0 ==>
        (Cmp(p, seed, q, r) < 0 <==> KeyOf(p, seed, q) < KeyOf(p, seed, r)))
    && (forall q: nat :: Next(p, seed, KeyOf(p, seed, p0), q) ==> Cmp(p, seed, q, p0) > 0)
  }

  lemma {:induction false} FirstIs(p: Priorities, seed: nat, p0: nat, z: nat)
    requires p0 < |p|
    ensures var r := FirstAbove(p, seed, p0, z);
      && (r < |p| ==> Cmp(p, seed, r, p0) > 0 && r >= z)
      && forall q: nat :: z <= q < |p| && q < r ==> Cmp(p, seed, q, p0) <= 0
    decreases |p| - z
  {
    hide Shuffle16, Cmp;
    if z < |p| {
      FirstIs(p, seed, p0, z + 1);
    }
  }

  lemma SortedPair(p: Priorities, seed: nat, p0: nat, q: nat, r: nat)
    requires p0 < |p| && Sorted(p, seed, p0) && q < |p| && r < |p|
    requires Cmp(p, seed, q, p0) > 0 && Cmp(p, seed, r, p0) > 0
    ensures KeyOf(p, seed, q) > KeyOf(p, seed, p0)
    ensures Cmp(p, seed, q, r) < 0 <==> KeyOf(p, seed, q) < KeyOf(p, seed, r)
  {
    hide Shuffle16, Cmp, KeyOf;
  }

  /** The fold keeps the least key among those that compare larger. */
  lemma {:induction false} SkipIs(p: Priorities, seed: nat, p0: nat, pz: nat, q: nat)
    requires p0 < |p| && pz < |p| && Sorted(p, seed, p0) && Cmp(p, seed, pz, p0) > 0
    requires forall d: nat :: d < |p| && d < q && Cmp(p, seed, d, p0) > 0 ==> KeyOf(p, seed, pz) <= KeyOf(p, seed, d)
    ensures var r := SkipFrom(p, seed, p0, pz, q);
      && r < |p| && KeyOf(p, seed, r) > KeyOf(p, seed, p0)
      && forall d: nat :: d < |p| && Cmp(p, seed, d, p0) > 0 ==> KeyOf(p, seed, r) <= KeyOf(p, seed, d)
    decreases |p| - q
  {
    hide Shuffle16, Cmp, KeyOf, Sorted;
    SortedPair(p, seed, p0, pz, pz);
    if q < |p| {
      if Cmp(p, seed, q, p0) > 0 {
        SortedPair(p, seed, p0, q, pz);
      }
      SkipIs(p, seed, p0, if Cmp(p, seed, q, p0) > 0 && Cmp(p, seed, q, pz) < 0 then q else pz, q + 1);
    }
  }

  lemma {:induction false} LeastAbove(p: Priorities, seed: nat, lo: int, n: nat) returns (c: Option<nat>)
    requires n <= |p|
    ensures c.None? ==> forall d: nat :: d < n ==> KeyOf(p, seed, d) <= lo
    ensures c.Some? ==> c.value < n && KeyOf(p, seed, c.value) > lo
    ensures c.Some? ==> forall d: nat :: d < n && KeyOf(p, seed, d) > lo ==>
      KeyOf(p, seed, c.value) <= KeyOf(p, seed, d)
    ensures c.Some? && n == |p| ==> Next(p, seed, lo, c.value)
    decreases n
  {
    hide Shuffle16, KeyOf;
    if n == 0 {
      c := None;
    } else {
      c := LeastAbove(p, seed, lo, n - 1);
      if KeyOf(p, seed, n - 1) > lo && (c.None? || KeyOf(p, seed, n - 1) < KeyOf(p, seed, c.value)) {
        c := Some(n - 1);
      }
    }
  }

  lemma SortedShows(p: Priorities, seed: nat, p0: nat)
    requires p0 < |p| && Sorted(p, seed, p0)
    ensures Shows(Addresses(p), Key(p, seed), KeyOf(p, seed, p0), Found(p, SkipOf(p, seed, p0)))
  {
    hide Shuffle16, Cmp, KeyOf, Sorted, Next;
    FirstIs(p, seed, p0, 0);
    var z := FirstAbove(p, seed, p0, 0);
    var c := LeastAbove(p, seed, KeyOf(p, seed, p0), |p|);
    if c.Some? {
      NextSeen(p, seed, p0, c.value);
      SkipIs(p, seed, p0, z, z + 1);
      NextToo(p, seed, p0, c.value, SkipOf(p, seed, p0));
      NextShows(p, seed, KeyOf(p, seed, p0), SkipOf(p, seed, p0));
    } else {
      NoneSeen(p, seed, p0);
      NoneShows(p, seed, KeyOf(p, seed, p0));
    }
  }

  lemma NextSeen(p: Priorities, seed: nat, p0: nat, c: nat)
    requires p0 < |p| && Sorted(p, seed, p0) && Next(p, seed, KeyOf(p, seed, p0), c)
    ensures Cmp(p, seed, c, p0) > 0
  {
    hide Shuffle16, Cmp, KeyOf;
  }

  lemma NoneSeen(p: Priorities, seed: nat, p0: nat)
    requires p0 < |p| && Sorted(p, seed, p0) && forall d: nat :: d < |p| ==> KeyOf(p, seed, d) <= KeyOf(p, seed, p0)
    ensures FirstAbove(p, seed, p0, 0) >= |p|
  {
    hide Shuffle16, Cmp, KeyOf;
    FirstIs(p, seed, p0, 0);
  }

  lemma NextToo(p: Priorities, seed: nat, p0: nat, c: nat, r: nat)
    requires p0 < |p| && Next(p, seed, KeyOf(p, seed, p0), c)
    requires r < |p| && KeyOf(p, seed, p0) < KeyOf(p, seed, r) <= KeyOf(p, seed, c)
    ensures Next(p, seed, KeyOf(p, seed, p0), r)
  {
    hide Shuffle16, KeyOf;
  }

  lemma NextShows(p: Priorities, seed: nat, lo: int, c: nat)
    requires Next(p, seed, lo, c)
    ensures NextAbove(Addresses(p), Key(p, seed), lo, c)
  {
    hide Shuffle16, KeyOf;
  }

  lemma NoneShows(p: Priorities, seed: nat, lo: int)
    requires forall d: nat :: d < |p| ==> KeyOf(p, seed, d) <= lo
    ensures NoneAbove(Addresses(p), Key(p, seed), lo)
  {
    hide Shuffle16, KeyOf;
  }

  lemma OrderlySorted(p: Priorities, seed: nat, p0: nat)
    requires p0 < |p| && Orderly(p, seed)
    ensures Sorted(p, seed, p0)
  {
    hide Shuffle16, Cmp;
    forall q: nat | q < |p| && Cmp(p, seed, q, p0) > 0
      ensures KeyOf(p, seed, q) > KeyOf(p, seed, p0) && !Opposite(p, p0, q)
    {
      CmpSign(p, seed, q, p0);
    }
    forall q: nat, r: nat | q < |p| && r < |p| && Cmp(p, seed, q, p0) > 0 && Cmp(p, seed, r, p0) > 0
      ensures Cmp(p, seed, q, r) < 0 <==> KeyOf(p, seed, q) < KeyOf(p, seed, r)
    {
      CmpSign(p, seed, q, r);
      AboveTogether(p, seed, p0, q, r);
    }
    forall q: nat | Next(p, seed, KeyOf(p, seed, p0), q)
      ensures Cmp(p, seed, q, p0) > 0
    {
      NextNotOpposite(p, seed, p0, q);
      CmpSign(p, seed, q, p0);
    }
  }

  /** Two addresses that compare larger than a third are not opposite. */
  lemma AboveTogether(p: Priorities, seed: nat, p0: nat, q: nat, r: nat)
    requires p0 < |p| && q < |p| && r < |p| && Spanned(p) && Cmp(p, seed, q, p0) > 0 && Cmp(p, seed, r, p0) > 0
    ensures -HALF < p[q] - p[r] < HALF
  {
    hide Shuffle16, Cmp;
    CmpSign(p, seed, q, p0);
    CmpSign(p, seed, r, p0);
    assert p[q] - p[p0] <= HALF && p[r] - p[p0] <= HALF && p[q] - p[r] <= HALF && p[r] - p[q] <= HALF;
    KeyByPriority(p, seed, q, p0);
    KeyByPriority(p, seed, r, p0);
  }

  lemma KeyByPriority(p: Priorities, seed: nat, a: nat, b: nat)
    requires a < |p| && b < |p|
    ensures p[a] < p[b] ==> KeyOf(p, seed, a) < KeyOf(p, seed, b)
    ensures KeyOf(p, seed, a) < KeyOf(p, seed, b) ==> p[a] <= p[b]
  {
    hide Shuffle16;
  }

  lemma NextNotOpposite(p: Priorities, seed: nat, p0: nat, q: nat)
    requires p0 < |p| && Orderly(p, seed) && Next(p, seed, KeyOf(p, seed, p0), q)
    ensures -HALF < p[q] - p[p0] < HALF
  {
    hide Shuffle16;
    KeyByPriority(p, seed, q, p0);
    assert p[q] - p[p0] <= HALF;
    if Opposite(p, p0, q) {
      var m: nat :| m < |p| && p[p0] < p[m] < p[q];
      KeyByPriority(p, seed, p0, m);
      KeyByPriority(p, seed, m, q);
      assert false;
    }
  }

  /** Once at the least address, the search stays there if nothing opposite follows. */
  lemma {:induction false} StartStays(p: Priorities, seed: nat, q: nat, a: nat)
    requires IsLeast(p, seed, a) && Spanned(p) && forall z: nat :: Opposite(p, a, z) ==> z < q
    ensures StartFrom(p, seed, q, a) == a
    decreases |p| - q
  {
    hide Shuffle16, Cmp, KeyOf;
    if q < |p| {
      StartStays(p, seed, q + 1, a);
      CmpSign(p, seed, q, a);
      assert p[q] - p[a] <= HALF && p[a] - p[q] <= HALF;
      LeastPriority(p, seed, a, q);
      assert !Opposite(p, a, q);
    }
  }

  lemma LeastPriority(p: Priorities, seed: nat, a: nat, q: nat)
    requires IsLeast(p, seed, a) && q < |p|
    ensures p[a] <= p[q] && KeyOf(p, seed, a) <= KeyOf(p, seed, q)
  {
    hide Shuffle16;
  }

  /** The search reaches the least address, and moves to it from any other. */
  lemma {:induction false} StartReaches(p: Priorities, seed: nat, q: nat, p0: nat, a: nat)
    requires p0 < |p| && IsLeast(p, seed, a) && Spanned(p) && (p0 == a < q || a >= q)
    requires forall z: nat :: Opposite(p, a, z) ==> z < a
    ensures StartFrom(p, seed, q, p0) == a
    decreases |p| - q
  {
    hide Shuffle16, Cmp, KeyOf, Keyed;
    if p0 == a < q {
      StartStays(p, seed, q, a);
    } else if q == a {
      if p0 != a {
        CmpSign(p, seed, a, p0);
        LeastPriority(p, seed, a, p0);
        KeysDiffer(p, seed);
        OtherKey(p, seed, a, p0);
        assert p[a] - p[p0] <= HALF && p[p0] - p[a] <= HALF;
      }
      CmpSign(p, seed, a, a);
      StartReaches(p, seed, q + 1, a, a);
    } else {
      StartReaches(p, seed, q + 1, if Cmp(p, seed, q, p0) < 0 then q else p0, a);
    }
  }

  lemma OtherKey(p: Priorities, seed: nat, a: nat, b: nat)
    requires Keyed(Addresses(p), Key(p, seed)) && a < |p| && b < |p| && a != b
    ensures KeyOf(p, seed, a) != KeyOf(p, seed, b)
  {
    hide Shuffle16, KeyOf;
    assert Addresses(p)(a) && Addresses(p)(b) && Key(p, seed)(a) == KeyOf(p, seed, a)
      && Key(p, seed)(b) == KeyOf(p, seed, b);
  }

  lemma LeastShows(p: Priorities, seed: nat, a: nat)
    requires IsLeast(p, seed, a)
    ensures Shows(Addresses(p), Key(p, seed), -1, Some(a))
  {
    hide Shuffle16;
  }

  lemma OrderlyFaithful(p: Priorities, seed: nat)
    requires Orderly(p, seed)
    ensures Faithful(p, seed)
  {
    hide Shuffle16, Cmp, KeyOf, Shows, Sorted, SkipOf, IsLeast;
    forall a: nat | a < |p|
      ensures Shows(Addresses(p), Key(p, seed), KeyOf(p, seed, a), Found(p, SkipOf(p, seed, a)))
    {
      OrderlySorted(p, seed, a);
      SortedShows(p, seed, a);
    }
    OrderlyStarts(p, seed);
  }

  lemma OrderlyStarts(p: Priorities, seed: nat)
    requires Orderly(p, seed)
    ensures Shows(Addresses(p), Key(p, seed), -1, Found(p, StartOf(p, seed)))
  {
    hide Shuffle16, Cmp, KeyOf;
    if |p| > 0 {
      KeysPositive(p, seed);
      var c := LeastAbove(p, seed, -1, |p|);
      assert KeyOf(p, seed, 0) > -1;
      var a := c.value;
      assert IsLeast(p, seed, a);
      StartReaches(p, seed, 0, 0, a);
      StartZero(p, seed);
      LeastShows(p, seed, a);
    }
  }

  lemma KeysPositive(p: Priorities, seed: nat)
    ensures forall d: nat :: d < |p| ==> KeyOf(p, seed, d) > -1
  {
    hide Shuffle16;
  }

  /** Comparing the first address with itself changes nothing. */
  lemma StartZero(p: Priorities, seed: nat)
    requires |p| > 0
    ensures StartFrom(p, seed, 0, 0) == StartOf(p, seed)
  {
    hide Shuffle16;
    assert Cmp(p, seed, 0, 0) == 0;
  }

  // Necessary

  lemma {:induction false} StartMissed(p: Priorities, seed: nat, q: nat, p0: nat, a: nat, z: nat)
    requires p0 < |p| && Opposite(p, a, z) && a < q <= z
    ensures StartFrom(p, seed, q, p0) != a
    decreases |p| - q
  {
    hide Shuffle16, Cmp;
    CmpSign(p, seed, z, a);
    if q < z {
      StartMissed(p, seed, q + 1, if Cmp(p, seed, q, p0) < 0 then q else p0, a, z);
    }
  }

  /** With nothing between, an address has no next one but those it cannot see. */
  lemma Blocked(p: Priorities, seed: nat, a: nat, z: nat)
    requires Spanned(p) && Opposite(p, a, z) && !(exists m: nat :: m < |p| && p[a] < p[m] < p[z])
    ensures !Faithful(p, seed)
  {
    hide Shuffle16, Cmp, Keyed;
    // the last address of the lower priority
    var last := LastOf(p, seed, p[a], a);
    assert p[z] - p[last] == HALF;
    FirstIs(p, seed, last, 0);
    var r := SkipOf(p, seed, last);
    forall q: nat | q < |p|
      ensures Cmp(p, seed, q, last) <= 0
    {
      CmpSign(p, seed, q, last);
      assert p[z] - p[q] <= HALF && p[q] - p[last] <= HALF;
      if p[q] != p[last] {
        assert !(p[a] < p[q] < p[z]);
      }
    }
    assert r == |p|;
    KeyByPriority(p, seed, last, z);
    assert Addresses(p)(z) && Key(p, seed)(z) == KeyOf(p, seed, z);
    assert !NoneAbove(Addresses(p), Key(p, seed), KeyOf(p, seed, last));
  }

  /** The address of a given priority with the largest key. */
  lemma LastOf(p: Priorities, seed: nat, v: int, a: nat) returns (last: nat)
    requires a < |p| && p[a] == v
    ensures last < |p| && p[last] == v && forall q: nat :: q < |p| && p[q] == v ==>
      KeyOf(p, seed, q) <= KeyOf(p, seed, last)
  {
    hide Shuffle16, KeyOf;
    last := a;
    for i := 0 to |p|
      invariant last < |p| && p[last] == v && forall q: nat :: q < i && p[q] == v ==>
        KeyOf(p, seed, q) <= KeyOf(p, seed, last)
    {
      if p[i] == v && KeyOf(p, seed, i) > KeyOf(p, seed, last) {
        last := i;
      }
    }
  }

  /** Beyond 2 ** 31 the largest address is followed by a smaller one. */
  lemma WideGoesOn(p: Priorities, seed: nat, a: nat, z: nat)
    requires a < |p| && z < |p| && p[z] - p[a] > HALF
    ensures !Faithful(p, seed)
  {
    hide Shuffle16, Cmp, KeyOf, Keyed;
    var top := Largest(p, seed, z);
    KeyByPriority(p, seed, top, z);
    CmpSign(p, seed, a, top);
    FirstIs(p, seed, top, 0);
    SkipSome(p, seed, top, a);
    var r := SkipOf(p, seed, top);
    assert Addresses(p)(r) && Key(p, seed)(r) == KeyOf(p, seed, r);
    assert KeyOf(p, seed, r) <= KeyOf(p, seed, top);
    assert !Shows(Addresses(p), Key(p, seed), KeyOf(p, seed, top), Found(p, r));
  }

  lemma Largest(p: Priorities, seed: nat, z: nat) returns (top: nat)
    requires z < |p|
    ensures top < |p| && forall q: nat :: q < |p| ==> KeyOf(p, seed, q) <= KeyOf(p, seed, top)
  {
    hide Shuffle16, KeyOf;
    top := z;
    for i := 0 to |p|
      invariant top < |p| && forall q: nat :: q < i ==> KeyOf(p, seed, q) <= KeyOf(p, seed, top)
    {
      if KeyOf(p, seed, i) > KeyOf(p, seed, top) {
        top := i;
      }
    }
  }

  lemma SkipSome(p: Priorities, seed: nat, p0: nat, a: nat)
    requires p0 < |p| && a < |p| && Cmp(p, seed, a, p0) > 0
    ensures SkipOf(p, seed, p0) < |p|
  {
    hide Shuffle16, Cmp;
    FirstIs(p, seed, p0, 0);
    var z := FirstAbove(p, seed, p0, 0);
    assert z <= a;
    SkipInside(p, seed, p0, z, z + 1);
  }

  lemma {:induction false} SkipInside(p: Priorities, seed: nat, p0: nat, pz: nat, q: nat)
    requires p0 < |p| && pz < |p|
    ensures SkipFrom(p, seed, p0, pz, q) < |p|
    decreases |p| - q
  {
    hide Shuffle16, Cmp;
    if q < |p| {
      SkipInside(p, seed, p0, if Cmp(p, seed, q, p0) > 0 && Cmp(p, seed, q, pz) < 0 then q else pz, q + 1);
    }
  }

  lemma Overtaken(p: Priorities, seed: nat, a: nat, z: nat)
    requires Opposite(p, a, z) && IsLeast(p, seed, a) && a < z
    ensures !Faithful(p, seed)
  {
    hide Shuffle16, Cmp, KeyOf, Keyed;
    if a == 0 {
      StartMissed(p, seed, 1, 0, a, z);
    } else {
      StartZero(p, seed);
      StartPast(p, seed, 0, 0, a, z);
    }
    var s := StartOf(p, seed);
    KeysDiffer(p, seed);
    KeysPositive(p, seed);
    OtherKey(p, seed, a, s);
    assert Addresses(p)(a) && Key(p, seed)(a) == KeyOf(p, seed, a) && Key(p, seed)(s) == KeyOf(p, seed, s);
    assert !NextAbove(Addresses(p), Key(p, seed), -1, s);
  }

  lemma {:induction false} StartPast(p: Priorities, seed: nat, q: nat, p0: nat, a: nat, z: nat)
    requires p0 < |p| && Opposite(p, a, z) && q <= a < z
    ensures StartFrom(p, seed, q, p0) != a
    decreases |p| - q
  {
    hide Shuffle16, Cmp;
    if q < a {
      StartPast(p, seed, q + 1, if Cmp(p, seed, q, p0) < 0 then q else p0, a, z);
    } else {
      StartMissed(p, seed, q + 1, if Cmp(p, seed, q, p0) < 0 then q else p0, a, z);
    }
  }

  /** The exact condition under which the searches keep to the order by priority, then shuffle. */
  lemma FaithfulIff(p: Priorities, seed: nat)
    ensures Faithful(p, seed) <==> Orderly(p, seed)
  {
    hide Faithful, Shuffle16, KeyOf, IsLeast;
    if Orderly(p, seed) {
      OrderlyFaithful(p, seed);
    } else if !Spanned(p) {
      var a: nat, z: nat :| a < |p| && z < |p| && p[z] - p[a] > HALF;
      WideGoesOn(p, seed, a, z);
    } else {
      var a: nat, z: nat :| Opposite(p, a, z)
        && !((exists m: nat :: m < |p| && p[a] < p[m] < p[z]) && (IsLeast(p, seed, a) ==> z < a));
      if exists m: nat :: m < |p| && p[a] < p[m] < p[z] {
        Overtaken(p, seed, a, z);
      } else {
        Blocked(p, seed, a, z);
      }
    }
  }

  // ---- Whole enumerations ------------------------------------------------------------------------

  function After(ys: seq<nat>, next: nat, i: nat): nat {
    if i + 1 < |ys| then ys[i + 1] else next
  }

  /** `ys` has been shown, and `next` is to be shown next. */
  ghost predicate Underway(p: Priorities, seed: nat, ys: seq<nat>, next: nat) {
    && StartOf(p, seed) == (if ys == [] then next else ys[0])
    && forall i: nat :: i < |ys| ==> ys[i] < |p| && SkipOf(p, seed, ys[i]) == After(ys, next, i)
  }

  /** From the first search to the one that finds nothing, exactly `ys` is shown. */
  ghost predicate Enumerated(p: Priorities, seed: nat, ys: seq<nat>) {
    Underway(p, seed, ys, |p|)
  }

  /** The enumeration ends, and has shown every address once, by priority and then by shuffle. */
  ghost predicate InOrder(p: Priorities, seed: nat) {
    exists ys ::
      Enumerated(p, seed, ys) && Rising(Key(p, seed), ys) && forall a: nat :: a < |p| ==> a in ys
  }

  /** What an enumeration that keeps to the order shows after `ys[i]`. */
  lemma ShownNext(p: Priorities, seed: nat, ys: seq<nat>, i: nat)
    requires Enumerated(p, seed, ys) && Rising(Key(p, seed), ys) && forall a: nat :: a < |p| ==> a in ys
    requires i < |ys|
    ensures ys[i] < |p|
    ensures Shows(Addresses(p), Key(p, seed), KeyOf(p, seed, ys[i]), Found(p, SkipOf(p, seed, ys[i])))
  {
    hide Shuffle16, KeyOf, SkipOf, StartOf;
    assert ys[i] in ys;
    forall d: nat | d < |p| && KeyOf(p, seed, d) > KeyOf(p, seed, ys[i])
      ensures i + 1 < |ys| && KeyOf(p, seed, ys[i + 1]) <= KeyOf(p, seed, d)
    {
      assert d in ys;
      var j :| 0 <= j < |ys| && ys[j] == d;
      RisingAt(Key(p, seed), ys, i, j);
      RisingAt(Key(p, seed), ys, i + 1, j);
    }
    if i + 1 < |ys| {
      assert ys[i + 1] in ys;
      RisingAt(Key(p, seed), ys, i, i + 1);
      NextShows(p, seed, KeyOf(p, seed, ys[i]), ys[i + 1]);
    } else {
      NoneShows(p, seed, KeyOf(p, seed, ys[i]));
    }
  }

  lemma RisingAt(key: nat -> int, ys: seq<nat>, i: nat, j: nat)
    requires Rising(key, ys) && j < |ys|
    ensures i < |ys| && key(ys[i]) < key(ys[j]) ==> i < j
    ensures i <= j ==> key(ys[i]) <= key(ys[j])
    ensures i < j ==> key(ys[i]) < key(ys[j])
  {
  }

  lemma InOrderFaithful(p: Priorities, seed: nat)
    requires InOrder(p, seed)
    ensures Faithful(p, seed)
  {
    hide Shuffle16, KeyOf, SkipOf, StartOf, Shows;
    var ys :| Enumerated(p, seed, ys) && Rising(Key(p, seed), ys) && forall a: nat :: a < |p| ==> a in ys;
    forall a: nat | a < |p|
      ensures Shows(Addresses(p), Key(p, seed), KeyOf(p, seed, a), Found(p, SkipOf(p, seed, a)))
    {
      assert a in ys;
      var i :| 0 <= i < |ys| && ys[i] == a;
      ShownNext(p, seed, ys, i);
    }
    ShownFirst(p, seed, ys);
  }

  lemma ShownFirst(p: Priorities, seed: nat, ys: seq<nat>)
    requires Enumerated(p, seed, ys) && Rising(Key(p, seed), ys) && forall a: nat :: a < |p| ==> a in ys
    ensures Shows(Addresses(p), Key(p, seed), -1, Found(p, StartOf(p, seed)))
  {
    hide Shuffle16, KeyOf, SkipOf, StartOf;
    KeysPositive(p, seed);
    if ys == [] {
      assert |p| == 0 || 0 in ys;
      NoneShows(p, seed, -1);
    } else {
      assert ys[0] in ys;
      forall d: nat | d < |p|
        ensures KeyOf(p, seed, ys[0]) <= KeyOf(p, seed, d)
      {
        assert d in ys;
      var j :| 0 <= j < |ys| && ys[j] == d;
        RisingAt(Key(p, seed), ys, 0, j);
      }
      NextShows(p, seed, -1, ys[0]);
    }
  }

  lemma {:induction false} CarryOn(p: Priorities, seed: nat, ys: seq<nat>, next: nat)
    requires Faithful(p, seed) && Underway(p, seed, ys, next) && next <= |p|
    requires Visited(Addresses(p), Key(p, seed), ys, Found(p, next)) && |ys| <= |p|
    ensures InOrder(p, seed)
    decreases |p| - |ys|
  {
    hide Shuffle16, KeyOf, SkipOf, StartOf, Visited, Keyed, Shows, Underway;
    if next >= |p| {
      Finished(p, seed, ys, next);
    } else {
      KeysDiffer(p, seed);
      var after := SkipOf(p, seed, next);
      SkipBound(p, seed, next);
      VisitNext(Addresses(p), Key(p, seed), ys, next, Found(p, after));
      UnderwayNext(p, seed, ys, next);
      VisitsEnd(Addresses(p), Key(p, seed), ys + [next], Found(p, after), |p|);
      CarryOn(p, seed, ys + [next], after);
    }
  }

  lemma Finished(p: Priorities, seed: nat, ys: seq<nat>, next: nat)
    requires Underway(p, seed, ys, next) && next == |p| && Visited(Addresses(p), Key(p, seed), ys, Found(p, next))
    ensures InOrder(p, seed)
  {
    hide Shuffle16, KeyOf, SkipOf, StartOf, Rising;
    assert Enumerated(p, seed, ys);
    assert forall a: nat :: a < |p| ==> Addresses(p)(a) && a in ys;
  }

  lemma UnderwayNext(p: Priorities, seed: nat, ys: seq<nat>, next: nat)
    requires Underway(p, seed, ys, next) && next < |p|
    ensures Underway(p, seed, ys + [next], SkipOf(p, seed, next))
  {
    hide Shuffle16, SkipOf, StartOf;
    var zs, after := ys + [next], SkipOf(p, seed, next);
    forall i: nat | i < |zs|
      ensures zs[i] < |p| && SkipOf(p, seed, zs[i]) == After(zs, after, i)
    {
      if i < |ys| {
        assert zs[i] == ys[i] && After(zs, after, i) == After(ys, next, i);
      }
    }
  }

  lemma SkipBound(p: Priorities, seed: nat, p0: nat)
    requires p0 < |p|
    ensures SkipOf(p, seed, p0) <= |p|
  {
    hide Shuffle16, Cmp;
    var z := FirstAbove(p, seed, p0, 0);
    if z < |p| {
      SkipInside(p, seed, p0, z, z + 1);
    }
  }

  /** The exact condition under which an enumeration shows every address once, in the promised order. */
  lemma InOrderIff(p: Priorities, seed: nat)
    ensures InOrder(p, seed) <==> Orderly(p, seed)
  {
    hide Shuffle16, KeyOf, SkipOf, StartOf, Visited, Keyed, Orderly, InOrder, Shows;
    FaithfulIff(p, seed);
    if InOrder(p, seed) {
      InOrderFaithful(p, seed);
    }
    if Orderly(p, seed) {
      KeysDiffer(p, seed);
      StartVisit(Addresses(p), Key(p, seed), Found(p, StartOf(p, seed)));
      StartBound(p, seed);
      CarryOn(p, seed, [], StartOf(p, seed));
    }
  }

  lemma StartBound(p: Priorities, seed: nat)
    ensures StartOf(p, seed) <= |p|
  {
    hide Shuffle16, Cmp;
  }

  // ---- The iterator ------------------------------------------------------------------------------

  /** struct dns_hints_i over one server set; `shown` lists the addresses it has returned. */
  class HintIterator {
    const seed: nat
    var next: nat
    ghost var shown: seq<nat>

    ghost predicate Over(p: Priorities)
      reads this
    {
      Visited(Addresses(p), Key(p, seed), shown, Found(p, next))
    }

    /** dns_hints_i_init. */
    constructor (p: Priorities, seed: nat)
      ensures this.seed == seed && shown == [] && next == StartOf(p, seed)
      ensures Orderly(p, seed) ==> Over(p)
    {
      this.seed := seed;
      var p0 := Start(p, seed);
      next := p0;
      shown := [];
      new;
      hide Visited, Shuffle16, Orderly, StartOf, Shows;
      KeysDiffer(p, seed);
      if Orderly(p, seed) {
        StartVisit(Addresses(p), Key(p, seed), Found(p, next));
      }
    }

    /** dns_hints_grep. */
    method Grep(p: Priorities, lim: nat) returns (out: seq<nat>)
      modifies this`next, this`shown
      ensures |out| <= lim && (|out| < lim ==> next >= |p|) && shown == old(shown) + out
      ensures Orderly(p, seed) && old(Over(p)) ==> Over(p)
    {
      hide Visited, Orderly, Shuffle16, Keyed, SkipOf, Shows, StartOf;
      KeysDiffer(p, seed);
      out := [];
      while next < |p| && |out| < lim
        invariant |out| <= lim && shown == old(shown) + out
        invariant Orderly(p, seed) && old(Over(p)) ==> Over(p)
        decreases lim - |out|
      {
        var after := Skip(p, seed, next);
        if Orderly(p, seed) && old(Over(p)) {
          VisitNext(Addresses(p), Key(p, seed), shown, next, Found(p, after));
        }
        out, shown, next := out + [next], shown + [next], after;
      }
    }
  }

  /** A smaller priority comes first, and among equal ones the smaller shuffled number. */
  ghost predicate Precedes(p: Priorities, seed: nat, a: nat, b: nat) {
    && a < |p| && b < |p|
    && (p[a] < p[b] || (p[a] == p[b] && Shuffle16(a, seed) < Shuffle16(b, seed)))
  }

  lemma KeyPrecedes(p: Priorities, seed: nat, a: nat, b: nat)
    requires a < |p| && b < |p| && KeyOf(p, seed, a) < KeyOf(p, seed, b)
    ensures Precedes(p, seed, a, b)
  {
    hide Shuffle16;
  }

  /** An exhausted iterator has shown every address exactly once, by priority and then by shuffle. */
  lemma Complete(it: HintIterator, p: Priorities)
    requires it.Over(p)
    ensures forall i, j :: 0 <= i < j < |it.shown| ==> Precedes(p, it.seed, it.shown[i], it.shown[j])
    ensures |it.shown| <= |p|
    ensures it.next >= |p| ==> forall a: nat :: a in it.shown <==> a < |p|
  {
    hide Shuffle16, KeyOf, Precedes;
    VisitsEnd(Addresses(p), Key(p, it.seed), it.shown, Found(p, it.next), |p|);
    forall i, j | 0 <= i < j < |it.shown|
      ensures Precedes(p, it.seed, it.shown[i], it.shown[j])
    {
      assert it.shown[i] in it.shown && it.shown[j] in it.shown;
      assert Key(p, it.seed)(it.shown[i]) < Key(p, it.seed)(it.shown[j]);
      KeyPrecedes(p, it.seed, it.shown[i], it.shown[j]);
    }
  }
}
