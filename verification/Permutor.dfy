/**
 * The permutation generator that hands out query ids: a Feistel network around TEA, stepped
 * until its output falls into the wanted range.
 */
module Permutor {
  import opened Lists

  // ---- Arithmetic ------------------------------------------------------------------

  function Pow2(n: nat): (r: nat)
    ensures r > 0
  {
    if n == 0 then 1 else 2 * Pow2(n - 1)
  }

  lemma {:induction false} Pow2Add(a: nat, b: nat)
    ensures Pow2(a + b) == Pow2(a) * Pow2(b)
    decreases b
  {
    if b > 0 {
      Pow2Add(a, b - 1);
      assert Pow2(a) * Pow2(b) == 2 * (Pow2(a) * Pow2(b - 1));
    }
  }

  lemma {:induction false} Pow2Grows(a: nat, b: nat)
    requires a <= b
    ensures Pow2(a) <= Pow2(b)
    decreases b
  {
    if a < b {
      Pow2Grows(a, b - 1);
    }
  }

  function Xor(a: nat, b: nat): nat {
    if a == 0 && b == 0 then 0 else (a + b) % 2 + 2 * Xor(a / 2, b / 2)
  }

  lemma Bits(c: nat, t: nat)
    requires c < 2
    ensures (c + 2 * t) % 2 == c && (c + 2 * t) / 2 == t
  {
  }

  lemma {:induction false} XorBits(a: nat, b: nat)
    ensures Xor(a, b) % 2 == (a + b) % 2 && Xor(a, b) / 2 == Xor(a / 2, b / 2)
  {
    if a != 0 || b != 0 {
      var t := Xor(a / 2, b / 2);
      assert Xor(a, b) == (a + b) % 2 + 2 * t;
      hide Xor;
      Bits((a + b) % 2, t);
    }
  }

  lemma SameBit(a: nat, b: nat, x: nat)
    requires x % 2 == (a + b) % 2
    ensures (x + b) % 2 == a % 2
  {
  }

  lemma {:induction false} XorTwice(a: nat, b: nat)
    ensures Xor(Xor(a, b), b) == a
    decreases a + b
  {
    if a != 0 || b != 0 {
      hide Xor;
      XorTwice(a / 2, b / 2);
      XorBits(a, b);
      XorBits(Xor(a, b), b);
      SameBit(a, b, Xor(a, b));
    }
  }

  lemma {:induction false} XorBound(a: nat, b: nat, n: nat)
    requires a < Pow2(n) && b < Pow2(n)
    ensures Xor(a, b) < Pow2(n)
    decreases n
  {
    if n > 0 {
      XorBound(a / 2, b / 2, n - 1);
    }
  }

  // ---- The network -----------------------------------------------------------------

  /** Two halves of `shift` bits, how often they change places, and what mixes one into the other. */
  datatype Net = Net(shift: nat, rounds: nat, f: (nat, nat) -> nat) {
    function Half(): (h: nat) ensures h > 0 { Pow2(shift) }

    function Size(): (n: nat) ensures n > 0 {
      assert Half() * Half() > 0 by { Positive(Half(), Half()); }
      Half() * Half()
    }

    /** Round functions stay within a half. */
    ghost predicate Valid() {
      forall k, x :: f(k, x) < Half()
    }

    function Left(n: nat): (l: nat) ensures l < Half() { (n / Half()) % Half() }

    function Right(n: nat): (r: nat) ensures r < Half() { n % Half() }

    function Join(h: (nat, nat)): nat { h.0 * Half() + h.1 }

    function Round(i: nat, h: (nat, nat)): (nat, nat) {
      (h.1, Xor(h.0, f(i, h.1)))
    }

    function Unround(i: nat, h: (nat, nat)): (nat, nat) {
      (Xor(h.1, f(i, h.0)), h.0)
    }

    /** Rounds 0 up to `i`. */
    function Forth(i: nat, h: (nat, nat)): (nat, nat) {
      if i == 0 then h else Round(i - 1, Forth(i - 1, h))
    }

    /** Rounds `i` down to 0, undone. */
    function Back(i: nat, h: (nat, nat)): (nat, nat) {
      if i == 0 then h else Back(i - 1, Unround(i - 1, h))
    }

    function E(n: nat): nat { Join(Forth(rounds, (Left(n), Right(n)))) }

    function D(n: nat): nat { Join(Back(rounds, (Left(n), Right(n)))) }
  }

  lemma Positive(a: nat, b: nat)
    requires a > 0 && b > 0
    ensures a * b > 0
  {
  }

  predicate Within(net: Net, h: (nat, nat)) {
    h.0 < net.Half() && h.1 < net.Half()
  }

  lemma RoundBack(net: Net, i: nat, h: (nat, nat))
    requires net.Valid() && Within(net, h)
    ensures Within(net, net.Round(i, h)) && net.Unround(i, net.Round(i, h)) == h
    ensures Within(net, net.Unround(i, h)) && net.Round(i, net.Unround(i, h)) == h
  {
    XorTwice(h.0, net.f(i, h.1));
    XorTwice(h.1, net.f(i, h.0));
    XorBound(h.0, net.f(i, h.1), net.shift);
    XorBound(h.1, net.f(i, h.0), net.shift);
  }

  lemma {:induction false} ForthBack(net: Net, i: nat, h: (nat, nat))
    requires net.Valid() && Within(net, h)
    ensures Within(net, net.Forth(i, h)) && net.Back(i, net.Forth(i, h)) == h
  {
    if i > 0 {
      ForthBack(net, i - 1, h);
      RoundBack(net, i - 1, net.Forth(i - 1, h));
    }
  }

  lemma {:induction false} BackForth(net: Net, i: nat, h: (nat, nat))
    requires net.Valid() && Within(net, h)
    ensures Within(net, net.Back(i, h)) && net.Forth(i, net.Back(i, h)) == h
  {
    if i > 0 {
      RoundBack(net, i - 1, h);
      BackForth(net, i - 1, net.Unround(i - 1, h));
    }
  }

  // ---- Splitting and joining ---------------------------------------------------------

  lemma SmallMultiple(d: int, h: nat)
    requires 0 - h < d * h < h
    ensures d == 0
  {
    assert d >= 1 ==> d * h >= h;
    assert d <= -1 ==> d * h <= 0 - h;
  }

  lemma DivUnique(q: nat, r: nat, h: nat)
    requires r < h
    ensures (q * h + r) / h == q && (q * h + r) % h == r
  {
    var n := q * h + r;
    var d := n / h - q;
    assert n == (n / h) * h + n % h;
    assert d * h == r - n % h by { assert d * h == (n / h) * h - q * h; }
    SmallMultiple(d, h);
  }

  lemma MulLe(a: nat, b: nat, h: nat)
    requires a <= b
    ensures a * h <= b * h
  {
  }

  /** Putting two halves together and taking them apart. */
  lemma Halves(l: nat, r: nat, h: nat)
    requires l < h && r < h
    ensures ((l * h + r) / h) % h == l && (l * h + r) % h == r && l * h + r < h * h
  {
    DivUnique(l, r, h);
    ModSmall(l, h);
    Room(l, r, h);
  }

  lemma ModSmall(l: nat, h: nat)
    requires l < h
    ensures l % h == l
  {
  }

  lemma Room(l: nat, r: nat, h: nat)
    requires l < h && r < h
    ensures l * h + r < h * h
  {
    MulLe(l + 1, h, h);
    assert (l + 1) * h == l * h + h;
  }

  lemma Digits(n: nat, h: nat)
    requires h > 0 && h * h > 0
    ensures ((n / h) % h) * h + n % h == n % (h * h)
  {
    DivMod(n, h);
    DivMod(n / h, h);
    Assemble(n, n / h, n % h, n / h / h, (n / h) % h, h);
  }

  lemma DivMod(n: nat, h: nat)
    requires h > 0
    ensures n == (n / h) * h + n % h
  {
  }

  lemma Assemble(n: nat, q: nat, r: nat, a: nat, l: nat, h: nat)
    requires h * h > 0 && n == q * h + r && q == a * h + l && l < h && r < h
    ensures n % (h * h) == l * h + r
  {
    Room(l, r, h);
    Regroup(a, h, l);
    DivUnique(a, l * h + r, h * h);
  }

  lemma Regroup(a: nat, h: nat, l: nat)
    ensures (a * h + l) * h == a * (h * h) + l * h
  {
  }

  lemma SplitJoin(net: Net, h: (nat, nat))
    requires Within(net, h)
    ensures net.Left(net.Join(h)) == h.0 && net.Right(net.Join(h)) == h.1 && net.Join(h) < net.Size()
  {
    hide Pow2;
    Halves(h.0, h.1, net.Half());
  }

  /** The halves of a number make up what remains of it below Size. */
  lemma JoinSplit(net: Net, n: nat)
    ensures net.Join((net.Left(n), net.Right(n))) == n % net.Size()
  {
    hide Pow2;
    assert net.Size() > 0;
    Digits(n, net.Half());
  }

  /** D inverts E, for every key and width. */
  lemma DInvertsE(net: Net, n: nat)
    requires net.Valid()
    ensures net.E(n) < net.Size() && net.D(net.E(n)) == n % net.Size()
  {
    hide Net.Forth, Net.Back;
    var h := (net.Left(n), net.Right(n));
    ForthBack(net, net.rounds, h);
    SplitJoin(net, net.Forth(net.rounds, h));
    JoinSplit(net, n);
  }

  /** And E inverts D. */
  lemma EInvertsD(net: Net, n: nat)
    requires net.Valid()
    ensures net.D(n) < net.Size() && net.E(net.D(n)) == n % net.Size()
  {
    hide Net.Forth, Net.Back;
    var h := (net.Left(n), net.Right(n));
    BackForth(net, net.rounds, h);
    SplitJoin(net, net.Back(net.rounds, h));
    JoinSplit(net, n);
  }

  /** E sees its argument only modulo Size. */
  lemma EPeriodic(net: Net, a: nat, b: nat)
    requires a % net.Size() == b % net.Size()
    ensures net.E(a) == net.E(b)
  {
    hide Net.Forth;
    JoinSplit(net, a);
    JoinSplit(net, b);
    SplitJoin(net, (net.Left(a), net.Right(a)));
    SplitJoin(net, (net.Left(b), net.Right(b)));
  }

  // ---- Walking through the outputs ----------------------------------------------------

  lemma ModShift(a: nat, d: int, n: nat)
    requires n > 0
    ensures 0 <= (d - a) % n < n && (a + (d - a) % n) % n == d % n
  {
    var q := (d - a) / n;
    assert d - a == q * n + (d - a) % n;
    assert a + (d - a) % n == d - q * n;
    ModPlus(d, 0 - q, n);
  }

  lemma ModPlus(d: int, q: int, n: nat)
    requires n > 0
    ensures (d + q * n) % n == d % n
  {
    var x := d + q * n;
    var e := x / n - d / n - q;
    assert x == (x / n) * n + x % n && d == (d / n) * n + d % n;
    assert e * n == d % n - x % n by { assert e * n == (x / n) * n - (d / n) * n - q * n; }
    SmallMultiple(e, n);
  }

  /** Where, from `pos` on, E first yields `v`. */
  ghost function Where(net: Net, pos: nat, v: nat): nat {
    pos + (net.D(v) - pos) % net.Size()
  }

  lemma WhereYields(net: Net, pos: nat, v: nat)
    requires net.Valid() && v < net.Size()
    ensures pos <= Where(net, pos, v) < pos + net.Size() && net.E(Where(net, pos, v)) == v
  {
    hide Net.E, Net.D, Net.Size;
    ModShift(pos, net.D(v), net.Size());
    EInvertsD(net, v);
    EPeriodic(net, Where(net, pos, v), net.D(v));
    ModSmall(v, net.Size());
  }

  /** Within Size consecutive arguments E repeats no output. */
  lemma NoRepeat(net: Net, p: nat, q: nat)
    requires net.Valid() && p < q < p + net.Size()
    ensures net.E(p) != net.E(q)
  {
    hide Net.E, Net.D, Net.Size;
    DInvertsE(net, p);
    DInvertsE(net, q);
    Apart(p, q - p, net.Size());
  }

  lemma Apart(p: nat, d: nat, n: nat)
    requires 0 < d < n
    ensures p % n != (p + d) % n
  {
    var e := (p + d) / n - p / n;
    assert p == (p / n) * n + p % n && p + d == ((p + d) / n) * n + (p + d) % n;
    assert d == e * n + ((p + d) % n - p % n) by { assert e * n == ((p + d) / n) * n - (p / n) * n; }
    if p % n == (p + d) % n {
      SmallMultiple(e, n);
    }
  }

  /** The first argument from `pos` on whose output is below `length`. */
  ghost function NextHit(net: Net, length: nat, pos: nat): (p: nat)
    requires net.Valid() && 0 < length
    ensures p >= pos && net.E(p) < length && forall q: nat :: pos <= q < p ==> net.E(q) >= length
    decreases Where(net, pos, 0) - pos
  {
    WhereYields(net, pos, 0);
    if net.E(pos) < length then pos
    else
      Closer(net, pos);
      NextHit(net, length, pos + 1)
  }

  lemma Closer(net: Net, pos: nat)
    requires net.Valid() && net.E(pos) != 0
    ensures Where(net, pos + 1, 0) - (pos + 1) < Where(net, pos, 0) - pos
  {
    hide Net.E, Net.D, Net.Size;
    WhereYields(net, pos, 0);
    WhereYields(net, pos + 1, 0);
    var w, w' := Where(net, pos, 0), Where(net, pos + 1, 0);
    if w' > w {
      NoRepeat(net, w, w');
    }
  }

  /** The next `k` outputs below `length`, in the order they come. */
  ghost function Draws(net: Net, length: nat, pos: nat, k: nat): (r: seq<nat>)
    requires net.Valid() && 0 < length
    ensures |r| == k
    decreases k
  {
    if k == 0 then []
    else
      var p := NextHit(net, length, pos);
      [net.E(p)] + Draws(net, length, p + 1, k - 1)
  }

  /** Where the draws have got to after `k` of them. */
  ghost function PosAfter(net: Net, length: nat, pos: nat, k: nat): nat
    requires net.Valid() && 0 < length
    decreases k
  {
    if k == 0 then pos else PosAfter(net, length, NextHit(net, length, pos) + 1, k - 1)
  }

  lemma {:induction false} DrawsSplit(net: Net, length: nat, pos: nat, i: nat, m: nat)
    requires net.Valid() && 0 < length
    ensures Draws(net, length, pos, i + m)
      == Draws(net, length, pos, i) + Draws(net, length, PosAfter(net, length, pos, i), m)
    decreases i
  {
    hide Net.E;
    if i > 0 {
      DrawsSplit(net, length, NextHit(net, length, pos) + 1, i - 1, m);
    }
  }

  lemma {:induction false} PosSplit(net: Net, length: nat, pos: nat, i: nat)
    requires net.Valid() && 0 < length
    ensures PosAfter(net, length, pos, i + 1) == NextHit(net, length, PosAfter(net, length, pos, i)) + 1
    decreases i
  {
    hide Net.E;
    if i > 0 {
      PosSplit(net, length, NextHit(net, length, pos) + 1, i - 1);
    }
  }

  /** Draws less than `length` apart differ. */
  lemma DrawsApart(net: Net, length: nat, pos: nat, k: nat, i: nat, j: nat)
    requires net.Valid() && 0 < length <= net.Size() && i < j < k && j - i < length
    ensures Draws(net, length, pos, k)[i] != Draws(net, length, pos, k)[j]
  {
    hide Net.E, Net.Size, Draws, PosAfter;
    var q := PosAfter(net, length, pos, i);
    DrawsSplit(net, length, pos, i, k - i);
    DrawsPermute(net, length, q);
    if k - i <= length {
      DrawsSplit(net, length, q, k - i, length - (k - i));
    } else {
      DrawsSplit(net, length, q, length, k - i - length);
    }
    var s := Draws(net, length, q, length);
    assert Draws(net, length, pos, k)[i] == s[0] && Draws(net, length, pos, k)[j] == s[j - i];
  }

  /** The outputs below `length` among the next `n`. */
  ghost function Hits(net: Net, length: nat, pos: nat, n: nat): seq<nat>
    decreases n
  {
    if n == 0 then []
    else if net.E(pos) < length then [net.E(pos)] + Hits(net, length, pos + 1, n - 1)
    else Hits(net, length, pos + 1, n - 1)
  }

  lemma {:induction false} DrawsAreHits(net: Net, length: nat, pos: nat, n: nat)
    requires net.Valid() && 0 < length
    ensures Draws(net, length, pos, |Hits(net, length, pos, n)|) == Hits(net, length, pos, n)
    decreases n
  {
    hide Net.E;
    if n > 0 {
      DrawsAreHits(net, length, pos + 1, n - 1);
    }
  }

  lemma {:induction false} HitsFrom(net: Net, length: nat, pos: nat, n: nat, v: nat)
    requires v in Hits(net, length, pos, n)
    ensures v < length && exists q: nat :: pos <= q < pos + n && net.E(q) == v
    decreases n
  {
    hide Net.E;
    if n > 0 {
      if v in Hits(net, length, pos + 1, n - 1) {
        HitsFrom(net, length, pos + 1, n - 1, v);
      } else {
        assert net.E(pos) == v;
      }
    }
  }

  lemma {:induction false} HitsHave(net: Net, length: nat, pos: nat, n: nat, q: nat)
    requires pos <= q < pos + n && net.E(q) < length
    ensures net.E(q) in Hits(net, length, pos, n)
    decreases n
  {
    hide Net.E;
    if q > pos {
      HitsHave(net, length, pos + 1, n - 1, q);
    }
  }

  lemma {:induction false} HitsDistinct(net: Net, length: nat, pos: nat, n: nat)
    requires net.Valid() && n <= net.Size()
    ensures Distinct(Hits(net, length, pos, n))
    decreases n
  {
    hide Net.E, Net.Size;
    if n > 0 {
      var rest := Hits(net, length, pos + 1, n - 1);
      HitsDistinct(net, length, pos + 1, n - 1);
      if net.E(pos) in rest {
        HitsFrom(net, length, pos + 1, n - 1, net.E(pos));
        var q: nat :| pos + 1 <= q < pos + 1 + (n - 1) && net.E(q) == net.E(pos);
        NoRepeat(net, pos, q);
      }
    }
  }

  /** Any `length` consecutive draws are the numbers below `length`, each exactly once. */
  lemma DrawsPermute(net: Net, length: nat, pos: nat)
    requires net.Valid() && 0 < length <= net.Size()
    ensures Distinct(Draws(net, length, pos, length))
    ensures forall v: nat :: v in Draws(net, length, pos, length) <==> v < length
  {
    hide Net.E, Net.Size, Draws, Hits, Distinct;
    var hits := Hits(net, length, pos, net.Size());
    HitsDistinct(net, length, pos, net.Size());
    forall v: nat
      ensures v in hits <==> v < length
    {
      if v in hits {
        HitsFrom(net, length, pos, net.Size(), v);
      }
      if v < length {
        WhereYields(net, pos, v);
        HitsHave(net, length, pos, net.Size(), Where(net, pos, v));
      }
    }
    DistinctCount(hits, length);
    DrawsAreHits(net, length, pos, net.Size());
  }

  // ---- TEA -----------------------------------------------------------------------

  datatype Tea = Tea(a: bv32, b: bv32, c: bv32, d: bv32, cycles: nat)

  const MAGIC: bv32 := 0x9E37_79B9

  function FirstWord(tea: Tea, y: bv32, z: bv32, sum: bv32): bv32 {
    y + (((z << 4) + tea.a) ^ (z + sum) ^ ((z >> 5) + tea.b))
  }

  function SecondWord(tea: Tea, y: bv32, z: bv32, sum: bv32): bv32 {
    z + (((y << 4) + tea.c) ^ (y + sum) ^ ((y >> 5) + tea.d))
  }

  /** One cycle on the block `(y, z)`. */
  function Cycle(tea: Tea, v: (bv32, bv32), sum: bv32): (bv32, bv32) {
    var y := FirstWord(tea, v.0, v.1, sum);
    (y, SecondWord(tea, y, v.1, sum))
  }

  function Sum(n: nat): bv32 {
    if n == 0 then 0 else Sum(n - 1) + MAGIC
  }

  function Cycles(tea: Tea, v: (bv32, bv32), n: nat): (bv32, bv32) {
    if n == 0 then v else Cycle(tea, Cycles(tea, v, n - 1), Sum(n))
  }

  /** The published vector of 32 cycles under the zero key, and two cycles under a key of four different words. */
  lemma TeaVectors()
    ensures Cycles(Tea(0, 0, 0, 0, 32), (0, 0), 32) == (0x41EA_3A0A, 0x94BA_A940)
    ensures Cycles(Tea(1, 2, 3, 4, 2), (5, 6), 2) == (0x3E3D_6347, 0x7474_6034)
  {
    var tea, v := Tea(0, 0, 0, 0, 32), (0 as bv32, 0 as bv32);
    assert Sum(4) == 0x78DD_E6E4 && Cycles(tea, v, 4) == (0x420A_1097, 0xBEC5_A929);
    assert Sum(8) == 0xF1BB_CDC8 && Cycles(tea, v, 8) == (0xED28_5DA1, 0x455B_33C1);
    assert Sum(12) == 0x6A99_B4AC && Cycles(tea, v, 12) == (0x39B4_B21B, 0xE032_5966);
    assert Sum(16) == 0xE377_9B90 && Cycles(tea, v, 16) == (0xA889_F798, 0x182D_8083);
    assert Sum(20) == 0x5C55_8274 && Cycles(tea, v, 20) == (0x4231_F59F, 0xFFF8_2958);
    assert Sum(24) == 0xD533_6958 && Cycles(tea, v, 24) == (0x2AB2_3274, 0xF046_037B);
    assert Sum(28) == 0x4E11_503C && Cycles(tea, v, 28) == (0x546C_3C69, 0x096A_4D61);
  }

  const WORD: nat := 0x1_0000_0000

  function Low32(n: nat): bv32 {
    (n % WORD) as bv32
  }

  function Mix(tea: Tea, half: nat, k: nat, x: nat): (r: nat)
    requires half > 0
    ensures r < half
  {
    (Cycles(tea, (Low32(k), Low32(x)), tea.cycles).0 as nat) % half
  }

  /** DNS_K_PERMUTOR_ROUNDS; the loops of E and D run once less. */
  const ROUNDS := 8

  function NetOf(tea: Tea, shift: nat): (net: Net)
    ensures net.Valid() && net.shift == shift && net.rounds == ROUNDS - 1
  {
    Net(shift, ROUNDS - 1, (k, x) => Mix(tea, Pow2(shift), k, x))
  }

  // ---- The generator ----------------------------------------------------------------

  /** dns_k_permutor_powof: how often 1 must be doubled to reach `n`. */
  method PowOf(n: nat) returns (i: nat)
    requires n <= WORD / 2
    ensures n <= Pow2(i) && i <= 31 && (i > 0 ==> Pow2(i - 1) < n)
  {
    assert Pow2(31) == WORD / 2 by { Pow31(); }
    var m: nat := 1;
    i := 0;
    while m < n
      invariant m == Pow2(i) && i <= 31 && (i > 0 ==> Pow2(i - 1) < n)
      decreases n - m
    {
      m := (m * 2) % WORD;
      i := i + 1;
    }
  }

  lemma Pow31()
    ensures Pow2(31) == WORD / 2 && Pow2(32) == WORD
  {
    assert Pow2(8) == 256;
    Pow2Add(8, 8);
    Pow2Add(16, 15);
    Pow2Add(8, 7);
    assert Pow2(7) == 128;
  }

  /** Beyond 2 ** 31 the doubled word wraps to 0 before it reaches `n`, and the loop never ends. */
  lemma PowOfDiverges(n: nat, i: nat)
    requires WORD / 2 < n < WORD
    ensures Pow2(i) % WORD < n
  {
    Pow31();
    if i <= 31 {
      Pow2Grows(i, 31);
      ModSmall(Pow2(i), WORD);
    } else {
      Pow2Add(i - 32, 32);
      DivUnique(Pow2(i - 32), 0, WORD);
    }
  }

  /** struct dns_k_permutor. `pos` counts the steps `stepi` took, without wrapping around. */
  class Generator {
    var stepi: nat
    const length: nat
    const limit: nat
    const shift: nat
    const tea: Tea
    ghost var pos: nat

    ghost predicate Valid()
      reads this
    {
      && stepi == pos % WORD && shift <= 16
      && 0 < length <= limit + 1 && length <= NetOf(tea, shift).Size()
    }

    constructor (low: nat, high: nat, tea: Tea)
      requires low <= high < WORD && high - low < WORD / 2
      ensures Valid() && pos == 0 && length == high - low + 1 && limit == high && this.tea == tea
      ensures length <= Pow2(2 * shift) && (shift > 0 ==> Pow2(2 * shift - 2) < length)
    {
      var width := PowOf(high - low + 1);
      stepi := 0;
      pos := 0;
      length := high - low + 1;
      limit := high;
      shift := (width + width % 2) / 2;
      this.tea := tea;
      new;
      Pow2Grows(width, 2 * shift);
      Pow2Add(shift, shift);
      if shift > 0 {
        Pow2Grows(2 * shift - 2, width - 1);
      }
    }

    /** dns_k_tea_encrypt, of which only the first word is used. */
    method Encrypt(v: (bv32, bv32)) returns (w: bv32)
      ensures w == Cycles(tea, v, tea.cycles).0
    {
      hide FirstWord, SecondWord;
      var y, z, sum := v.0, v.1, 0;
      for n := 0 to tea.cycles
        invariant (y, z) == Cycles(tea, v, n) && sum == Sum(n)
      {
        sum := sum + MAGIC;
        y := FirstWord(tea, y, z, sum);
        z := SecondWord(tea, y, z, sum);
      }
      w := y;
    }

    method F(k: nat, x: nat) returns (r: nat)
      ensures r == NetOf(tea, shift).f(k, x)
    {
      var w := Encrypt((Low32(k), Low32(x)));
      r := (w as nat) % Pow2(shift);
    }

    /** dns_k_permutor_E. */
    method E(n: nat) returns (e: nat)
      ensures e == NetOf(tea, shift).E(n)
    {
      hide Xor, Pow2, Mix, Cycles;
      var net := NetOf(tea, shift);
      var l, r := new nat[2], new nat[2];
      l[0], r[0] := net.Left(n), net.Right(n);
      var i := 0;
      while i < net.rounds
        invariant i <= net.rounds
        invariant (l[i % 2], r[i % 2]) == net.Forth(i, (net.Left(n), net.Right(n)))
      {
        var f := F(i, r[i % 2]);
        l[(i + 1) % 2], r[(i + 1) % 2] := r[i % 2], Xor(l[i % 2], f);
        i := i + 1;
      }
      e := net.Join((l[i % 2], r[i % 2]));
    }

    /** dns_k_permutor_D. */
    method D(n: nat) returns (d: nat)
      ensures d == NetOf(tea, shift).D(n)
    {
      hide Xor, Pow2, Mix, Cycles;
      var net := NetOf(tea, shift);
      var l, r := new nat[2], new nat[2];
      var i := net.rounds;
      l[i % 2], r[i % 2] := net.Left(n), net.Right(n);
      while i > 0
        invariant 0 <= i <= net.rounds
        invariant net.Back(i, (l[i % 2], r[i % 2])) == net.Back(net.rounds, (net.Left(n), net.Right(n)))
      {
        i := i - 1;
        var f := F(i, l[(i + 1) % 2]);
        r[i % 2], l[i % 2] := l[(i + 1) % 2], Xor(r[(i + 1) % 2], f);
      }
      d := net.Join((l[0], r[0]));
    }

    /** dns_k_permutor_step: draws the next number of low..high. */
    method Step() returns (r: nat)
      requires Valid()
      modifies this`stepi, this`pos
      ensures Valid()
      ensures pos == NextHit(NetOf(tea, shift), length, old(pos)) + 1
      ensures r == limit + 1 - length + Draws(NetOf(tea, shift), length, old(pos), 1)[0]
      ensures limit + 1 - length <= r <= limit
    {
      hide Net.E, Net.Size;
      ghost var net := NetOf(tea, shift);
      ghost var hit := NextHit(net, length, pos);
      var n := Once();
      while n >= length
        invariant Valid() && pos <= hit + 1 && n == net.E(pos - 1) && old(pos) < pos
        invariant n < length <==> pos == hit + 1
        decreases hit + 1 - pos
      {
        n := Once();
      }
      r := n + (limit + 1 - length);
    }

    /** One turn of that loop. */
    method Once() returns (n: nat)
      requires Valid()
      modifies this`stepi, this`pos
      ensures Valid() && pos == old(pos) + 1 && n == NetOf(tea, shift).E(old(pos))
    {
      hide Net.E, Net.Size;
      n := E(stepi);
      SameOutput(tea, shift, pos);
      NextWord(pos);
      stepi := (stepi + 1) % WORD;
      pos := pos + 1;
    }
  }

  lemma NextWord(pos: nat)
    ensures (pos % WORD + 1) % WORD == (pos + 1) % WORD
  {
  }

  /** The wrap-around of `stepi` does not disturb the sequence. */
  lemma SameOutput(tea: Tea, shift: nat, pos: nat)
    requires shift <= 16
    ensures NetOf(tea, shift).E(pos % WORD) == NetOf(tea, shift).E(pos)
  {
    var net := NetOf(tea, shift);
    hide Net.E;
    Pow2Add(shift, shift);
    Pow2Add(shift + shift, 32 - shift - shift);
    Pow31();
    ModMod(pos, net.Size(), Pow2(32 - shift - shift));
    EPeriodic(net, pos % WORD, pos);
  }

  lemma MulSwap(q: nat, n: nat, c: nat)
    ensures q * (n * c) == (q * c) * n
  {
  }

  lemma ModMod(x: nat, n: nat, c: nat)
    requires n > 0 && c > 0 && n * c > 0
    ensures (x % (n * c)) % n == x % n
  {
    var q := x / (n * c);
    assert x % (n * c) == x - q * (n * c);
    MulSwap(q, n, c);
    ModPlus(x, 0 - q * c, n);
  }

  // ---- Query ids -------------------------------------------------------------------

  /** The ids a socket hands out after `pos` steps, as dns_so_init sets its generator up: 1 to 65535. */
  ghost function Ids(tea: Tea, pos: nat, k: nat): seq<nat> {
    seq(k, i requires 0 <= i < k => 1 + Draws(NetOf(tea, 8), 65535, pos, k)[i])
  }

  /** The halves dns_so_init's generator works with have 8 bits. */
  lemma QueryShift(shift: nat)
    requires 65535 <= Pow2(2 * shift) && (shift > 0 ==> Pow2(2 * shift - 2) < 65535)
    ensures shift == 8
  {
    assert Pow2(8) == 256;
    Pow2Add(8, 8);
    if shift < 8 {
      Pow2Grows(2 * shift, 14);
      assert false;
    } else if shift > 8 {
      Pow2Grows(16, 2 * shift - 2);
      assert false;
    }
  }

  lemma QuerySize(tea: Tea)
    ensures NetOf(tea, 8).Size() == 65536
  {
    assert Pow2(8) == 256;
  }

  /** Among any 65535 consecutive ids none is 0, none repeats and none is missing. */
  lemma IdsNeverRepeat(tea: Tea, pos: nat)
    ensures Distinct(Ids(tea, pos, 65535))
    ensures forall id: nat :: id in Ids(tea, pos, 65535) <==> 0 < id <= 65535
  {
    hide Net.E, Net.Size, Draws;
    QuerySize(tea);
    DrawsPermute(NetOf(tea, 8), 65535, pos);
    var s, ids := Draws(NetOf(tea, 8), 65535, pos, 65535), Ids(tea, pos, 65535);
    forall id: nat
      ensures id in ids <==> 0 < id <= 65535
    {
      if id in ids {
        var i: nat :| i < |ids| && ids[i] == id;
        assert s[i] in s;
      }
      if 0 < id <= 65535 {
        assert id - 1 in s;
        var i: nat :| i < |s| && s[i] == id - 1;
        assert ids[i] == id;
      }
    }
  }

  lemma IdsSnoc(tea: Tea, m: nat)
    ensures var net := NetOf(tea, 8);
      && Ids(tea, 0, m + 1) == Ids(tea, 0, m) + [1 + Draws(net, 65535, PosAfter(net, 65535, 0, m), 1)[0]]
      && PosAfter(net, 65535, 0, m + 1) == NextHit(net, 65535, PosAfter(net, 65535, 0, m)) + 1
  {
    hide Net.E, Net.Size, Draws, PosAfter, NetOf;
    DrawsSplit(NetOf(tea, 8), 65535, 0, m, 1);
    PosSplit(NetOf(tea, 8), 65535, 0, m);
  }

  lemma IdsApart(tea: Tea, k: nat, i: nat, j: nat)
    requires i < j < k && j - i < 65535
    ensures Ids(tea, 0, k)[i] != Ids(tea, 0, k)[j]
  {
    hide Net.E, Net.Size, Draws, NetOf;
    QuerySize(tea);
    DrawsApart(NetOf(tea, 8), 65535, 0, k, i, j);
  }

  /** The first `k` query ids of a new socket: no two of them less than 65535 apart are the same. */
  method QueryIds(tea: Tea, k: nat) returns (ids: seq<nat>)
    ensures ids == Ids(tea, 0, k)
    ensures forall i, j :: 0 <= i < j < |ids| && j - i < 65535 ==> ids[i] != ids[j]
    ensures forall i :: 0 <= i < |ids| ==> 0 < ids[i] <= 65535
  {
    hide Net.E, Net.Size, Draws, PosAfter, NetOf, Ids;
    var g := new Generator(1, 65535, tea);
    QueryShift(g.shift);
    ids := [];
    NoDraws(tea);
    for m := 0 to k
      invariant g.Valid() && g.shift == 8 && g.length == 65535 && g.limit == 65535 && g.tea == tea
      invariant g.pos == PosAfter(NetOf(tea, 8), 65535, 0, m) && ids == Ids(tea, 0, m)
      invariant forall i :: 0 <= i < |ids| ==> 0 < ids[i] <= 65535
    {
      IdsSnoc(tea, m);
      var id := g.Step();
      ids := ids + [id];
    }
    forall i, j | 0 <= i < j < |ids| && j - i < 65535
      ensures ids[i] != ids[j]
    {
      IdsLong(tea, k);
      IdsApart(tea, k, i, j);
    }
  }

  lemma IdsLong(tea: Tea, k: nat)
    ensures |Ids(tea, 0, k)| == k
  {
  }

  lemma NoDraws(tea: Tea)
    ensures PosAfter(NetOf(tea, 8), 65535, 0, 0) == 0 && Ids(tea, 0, 0) == []
  {
    hide NetOf;
  }
}
