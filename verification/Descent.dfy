/** The lexicographic order on vectors of naturals, and why nothing descends in it for ever. */
module Descent {

  /** `v` is below `w` because of component `k`. */
  ghost predicate Falls(v: seq<nat>, w: seq<nat>, k: nat) {
    |v| == |w| && k < |w| && v[k] < w[k] && forall j: nat :: j < k ==> v[j] == w[j]
  }

  ghost predicate Lex(v: seq<nat>, w: seq<nat>) {
    exists k: nat :: Falls(v, w, k)
  }

  ghost predicate AtMost(v: seq<nat>, w: seq<nat>) {
    Lex(v, w) || v == w
  }

  ghost predicate NoRise(v: nat -> seq<nat>, i: nat) {
    AtMost(v(i + 1), v(i))
  }

  ghost predicate NeverRises(v: nat -> seq<nat>) {
    forall i: nat {:trigger NoRise(v, i)} :: NoRise(v, i)
  }

  ghost predicate Wide(v: nat -> seq<nat>, n: nat) {
    forall i: nat {:trigger v(i)} :: |v(i)| == n
  }

  ghost predicate HeadConstant(v: nat -> seq<nat>, n: nat, m: nat)
    requires n > 0 && Wide(v, n)
  {
    forall i: nat {:trigger v(i)} :: i >= m ==> v(i)[0] == v(m)[0]
  }

  ghost predicate ConstantFrom(v: nat -> seq<nat>, n: nat) {
    forall i: nat {:trigger v(i)} :: i >= n ==> v(i) == v(n)
  }

  lemma LexLeft(a: seq<nat>, b: seq<nat>, c: seq<nat>, d: seq<nat>)
    requires Lex(a, b) && |c| == |d|
    ensures Lex(a + c, b + d)
  {
    var k: nat :| Falls(a, b, k);
    assert Falls(a + c, b + d, k);
  }

  lemma LexRight(a: seq<nat>, b: seq<nat>, c: seq<nat>)
    requires Lex(b, c)
    ensures Lex(a + b, a + c)
  {
    var k: nat :| Falls(b, c, k);
    assert Falls(a + b, a + c, |a| + k);
  }

  lemma LexIrreflexive(v: seq<nat>)
    ensures !Lex(v, v)
  {
  }

  /** The head of a descending stream settles. */
  lemma {:induction false} HeadSettles(v: nat -> seq<nat>, n: nat, from: nat) returns (m: nat)
    requires n > 0 && Wide(v, n) && NeverRises(v)
    ensures m >= from && HeadConstant(v, n, m)
    decreases v(from)[0]
  {
    hide Lex;
    if i: nat :| i >= from && v(i)[0] < v(from)[0] {
      m := HeadSettles(v, n, i);
    } else {
      m := from;
      forall i: nat | i >= from
        ensures v(i)[0] == v(m)[0]
      {
        HeadNeverRises(v, n, from, i);
      }
    }
  }

  lemma {:induction false} HeadNeverRises(v: nat -> seq<nat>, n: nat, i: nat, j: nat)
    requires n > 0 && Wide(v, n) && NeverRises(v) && i <= j
    ensures v(j)[0] <= v(i)[0]
    decreases j
  {
    if i < j {
      HeadNeverRises(v, n, i, j - 1);
      assert NoRise(v, j - 1);
      HeadAtMost(v(j), v(j - 1));
    }
  }

  lemma HeadAtMost(v: seq<nat>, w: seq<nat>)
    requires AtMost(v, w) && |v| == |w| > 0
    ensures v[0] <= w[0]
  {
    if Lex(v, w) {
      var k: nat :| Falls(v, w, k);
    }
  }

  /** A stream of vectors that never rises is constant from some point on. */
  lemma {:induction false} Settles(v: nat -> seq<nat>, n: nat) returns (m: nat)
    requires Wide(v, n) && NeverRises(v)
    ensures ConstantFrom(v, m)
    decreases n
  {
    hide Lex;
    if n == 0 {
      m := 0;
    } else {
      var h := HeadSettles(v, n, 0);
      var w: nat -> seq<nat> := (i: nat) => Tail(v(h + i));
      forall i: nat
        ensures NoRise(w, i)
      {
        assert NoRise(v, h + i);
        TailNeverRises(v(h + i + 1), v(h + i));
        assert w(i + 1) == Tail(v(h + i + 1)) by { assert h + (i + 1) == h + i + 1; }
      }
      assert Wide(w, n - 1) by {
        forall i: nat
          ensures |w(i)| == n - 1
        {
          assert |v(h + i)| == n && w(i) == Tail(v(h + i));
        }
      }
      var t := Settles(w, n - 1);
      m := h + t;
      forall i: nat | i >= m
        ensures v(i) == v(m)
      {
        assert w(i - h) == w(t);
        SameTail(v(i), v(m));
      }
    }
  }

  function Tail(v: seq<nat>): (r: seq<nat>)
    ensures |r| == if v == [] then 0 else |v| - 1
  {
    if v == [] then [] else v[1..]
  }

  lemma TailNeverRises(v: seq<nat>, w: seq<nat>)
    requires |v| == |w| > 0 && v[0] == w[0] && AtMost(v, w)
    ensures AtMost(Tail(v), Tail(w))
  {
    if Lex(v, w) {
      var k: nat :| Falls(v, w, k);
      assert k > 0;
      assert Falls(Tail(v), Tail(w), k - 1);
    }
  }

  lemma SameTail(v: seq<nat>, w: seq<nat>)
    requires |v| == |w| > 0 && v[0] == w[0] && Tail(v) == Tail(w)
    ensures v == w
  {
    assert v == [v[0]] + Tail(v) && w == [w[0]] + Tail(w);
  }
}
