/** Counting lists of numbers without repetitions. */
module Lists {

  ghost predicate Distinct(s: seq<nat>) {
    forall i, j :: 0 <= i < j < |s| ==> s[i] != s[j]
  }

  ghost function Below(n: nat): (r: set<nat>)
    ensures |r| == n && forall v: nat :: v in r <==> v < n
  {
    if n == 0 then {} else Below(n - 1) + {n - 1}
  }

  ghost function Elements(s: seq<nat>): (r: set<nat>)
    ensures forall v: nat :: v in r <==> v in s
  {
    if s == [] then {} else {s[0]} + Elements(s[1..])
  }

  lemma {:induction false} CountElements(s: seq<nat>)
    requires Distinct(s)
    ensures |Elements(s)| == |s|
  {
    if s != [] {
      CountElements(s[1..]);
      assert s[0] !in s[1..];
    }
  }

  /** Numbers below `n`, without repetitions, are at most `n`. */
  lemma DistinctBelow(s: seq<nat>, n: nat)
    requires Distinct(s) && forall v: nat :: v in s ==> v < n
    ensures |s| <= n
  {
    CountElements(s);
    assert Elements(s) + (Below(n) - Elements(s)) == Below(n);
  }

  /** A list without repetitions of exactly the numbers below `n` has `n` elements. */
  lemma DistinctCount(s: seq<nat>, n: nat)
    requires Distinct(s) && forall v: nat :: v in s <==> v < n
    ensures |s| == n
  {
    assert Elements(s) == Below(n);
    CountElements(s);
  }
}
