/** Visiting candidates in the order of a key, by asking each time for the least key above the last one. */
module Selection {

  import opened Lists
  import opened Wire

  /** Candidates have different keys, none of them negative. */
  ghost predicate Keyed(cand: nat -> bool, key: nat -> int) {
    && (forall c: nat :: cand(c) ==> key(c) >= 0)
    && (forall c: nat, d: nat :: cand(c) && cand(d) && key(c) == key(d) ==> c == d)
  }

  /** The candidate with the least key above `lo`. */
  ghost predicate NextAbove(cand: nat -> bool, key: nat -> int, lo: int, c: nat) {
    cand(c) && key(c) > lo && forall d: nat :: cand(d) && key(d) > lo ==> key(c) <= key(d)
  }

  ghost predicate NoneAbove(cand: nat -> bool, key: nat -> int, lo: int) {
    forall d: nat :: cand(d) ==> key(d) <= lo
  }

  /** What an iterator shows next: the least key above `lo`, or nothing. */
  ghost predicate Shows(cand: nat -> bool, key: nat -> int, lo: int, next: Option<nat>) {
    match next
    case Some(c) => NextAbove(cand, key, lo, c)
    case None => NoneAbove(cand, key, lo)
  }

  /** In strictly increasing order of keys. */
  ghost predicate Rising(key: nat -> int, ys: seq<nat>) {
    forall i, j :: 0 <= i < j < |ys| ==> key(ys[i]) < key(ys[j])
  }

  /** `ys` has been visited, in order, and is all there is below the key of `next`. */
  ghost predicate Visited(cand: nat -> bool, key: nat -> int, ys: seq<nat>, next: Option<nat>) {
    && Rising(key, ys)
    && (forall y :: y in ys ==> cand(y))
    && match next
       case Some(c) => cand(c) && forall d: nat :: cand(d) ==> (key(d) < key(c) <==> d in ys)
       case None => forall d: nat :: cand(d) ==> d in ys
  }

  lemma StartVisit(cand: nat -> bool, key: nat -> int, next: Option<nat>)
    requires Keyed(cand, key) && Shows(cand, key, -1, next)
    ensures Visited(cand, key, [], next)
  {
  }

  lemma VisitNext(cand: nat -> bool, key: nat -> int, ys: seq<nat>, c: nat, next: Option<nat>)
    requires Keyed(cand, key) && Visited(cand, key, ys, Some(c)) && Shows(cand, key, key(c), next)
    ensures Visited(cand, key, ys + [c], next)
  {
    var zs := ys + [c];
    assert forall y :: y in zs <==> y in ys || y == c;
    assert forall i :: 0 <= i < |ys| ==> ys[i] in ys;
  }

  // ---- How many visits there can be -------------------------------------------------

  lemma RisingDistinct(key: nat -> int, ys: seq<nat>)
    requires Rising(key, ys)
    ensures Distinct(ys)
  {
  }

  /** If all candidates lie below `n`, the visits are at most `n`. */
  lemma VisitsEnd(cand: nat -> bool, key: nat -> int, ys: seq<nat>, next: Option<nat>, n: nat)
    requires Visited(cand, key, ys, next) && forall d: nat :: cand(d) ==> d < n
    ensures |ys| <= n
  {
    RisingDistinct(key, ys);
    DistinctBelow(ys, n);
  }
}
