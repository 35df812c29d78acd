/** Domain names as lists of labels, their text form, and equality up to ASCII case. */
module Names {
  import opened Wire

  type Label = Bytes

  const DOT: byte := 46
  const MAX_LABEL := 63

  predicate ValidLabel(l: Label) {
    1 <= |l| <= MAX_LABEL && 0 !in l && DOT !in l
  }

  predicate ValidName(ls: seq<Label>) {
    forall i :: 0 <= i < |ls| ==> ValidLabel(ls[i])
  }

  /** strcasecmp() in the C locale compares octets after this map. */
  function Lower(b: byte): byte {
    if 65 <= b <= 90 then b + 32 else b
  }

  function Fold(s: Bytes): (r: Bytes)
    ensures |r| == |s|
    ensures forall i :: 0 <= i < |s| ==> r[i] == Lower(s[i])
  {
    seq(|s|, i requires 0 <= i < |s| => Lower(s[i]))
  }

  function FoldAll(ls: seq<Label>): (r: seq<Label>)
    ensures |r| == |ls|
    ensures forall i :: 0 <= i < |ls| ==> r[i] == Fold(ls[i])
  {
    seq(|ls|, i requires 0 <= i < |ls| => Fold(ls[i]))
  }

  /** No label occurs twice, ignoring case. */
  predicate NoRepeat(ls: seq<Label>) {
    forall i, j :: 0 <= i < j < |ls| ==> Fold(ls[i]) != Fold(ls[j])
  }

  /** The anchored text of a name; the root is a lone dot. */
  function Text(ls: seq<Label>): Bytes {
    if ls == [] then [DOT] else Dotted(ls)
  }

  function Dotted(ls: seq<Label>): Bytes {
    if ls == [] then [] else ls[0] + [DOT] + Dotted(ls[1..])
  }

  /** Names equal label by label up to case have texts equal up to case. */
  lemma {:induction false} FoldText(a: seq<Label>, b: seq<Label>)
    requires FoldAll(a) == FoldAll(b)
    ensures Fold(Text(a)) == Fold(Text(b))
  {
    FoldDotted(a, b);
  }

  lemma {:induction false} FoldDotted(a: seq<Label>, b: seq<Label>)
    requires FoldAll(a) == FoldAll(b)
    ensures Fold(Dotted(a)) == Fold(Dotted(b))
  {
    assert |a| == |FoldAll(a)| == |b|;
    if a != [] {
      assert Fold(a[0]) == FoldAll(a)[0] == Fold(b[0]);
      assert FoldAll(a[1..]) == FoldAll(a)[1..];
      assert FoldAll(b[1..]) == FoldAll(b)[1..];
      FoldDotted(a[1..], b[1..]);
      FoldConcat(a[0] + [DOT], Dotted(a[1..]));
      FoldConcat(b[0] + [DOT], Dotted(b[1..]));
      FoldConcat(a[0], [DOT]);
      FoldConcat(b[0], [DOT]);
    }
  }

  lemma FoldConcat(s: Bytes, t: Bytes)
    ensures Fold(s + t) == Fold(s) + Fold(t)
  {
  }

  // ---- Text as callers pass it -----------------------------------------------

  /** Cut at dots; the empty piece behind a final dot does not count. */
  function Split(dn: Bytes): (ls: seq<Label>)
    ensures dn != [] ==> ls != []
    decreases |dn|
  {
    if dn == [] then [] else [dn[..FirstDot(dn)]] + Split(dn[Min(FirstDot(dn) + 1, |dn|)..])
  }

  function Min(a: nat, b: nat): nat {
    if a < b then a else b
  }

  function FirstDot(dn: Bytes): (i: nat)
    ensures i <= |dn| && DOT !in dn[..i] && (i < |dn| ==> dn[i] == DOT)
  {
    if dn == [] || dn[0] == DOT then 0
    else
      var i := FirstDot(dn[1..]);
      assert dn[..i + 1] == [dn[0]] + dn[1..][..i];
      i + 1
  }

  /** The root, or non-empty labels of at most 63 octets; a final dot is optional. */
  predicate ValidText(dn: Bytes) {
    dn == [DOT] || (dn != [] && ValidName(Split(dn)))
  }

  function Labels(dn: Bytes): (ls: seq<Label>)
    requires ValidText(dn)
    ensures ValidName(ls)
  {
    if dn == [DOT] then [] else Split(dn)
  }

  /** The text with the final dot that makes it absolute. */
  function Anchored(dn: Bytes): Bytes {
    if dn != [] && dn[|dn| - 1] == DOT then dn else dn + [DOT]
  }

  lemma {:induction false} SplitDotted(dn: Bytes)
    requires dn != []
    ensures Dotted(Split(dn)) == Anchored(dn)
    decreases |dn|
  {
    hide Split, FirstDot, Dotted, Anchored;
    var i := FirstDot(dn);
    var rest := dn[Min(i + 1, |dn|)..];
    SplitUnfold(dn);
    DottedCons(dn[..i], Split(rest));
    if i + 1 < |dn| {
      SplitDotted(rest);
      AnchoredTail(dn, i);
    } else {
      SplitNothing(rest);
      AnchoredLast(dn, i);
      AddNothing(dn[..i] + [DOT]);
    }
  }

  lemma AddNothing(s: Bytes)
    ensures s + [] == s
  {
  }

  lemma SplitUnfold(dn: Bytes)
    requires dn != []
    ensures Split(dn) == [dn[..FirstDot(dn)]] + Split(dn[Min(FirstDot(dn) + 1, |dn|)..])
  {
    hide FirstDot;
  }

  lemma SplitNothing(dn: Bytes)
    requires |dn| == 0
    ensures Dotted(Split(dn)) == []
  {
  }

  lemma DottedCons(l: Label, ls: seq<Label>)
    ensures Dotted([l] + ls) == l + [DOT] + Dotted(ls)
  {
    assert ([l] + ls)[1..] == ls;
  }

  lemma AnchoredTail(dn: Bytes, i: nat)
    requires i + 1 < |dn| && dn[i] == DOT
    ensures Anchored(dn) == dn[..i] + [DOT] + Anchored(dn[i + 1..])
  {
    var rest := dn[i + 1..];
    assert dn == dn[..i] + [DOT] + rest;
  }

  lemma AnchoredLast(dn: Bytes, i: nat)
    requires dn != [] && i <= |dn| <= i + 1 && DOT !in dn[..i] && (i < |dn| ==> dn[i] == DOT)
    ensures Anchored(dn) == dn[..i] + [DOT]
  {
    if i == |dn| {
      assert dn[..i] == dn && dn[|dn| - 1] in dn[..i];
    }
  }

  /** The labels of a text make it up again, anchored. */
  lemma TextOfLabels(dn: Bytes)
    requires ValidText(dn)
    ensures Text(Labels(dn)) == Anchored(dn)
  {
    if dn != [DOT] {
      SplitDotted(dn);
    }
  }
}
