/**
 * Name compression (section 4.1.4 of RFC 1035) as libdns does it: the search of dns_d_comp for an
 * earlier copy of a suffix, the dictionary of dns_p_dictadd, and expansion.
 */
module Compression {
  import opened Wire
  import opened Names

  const MAX_PTRS := 127
  const MAX_TARGET := 0x3fff
  const DICT_SIZE := 16

  // ---- Octet level -------------------------------------------------------

  function PutPtr(t: nat): (s: Bytes)
    ensures |s| == 2 && s[0] >= 0xc0
  {
    [0xc0 + t / 0x100 % 0x40, t % 0x100]
  }

  function GetPtr(data: Bytes, p: nat): nat
    requires p + 2 <= |data|
  {
    var hi: int, lo: int := data[p], data[p + 1];
    hi % 0x40 * 0x100 + lo
  }

  /** What dns_l_expand hands back: nothing (length 0), or a label and the offset behind it. */
  datatype Step = Stop | Go(lab: Label, next: nat)

  /** dns_l_expand: read one label at `src`, following at most MAX_PTRS pointers. */
  function LExpand(data: Bytes, src: nat, nptrs: nat): Step
    decreases MAX_PTRS - nptrs
  {
    if src >= |data| then Stop
    else if data[src] < 0x40 then
      if |data| - (src + 1) < data[src] || data[src] == 0 then Stop
      else Go(data[src + 1..src + 1 + data[src]], src + 1 + data[src])
    else if data[src] < 0xc0 || nptrs + 1 > MAX_PTRS || |data| - src < 2 then Stop
    else LExpand(data, GetPtr(data, src), nptrs + 1)
  }

  /** dns_l_skip: the offset behind the label at `src`, or the end of the data. */
  function LSkip(data: Bytes, src: nat): (r: nat)
    ensures src < |data| ==> src < r <= |data|
  {
    if src < |data| && 0 < data[src] < 0x40 && data[src] <= |data| - (src + 1)
    then src + 1 + data[src] else |data|
  }

  datatype Expansion = Running | Illegal | Expanded(text: Bytes)

  /** dns_d_expand after `fuel` rounds of its loop; `dst` is the text written so far. */
  function Expand(data: Bytes, src: nat, dst: Bytes, nptrs: nat, fuel: nat): Expansion
    decreases fuel
  {
    if fuel == 0 then Running
    else if src >= |data| then Illegal
    else if data[src] == 0 then Expanded(if dst == [] then [DOT] else dst)
    else if data[src] < 0x40 then
      if |data| - (src + 1) < data[src] then Illegal
      else Expand(data, src + 1 + data[src], dst + data[src + 1..src + 1 + data[src]] + [DOT], 0, fuel - 1)
    else if data[src] < 0xc0 || nptrs + 1 > MAX_PTRS || |data| - src < 2 then Illegal
    else Expand(data, GetPtr(data, src), dst, nptrs + 1, fuel - 1)
  }

  /** Each label behind its length; a length has six bits. */
  function EncLabels(ls: seq<Label>): Bytes {
    if ls == [] then [] else [|ls[0]| % 0x40] + ls[0] + EncLabels(ls[1..])
  }

  function Encode(ls: seq<Label>): Bytes {
    EncLabels(ls) + [0]
  }

  /** The octets a name takes when nothing is compressed. */
  function NameSize(dn: Bytes): nat {
    if dn == [DOT] then 1 else |Anchored(dn)| + 1
  }

  lemma {:induction false} EncDotted(ls: seq<Label>)
    ensures |EncLabels(ls)| == |Dotted(ls)|
  {
    if ls != [] {
      EncDotted(ls[1..]);
    }
  }

  lemma EncodeSize(dn: Bytes)
    requires ValidText(dn)
    ensures |Encode(Labels(dn))| == NameSize(dn)
  {
    EncDotted(Labels(dn));
    if dn != [DOT] {
      TextOfLabels(dn);
      assert Labels(dn) != [];
    }
  }

  // ---- The search --------------------------------------------------------

  /** One label met while walking a name, with the offset from which the walk read it. */
  datatype At = At(pos: nat, lab: Label)

  function Folded(w: seq<At>): (r: seq<Label>)
    ensures |r| == |w|
    ensures forall i :: 0 <= i < |w| ==> r[i] == Fold(w[i].lab)
  {
    seq(|w|, i requires 0 <= i < |w| => Fold(w[i].lab))
  }

  /** The labels found by calling dns_l_expand over and over from `p`. */
  function Walk(data: Bytes, p: nat, fuel: nat): seq<At>
    decreases fuel
  {
    if fuel == 0 then []
    else match LExpand(data, p, 0)
      case Stop => []
      case Go(l, next) => [At(p, l)] + Walk(data, next, fuel - 1)
  }

  /** What `a.label` and `a.len` hold in dns_d_comp: a label, or length 0. */
  datatype Cursor = Ended | Have(lab: Label)

  datatype Scan = Miss(cur: Cursor) | Hit(used: Label, tail: seq<At>)

  /** How many labels agree before the innermost loop of dns_d_comp stops. */
  function Common(rest: seq<Label>, b: seq<At>): (m: nat)
    ensures m <= |rest| && m <= |b|
    ensures forall i :: 0 <= i < m ==> Fold(rest[i]) == Fold(b[i].lab)
    ensures m < |rest| && m < |b| ==> Fold(rest[m]) != Fold(b[m].lab)
  {
    if rest == [] || b == [] || Fold(rest[0]) != Fold(b[0].lab) then 0
    else 1 + Common(rest[1..], b[1..])
  }

  lemma {:induction false} CommonIs(rest: seq<Label>, b: seq<At>, m: nat)
    requires m <= |rest| && m <= |b| && forall i :: 0 <= i < m ==> Fold(rest[i]) == Fold(b[i].lab)
    requires m < |rest| && m < |b| ==> Fold(rest[m]) != Fold(b[m].lab)
    ensures Common(rest, b) == m
  {
    if m > 0 {
      CommonIs(rest[1..], b[1..], m - 1);
    }
  }

  /**
   * The middle loop: slide along one earlier name. After a partial match the cursor keeps the
   * label at which the comparison stopped: it is not reloaded.
   */
  function ScanEntry(cur: Cursor, rest: seq<Label>, b: seq<At>): Scan
    decreases |b|
  {
    if b == [] then Miss(cur)
    else if cur.Have? && Fold(cur.lab) == Fold(b[0].lab) then
      var m := Common(rest, b[1..]);
      if m == |rest| == |b| - 1 && b[0].pos <= MAX_TARGET then Hit(cur.lab, b)
      else ScanEntry(if m < |rest| then Have(rest[m]) else Ended, rest, b[1..])
    else ScanEntry(cur, rest, b[1..])
  }

  /** The loop over the dictionary; the cursor is carried from one entry to the next. */
  function ScanDict(cur: Cursor, rest: seq<Label>, entries: seq<seq<At>>): Scan
    decreases |entries|
  {
    if entries == [] then Miss(cur)
    else match ScanEntry(cur, rest, entries[0])
      case Hit(used, tail) => Hit(used, tail)
      case Miss(cur') => ScanDict(cur', rest, entries[1..])
  }

  datatype Found = NotFound | FoundAt(k: nat, used: Label, tail: seq<At>)

  /** The outer loop: try the suffix of `ls` from label `k` on, then shorter ones. */
  function Search(ls: seq<Label>, k: nat, entries: seq<seq<At>>): Found
    decreases |ls| - k
  {
    if k >= |ls| then NotFound
    else match ScanDict(Have(ls[k]), ls[k + 1..], entries)
      case Hit(used, tail) => FoundAt(k, used, tail)
      case Miss(_) => Search(ls, k + 1, entries)
  }

  function Entries(data: Bytes, dict: seq<nat>): seq<seq<At>> {
    seq(|dict|, i requires 0 <= i < |dict| => Walk(data, dict[i], |data|))
  }

  /** The octets dns_d_comp leaves for a name when `lim` octets are free. */
  function CompWire(data: Bytes, dict: seq<nat>, ls: seq<Label>, lim: nat): Bytes {
    if |Encode(ls)| >= lim then Encode(ls)
    else WireOf(ls, Search(ls, 0, Entries(data, dict)))
  }

  function WireOf(ls: seq<Label>, found: Found): Bytes {
    if found.FoundAt? && found.k <= |ls| && found.tail != []
    then EncLabels(ls[..found.k]) + PutPtr(found.tail[0].pos)
    else Encode(ls)
  }

  // ---- The dictionary ------------------------------------------------------

  /** `i` is the first place of `t`. */
  predicate FirstAt(dict: seq<nat>, t: nat, i: nat) {
    i < |dict| && dict[i] == t && t !in dict[..i]
  }

  function Replace(dict: seq<nat>, t: nat, dn: nat): (r: seq<nat>)
    requires t in dict
    ensures |r| == |dict|
    ensures exists i :: 0 <= i < |dict| && FirstAt(dict, t, i) && r == dict[i := dn]
  {
    if dict[0] == t then
      assert FirstAt(dict, t, 0) && [dn] + dict[1..] == dict[0 := dn];
      [dn] + dict[1..]
    else
      var r' := Replace(dict[1..], t, dn);
      assert exists i :: 0 <= i < |dict| && FirstAt(dict, t, i) && [dict[0]] + r' == dict[i := dn] by {
        var i :| 0 <= i < |dict[1..]| && FirstAt(dict[1..], t, i) && r' == dict[1..][i := dn];
        assert dict[..i + 1] == [dict[0]] + dict[1..][..i];
        assert FirstAt(dict, t, i + 1) && [dict[0]] + r' == dict[i + 1 := dn];
      }
      [dict[0]] + r'
  }

  /** dns_p_dictadd from offset `lp` of the name at `dn`; `dict` holds the entries in use. */
  function DictScan(data: Bytes, dict: seq<nat>, dn: nat, lp: nat): seq<nat>
    decreases |data| - lp
  {
    if lp >= |data| then
      if |dict| < DICT_SIZE then dict + [dn] else dict
    else if data[lp] >= 0xc0 && |data| - lp >= 2 && lp != dn && GetPtr(data, lp) in dict then
      Replace(dict, GetPtr(data, lp), dn)
    else
      DictScan(data, dict, dn, LSkip(data, lp))
  }

  lemma DictScanUnfold(data: Bytes, dict: seq<nat>, dn: nat, lp: nat)
    ensures DictScan(data, dict, dn, lp) ==
      if lp >= |data| then
        if |dict| < DICT_SIZE then dict + [dn] else dict
      else if data[lp] >= 0xc0 && |data| - lp >= 2 && lp != dn && GetPtr(data, lp) in dict then
        Replace(dict, GetPtr(data, lp), dn)
      else
        DictScan(data, dict, dn, LSkip(data, lp))
  {
  }

  // ---- What a hit means ----------------------------------------------------

  /** `tail` is the end of one of the names, and reads `used` followed by `rest`, up to case. */
  ghost predicate Sound(used: Label, rest: seq<Label>, tail: seq<At>, b: seq<At>) {
    && 0 < |tail| <= |b| && tail == b[|b| - |tail|..]
    && tail[0].pos <= MAX_TARGET
    && Folded(tail) == [Fold(used)] + FoldAll(rest)
  }

  lemma {:induction false} ScanEntrySound(cur: Cursor, rest: seq<Label>, b: seq<At>)
    requires ScanEntry(cur, rest, b).Hit?
    ensures Sound(ScanEntry(cur, rest, b).used, rest, ScanEntry(cur, rest, b).tail, b)
    decreases |b|
  {
    var m := Common(rest, b[1..]);
    if cur.Have? && Fold(cur.lab) == Fold(b[0].lab) {
      if m == |rest| == |b| - 1 && b[0].pos <= MAX_TARGET {
        assert forall i :: 0 <= i < |rest| ==> Fold(rest[i]) == Fold(b[1..][i].lab) == Fold(b[i + 1].lab);
        assert Folded(b) == [Fold(cur.lab)] + FoldAll(rest);
      } else {
        ScanEntrySound(if m < |rest| then Have(rest[m]) else Ended, rest, b[1..]);
        SuffixOfTail(b, ScanEntry(cur, rest, b).tail);
      }
    } else {
      ScanEntrySound(cur, rest, b[1..]);
      SuffixOfTail(b, ScanEntry(cur, rest, b).tail);
    }
  }

  lemma SuffixOfTail(b: seq<At>, t: seq<At>)
    requires 0 < |t| < |b| && t == b[1..][|b| - 1 - |t|..]
    ensures t == b[|b| - |t|..]
  {
  }

  lemma {:induction false} ScanDictSound(cur: Cursor, rest: seq<Label>, entries: seq<seq<At>>) returns (i: nat)
    requires ScanDict(cur, rest, entries).Hit?
    ensures i < |entries|
    ensures Sound(ScanDict(cur, rest, entries).used, rest, ScanDict(cur, rest, entries).tail, entries[i])
    decreases |entries|
  {
    match ScanEntry(cur, rest, entries[0])
    case Hit(_, _) =>
      ScanEntrySound(cur, rest, entries[0]);
      i := 0;
    case Miss(cur') =>
      var i' := ScanDictSound(cur', rest, entries[1..]);
      i := i' + 1;
  }

  /** The search answers with the end of some earlier name, whatever the cursor had become. */
  lemma {:induction false} SearchSound(ls: seq<Label>, k: nat, entries: seq<seq<At>>) returns (i: nat)
    requires Search(ls, k, entries).FoundAt?
    ensures var f := Search(ls, k, entries);
      i < |entries| && k <= f.k < |ls| && Sound(f.used, ls[f.k + 1..], f.tail, entries[i])
    decreases |ls| - k
  {
    match ScanDict(Have(ls[k]), ls[k + 1..], entries)
    case Hit(_, _) => i := ScanDictSound(Have(ls[k]), ls[k + 1..], entries);
    case Miss(_) => i := SearchSound(ls, k + 1, entries);
  }

  // ---- The label a hit was scored with ------------------------------------------------------

  /** In the search for `x` followed by `rest`, the cursor holds `x` or one of the labels behind it. */
  ghost predicate Carried(cur: Cursor, x: Label, rest: seq<Label>) {
    cur.Have? ==> Fold(cur.lab) == Fold(x) || Fold(cur.lab) in FoldAll(rest)
  }

  lemma {:induction false} ScanCarried(cur: Cursor, x: Label, rest: seq<Label>, b: seq<At>)
    requires Carried(cur, x, rest)
    ensures match ScanEntry(cur, rest, b)
      case Hit(used, _) => Carried(Have(used), x, rest)
      case Miss(cur') => Carried(cur', x, rest)
    decreases |b|
  {
    if b != [] {
      var m := Common(rest, b[1..]);
      if cur.Have? && Fold(cur.lab) == Fold(b[0].lab) {
        if !(m == |rest| == |b| - 1 && b[0].pos <= MAX_TARGET) {
          assert m < |rest| ==> FoldAll(rest)[m] == Fold(rest[m]);
          ScanCarried(if m < |rest| then Have(rest[m]) else Ended, x, rest, b[1..]);
        }
      } else {
        ScanCarried(cur, x, rest, b[1..]);
      }
    }
  }

  lemma {:induction false} DictCarried(cur: Cursor, x: Label, rest: seq<Label>, entries: seq<seq<At>>)
    requires Carried(cur, x, rest)
    ensures var s := ScanDict(cur, rest, entries); s.Hit? ==> Carried(Have(s.used), x, rest)
    decreases |entries|
  {
    if entries != [] {
      ScanCarried(cur, x, rest, entries[0]);
      match ScanEntry(cur, rest, entries[0])
      case Hit(_, _) =>
      case Miss(cur') => DictCarried(cur', x, rest, entries[1..]);
    }
  }

  lemma {:induction false} SearchCarried(ls: seq<Label>, k: nat, entries: seq<seq<At>>)
    requires Search(ls, k, entries).FoundAt?
    ensures var f := Search(ls, k, entries); k <= f.k < |ls| && Carried(Have(f.used), ls[f.k], ls[f.k + 1..])
    decreases |ls| - k
  {
    DictCarried(Have(ls[k]), ls[k], ls[k + 1..], entries);
    match ScanDict(Have(ls[k]), ls[k + 1..], entries)
    case Hit(_, _) =>
    case Miss(_) => SearchCarried(ls, k + 1, entries);
  }

  /**
   * Of two lists of folded labels: `a` ends in what follows label `k` of `b`, behind another label, which
   * also stands somewhere in what follows.
   */
  predicate ExposedAt(a: seq<Label>, b: seq<Label>, k: nat) {
    && k < |b| <= |a| + k
    && var j := |a| + k - |b|;
    && a[j + 1..] == b[k + 1..] && a[j] != b[k] && a[j] in b[k + 1..]
  }

  /** With name `a` in the dictionary a push of `b` may end up as something else. */
  ghost predicate Exposed(a: seq<Label>, b: seq<Label>) {
    exists k: nat :: ExposedAt(a, b, k)
  }

  lemma Exposes(a: seq<Label>, b: seq<Label>, k: nat, x: Label, rest: seq<Label>)
    requires k < |b| && rest == b[k + 1..] && |rest| < |a| && a[|a| - 1 - |rest|..] == [x] + rest
    requires x != b[k] && x in rest
    ensures Exposed(a, b)
  {
    HeadTail(a, |a| - 1 - |rest|, x, rest);
    assert ExposedAt(a, b, k);
  }

  /** A hit with a label that was carried along shows where the name is exposed. */
  lemma HitExposes(used: Label, ls: seq<Label>, k: nat, tail: seq<At>, b: seq<At>)
    requires k < |ls| && Sound(used, ls[k + 1..], tail, b) && Carried(Have(used), ls[k], ls[k + 1..])
    requires Fold(used) != Fold(ls[k])
    ensures Exposed(Folded(b), FoldAll(ls))
  {
    FoldedSuffix(b, tail);
    FoldAllFrom(ls, k + 1);
    hide Folded, Fold, Exposed;
    var rest := FoldAll(ls[k + 1..]);
    assert |tail| == |Folded(tail)| == 1 + |rest|;
    Exposes(Folded(b), FoldAll(ls), k, Fold(used), rest);
  }

  lemma FoldAllFrom(ls: seq<Label>, k: nat)
    requires k <= |ls|
    ensures FoldAll(ls[k..]) == FoldAll(ls)[k..]
  {
  }

  lemma HeadTail<T>(s: seq<T>, j: nat, x: T, rest: seq<T>)
    requires j <= |s| && s[j..] == [x] + rest
    ensures |s| == j + 1 + |rest| && s[j] == x && s[j + 1..] == rest
  {
    assert |s[j..]| == 1 + |rest|;
    assert s[j] == s[j..][0] && s[j + 1..] == s[j..][1..];
  }

  /** None of the entries exposes a name with these folded labels. */
  ghost predicate Covert(entries: seq<seq<At>>, b: seq<Label>) {
    forall i :: 0 <= i < |entries| ==> !Exposed(Folded(entries[i]), b)
  }

  lemma CovertAt(entries: seq<seq<At>>, b: seq<Label>, i: nat)
    requires Covert(entries, b) && i < |entries|
    ensures !Exposed(Folded(entries[i]), b)
  {
  }

  /** A name that is not exposed to any entry is found, if it is, with the right label. */
  lemma SearchRight(ls: seq<Label>, entries: seq<seq<At>>)
    requires Search(ls, 0, entries).FoundAt? && Covert(entries, FoldAll(ls))
    ensures var f := Search(ls, 0, entries); f.k < |ls| && Fold(f.used) == Fold(ls[f.k])
  {
    hide Search, Sound, Carried, Exposed, Covert, Fold, FoldAll, Folded;
    var f := Search(ls, 0, entries);
    SearchCarried(ls, 0, entries);
    var i := SearchSound(ls, 0, entries);
    CovertAt(entries, FoldAll(ls), i);
    if Fold(f.used) != Fold(ls[f.k]) {
      HitExposes(f.used, ls, f.k, f.tail, entries[i]);
      assert false;
    }
  }

  lemma FoldedSuffix(w: seq<At>, tail: seq<At>)
    requires |tail| <= |w| && tail == w[|w| - |tail|..]
    ensures Folded(tail) == Folded(w)[|w| - |tail|..]
  {
  }

  lemma OnceOnly(a: seq<Label>, j: nat)
    requires NoRepeat(a) && j < |a|
    ensures FoldAll(a)[j] !in FoldAll(a)[j + 1..]
  {
    var fa := FoldAll(a);
    var behind := fa[j + 1..];
    forall i | 0 <= i < |behind|
      ensures behind[i] != fa[j]
    {
      assert behind[i] == fa[j + 1 + i] == Fold(a[j + 1 + i]);
    }
  }

  /** No name is exposed to one without repeated labels. */
  lemma UnrepeatedExposesNone(a: seq<Label>, b: seq<Label>)
    requires NoRepeat(a)
    ensures !Exposed(FoldAll(a), FoldAll(b))
  {
    hide FoldAll;
    forall k: nat
      ensures !ExposedAt(FoldAll(a), FoldAll(b), k)
    {
      if k < |FoldAll(b)| <= |FoldAll(a)| + k {
        OnceOnly(a, |FoldAll(a)| + k - |FoldAll(b)|);
      }
    }
  }
}
