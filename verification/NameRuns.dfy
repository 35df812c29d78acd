/** dns_d_push over whole packets: what each push keeps, and the round trip through dns_d_expand. */
module NameRuns {
  import opened Wire
  import opened Names
  import opened Compression
  import opened NameNet

  /**
   * A packet whose dictionary lists names; an entry may also point at the end of the packet, where a
   * push that failed was going to put its name.
   */
  ghost predicate Base(data: Bytes, dict: seq<nat>, net: Net) {
    && NetOk(data, net) && Short(net, |data|)
    && |dict| <= DICT_SIZE
    && forall i :: 0 <= i < |dict| ==> dict[i] in net || dict[i] == |data|
  }

  /** No entry points at the end. */
  ghost predicate Settled(dict: seq<nat>, net: Net) {
    forall i :: 0 <= i < |dict| ==> dict[i] in net
  }

  ghost function WalkAt(net: Net, p: nat): seq<At> {
    if p in net then net[p].walk else []
  }

  ghost function Walks(dict: seq<nat>, net: Net): (r: seq<seq<At>>)
    ensures |r| == |dict|
    ensures forall i :: 0 <= i < |dict| ==> r[i] == WalkAt(net, dict[i])
  {
    seq(|dict|, i requires 0 <= i < |dict| => WalkAt(net, dict[i]))
  }

  lemma EntriesAreWalks(data: Bytes, dict: seq<nat>, net: Net)
    requires Base(data, dict, net)
    ensures Entries(data, dict) == Walks(dict, net)
  {
    NodesInside(data, net);
    forall i | 0 <= i < |dict|
      ensures Entries(data, dict)[i] == WalkAt(net, dict[i])
    {
      if dict[i] in net {
        WalkNode(data, net, dict[i], |data|);
      } else {
        assert LExpand(data, |data|, 0) == Stop;
      }
    }
  }

  // ---- One push ------------------------------------------------------------

  /** The labels a reader will see where `ls` was pushed. */
  function Written(ls: seq<Label>, found: Found): seq<Label> {
    if found.FoundAt? && found.k < |ls| then ls[..found.k] + [found.used] + ls[found.k + 1..] else ls
  }

  /** What the search finds when it is attempted at all. */
  function Attempt(data: Bytes, dict: seq<nat>, ls: seq<Label>, lim: nat): Found
    requires ValidName(ls)
  {
    if |Encode(ls)| >= lim then NotFound else Search(ls, 0, Entries(data, dict))
  }

  lemma AttemptTargets(data: Bytes, dict: seq<nat>, net: Net, ls: seq<Label>, lim: nat)
    requires Base(data, dict, net) && ValidName(ls)
    ensures var f := Attempt(data, dict, ls, lim);
      && Fits(net, ls, f)
      && (f.FoundAt? ==> Folded(f.tail) == [Fold(f.used)] + FoldAll(ls[f.k + 1..]))
      && (f.FoundAt? ==> exists i :: 0 <= i < |dict| && OnWalk(net, dict[i], f.tail))
  {
    hide Search, Entries, NetOk, Fold, Folded, FoldAll, Fits, OnWalk;
    var f := Attempt(data, dict, ls, lim);
    if f.FoundAt? {
      EntriesAreWalks(data, dict, net);
      var i := SearchSound(ls, 0, Entries(data, dict));
      EntryTarget(data, net, dict[i], ls, f);
    } else {
      NothingFits(net, ls);
    }
  }

  lemma NothingFits(net: Net, ls: seq<Label>)
    ensures Fits(net, ls, NotFound)
  {
  }

  lemma EntryTarget(data: Bytes, net: Net, p: nat, ls: seq<Label>, f: Found)
    requires NetOk(data, net) && f.FoundAt? && f.k < |ls| && Sound(f.used, ls[f.k + 1..], f.tail, WalkAt(net, p))
    ensures Fits(net, ls, f) && OnWalk(net, p, f.tail)
  {
    hide Fold, Folded, FoldAll;
    var w := WalkAt(net, p);
    assert Nested(net, p);
    assert f.tail[0] == w[|w| - |f.tail|];
  }

  /** `tail` is the end of what is read at `p`. */
  ghost predicate OnWalk(net: Net, p: nat, tail: seq<At>) {
    p in net && |tail| <= |net[p].walk| && tail == net[p].walk[|net[p].walk| - |tail|..]
  }

  /** The labels written out, before the pointer or the root octet. */
  function Prefix(ls: seq<Label>, found: Found): (own: seq<Label>)
    requires ValidName(ls)
    ensures ValidName(own)
  {
    if found.FoundAt? && found.k < |ls| then ls[..found.k] else ls
  }

  ghost predicate Fits(net: Net, ls: seq<Label>, found: Found) {
    found.FoundAt? ==>
      && found.k < |ls| && found.tail != [] && found.tail[0].pos <= MAX_TARGET
      && found.tail[0].pos in net && net[found.tail[0].pos].walk == found.tail
  }

  /** A reader will get through the pointer, and from there to the root. */
  ghost predicate Sure(net: Net, ls: seq<Label>, found: Found)
    requires Fits(net, ls, found)
  {
    found.FoundAt? ==> net[found.tail[0].pos].whole && net[found.tail[0].pos].hops < MAX_PTRS
  }

  /** The node behind the labels written out. */
  ghost function Last(net: Net, ls: seq<Label>, q: nat, found: Found): (info: Info)
    requires Fits(net, ls, found)
    ensures info.whole <==> Sure(net, ls, found)
    ensures Sure(net, ls, found) ==> Folded(info.walk) == if found.FoundAt? then Folded(found.tail) else []
    ensures found.FoundAt? && Sure(net, ls, found) ==> info.walk == [At(q, found.tail[0].lab)] + found.tail[1..]
    ensures info.hops == if found.FoundAt? then net[found.tail[0].pos].hops + 1 else 0
    ensures |info.walk| <= if found.FoundAt? then |found.tail| else 0
  {
    if found.FoundAt? then Follow(net[found.tail[0].pos], q) else Info([], 0, true)
  }

  lemma LastOk(data: Bytes, net: Net, ls: seq<Label>, found: Found)
    requires NetOk(data, net) && ValidName(ls) && Fits(net, ls, found)
    ensures var q := |data| + |EncLabels(Prefix(ls, found))|;
      NetOk(data + WireOf(ls, found), net[q := Last(net, ls, q, found)])
  {
    hide EncLabels, WireOf, NetOk, Prefix;
    var data' := data + WireOf(ls, found);
    var q := |data| + |EncLabels(Prefix(ls, found))|;
    WirePrefix(data, ls, found);
    NetExtend(data, WireOf(ls, found), net);
    NodesInside(data, net);
    if found.FoundAt? {
      assert data'[q..q + 2] == data'[q..];
      AddPointer(data', net, q, found.tail[0].pos);
    } else {
      assert data'[q] == data'[q..][0];
      AddNode(data', net, q, Info([], 0, true));
    }
  }

  /** The net after `ls` was written behind `data`. */
  ghost function Grown(data: Bytes, net: Net, ls: seq<Label>, found: Found): Net
    requires ValidName(ls) && Fits(net, ls, found)
  {
    var q := |data| + |EncLabels(Prefix(ls, found))|;
    Lay(net[q := Last(net, ls, q, found)], |data|, Prefix(ls, found))
  }

  lemma GrownOk(data: Bytes, net: Net, ls: seq<Label>, found: Found)
    requires NetOk(data, net) && Short(net, |data|) && ValidName(ls) && Fits(net, ls, found)
    ensures var net' := Grown(data, net, ls, found);
      var own := Prefix(ls, found);
      var q := |data| + |EncLabels(own)|;
      && NetOk(data + WireOf(ls, found), net') && Short(net', |data + WireOf(ls, found)|)
      && (forall p :: p in net ==> p in net' && net'[p] == net[p])
      && (forall p :: p in net' && p !in net ==>
          |data| <= p <= q && net'[p].whole == Sure(net, ls, found) && (p != q ==> net'[p].hops == 0))
      && q !in net && q in net' && net'[q] == Last(net, ls, q, found)
      && |data| in net' && net'[|data|].walk == Own(|data|, own) + net'[q].walk
      && net'[|data|].whole == Sure(net, ls, found)
      && (forall j :: 0 <= j < |own| ==> |data| <= Own(|data|, own)[j].pos < q)
  {
    hide EncLabels, WireOf, NetOk, Lay, Own, Prefix;
    var own := Prefix(ls, found);
    var q := |data| + |EncLabels(own)|;
    WirePrefix(data, ls, found);
    LastOk(data, net, ls, found);
    NodesInside(data, net);
    LayOk(data + WireOf(ls, found), net[q := Last(net, ls, q, found)], |data|, own);
    EncLonger(own);
  }

  lemma WirePrefix(data: Bytes, ls: seq<Label>, found: Found)
    requires ValidName(ls) && (found.FoundAt? ==> found.k < |ls| && found.tail != [])
    ensures var enc := EncLabels(Prefix(ls, found));
      var data' := data + WireOf(ls, found);
      && |data| + |enc| < |data'| && data'[|data|..|data| + |enc|] == enc
      && data'[|data| + |enc|..] == (if found.FoundAt? then PutPtr(found.tail[0].pos) else [0])
  {
    hide EncLabels;
    var enc := EncLabels(Prefix(ls, found));
    var last := if found.FoundAt? then PutPtr(found.tail[0].pos) else [0];
    assert WireOf(ls, found) == enc + last;
    assert data + WireOf(ls, found) == data + enc + last;
    ConcatParts(data + enc, last);
    assert (data + enc + last)[..|data + enc|][|data|..] == enc by {
      ConcatParts(data, enc);
    }
  }

  lemma NodesInside(data: Bytes, net: Net)
    requires NetOk(data, net)
    ensures forall p :: p in net ==> p < |data|
  {
    forall p | p in net
      ensures p < |data|
    {
      assert NodeOk(data, net, p);
    }
  }

  lemma {:induction false} EncLonger(ls: seq<Label>)
    requires ValidName(ls)
    ensures |EncLabels(ls)| >= |ls|
  {
    if ls != [] {
      EncLonger(ls[1..]);
    }
  }

  // ---- The dictionary after a push -----------------------------------------

  /**
   * dns_p_dictadd puts a name that ends in a pointer to an entry in the place of that entry, and any other
   * behind the entries, if there is room.
   */
  ghost predicate DictStep(dict: seq<nat>, dn: nat, found: Found, dict': seq<nat>) {
    if found.FoundAt? && found.k > 0 && found.tail != [] && found.tail[0].pos in dict then
      exists i :: 0 <= i < |dict| && FirstAt(dict, found.tail[0].pos, i) && dict' == dict[i := dn]
    else
      dict' == if |dict| < DICT_SIZE then dict + [dn] else dict
  }

  /** The labels `own` stand at `lp`. */
  ghost predicate LabelsAt(data: Bytes, lp: nat, own: seq<Label>) {
    lp + |EncLabels(own)| <= |data| && data[lp..lp + |EncLabels(own)|] == EncLabels(own)
  }

  lemma LabelsHead(data: Bytes, lp: nat, own: seq<Label>)
    requires ValidName(own) && own != [] && LabelsAt(data, lp, own)
    ensures lp < |data| && 0 < data[lp] == |own[0]| < 0x40 && LSkip(data, lp) == lp + 1 + |own[0]|
    ensures LabelsAt(data, lp + 1 + |own[0]|, own[1..])
    ensures lp + |EncLabels(own)| == lp + 1 + |own[0]| + |EncLabels(own[1..])|
  {
    hide EncLabels;
    assert ValidLabel(own[0]);
    EncHead(data, lp, own);
  }

  lemma DictScanLabel(data: Bytes, dict: seq<nat>, dn: nat, lp: nat)
    requires lp < |data| && data[lp] < 0xc0
    ensures DictScan(data, dict, dn, lp) == DictScan(data, dict, dn, LSkip(data, lp))
  {
  }

  lemma {:induction false} DictLabels(data: Bytes, dict: seq<nat>, dn: nat, lp: nat, own: seq<Label>)
    requires ValidName(own) && LabelsAt(data, lp, own)
    ensures DictScan(data, dict, dn, lp) == DictScan(data, dict, dn, lp + |EncLabels(own)|)
    decreases |own|
  {
    if own != [] {
      hide EncLabels, DictScan, LabelsAt, LSkip;
      LabelsHead(data, lp, own);
      DictScanLabel(data, dict, dn, lp);
      DictLabels(data, dict, dn, lp + 1 + |own[0]|, own[1..]);
    }
  }

  lemma DictScanStep(data: Bytes, dict: seq<nat>, ls: seq<Label>, found: Found)
    requires ValidName(ls) && (found.FoundAt? ==> found.k < |ls| && found.tail != [] && found.tail[0].pos <= MAX_TARGET)
    ensures DictStep(dict, |data|, found, DictScan(data + WireOf(ls, found), dict, |data|, |data|))
  {
    hide EncLabels, WireOf, DictScan, DictStep, LabelsAt, Prefix;
    var data' := data + WireOf(ls, found);
    var own := Prefix(ls, found);
    WireLabels(data, ls, found);
    DictLabels(data', dict, |data|, |data|, own);
    DictTail(data', dict, |data|, |data| + |EncLabels(own)|, found);
  }

  lemma WireLabels(data: Bytes, ls: seq<Label>, found: Found)
    requires ValidName(ls) && (found.FoundAt? ==> found.k < |ls| && found.tail != [])
    ensures var own, data' := Prefix(ls, found), data + WireOf(ls, found);
      && LabelsAt(data', |data|, own) && |data| + |EncLabels(own)| < |data'|
      && data'[|data| + |EncLabels(own)|..] == (if found.FoundAt? then PutPtr(found.tail[0].pos) else [0])
      && (found.FoundAt? ==> (found.k > 0 <==> |EncLabels(own)| > 0))
  {
    assert EncLabels([]) == [];
    hide EncLabels, WireOf;
    WirePrefix(data, ls, found);
    EncLonger(Prefix(ls, found));
  }

  lemma DictTail(data: Bytes, dict: seq<nat>, dn: nat, lp: nat, found: Found)
    requires dn <= lp < |data|
      && (found.FoundAt? ==> found.tail != [] && found.tail[0].pos <= MAX_TARGET && (found.k > 0 <==> lp > dn))
    requires data[lp..] == if found.FoundAt? then PutPtr(found.tail[0].pos) else [0]
    ensures DictStep(dict, dn, found, DictScan(data, dict, dn, lp))
  {
    assert data[lp] == data[lp..][0];
    if found.FoundAt? {
      assert data[lp + 1] == data[lp..][1];
      assert GetPtr(data, lp) == found.tail[0].pos;
    }
    assert LSkip(data, lp) == |data|;
    hide DictScan;
    DictScanUnfold(data, dict, dn, lp);
    DictScanUnfold(data, dict, dn, |data|);
  }

  // ---- What one push does ---------------------------------------------------------

  ghost predicate Extends(net: Net, net': Net) {
    forall p :: p in net ==> p in net' && net'[p] == net[p]
  }

  lemma GrownReads(data: Bytes, net: Net, ls: seq<Label>, found: Found)
    requires NetOk(data, net) && Short(net, |data|) && ValidName(ls) && Fits(net, ls, found) && Sure(net, ls, found)
    requires found.FoundAt? ==> Folded(found.tail) == [Fold(found.used)] + FoldAll(ls[found.k + 1..])
    ensures |data| in Grown(data, net, ls, found)
    ensures Folded(Grown(data, net, ls, found)[|data|].walk) == FoldAll(Written(ls, found))
  {
    hide EncLabels, WireOf, NetOk, Grown, Own, Short, Written;
    GrownOk(data, net, ls, found);
    var own := Prefix(ls, found);
    ReadsAs(Own(|data|, own), Last(net, ls, |data| + |EncLabels(own)|, found).walk, ls, found, own);
  }

  lemma ReadsAs(a: seq<At>, last: seq<At>, ls: seq<Label>, found: Found, own: seq<Label>)
    requires |a| == |own| && forall j :: 0 <= j < |a| ==> a[j].lab == own[j]
    requires ValidName(ls) && own == Prefix(ls, found)
    requires if found.FoundAt? then found.k < |ls| && Folded(last) == [Fold(found.used)] + FoldAll(ls[found.k + 1..])
      else last == []
    ensures Folded(a + last) == FoldAll(Written(ls, found))
  {
    FoldedConcat(a, last);
    assert Folded(a) == FoldAll(own);
    if found.FoundAt? {
      FoldAllConcat(own, [found.used] + ls[found.k + 1..]);
      FoldAllConcat([found.used], ls[found.k + 1..]);
      assert FoldAll([found.used]) == [Fold(found.used)];
      assert Written(ls, found) == own + ([found.used] + ls[found.k + 1..]);
    } else {
      assert a + last == a;
    }
  }

  lemma FoldAllConcat(a: seq<Label>, b: seq<Label>)
    ensures FoldAll(a + b) == FoldAll(a) + FoldAll(b)
  {
  }

  lemma FoldedConcat(a: seq<At>, b: seq<At>)
    ensures Folded(a + b) == Folded(a) + Folded(b)
  {
  }

  lemma DictKept(data: Bytes, dict: seq<nat>, found: Found, dict': seq<nat>, net: Net, net': Net)
    requires DictStep(dict, |data|, found, dict') && |dict| <= DICT_SIZE && Extends(net, net') && |data| in net'
    requires forall i :: 0 <= i < |dict| ==> dict[i] in net || dict[i] == |data|
    ensures |dict'| <= DICT_SIZE && Settled(dict', net')
  {
  }

  /**
   * A push keeps every earlier name, and adds one that comes to the root exactly when its pointer gets
   * there, and then reads as `Written`, up to case. Entries that pointed at the end now point at it.
   */
  lemma PushKeeps(data: Bytes, dict: seq<nat>, net: Net, ls: seq<Label>, lim: nat)
    requires Base(data, dict, net) && ValidName(ls)
    ensures var f := Attempt(data, dict, ls, lim);
      var data' := data + CompWire(data, dict, ls, lim);
      && Fits(net, ls, f)
      && var net' := Grown(data, net, ls, f);
      && Base(data', DictScan(data', dict, |data|, |data|), net')
      && Settled(DictScan(data', dict, |data|, |data|), net')
      && Extends(net, net') && |data| in net' && (net'[|data|].whole <==> Sure(net, ls, f))
      && (Sure(net, ls, f) ==> Folded(net'[|data|].walk) == FoldAll(Written(ls, f)))
  {
    hide Grown, WireOf, DictScan, NetOk, Written, Attempt, CompWire, DictStep, Settled;
    var f := Attempt(data, dict, ls, lim);
    AttemptTargets(data, dict, net, ls, lim);
    AttemptWire(data, dict, ls, lim);
    var data' := data + WireOf(ls, f);
    if Sure(net, ls, f) {
      GrownReads(data, net, ls, f);
    }
    DictScanStep(data, dict, ls, f);
    GrownOk(data, net, ls, f);
    var dict' := DictScan(data', dict, |data|, |data|);
    DictKept(data, dict, f, dict', net, Grown(data, net, ls, f));
    SettledAll(dict', Grown(data, net, ls, f));
  }

  lemma SettledAll(dict: seq<nat>, net: Net)
    requires Settled(dict, net)
    ensures forall i :: 0 <= i < |dict| ==> dict[i] in net
  {
  }

  lemma AttemptWire(data: Bytes, dict: seq<nat>, ls: seq<Label>, lim: nat)
    requires ValidName(ls)
    ensures CompWire(data, dict, ls, lim) == WireOf(ls, Attempt(data, dict, ls, lim))
    ensures var f := Attempt(data, dict, ls, lim); f.FoundAt? && f.k < |ls| ==> |Prefix(ls, f)| == f.k
  {
  }

  /** A pointer is shorter than what it stands for. */
  lemma WireShort(ls: seq<Label>, f: Found)
    requires ValidName(ls) && (f.FoundAt? ==> f.k < |ls|)
    ensures 0 < |WireOf(ls, f)| <= |Encode(ls)|
  {
    if f.FoundAt? {
      assert |EncLabels(ls[f.k..])| >= 2 by {
        assert ValidLabel(ls[f.k..][0]);
      }
      hide EncLabels;
      TakeDrop(ls, f.k);
      EncLength(ls[..f.k], ls[f.k..]);
    }
  }

  lemma CompShort(data: Bytes, dict: seq<nat>, net: Net, ls: seq<Label>, lim: nat)
    requires Base(data, dict, net) && ValidName(ls)
    ensures 0 < |CompWire(data, dict, ls, lim)| <= |Encode(ls)|
  {
    hide Attempt, CompWire, WireOf, NetOk;
    AttemptTargets(data, dict, net, ls, lim);
    AttemptWire(data, dict, ls, lim);
    WireShort(ls, Attempt(data, dict, ls, lim));
  }

  // ---- Reading it back ---------------------------------------------------------------

  ghost predicate FinishesBy(data: Bytes, p: nat, end: Expansion, rounds: nat) {
    forall fuel: nat {:trigger Expand(data, p, [], 0, fuel)} :: fuel >= rounds ==> Expand(data, p, [], 0, fuel) == end
  }

  /** dns_d_expand at `p` terminates with `end`. */
  ghost predicate Finishes(data: Bytes, p: nat, end: Expansion) {
    exists rounds: nat :: FinishesBy(data, p, end, rounds)
  }

  /** It yields `text`. */
  ghost predicate ExpandsTo(data: Bytes, p: nat, text: Bytes) {
    Finishes(data, p, Expanded(text))
  }

  lemma FinishesOnce(data: Bytes, p: nat, a: Expansion, b: Expansion)
    requires Finishes(data, p, a) && Finishes(data, p, b)
    ensures a == b
  {
    var i: nat :| FinishesBy(data, p, a, i);
    var j: nat :| FinishesBy(data, p, b, j);
    assert Expand(data, p, [], 0, if i > j then i else j) == a;
  }

  ghost function Outcome(info: Info): Expansion {
    if info.whole then Expanded(Text(LabelsOf(info.walk))) else Illegal
  }

  lemma NodeExpands(data: Bytes, net: Net, p: nat)
    requires NetOk(data, net) && p in net
    ensures Finishes(data, p, Outcome(net[p]))
  {
    var rounds := 130 * (|net[p].walk| + 1) + MAX_PTRS + 2;
    forall fuel: nat | fuel >= rounds
      ensures Expand(data, p, [], 0, fuel) == Outcome(net[p])
    {
      ExpandNext(data, net, p, [], fuel);
      assert [] + Dotted(LabelsOf(net[p].walk)) == Dotted(LabelsOf(net[p].walk));
    }
    assert FinishesBy(data, p, Outcome(net[p]), rounds);
  }

  ghost predicate ReadsBack(data: Bytes, p: nat, ls: seq<Label>) {
    exists text :: ExpandsTo(data, p, text) && Fold(text) == Fold(Text(ls))
  }

  /** A node reads back as `ls` exactly when its own text is that of `ls`. */
  lemma ReadsBackIff(data: Bytes, net: Net, p: nat, ls: seq<Label>)
    requires NetOk(data, net) && p in net
    ensures ReadsBack(data, p, ls) <==> net[p].whole && Fold(Text(LabelsOf(net[p].walk))) == Fold(Text(ls))
  {
    hide Finishes, Text, Fold;
    NodeExpands(data, net, p);
    if ReadsBack(data, p, ls) {
      var text :| ExpandsTo(data, p, text) && Fold(text) == Fold(Text(ls));
      FinishesOnce(data, p, Outcome(net[p]), Expanded(text));
    } else {
      var text := Text(LabelsOf(net[p].walk));
      assert net[p].whole ==> ExpandsTo(data, p, text);
    }
  }

  lemma NodeReads(data: Bytes, net: Net, p: nat, ls: seq<Label>)
    requires NetOk(data, net) && p in net && net[p].whole && Folded(net[p].walk) == FoldAll(ls)
    ensures ReadsBack(data, p, ls)
  {
    var read := LabelsOf(net[p].walk);
    assert FoldAll(read) == FoldAll(ls);
    FoldText(read, ls);
    ReadsBackIff(data, net, p, ls);
  }

  /** What the pushed name reads back as. */
  lemma PushReads(data: Bytes, dict: seq<nat>, net: Net, ls: seq<Label>, lim: nat, other: seq<Label>)
    requires Base(data, dict, net) && ValidName(ls)
    ensures var f := Attempt(data, dict, ls, lim);
      && Fits(net, ls, f)
      && (ReadsBack(data + CompWire(data, dict, ls, lim), |data|, other) <==>
          Sure(net, ls, f) && Fold(Text(Written(ls, f))) == Fold(Text(other)))
  {
    hide Attempt, CompWire, Grown, DictScan, NetOk, Written, Text, Fold;
    var f := Attempt(data, dict, ls, lim);
    PushKeeps(data, dict, net, ls, lim);
    var data' := data + CompWire(data, dict, ls, lim);
    var net' := Grown(data, net, ls, f);
    ReadsBackIff(data', net', |data|, other);
    if Sure(net, ls, f) {
      var read := LabelsOf(net'[|data|].walk);
      SameFolds(net'[|data|].walk, Written(ls, f));
      FoldText(read, Written(ls, f));
    }
  }

  lemma SameFolds(w: seq<At>, ls: seq<Label>)
    requires Folded(w) == FoldAll(ls)
    ensures FoldAll(LabelsOf(w)) == FoldAll(ls)
  {
    assert FoldAll(LabelsOf(w)) == Folded(w);
  }

  // ---- How deep pointers nest -----------------------------------------------------

  /** Where an entry's walk stands in its packet, pointers nest at most `2 * n` deep. */
  ghost predicate DeepAt(dict: seq<nat>, net: Net, n: nat, i: nat, j: nat) {
    i < |dict| && dict[i] in net && j < |net[dict[i]].walk| ==>
      var at := net[dict[i]].walk[j];
      at.pos in net && net[at.pos].hops + (if j == 0 then 1 else 0) <= 2 * n
  }

  ghost predicate Deep(dict: seq<nat>, net: Net, n: nat) {
    forall i: nat, j: nat {:trigger DeepAt(dict, net, n, i, j)} :: DeepAt(dict, net, n, i, j)
  }

  /** Every name comes to the root, through few enough pointers. */
  ghost predicate Fair(data: Bytes, dict: seq<nat>, net: Net, n: nat) {
    && Base(data, dict, net) && Deep(dict, net, n)
    && forall p :: p in net ==> net[p].whole && net[p].hops <= 2 * n + 1
  }

  /** As long as `n` is at most this, readers get through. */
  const SAFE := 63

  /** How far a push raises the bound: only if the new name takes a place that was not an earlier name's. */
  function Level(n: nat, dict: seq<nat>, dict': seq<nat>, dn: nat): nat {
    if |dict'| == |dict| && dn !in dict then n else n + 1
  }

  lemma TargetDeep(data: Bytes, dict: seq<nat>, net: Net, n: nat, ls: seq<Label>, lim: nat)
    requires Base(data, dict, net) && Deep(dict, net, n) && ValidName(ls) && Attempt(data, dict, ls, lim).FoundAt?
    ensures var f := Attempt(data, dict, ls, lim);
      && Fits(net, ls, f)
      && forall j: nat :: j < |f.tail| ==> f.tail[j].pos in net && net[f.tail[j].pos].hops <= 2 * n
  {
    hide NetOk, Attempt;
    var f := Attempt(data, dict, ls, lim);
    AttemptTargets(data, dict, net, ls, lim);
    var i :| 0 <= i < |dict| && OnWalk(net, dict[i], f.tail);
    var w := net[dict[i]].walk;
    forall j: nat | j < |f.tail|
      ensures f.tail[j].pos in net && net[f.tail[j].pos].hops <= 2 * n
    {
      assert f.tail[j] == w[|w| - |f.tail| + j];
      assert DeepAt(dict, net, n, i, |w| - |f.tail| + j);
    }
  }

  /** How the walk of a new name falls apart: its own labels, the pointer, and what the pointer leads to. */
  ghost predicate Joined(net': Net, dn: nat, m: nat, tail: seq<At>, hops: nat) {
    && dn in net' && var w := net'[dn].walk;
    && |w| == m + |tail|
    && (forall j :: 0 <= j < m ==> w[j].pos in net' && net'[w[j].pos].hops == 0)
    && (tail != [] ==> w[m].pos in net' && net'[w[m].pos].hops == hops)
    && (forall j :: 0 < j < |tail| ==> w[m + j] == tail[j])
  }

  lemma GrownJoined(data: Bytes, net: Net, ls: seq<Label>, f: Found)
    requires NetOk(data, net) && Short(net, |data|) && ValidName(ls) && Fits(net, ls, f) && Sure(net, ls, f)
    ensures Joined(Grown(data, net, ls, f), |data|, |Prefix(ls, f)|, if f.FoundAt? then f.tail else [],
                   if f.FoundAt? then net[f.tail[0].pos].hops + 1 else 0)
  {
    hide EncLabels, WireOf, NetOk, Grown, Own, Short, Nested, Joined;
    GrownOk(data, net, ls, f);
    NodesInside(data, net);
    var net', own := Grown(data, net, ls, f), Prefix(ls, f);
    var q, a := |data| + |EncLabels(own)|, Own(|data|, own);
    GrownNested(data + WireOf(ls, f), net', |data|);
    forall j | 0 <= j < |a|
      ensures a[j].pos in net' && net'[a[j].pos].hops == 0
    {
      assert net'[|data|].walk[j] == a[j];
    }
    JoinWalks(net', |data|, a, net'[q].walk, q, if f.FoundAt? then f.tail else [], net'[q].hops);
  }

  lemma JoinWalks(net': Net, dn: nat, a: seq<At>, last: seq<At>, q: nat, tail: seq<At>, hops: nat)
    requires dn in net' && net'[dn].walk == a + last && q in net' && net'[q].hops == hops
    requires forall j :: 0 <= j < |a| ==> a[j].pos in net' && net'[a[j].pos].hops == 0
    requires last == if tail == [] then [] else [At(q, tail[0].lab)] + tail[1..]
    ensures Joined(net', dn, |a|, tail, hops)
  {
  }

  lemma GrownNested(data: Bytes, net: Net, p: nat)
    requires NetOk(data, net) && p in net
    ensures forall j :: 0 <= j < |net[p].walk| ==> net[p].walk[j].pos in net
  {
    assert Nested(net, p);
  }

  lemma DeepKept(dict: seq<nat>, net: Net, n: nat, dict': seq<nat>, net': Net, n': nat, i: nat, j: nat)
    requires i < |dict| && i < |dict'| && dict[i] in net && dict'[i] == dict[i] && Extends(net, net') && n <= n'
    requires DeepAt(dict, net, n, i, j)
    ensures DeepAt(dict', net', n', i, j)
  {
  }

  lemma DeepNew(dict': seq<nat>, net: Net, net': Net, n: nat, m: nat, tail: seq<At>, hops: nat, i: nat, j: nat)
    requires i < |dict'| && Extends(net, net') && Joined(net', dict'[i], m, tail, hops) && n > 0
    requires forall j: nat :: j < |tail| ==> tail[j].pos in net && net[tail[j].pos].hops <= 2 * n
    requires tail != [] ==> hops + (if m == 0 then 1 else 0) <= 2 * n
    ensures DeepAt(dict', net', n, i, j)
  {
    var w := net'[dict'[i]].walk;
    if m < j < |w| {
      assert w[j] == tail[j - m];
    }
  }

  lemma DeepPush(dict: seq<nat>, net: Net, n: nat, dict': seq<nat>, net': Net, dn: nat, m: nat, f: Found)
    requires Deep(dict, net, n) && Extends(net, net') && DictStep(dict, dn, f, dict') && dn !in net
    requires f.FoundAt? ==> f.tail != [] && m == f.k && f.tail[0].pos in net && net[f.tail[0].pos].walk == f.tail
    requires Joined(net', dn, m, if f.FoundAt? then f.tail else [],
               if f.FoundAt? then net[f.tail[0].pos].hops + 1 else 0)
    requires f.FoundAt? ==> forall j: nat :: j < |f.tail| ==> f.tail[j].pos in net && net[f.tail[j].pos].hops <= 2 * n
    requires forall i :: 0 <= i < |dict| ==> dict[i] in net || dict[i] == dn
    ensures Deep(dict', net', Level(n, dict, dict', dn))
  {
    hide Joined;
    var tail := if f.FoundAt? then f.tail else [];
    var hops := if f.FoundAt? then net[f.tail[0].pos].hops + 1 else 0;
    var n' := Level(n, dict, dict', dn);
    forall i: nat, j: nat
      ensures DeepAt(dict', net', n', i, j)
    {
      if i < |dict'| {
        if i < |dict| && dict[i] in net && dict'[i] == dict[i] {
          assert DeepAt(dict, net, n, i, j);
          DeepKept(dict, net, n, dict', net', n', i, j);
        } else {
          assert dict'[i] == dn;
          if n' == n {
            assert DeepAt(dict, net, n, i, 0);
          }
          DeepNew(dict', net, net', n', m, tail, hops, i, j);
        }
      }
    }
  }

  /** A push of any valid name keeps every name readable. */
  lemma PushFair(data: Bytes, dict: seq<nat>, net: Net, n: nat, ls: seq<Label>, lim: nat)
    requires Fair(data, dict, net, n) && n <= SAFE && ValidName(ls)
    ensures var f := Attempt(data, dict, ls, lim);
      var data' := data + CompWire(data, dict, ls, lim);
      && Fits(net, ls, f) && Sure(net, ls, f)
      && var net', dict' := Grown(data, net, ls, f), DictScan(data', dict, |data|, |data|);
      && Fair(data', dict', net', Level(n, dict, dict', |data|)) && Settled(dict', net') && Extends(net, net')
      && |data| in net'
  {
    hide Grown, CompWire, WireOf, DictScan, Attempt, NetOk, Prefix, DictStep, Joined, Short, Extends, Deep, Settled;
    var f := Attempt(data, dict, ls, lim);
    PushKeeps(data, dict, net, ls, lim);
    AttemptWire(data, dict, ls, lim);
    if f.FoundAt? {
      TargetDeep(data, dict, net, n, ls, lim);
    }
    GrownJoined(data, net, ls, f);
    DictScanStep(data, dict, ls, f);
    NodesInside(data, net);
    var data' := data + CompWire(data, dict, ls, lim);
    var dict' := DictScan(data', dict, |data|, |data|);
    DeepPush(dict, net, n, dict', Grown(data, net, ls, f), |data|, |Prefix(ls, f)|, f);
    GrownHops(data, net, n, ls, f);
  }

  lemma GrownHops(data: Bytes, net: Net, n: nat, ls: seq<Label>, f: Found)
    requires NetOk(data, net) && Short(net, |data|) && ValidName(ls) && Fits(net, ls, f) && Sure(net, ls, f)
    requires forall p :: p in net ==> net[p].whole && net[p].hops <= 2 * n + 1
    requires f.FoundAt? ==> net[f.tail[0].pos].hops <= 2 * n
    ensures forall p :: p in Grown(data, net, ls, f) ==>
      Grown(data, net, ls, f)[p].whole && Grown(data, net, ls, f)[p].hops <= 2 * n + 1
  {
    hide NetOk, Short, Grown, EncLabels, WireOf, Own, Prefix;
    GrownOk(data, net, ls, f);
  }

  // ---- Names that are not exposed to earlier ones -----------------------------------------

  /** Every entry reads as one of `names`. */
  ghost predicate Named(dict: seq<nat>, net: Net, names: set<seq<Label>>) {
    forall i :: 0 <= i < |dict| && dict[i] in net ==> Folded(net[dict[i]].walk) in names
  }

  ghost predicate Unexposed(names: set<seq<Label>>, ls: seq<Label>) {
    forall a :: a in names ==> !Exposed(a, FoldAll(ls))
  }

  lemma NamedCovert(data: Bytes, dict: seq<nat>, net: Net, names: set<seq<Label>>, ls: seq<Label>)
    requires Base(data, dict, net) && Named(dict, net, names) && Unexposed(names, ls)
    ensures Covert(Entries(data, dict), FoldAll(ls))
  {
    hide NetOk;
    EntriesAreWalks(data, dict, net);
    forall i | 0 <= i < |dict|
      ensures !Exposed(Folded(Walks(dict, net)[i]), FoldAll(ls))
    {
      if dict[i] in net {
        assert Folded(net[dict[i]].walk) in names;
      } else {
        assert Folded([]) == [];
      }
    }
  }

  lemma PushNamed(data: Bytes, dict: seq<nat>, net: Net, n: nat, names: set<seq<Label>>, ls: seq<Label>, lim: nat)
    requires Fair(data, dict, net, n) && n <= SAFE && ValidName(ls) && Named(dict, net, names) && Unexposed(names, ls)
    ensures var f := Attempt(data, dict, ls, lim);
      var data' := data + CompWire(data, dict, ls, lim);
      && Fits(net, ls, f)
      && var net' := Grown(data, net, ls, f);
      && |data| in net' && net'[|data|].whole && Folded(net'[|data|].walk) == FoldAll(ls)
      && Named(DictScan(data', dict, |data|, |data|), net', names + {FoldAll(ls)})
  {
    hide Grown, CompWire, WireOf, DictScan, Attempt, NetOk, DictStep, Extends, Deep, Settled, Unexposed, Written, Fold;
    var f := Attempt(data, dict, ls, lim);
    PushFair(data, dict, net, n, ls, lim);
    PushKeeps(data, dict, net, ls, lim);
    AttemptWire(data, dict, ls, lim);
    NamedCovert(data, dict, net, names, ls);
    RightWritten(data, dict, ls, lim);
    DictScanStep(data, dict, ls, f);
    var data' := data + CompWire(data, dict, ls, lim);
    NamedStep(dict, net, names, |data|, f, DictScan(data', dict, |data|, |data|), Grown(data, net, ls, f), FoldAll(ls));
  }

  lemma RightWritten(data: Bytes, dict: seq<nat>, ls: seq<Label>, lim: nat)
    requires ValidName(ls) && Covert(Entries(data, dict), FoldAll(ls))
    ensures FoldAll(Written(ls, Attempt(data, dict, ls, lim))) == FoldAll(ls)
  {
    hide Search, Covert, Entries;
    var f := Attempt(data, dict, ls, lim);
    if f.FoundAt? {
      SearchRight(ls, Entries(data, dict));
      assert ls == ls[..f.k] + [ls[f.k]] + ls[f.k + 1..];
    }
  }

  lemma NamedStep(dict: seq<nat>, net: Net, names: set<seq<Label>>, dn: nat, f: Found, dict': seq<nat>, net': Net,
      name: seq<Label>)
    requires Named(dict, net, names) && Extends(net, net') && DictStep(dict, dn, f, dict')
    requires forall i :: 0 <= i < |dict| ==> dict[i] in net || dict[i] == dn
    requires dn in net' && Folded(net'[dn].walk) == name
    ensures Named(dict', net', names + {name})
  {
    hide Folded;
  }

  // ---- Runs --------------------------------------------------------------------

  datatype Op = Octets(octets: Bytes) | Name(labels: seq<Label>)

  datatype Pkt = Pkt(data: Bytes, dict: seq<nat>)

  /** dns_d_push into a packet of `size` octets; a name that does not fit changes nothing. */
  function DPush(pk: Pkt, size: nat, ls: seq<Label>): Pkt
    requires ValidName(ls)
  {
    var lim := if |pk.data| <= size then size - |pk.data| else 0;
    var wire := CompWire(pk.data, pk.dict, ls, lim);
    if |wire| > lim then pk
    else Pkt(pk.data + wire, DictScan(pk.data + wire, pk.dict, |pk.data|, |pk.data|))
  }

  predicate ValidOp(op: Op) {
    op.Name? ==> ValidName(op.labels)
  }

  function Apply(pk: Pkt, size: nat, op: Op): Pkt
    requires ValidOp(op)
  {
    match op
    case Octets(s) => Pkt(pk.data + s, pk.dict)
    case Name(ls) => DPush(pk, size, ls)
  }

  function Run(pk: Pkt, size: nat, ops: seq<Op>): Pkt
    requires forall i :: 0 <= i < |ops| ==> ValidOp(ops[i])
    decreases |ops|
  {
    if ops == [] then pk else Run(Apply(pk, size, ops[0]), size, ops[1..])
  }

  /** Where each name that fitted was put. */
  function Placed(pk: Pkt, size: nat, ops: seq<Op>): seq<(nat, seq<Label>)>
    requires forall i :: 0 <= i < |ops| ==> ValidOp(ops[i])
    decreases |ops|
  {
    if ops == [] then []
    else
      var pk' := Apply(pk, size, ops[0]);
      (if ops[0].Name? && pk' != pk then [(|pk.data|, ops[0].labels)] else []) + Placed(pk', size, ops[1..])
  }

  ghost function Lim(pk: Pkt, size: nat): nat {
    if |pk.data| <= size then size - |pk.data| else 0
  }

  lemma OctetsBase(data: Bytes, dict: seq<nat>, net: Net, more: Bytes)
    requires Base(data, dict, net) && Settled(dict, net)
    ensures Base(data + more, dict, net)
  {
    NetExtend(data, more, net);
  }

  lemma OctetsFair(data: Bytes, dict: seq<nat>, net: Net, n: nat, more: Bytes)
    requires Fair(data, dict, net, n) && Settled(dict, net)
    ensures Fair(data + more, dict, net, n)
  {
    hide Deep, NetOk;
    OctetsBase(data, dict, net, more);
  }

  /** Every name placed so far comes to the root and reads, in the net, as it was pushed. */
  ghost predicate Read(net: Net, placed: seq<(nat, seq<Label>)>) {
    forall m :: 0 <= m < |placed| ==>
      placed[m].0 in net && net[placed[m].0].whole && Folded(net[placed[m].0].walk) == FoldAll(placed[m].1)
  }

  /** No name is exposed to an earlier one. */
  ghost predicate NoneExposed(ops: seq<Op>) {
    forall i, j :: 0 <= i < j < |ops| && ops[i].Name? && ops[j].Name? ==>
      !Exposed(FoldAll(ops[i].labels), FoldAll(ops[j].labels))
  }

  /** What holds after each push of a run: `n` is no more than the number of entries. */
  ghost predicate Going(pk: Pkt, net: Net, n: nat) {
    Fair(pk.data, pk.dict, net, n) && Settled(pk.dict, net) && n <= |pk.dict|
  }

  lemma StepGoing(pk: Pkt, net: Net, n: nat, size: nat, op: Op) returns (net': Net, n': nat)
    requires Going(pk, net, n) && ValidOp(op)
    ensures Going(Apply(pk, size, op), net', n') && Extends(net, net')
    ensures op.Name? && Apply(pk, size, op) != pk ==>
      Fits(net, op.labels, Attempt(pk.data, pk.dict, op.labels, Lim(pk, size))) &&
      net' == Grown(pk.data, net, op.labels, Attempt(pk.data, pk.dict, op.labels, Lim(pk, size)))
    ensures op.Octets? || Apply(pk, size, op) == pk ==> net' == net
  {
    hide Fair, CompWire, DictScan, Grown, Attempt, Fits, Sure, Settled;
    net', n' := net, n;
    NotInDict(pk.data, pk.dict, net, n);
    if op.Octets? {
      OctetsFair(pk.data, pk.dict, net, n, op.octets);
    } else if Apply(pk, size, op) != pk {
      var lim := Lim(pk, size);
      PushFair(pk.data, pk.dict, net, n, op.labels, lim);
      net' := Grown(pk.data, net, op.labels, Attempt(pk.data, pk.dict, op.labels, lim));
      n' := Level(n, pk.dict, Apply(pk, size, op).dict, |pk.data|);
      DictScanSize(Apply(pk, size, op).data, pk.dict, |pk.data|, |pk.data|);
    }
  }

  lemma {:induction false} DictScanSize(data: Bytes, dict: seq<nat>, dn: nat, lp: nat)
    ensures |dict| <= |DictScan(data, dict, dn, lp)| <= |dict| + 1
    decreases |data| - lp
  {
    if lp < |data| {
      DictScanSize(data, dict, dn, LSkip(data, lp));
    }
  }

  lemma NotInDict(data: Bytes, dict: seq<nat>, net: Net, n: nat)
    requires Fair(data, dict, net, n) && Settled(dict, net)
    ensures |data| !in dict && |dict| <= DICT_SIZE
  {
    hide NetOk;
    NodesInside(data, net);
  }

  lemma {:induction false} RunFrom(pk: Pkt, net: Net, n: nat, names: set<seq<Label>>, size: nat, ops: seq<Op>)
      returns (net': Net, n': nat)
    requires Going(pk, net, n) && Named(pk.dict, net, names) && NoneExposed(ops)
    requires forall i :: 0 <= i < |ops| ==> ValidOp(ops[i]) && (ops[i].Name? ==> Unexposed(names, ops[i].labels))
    ensures Going(Run(pk, size, ops), net', n') && Extends(net, net') && Read(net', Placed(pk, size, ops))
    decreases |ops|
  {
    hide Going, CompWire, DictScan, Grown, Attempt, Fits, Folded, FoldAll, Named, Unexposed, Exposed;
    if ops == [] {
      net', n' := net, n;
    } else {
      var pk' := Apply(pk, size, ops[0]);
      var net1, n1 := StepGoing(pk, net, n, size, ops[0]);
      var names1 := names;
      if ops[0].Name? {
        names1 := names + {FoldAll(ops[0].labels)};
        StepNamed(pk, net, n, names, size, ops[0]);
      } else {
        assert pk'.dict == pk.dict;
      }
      forall i | 0 <= i < |ops[1..]| && ops[1..][i].Name?
        ensures Unexposed(names1, ops[1..][i].labels)
      {
        if ops[0].Name? {
          assert !Exposed(FoldAll(ops[0].labels), FoldAll(ops[i + 1].labels));
          MoreUnexposed(names, FoldAll(ops[0].labels), ops[i + 1].labels);
        }
      }
      net', n' := RunFrom(pk', net1, n1, names1, size, ops[1..]);
    }
  }

  lemma StepNamed(pk: Pkt, net: Net, n: nat, names: set<seq<Label>>, size: nat, op: Op)
    requires Going(pk, net, n) && Named(pk.dict, net, names) && op.Name? && ValidOp(op) && Unexposed(names, op.labels)
    ensures var pk' := Apply(pk, size, op);
      if pk' == pk then Named(pk'.dict, net, names + {FoldAll(op.labels)})
      else
        var f := Attempt(pk.data, pk.dict, op.labels, Lim(pk, size));
        && Fits(net, op.labels, f)
        && var net' := Grown(pk.data, net, op.labels, f);
        && Named(pk'.dict, net', names + {FoldAll(op.labels)})
        && |pk.data| in net' && net'[|pk.data|].whole && Folded(net'[|pk.data|].walk) == FoldAll(op.labels)
  {
    hide Fair, CompWire, DictScan, Grown, Attempt, Fits, FoldAll, Unexposed, Settled;
    NotInDict(pk.data, pk.dict, net, n);
    if Apply(pk, size, op) != pk {
      PushNamed(pk.data, pk.dict, net, n, names, op.labels, Lim(pk, size));
    }
  }

  lemma MoreUnexposed(names: set<seq<Label>>, name: seq<Label>, ls: seq<Label>)
    requires Unexposed(names, ls) && !Exposed(name, FoldAll(ls))
    ensures Unexposed(names + {name}, ls)
  {
  }

  lemma EmptyGoing(header: Bytes)
    ensures Going(Pkt(header, []), map[], 0) && Named([], map[], {})
  {
  }

  /**
   * The round trip over whole runs: however names and other octets are appended to an empty packet,
   * if no name is exposed to an earlier one, then at the end every name that fitted expands, from the
   * offset at which it was pushed, to its anchored text up to case. No bound on the number of names is needed.
   */
  lemma NamesReadBack(header: Bytes, size: nat, ops: seq<Op>)
    requires NoneExposed(ops) && forall i :: 0 <= i < |ops| ==> ValidOp(ops[i])
    ensures forall m :: 0 <= m < |Placed(Pkt(header, []), size, ops)| ==>
      var (p, ls) := Placed(Pkt(header, []), size, ops)[m];
      ReadsBack(Run(Pkt(header, []), size, ops).data, p, ls)
  {
    hide ReadsBack, Placed, Run, Folded, NoneExposed, Read;
    EmptyGoing(header);
    var pk := Pkt(header, []);
    var net, n := RunFrom(pk, map[], 0, {}, size, ops);
    var end := Run(pk, size, ops);
    GoingNet(end, net, n);
    forall m | 0 <= m < |Placed(pk, size, ops)|
      ensures var (p, ls) := Placed(pk, size, ops)[m]; ReadsBack(end.data, p, ls)
    {
      ReadAt(net, Placed(pk, size, ops), m);
      NodeReads(end.data, net, Placed(pk, size, ops)[m].0, Placed(pk, size, ops)[m].1);
    }
  }

  lemma ReadAt(net: Net, placed: seq<(nat, seq<Label>)>, m: nat)
    requires Read(net, placed) && m < |placed|
    ensures placed[m].0 in net && net[placed[m].0].whole && Folded(net[placed[m].0].walk) == FoldAll(placed[m].1)
  {
  }

  lemma GoingNet(pk: Pkt, net: Net, n: nat)
    requires Going(pk, net, n)
    ensures NetOk(pk.data, net) && Base(pk.data, pk.dict, net) && n <= SAFE
  {
  }

  /** In particular if only the last name repeats labels. */
  lemma LastMayRepeat(header: Bytes, size: nat, ops: seq<Op>)
    requires forall i :: 0 <= i < |ops| ==> ValidOp(ops[i])
    requires forall i :: 0 <= i < |ops| - 1 && ops[i].Name? ==> NoRepeat(ops[i].labels)
    ensures forall m :: 0 <= m < |Placed(Pkt(header, []), size, ops)| ==>
      var (p, ls) := Placed(Pkt(header, []), size, ops)[m];
      ReadsBack(Run(Pkt(header, []), size, ops).data, p, ls)
  {
    hide ReadsBack, Placed, Run;
    forall i, j | 0 <= i < j < |ops| && ops[i].Name? && ops[j].Name?
      ensures !Exposed(FoldAll(ops[i].labels), FoldAll(ops[j].labels))
    {
      UnrepeatedExposesNone(ops[i].labels, ops[j].labels);
    }
    NamesReadBack(header, size, ops);
  }

  // ---- Runs of any names --------------------------------------------------------

  lemma {:induction false} RunFair(pk: Pkt, net: Net, n: nat, size: nat, ops: seq<Op>) returns (net': Net, n': nat)
    requires Going(pk, net, n) && forall i :: 0 <= i < |ops| ==> ValidOp(ops[i])
    ensures Going(Run(pk, size, ops), net', n') && Extends(net, net')
    decreases |ops|
  {
    hide Going, Grown, Attempt, Fits;
    if ops == [] {
      net', n' := net, n;
    } else {
      var net1, n1 := StepGoing(pk, net, n, size, ops[0]);
      net', n' := RunFair(Apply(pk, size, ops[0]), net1, n1, size, ops[1..]);
    }
  }

  /** One more operation on a packet whose names may be of any depth. */
  lemma StepBase(pk: Pkt, net: Net, size: nat, op: Op) returns (net': Net)
    requires Base(pk.data, pk.dict, net) && Settled(pk.dict, net) && ValidOp(op)
    ensures var pk' := Apply(pk, size, op);
      Base(pk'.data, pk'.dict, net') && Settled(pk'.dict, net') && Extends(net, net')
  {
    hide CompWire, DictScan, Grown, Attempt, Fits, Sure, Settled, NetOk;
    net' := net;
    if op.Octets? {
      OctetsBase(pk.data, pk.dict, net, op.octets);
    } else if Apply(pk, size, op) != pk {
      PushKeeps(pk.data, pk.dict, net, op.labels, Lim(pk, size));
      net' := Grown(pk.data, net, op.labels, Attempt(pk.data, pk.dict, op.labels, Lim(pk, size)));
    }
  }

  lemma {:induction false} RunBase(pk: Pkt, net: Net, size: nat, ops: seq<Op>) returns (net': Net)
    requires Base(pk.data, pk.dict, net) && Settled(pk.dict, net) && forall i :: 0 <= i < |ops| ==> ValidOp(ops[i])
    ensures var end := Run(pk, size, ops);
      Base(end.data, end.dict, net') && Settled(end.dict, net') && Extends(net, net')
    decreases |ops|
  {
    hide Base, Settled;
    if ops == [] {
      net' := net;
    } else {
      var net1 := StepBase(pk, net, size, ops[0]);
      net' := RunBase(Apply(pk, size, ops[0]), net1, size, ops[1..]);
    }
  }

  /**
   * However names and other octets were appended before, and whatever is appended after: what is read
   * at a name in between stays the same, text or error.
   */
  lemma EarlierNamesStay(pk: Pkt, net: Net, size: nat, ops: seq<Op>, p: nat)
    requires Base(pk.data, pk.dict, net) && Settled(pk.dict, net) && p in net
    requires forall i :: 0 <= i < |ops| ==> ValidOp(ops[i])
    ensures Finishes(pk.data, p, Outcome(net[p])) && Finishes(Run(pk, size, ops).data, p, Outcome(net[p]))
  {
    hide Settled, Run, Finishes, NetOk;
    var net' := RunBase(pk, net, size, ops);
    NodeExpands(pk.data, net, p);
    NodeExpands(Run(pk, size, ops).data, net', p);
  }

  // ---- What a name can turn into ------------------------------------------------------------

  /** A label that stands somewhere behind label `k`, and is another one. */
  ghost predicate Confusable(ls: seq<Label>, k: nat, u: Label) {
    k < |ls| && Fold(u) != Fold(ls[k]) && Fold(u) in FoldAll(ls[k + 1..])
  }

  /** After a run of pushes into an empty packet, a push of `ls` reads back as the text `t`, up to case. */
  ghost predicate ReadsAfter(header: Bytes, size: nat, ops: seq<Op>, ls: seq<Label>, t: Bytes)
    requires ValidName(ls)
  {
    && (forall i :: 0 <= i < |ops| ==> ValidOp(ops[i]))
    && var pk := Run(Pkt(header, []), size, ops);
      exists text ::
        ExpandsTo(pk.data + CompWire(pk.data, pk.dict, ls, Lim(pk, size)), |pk.data|, text) && Fold(text) == Fold(t)
  }

  lemma CarriedWritten(ls: seq<Label>, f: Found)
    requires f.FoundAt? && f.k < |ls| && Carried(Have(f.used), ls[f.k], ls[f.k + 1..])
    ensures Written(ls, f) == ls[f.k := f.used]
    ensures FoldAll(Written(ls, f)) == FoldAll(ls) || Confusable(ls, f.k, f.used)
  {
  }

  /** Whatever the run before it, a name that does not read back has one label replaced by one that stands behind it. */
  lemma MisreadOnly(header: Bytes, size: nat, ops: seq<Op>, ls: seq<Label>, t: Bytes) returns (k: nat, u: Label)
    requires ValidName(ls) && ReadsAfter(header, size, ops, ls, t) && Fold(t) != Fold(Text(ls))
    ensures Confusable(ls, k, u) && Fold(t) == Fold(Text(ls[k := u]))
  {
    hide CompWire, Run, Going, Text, Fold, FoldAll, Finishes, Confusable, Search, Grown, DictScan;
    EmptyGoing(header);
    var net, n := RunFair(Pkt(header, []), map[], 0, size, ops);
    var pk := Run(Pkt(header, []), size, ops);
    GoingNet(pk, net, n);
    var lim := Lim(pk, size);
    var f := Attempt(pk.data, pk.dict, ls, lim);
    var data' := pk.data + CompWire(pk.data, pk.dict, ls, lim);
    var text :| ExpandsTo(data', |pk.data|, text) && Fold(text) == Fold(t);
    GoingPush(pk, net, n, ls, lim, text);
    k, u := 0, [];
    if f.FoundAt? {
      SearchCarried(ls, 0, Entries(pk.data, pk.dict));
      CarriedWritten(ls, f);
      if FoldAll(Written(ls, f)) == FoldAll(ls) {
        FoldText(Written(ls, f), ls);
        assert false;
      }
      k, u := f.k, f.used;
    } else {
      assert false;
    }
  }

  lemma GoingPush(pk: Pkt, net: Net, n: nat, ls: seq<Label>, lim: nat, text: Bytes)
    requires Going(pk, net, n) && ValidName(ls)
      && ExpandsTo(pk.data + CompWire(pk.data, pk.dict, ls, lim), |pk.data|, text)
    ensures Fold(text) == Fold(Text(Written(ls, Attempt(pk.data, pk.dict, ls, lim))))
  {
    hide Attempt, CompWire, Grown, DictScan, NetOk, Written, Text, Fold, Fair, Settled, Finishes;
    GoingNet(pk, net, n);
    PushFair(pk.data, pk.dict, net, n, ls, lim);
    PushKeeps(pk.data, pk.dict, net, ls, lim);
    var net' := Grown(pk.data, net, ls, Attempt(pk.data, pk.dict, ls, lim));
    var data' := pk.data + CompWire(pk.data, pk.dict, ls, lim);
    NodeExpands(data', net', |pk.data|);
    FinishesOnce(data', |pk.data|, Expanded(text), Outcome(net'[|pk.data|]));
    var w := net'[|pk.data|].walk;
    SameFolds(w, Written(ls, Attempt(pk.data, pk.dict, ls, lim)));
    FoldText(LabelsOf(w), Written(ls, Attempt(pk.data, pk.dict, ls, lim)));
  }

  // ---- A run after which it does ---------------------------------------------------------------

  /** Whatever is found is the end of an entry with the same last label. */
  lemma HitEnds(ls: seq<Label>, entries: seq<seq<At>>) returns (i: nat)
    requires Search(ls, 0, entries).FoundAt?
    ensures i < |entries| && entries[i] != [] && ls != []
      && Fold(entries[i][|entries[i]| - 1].lab) == Fold(ls[|ls| - 1])
    ensures |ls| - Search(ls, 0, entries).k <= |entries[i]|
  {
    hide Search, Sound, Carried, Fold;
    var f := Search(ls, 0, entries);
    SearchCarried(ls, 0, entries);
    i := SearchSound(ls, 0, entries);
    LastOfHit(f.used, ls, f.k, f.tail, entries[i]);
  }

  lemma LastLabelMissing(ls: seq<Label>, entries: seq<seq<At>>)
    requires ls != [] && forall i :: 0 <= i < |entries| && entries[i] != [] ==>
      Fold(entries[i][|entries[i]| - 1].lab) != Fold(ls[|ls| - 1])
    ensures Search(ls, 0, entries).NotFound?
  {
    hide Search, Fold;
    if Search(ls, 0, entries).FoundAt? {
      var i := HitEnds(ls, entries);
      assert false;
    }
  }

  lemma LastOfHit(used: Label, ls: seq<Label>, k: nat, tail: seq<At>, b: seq<At>)
    requires k < |ls| && Sound(used, ls[k + 1..], tail, b) && Carried(Have(used), ls[k], ls[k + 1..])
    ensures b != [] && Fold(b[|b| - 1].lab) == Fold(ls[|ls| - 1]) && |ls| - k == |tail| <= |b|
  {
    var rest := ls[k + 1..];
    assert |Folded(tail)| == 1 + |rest|;
    assert b[|b| - 1] == tail[|tail| - 1];
    assert Folded(tail)[|tail| - 1] == Fold(b[|b| - 1].lab);
    if rest == [] {
      assert FoldAll(rest) == [];
    } else {
      assert FoldAll(rest)[|rest| - 1] == Fold(ls[|ls| - 1]);
    }
  }

  lemma {:induction false} ScanPasses(c: Label, rest: seq<Label>, b: seq<At>)
    requires forall j :: 0 <= j < |b| ==> Fold(b[j].lab) != Fold(c)
    ensures ScanEntry(Have(c), rest, b) == Miss(Have(c))
    decreases |b|
  {
    if b != [] {
      ScanPasses(c, rest, b[1..]);
    }
  }

  lemma {:induction false} SearchReaches(ls: seq<Label>, j: nat, k: nat, entries: seq<seq<At>>)
    requires j <= k < |ls| && ScanDict(Have(ls[k]), ls[k + 1..], entries).Hit?
    ensures var f, s := Search(ls, j, entries), ScanDict(Have(ls[k]), ls[k + 1..], entries);
      f.FoundAt? && f.k <= k && (f.k == k ==> f == FoundAt(k, s.used, s.tail))
    decreases k - j
  {
    if j < k {
      SearchReaches(ls, j + 1, k, entries);
      if ScanDict(Have(ls[j]), ls[j + 1..], entries).Hit? {
        SearchCarried(ls, j, entries);
      }
    }
  }

  /** The first name makes the cursor stop at label `m` of the rest, the second has that label in front of it. */
  ghost predicate Trap(x: Label, rest: seq<Label>, m: nat, y: Label, w0: seq<At>, w1: seq<At>) {
    && m < |rest| && LabelsOf(w0) == [x] + rest[..m] + [y] && LabelsOf(w1) == [rest[m]] + rest
    && w1[0].pos <= MAX_TARGET
    && (forall i :: 0 <= i < m ==> Fold(rest[i]) != Fold(rest[m]))
    && Fold(y) != Fold(rest[m]) && Fold(x) != Fold(rest[m])
  }

  lemma TrapFirst(x: Label, rest: seq<Label>, m: nat, y: Label, w0: seq<At>, w1: seq<At>)
    requires Trap(x, rest, m, y, w0, w1)
    ensures ScanEntry(Have(x), rest, w0) == Miss(Have(rest[m]))
  {
    var ls0, b := LabelsOf(w0), w0[1..];
    assert |w0| == m + 2;
    assert w0[0].lab == ls0[0] == x;
    assert forall j :: 0 <= j < m ==> b[j].lab == ls0[j + 1] == rest[j];
    assert b[m].lab == ls0[m + 1] == y;
    CommonIs(rest, b, m);
    ScanPasses(rest[m], rest, b);
  }

  lemma TrapSecond(x: Label, rest: seq<Label>, m: nat, y: Label, w0: seq<At>, w1: seq<At>)
    requires Trap(x, rest, m, y, w0, w1)
    ensures ScanEntry(Have(rest[m]), rest, w1) == Hit(rest[m], w1)
  {
    var ls1, b := LabelsOf(w1), w1[1..];
    assert |w1| == 1 + |rest|;
    assert w1[0].lab == ls1[0] == rest[m];
    assert forall j :: 0 <= j < |rest| ==> b[j].lab == ls1[j + 1] == rest[j];
    CommonIs(rest, b, |rest|);
  }

  lemma TrapHit(x: Label, rest: seq<Label>, m: nat, y: Label, w0: seq<At>, w1: seq<At>)
    requires Trap(x, rest, m, y, w0, w1)
    ensures ScanDict(Have(x), rest, [w0, w1]) == Hit(rest[m], w1)
    ensures |w0| == m + 2 && w0[|w0| - 1].lab == y && |w1| == 1 + |rest|
  {
    TrapFirst(x, rest, m, y, w0, w1);
    TrapSecond(x, rest, m, y, w0, w1);
    assert |LabelsOf(w0)| == m + 2 && |LabelsOf(w1)| == 1 + |rest|;
    assert w0[|w0| - 1].lab == LabelsOf(w0)[|w0| - 1];
    hide ScanEntry, Trap;
    assert [w0, w1][1..] == [w1];
    assert ScanDict(Have(x), rest, [w0, w1]) == ScanDict(Have(rest[m]), rest, [w1]);
  }

  /** Between these two names the search takes `u.rest` for `x.rest`, whatever stands in front. */
  lemma TrapSprings(ls: seq<Label>, k: nat, m: nat, y: Label, w0: seq<At>, w1: seq<At>)
    requires k < |ls| && Trap(ls[k], ls[k + 1..], m, y, w0, w1) && Fold(y) != Fold(ls[|ls| - 1])
    ensures Search(ls, 0, [w0, w1]) == FoundAt(k, ls[k + 1..][m], w1)
  {
    hide Search, ScanDict, Trap, Fold;
    var es := [w0, w1];
    TrapHit(ls[k], ls[k + 1..], m, y, w0, w1);
    SearchReaches(ls, 0, k, es);
    var i := HitEnds(ls, es);
    assert i == 1;
  }

  lemma PlainWritten(data: Bytes, ls: seq<Label>)
    ensures LabelsAt(data + Encode(ls), |data|, ls) && RootLast(data + Encode(ls), |data| + |EncLabels(ls)|)
  {
    hide EncLabels;
    Assoc(data, EncLabels(ls), [0]);
    MidSlice(data, EncLabels(ls), [0]);
    ConcatParts(data + EncLabels(ls), [0]);
  }

  /** A root octet at the end of the packet. */
  predicate RootLast(data: Bytes, lp: nat) {
    lp + 1 == |data| && data[lp] == 0
  }

  lemma DictPlainAt(data: Bytes, dict: seq<nat>, dn: nat, ls: seq<Label>)
    requires ValidName(ls) && LabelsAt(data, dn, ls) && RootLast(data, dn + |EncLabels(ls)|) && |dict| < DICT_SIZE
    ensures DictScan(data, dict, dn, dn) == dict + [dn]
  {
    hide *;
    DictLabels(data, dict, dn, dn, ls);
    DictEnd(data, dict, dn, dn + |EncLabels(ls)|);
  }

  lemma DictEnd(data: Bytes, dict: seq<nat>, dn: nat, lp: nat)
    requires RootLast(data, lp) && |dict| < DICT_SIZE
    ensures DictScan(data, dict, dn, lp) == dict + [dn]
  {
    hide DictScan;
    DictScanUnfold(data, dict, dn, lp);
    DictScanUnfold(data, dict, dn, |data|);
  }

  /** A name for which nothing is found is written out, and listed while there is room. */
  lemma PlainPush(pk: Pkt, net: Net, n: nat, size: nat, ls: seq<Label>) returns (net': Net, n': nat)
    requires Going(pk, net, n) && ValidName(ls) && Search(ls, 0, Entries(pk.data, pk.dict)).NotFound?
    requires |pk.data| + |Encode(ls)| <= size && |pk.dict| < DICT_SIZE
    ensures var pk' := Apply(pk, size, Name(ls));
      && pk' == Pkt(pk.data + Encode(ls), pk.dict + [|pk.data|])
      && Going(pk', net', n') && Extends(net, net') && |pk.data| in net' && net'[|pk.data|].walk == Own(|pk.data|, ls)
  {
    hide Search, Entries, DictScan, Own, EncLabels, Fair, Settled, Extends, LabelsAt, RootLast;
    PlainWritten(pk.data, ls);
    DictPlainAt(pk.data + Encode(ls), pk.dict, |pk.data|, ls);
    net', n' := StepGoing(pk, net, n, size, Name(ls));
    GoingNet(pk, net, n);
    assert Attempt(pk.data, pk.dict, ls, Lim(pk, size)) == NotFound;
    GrownOk(pk.data, net, ls, NotFound);
    assert Own(|pk.data|, ls) + [] == Own(|pk.data|, ls);
  }

  lemma {:induction false} EncConcat(a: seq<Label>, b: seq<Label>)
    ensures EncLabels(a + b) == EncLabels(a) + EncLabels(b)
  {
    if a == [] {
      assert a + b == b;
    } else {
      assert (a + b)[1..] == a[1..] + b;
      EncConcat(a[1..], b);
      var head := [|a[0]| % 0x40] + a[0];
      Assoc(head, EncLabels(a[1..]), EncLabels(b));
    }
  }

  lemma {:induction false} EncBound(ls: seq<Label>)
    requires ValidName(ls)
    ensures |EncLabels(ls)| <= 64 * |ls|
  {
    if ls != [] {
      assert ValidLabel(ls[0]);
      EncBound(ls[1..]);
    }
  }

  lemma OwnLabels(base: nat, ls: seq<Label>)
    ensures LabelsOf(Own(base, ls)) == ls
    ensures ls != [] ==> Own(base, ls)[0].pos == base && Own(base, ls)[|ls| - 1].lab == ls[|ls| - 1]
  {
  }

  /** The two names pushed, and what the dictionary reads then. */
  lemma TrapLaid(header: Bytes, size: nat, e0: seq<Label>, e1: seq<Label>) returns (net: Net, n: nat)
    requires ValidName(e0) && ValidName(e1) && e0 != [] && e1 != [] && Fold(e0[|e0| - 1]) != Fold(e1[|e1| - 1])
    requires |header| + |Encode(e0)| + |Encode(e1)| <= size
    ensures var pk := Run(Pkt(header, []), size, [Name(e0), Name(e1)]);
      && Going(pk, net, n) && |pk.data| == |header| + |Encode(e0)| + |Encode(e1)|
      && Entries(pk.data, pk.dict) == [Own(|header|, e0), Own(|header| + |Encode(e0)|, e1)]
  {
    hide Search, Encode, Own, Going, Walk, Fold;
    EmptyGoing(header);
    var pk0 := Pkt(header, []);
    assert Entries(header, []) == [];
    LastLabelMissing(e0, []);
    var net1, n1 := PlainPush(pk0, map[], 0, size, e0);
    var pk1 := Apply(pk0, size, Name(e0));
    GoingNet(pk1, net1, n1);
    EntriesAreWalks(pk1.data, pk1.dict, net1);
    assert Entries(pk1.data, pk1.dict) == [Own(|header|, e0)];
    OwnLabels(|header|, e0);
    LastLabelMissing(e1, [Own(|header|, e0)]);
    net, n := PlainPush(pk1, net1, n1, size, e1);
    var pk2 := Apply(pk1, size, Name(e1));
    assert [Name(e0), Name(e1)][1..] == [Name(e1)] && [Name(e1)][1..] == [];
    assert Run(pk0, size, [Name(e0), Name(e1)]) == Run(pk1, size, [Name(e1)]) == Run(pk2, size, []) == pk2;
    GoingNet(pk2, net, n);
    EntriesAreWalks(pk2.data, pk2.dict, net);
    assert pk2.dict == [|header|, |pk1.data|];
    assert Entries(pk2.data, pk2.dict) == [Own(|header|, e0), Own(|pk1.data|, e1)];
  }

  /** The names that trap `ls` at label `k`, with label `m` behind it. */
  function Bait(ls: seq<Label>, k: nat, m: nat, y: Label): seq<Op>
    requires k < |ls| && m < |ls| - k - 1
  {
    [Name([ls[k]] + ls[k + 1..][..m] + [y]), Name([ls[k + 1..][m]] + ls[k + 1..])]
  }

  /** A family of failures: after two pushes a further name reads back with another label, one of those behind. */
  lemma Misreads(header: Bytes, size: nat, ls: seq<Label>, k: nat, m: nat, y: Label)
    requires ValidName(ls) && ValidLabel(y) && k < |ls| && m < |ls| - k - 1
    requires var rest := ls[k + 1..];
      && Fold(ls[k]) != Fold(rest[m]) && (forall i :: 0 <= i < m ==> Fold(rest[i]) != Fold(rest[m]))
      && Fold(y) != Fold(rest[m]) && Fold(y) != Fold(ls[|ls| - 1])
    requires |header| + 4 * |Encode(ls)| + 4 * |y| + 8 <= size && |header| + |Encode(ls)| + |y| + 2 <= MAX_TARGET
    ensures (forall i :: 0 <= i < 2 ==> ValidOp(Bait(ls, k, m, y)[i]))
    ensures ReadsAfter(header, size, Bait(ls, k, m, y), ls, Text(ls[k := ls[k + 1..][m]]))
  {
    hide Search, Going, Run, CompWire, Text, Own, Fold, Encode, Finishes;
    var rest := ls[k + 1..];
    var e0, e1 := [ls[k]] + rest[..m] + [y], [rest[m]] + rest;
    BaitSizes(ls, k, m, y);
    var net, n := TrapLaid(header, size, e0, e1);
    var pk := Run(Pkt(header, []), size, Bait(ls, k, m, y));
    OwnLabels(|header|, e0);
    OwnLabels(|header| + |Encode(e0)|, e1);
    TrapSprings(ls, k, m, y, Own(|header|, e0), Own(|header| + |Encode(e0)|, e1));
    var f := Attempt(pk.data, pk.dict, ls, Lim(pk, size));
    assert Written(ls, f) == ls[k := rest[m]];
    TrapReads(pk, net, n, ls, Lim(pk, size), ls[k := rest[m]]);
  }

  lemma BaitSizes(ls: seq<Label>, k: nat, m: nat, y: Label)
    requires ValidName(ls) && ValidLabel(y) && k < |ls| && m < |ls| - k - 1
    ensures var e0, e1 := [ls[k]] + ls[k + 1..][..m] + [y], [ls[k + 1..][m]] + ls[k + 1..];
      && ValidName(e0) && ValidName(e1) && |Encode(e0)| <= |Encode(ls)| + |y| + 1 && |Encode(e1)| <= 2 * |Encode(ls)|
  {
    var rest := ls[k + 1..];
    hide EncLabels, ValidLabel;
    BaitLengths(ls[..k], ls[k], rest, m, y);
    assert ls == ls[..k] + ([ls[k]] + rest);
  }

  lemma BaitLengths(pre: seq<Label>, x: Label, rest: seq<Label>, m: nat, y: Label)
    requires m < |rest|
    ensures |EncLabels([x] + rest[..m] + [y])| <= |EncLabels(pre + ([x] + rest))| + |y| + 1
    ensures |EncLabels([rest[m]] + rest)| <= 2 * |EncLabels(pre + ([x] + rest))|
  {
    assert |EncLabels([y])| == 1 + |y|;
    hide EncLabels;
    TakeDrop(rest, m);
    assert rest[m..] == [rest[m]] + rest[m + 1..];
    EncLength(pre, [x] + rest);
    EncLength([x], rest);
    EncLength(rest[..m], rest[m..]);
    EncLength([rest[m]], rest[m + 1..]);
    EncLength([x] + rest[..m], [y]);
    EncLength([x], rest[..m]);
    EncLength([rest[m]], rest);
  }

  lemma EncLength(a: seq<Label>, b: seq<Label>)
    ensures |EncLabels(a + b)| == |EncLabels(a)| + |EncLabels(b)|
  {
    EncConcat(a, b);
  }

  lemma TrapReads(pk: Pkt, net: Net, n: nat, ls: seq<Label>, lim: nat, other: seq<Label>)
    requires Going(pk, net, n) && ValidName(ls) && Written(ls, Attempt(pk.data, pk.dict, ls, lim)) == other
    ensures exists text ::
      ExpandsTo(pk.data + CompWire(pk.data, pk.dict, ls, lim), |pk.data|, text) && Fold(text) == Fold(Text(other))
  {
    hide Attempt, CompWire, Grown, DictScan, NetOk, Written, Text, Fold, Fair, Settled, Finishes;
    GoingNet(pk, net, n);
    PushFair(pk.data, pk.dict, net, n, ls, lim);
    PushReads(pk.data, pk.dict, net, ls, lim, other);
  }

  /** With `a.x.` and `b.b.c.` pushed before, `a.b.c.` reads back as `b.b.c.` */
  lemma RepeatedLabelBreaks(header: Bytes, size: nat, a: Label, b: Label, c: Label, x: Label)
    requires ValidName([a, b, c, x]) && |header| + 2000 <= size && |header| <= 0x3000
    requires Fold(a) != Fold(b) && Fold(x) != Fold(b) && Fold(x) != Fold(c)
    ensures (forall i :: 0 <= i < 2 ==> ValidOp([Name([a, x]), Name([b, b, c])][i])) && ValidName([a, b, c])
    ensures ReadsAfter(header, size, [Name([a, x]), Name([b, b, c])], [a, b, c], Text([b, b, c]))
  {
    hide ReadsAfter, Fold;
    var ls := [a, b, c];
    assert ValidLabel([a, b, c, x][0]) && ValidLabel([a, b, c, x][1]) && ValidLabel([a, b, c, x][2])
      && ValidLabel([a, b, c, x][3]);
    var rest := ls[0 + 1..];
    assert rest == [b, c];
    assert [a] + rest[..0] + [x] == [a, x] && [rest[0]] + rest == [b, b, c];
    EncBound(ls);
    assert ls[0 := b] == [b, b, c];
    Misreads(header, size, ls, 0, 0, x);
  }

  /** The first label of `rest` that folds to `u`. */
  lemma FirstFold(rest: seq<Label>, u: Bytes) returns (m: nat)
    requires u in FoldAll(rest)
    ensures m < |rest| && Fold(rest[m]) == u && forall i :: 0 <= i < m ==> Fold(rest[i]) != u
  {
    hide Fold;
    var last :| 0 <= last < |rest| && FoldAll(rest)[last] == u;
    m := 0;
    while Fold(rest[m]) != u
      invariant m <= last && forall i :: 0 <= i < m ==> Fold(rest[i]) != u
      decreases last - m
    {
      m := m + 1;
    }
  }

  /** A short label that is neither of two. */
  lemma Another(a: Bytes, b: Bytes) returns (y: Label)
    ensures ValidLabel(y) && |y| == 1 && Fold(y) != a && Fold(y) != b
  {
    assert Fold([1])[0] == 1 && Fold([2])[0] == 2 && Fold([3])[0] == 3;
    y := if Fold([1]) != a && Fold([1]) != b then [1] else if Fold([2]) != a && Fold([2]) != b then [2] else [3];
  }

  /**
   * The exact extent of the failure, over all runs: a name of legal length can come back as another text
   * if and only if that text has one of its labels replaced by another label that stands behind it.
   */
  lemma MisreadIff(ls: seq<Label>, t: Bytes)
    requires ValidName(ls) && |Encode(ls)| <= 255 && Fold(t) != Fold(Text(ls))
    ensures (exists header, size, ops :: ReadsAfter(header, size, ops, ls, t)) <==>
            (exists k: nat, u :: Confusable(ls, k, u) && Fold(t) == Fold(Text(ls[k := u])))
  {
    hide ReadsAfter, Text, Fold;
    if header, size, ops :| ReadsAfter(header, size, ops, ls, t) {
      var k, u := MisreadOnly(header, size, ops, ls, t);
    }
    if k: nat, u :| Confusable(ls, k, u) && Fold(t) == Fold(Text(ls[k := u])) {
      CanMisread(ls, k, u, t);
    }
  }

  lemma CanMisread(ls: seq<Label>, k: nat, u: Label, t: Bytes)
    requires ValidName(ls) && |Encode(ls)| <= 255 && Confusable(ls, k, u) && Fold(t) == Fold(Text(ls[k := u]))
    ensures exists header, size, ops :: ReadsAfter(header, size, ops, ls, t)
  {
    hide Text, Fold, Encode, Run, CompWire, Finishes;
    var rest := ls[k + 1..];
    var m := FirstFold(rest, Fold(u));
    var y := Another(Fold(u), Fold(ls[|ls| - 1]));
    Misreads([], 2000, ls, k, m, y);
    assert FoldAll(ls[k := u]) == FoldAll(ls[k := rest[m]]);
    FoldText(ls[k := u], ls[k := rest[m]]);
    assert ReadsAfter([], 2000, Bait(ls, k, m, y), ls, t);
  }
}
