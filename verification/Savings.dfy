/** What compression saves: a name that ends like an earlier one is cut short by a pointer. */
module Savings {
  import opened Wire
  import opened Names
  import opened Compression
  import opened NameNet
  import opened NameRuns

  // ---- The search finds what is there -------------------------------------------------------

  /** From `j` on, `b` reads `c` followed by `rest`, and not earlier `c`. */
  ghost predicate EndsIn(b: seq<At>, j: nat, c: Label, rest: seq<Label>) {
    && j < |b| && b[j].pos <= MAX_TARGET
    && Folded(b[j..]) == [Fold(c)] + FoldAll(rest)
    && forall i :: 0 <= i < j ==> Fold(b[i].lab) != Fold(c)
  }

  lemma {:induction false} ScanFinds(c: Label, rest: seq<Label>, b: seq<At>, j: nat)
    requires EndsIn(b, j, c, rest)
    ensures ScanEntry(Have(c), rest, b).Hit?
    decreases |b|
  {
    if j == 0 {
      assert b[0..] == b;
      assert |Folded(b)| == 1 + |FoldAll(rest)|;
      assert Folded(b)[0] == Fold(c);
      forall i | 0 <= i < |rest|
        ensures Fold(rest[i]) == Fold(b[1..][i].lab)
      {
        assert Folded(b)[i + 1] == FoldAll(rest)[i];
      }
      CommonIs(rest, b[1..], |rest|);
    } else {
      assert b[1..][j - 1..] == b[j..];
      ScanFinds(c, rest, b[1..], j - 1);
    }
  }

  ghost predicate Lacks(b: seq<At>, x: Bytes) {
    forall j :: 0 <= j < |b| ==> Fold(b[j].lab) != x
  }

  lemma {:induction false} DictFinds(c: Label, rest: seq<Label>, entries: seq<seq<At>>, i: nat, j: nat)
    requires i < |entries| && EndsIn(entries[i], j, c, rest)
    requires forall h :: 0 <= h < i ==> Lacks(entries[h], Fold(c))
    ensures ScanDict(Have(c), rest, entries).Hit?
    decreases |entries|
  {
    hide ScanEntry, EndsIn, Fold;
    if i == 0 {
      ScanFinds(c, rest, entries[0], j);
    } else {
      assert Lacks(entries[0], Fold(c));
      ScanPasses(c, rest, entries[0]);
      DictFinds(c, rest, entries[1..], i - 1, j);
    }
  }

  /** A pushed name is no longer than what it does not share with an entry, and a pointer. */
  lemma WireSaves(pre: seq<Label>, tail: seq<Label>, entries: seq<seq<At>>, i: nat, j: nat)
    requires tail != [] && i < |entries| && EndsIn(entries[i], j, tail[0], tail[1..])
    requires forall h :: 0 <= h < i ==> Lacks(entries[h], Fold(tail[0]))
    ensures |WireOf(pre + tail, Search(pre + tail, 0, entries))| <= |EncLabels(pre)| + 2
  {
    hide EndsIn, Fold, Search, ScanDict, EncLabels;
    var ls, k := pre + tail, |pre|;
    assert ls[k] == tail[0] && ls[k + 1..] == tail[1..];
    DictFinds(tail[0], tail[1..], entries, i, j);
    SearchReaches(ls, 0, k, entries);
    var f := Search(ls, 0, entries);
    SearchCarried(ls, 0, entries);
    var h := SearchSound(ls, 0, entries);
    TakeDrop(pre, f.k);
    assert ls[..f.k] == pre[..f.k];
    EncLength(pre[..f.k], pre[f.k..]);
  }

  // ---- What the dictionary keeps over a run --------------------------------------------------

  /** None of the names has label `x`. */
  ghost predicate Without(ops: seq<Op>, x: Bytes) {
    forall i :: 0 <= i < |ops| && ops[i].Name? ==> x !in FoldAll(ops[i].labels)
  }

  function CountNames(ops: seq<Op>): nat {
    if ops == [] then 0 else (if ops[0].Name? then 1 else 0) + CountNames(ops[1..])
  }

  /** Every entry but that for `p`, if there is one, lacks `x`. */
  ghost predicate Alone(dict: seq<nat>, net: Net, p: nat, x: Bytes) {
    forall i :: 0 <= i < |dict| && dict[i] != p ==> Lacks(WalkAt(net, dict[i]), x)
  }

  ghost predicate AloneNow(pk: Pkt, net: Net, n: nat, names: set<seq<Label>>, p: nat, x: Bytes) {
    Going(pk, net, n) && Named(pk.dict, net, names) && Alone(pk.dict, net, p, x)
  }

  lemma NoLabel(w: seq<At>, ls: seq<Label>, x: Bytes)
    requires Folded(w) == FoldAll(ls) && x !in FoldAll(ls)
    ensures Lacks(w, x)
  {
    forall j | 0 <= j < |w|
      ensures Fold(w[j].lab) != x
    {
      assert Folded(w)[j] in FoldAll(ls);
    }
  }

  /** A name found at the start of an entry has all labels of the entry. */
  lemma Shares(data: Bytes, dict: seq<nat>, net: Net, names: set<seq<Label>>, ls: seq<Label>, lim: nat, x: Bytes)
    requires Base(data, dict, net) && Named(dict, net, names) && Unexposed(names, ls) && ValidName(ls)
    requires Attempt(data, dict, ls, lim).FoundAt? && x !in FoldAll(ls)
    ensures var f := Attempt(data, dict, ls, lim); Lacks(f.tail, x)
    ensures Fits(net, ls, Attempt(data, dict, ls, lim))
  {
    hide Attempt, NetOk, Unexposed, Fold, FoldAll, Folded;
    var f := Attempt(data, dict, ls, lim);
    AttemptTargets(data, dict, net, ls, lim);
    NamedCovert(data, dict, net, names, ls);
    RightWritten(data, dict, ls, lim);
    TailShares(ls, f, x);
  }

  lemma TailShares(ls: seq<Label>, f: Found, x: Bytes)
    requires f.FoundAt? && f.k < |ls| && Folded(f.tail) == [Fold(f.used)] + FoldAll(ls[f.k + 1..])
    requires FoldAll(Written(ls, f)) == FoldAll(ls) && x !in FoldAll(ls)
    ensures Lacks(f.tail, x)
  {
    TailIs(ls, f);
    NotBehind(FoldAll(ls), f.k, x);
    NoLabel(f.tail, ls[f.k..], x);
  }

  lemma TailIs(ls: seq<Label>, f: Found)
    requires f.FoundAt? && f.k < |ls| && Folded(f.tail) == [Fold(f.used)] + FoldAll(ls[f.k + 1..])
    requires FoldAll(Written(ls, f)) == FoldAll(ls)
    ensures Folded(f.tail) == FoldAll(ls[f.k..]) == FoldAll(ls)[f.k..]
  {
    assert FoldAll(Written(ls, f))[f.k] == Fold(f.used) && FoldAll(ls)[f.k] == Fold(ls[f.k]);
    hide Fold, FoldAll, Folded;
    FoldAllFrom(ls, f.k + 1);
    FoldAllFrom(ls, f.k);
    HeadOf(FoldAll(ls), f.k);
  }

  lemma HeadOf<T>(s: seq<T>, k: nat)
    requires k < |s|
    ensures s[k..] == [s[k]] + s[k + 1..]
  {
  }

  lemma NotBehind<T>(s: seq<T>, k: nat, x: T)
    requires k <= |s| && x !in s
    ensures x !in s[k..]
  {
  }

  lemma DictAlone(dict: seq<nat>, net: Net, dn: nat, f: Found, dict': seq<nat>, net': Net, p: nat, x: Bytes)
    requires DictStep(dict, dn, f, dict') && Alone(dict, net, p, x) && Settled(dict, net) && Extends(net, net')
    requires dn in net' && Lacks(net'[dn].walk, x)
    requires f.FoundAt? ==> f.tail != [] && Lacks(f.tail, x)
    requires f.FoundAt? ==> f.tail[0].pos in net && net[f.tail[0].pos].walk == f.tail
    ensures Alone(dict', net', p, x) && |dict'| <= |dict| + 1
    ensures p in dict && !Lacks(WalkAt(net, p), x) ==> p in dict'
  {
    hide Lacks;
    forall i | 0 <= i < |dict'| && dict'[i] != p
      ensures Lacks(WalkAt(net', dict'[i]), x)
    {
      assert dict'[i] == dn || (i < |dict| && dict'[i] == dict[i]);
    }
    if p in dict && !Lacks(WalkAt(net, p), x) {
      var j :| 0 <= j < |dict| && dict[j] == p;
      assert dict'[j] == p;
    }
  }

  /** One operation with a name that lacks `x`, or with none. */
  lemma StepAlone(pk: Pkt, net: Net, n: nat, names: set<seq<Label>>, size: nat, op: Op, p: nat, x: Bytes)
      returns (net': Net, n': nat)
    requires AloneNow(pk, net, n, names, p, x) && ValidOp(op)
    requires op.Name? ==> Unexposed(names, op.labels) && x !in FoldAll(op.labels)
    ensures AloneNow(Apply(pk, size, op), net', n', names + NameOf(op), p, x) && Extends(net, net')
    ensures p in pk.dict && !Lacks(WalkAt(net, p), x) ==> p in Apply(pk, size, op).dict
    ensures |Apply(pk, size, op).dict| <= |pk.dict| + (if op.Name? then 1 else 0)
  {
    hide Fair, CompWire, DictScan, Grown, Attempt, Fits, Folded, FoldAll, Named, Unexposed, Exposed, Lacks, Settled,
      DictStep, Alone, WalkAt;
    net', n' := StepGoing(pk, net, n, size, op);
    var pk' := Apply(pk, size, op);
    if op.Octets? {
      assert names + {} == names;
    } else {
      StepNamed(pk, net, n, names, size, op);
      if pk' != pk {
        NewAlone(pk, net, n, names, size, op, p, x);
      }
    }
  }

  ghost function NameOf(op: Op): set<seq<Label>> {
    if op.Name? then {FoldAll(op.labels)} else {}
  }

  lemma NewAlone(pk: Pkt, net: Net, n: nat, names: set<seq<Label>>, size: nat, op: Op, p: nat, x: Bytes)
    requires AloneNow(pk, net, n, names, p, x) && ValidOp(op) && op.Name? && Apply(pk, size, op) != pk
    requires Unexposed(names, op.labels) && x !in FoldAll(op.labels)
    ensures var f, pk' := Attempt(pk.data, pk.dict, op.labels, Lim(pk, size)), Apply(pk, size, op);
      && Fits(net, op.labels, f) && Alone(pk'.dict, Grown(pk.data, net, op.labels, f), p, x)
      && (p in pk.dict && !Lacks(WalkAt(net, p), x) ==> p in pk'.dict) && |pk'.dict| <= |pk.dict| + 1
  {
    hide Fair, CompWire, DictScan, Grown, Attempt, Folded, FoldAll, Named, Unexposed, Exposed, Lacks,
      DictStep, Alone, WalkAt, Fold, NetOk, Sure;
    var ls, lim := op.labels, Lim(pk, size);
    var f := Attempt(pk.data, pk.dict, ls, lim);
    GoingNet(pk, net, n);
    PushFair(pk.data, pk.dict, net, n, ls, lim);
    PushNamed(pk.data, pk.dict, net, n, names, ls, lim);
    AttemptWire(pk.data, pk.dict, ls, lim);
    DictScanStep(pk.data, pk.dict, ls, f);
    if f.FoundAt? {
      Shares(pk.data, pk.dict, net, names, ls, lim, x);
    }
    var net' := Grown(pk.data, net, ls, f);
    NoLabel(net'[|pk.data|].walk, ls, x);
    DictAlone(pk.dict, net, |pk.data|, f, Apply(pk, size, op).dict, net', p, x);
  }

  /** None of these names is exposed to one of `names`. */
  ghost predicate Cleared(names: set<seq<Label>>, ops: seq<Op>) {
    forall i :: 0 <= i < |ops| && ops[i].Name? ==> Unexposed(names, ops[i].labels)
  }

  lemma ClearedNext(names: set<seq<Label>>, ops: seq<Op>)
    requires ops != [] && Cleared(names, ops) && NoneExposed(ops)
    ensures Cleared(names + NameOf(ops[0]), ops[1..]) && NoneExposed(ops[1..])
  {
    hide Exposed, FoldAll;
    forall i | 0 <= i < |ops[1..]| && ops[1..][i].Name?
      ensures Unexposed(names + NameOf(ops[0]), ops[1..][i].labels)
    {
      assert Unexposed(names, ops[i + 1].labels);
      if ops[0].Name? {
        assert !Exposed(FoldAll(ops[0].labels), FoldAll(ops[i + 1].labels));
      }
    }
  }

  lemma ClearedAt(names: set<seq<Label>>, ops: seq<Op>, i: nat)
    requires Cleared(names, ops) && i < |ops| && ops[i].Name?
    ensures Unexposed(names, ops[i].labels)
  {
  }

  lemma AloneGoing(pk: Pkt, net: Net, n: nat, names: set<seq<Label>>, p: nat, x: Bytes)
    requires AloneNow(pk, net, n, names, p, x)
    ensures Going(pk, net, n)
  {
  }

  /** Entries are nodes, and nodes stay. */
  lemma KeptWalk(pk: Pkt, net: Net, n: nat, net': Net, p: nat)
    requires Going(pk, net, n) && Extends(net, net') && p in pk.dict
    ensures p in net && WalkAt(net', p) == WalkAt(net, p)
  {
    hide Fair;
  }

  /** A run of names that lack `x`. */
  lemma {:induction false} RunAlone(pk: Pkt, net: Net, n: nat, names: set<seq<Label>>, size: nat, ops: seq<Op>,
      later: seq<Op>, p: nat, x: Bytes) returns (net': Net, n': nat, names': set<seq<Label>>)
    requires AloneNow(pk, net, n, names, p, x) && Without(ops, x)
    requires forall i :: 0 <= i < |ops| ==> ValidOp(ops[i])
    requires Cleared(names, ops + later) && NoneExposed(ops + later)
    ensures AloneNow(Run(pk, size, ops), net', n', names', p, x) && Extends(net, net')
    ensures Cleared(names', later) && NoneExposed(later)
    ensures p in pk.dict && !Lacks(WalkAt(net, p), x) ==> p in Run(pk, size, ops).dict
    ensures |Run(pk, size, ops).dict| <= |pk.dict| + CountNames(ops)
    decreases |ops|
  {
    hide AloneNow, Apply, Lacks, NoneExposed, Cleared, FoldAll, Unexposed;
    if ops == [] {
      net', n', names' := net, n, names;
      assert ops + later == later;
    } else {
      if ops[0].Name? {
        ClearedAt(names, ops + later, 0);
      }
      var net1, n1 := StepAlone(pk, net, n, names, size, ops[0], p, x);
      ClearedNext(names, ops + later);
      assert (ops + later)[1..] == ops[1..] + later;
      if p in pk.dict {
        AloneGoing(pk, net, n, names, p, x);
        KeptWalk(pk, net, n, net1, p);
      }
      var pk1, names1 := Apply(pk, size, ops[0]), names + NameOf(ops[0]);
      net', n', names' := RunAlone(pk1, net1, n1, names1, size, ops[1..], later, p, x);
    }
  }

  // ---- A name is listed, and what follows points at it ----------------------------------------

  lemma {:induction false} OwnPos(base: nat, ls: seq<Label>, j: nat)
    requires ValidName(ls) && j < |ls|
    ensures Own(base, ls)[j].pos == base + |EncLabels(ls[..j])|
    decreases |ls|
  {
    if j > 0 {
      OwnPos(base + 1 + |ls[0]|, ls[1..], j - 1);
      assert ls[..j][1..] == ls[1..][..j - 1];
    }
  }

  lemma EndsInOf(w: seq<At>, pre: seq<Label>, tail: seq<Label>)
    requires tail != [] && Folded(w) == FoldAll(pre + tail) && Fold(tail[0]) !in FoldAll(pre)
    requires w[|pre|].pos <= MAX_TARGET
    ensures EndsIn(w, |pre|, tail[0], tail[1..])
  {
    var ls := pre + tail;
    assert |w| == |Folded(w)| == |ls|;
    forall i | 0 <= i < |pre|
      ensures Fold(w[i].lab) != Fold(tail[0])
    {
      assert Folded(w)[i] == FoldAll(ls)[i] == Fold(pre[i]) == FoldAll(pre)[i];
    }
    var v := w[|pre|..];
    forall i | 0 <= i < |v|
      ensures Folded(v)[i] == ([Fold(tail[0])] + FoldAll(tail[1..]))[i]
    {
      assert Folded(v)[i] == Folded(w)[|pre| + i] == FoldAll(ls)[|pre| + i] == Fold(tail[i]);
    }
    assert Folded(v) == [Fold(tail[0])] + FoldAll(tail[1..]);
  }

  /** Nothing that lacks the first label of `tail` is found for more than what is behind it. */
  lemma TargetBehind(data: Bytes, dict: seq<nat>, net: Net, names: set<seq<Label>>, pre: seq<Label>,
      tail: seq<Label>, lim: nat)
    requires Base(data, dict, net) && Named(dict, net, names) && ValidName(pre + tail) && tail != []
    requires Unexposed(names, pre + tail)
    requires forall i :: 0 <= i < |dict| ==> Lacks(WalkAt(net, dict[i]), Fold(tail[0]))
    ensures var f := Attempt(data, dict, pre + tail, lim); f.FoundAt? ==> |pre| < f.k < |pre + tail|
  {
    hide Attempt, NetOk, Unexposed, Fold, FoldAll, Folded, Lacks, Written;
    var ls := pre + tail;
    var f := Attempt(data, dict, ls, lim);
    if f.FoundAt? {
      AttemptTargets(data, dict, net, ls, lim);
      NamedCovert(data, dict, net, names, ls);
      RightWritten(data, dict, ls, lim);
      TailIs(ls, f);
      var i :| 0 <= i < |dict| && OnWalk(net, dict[i], f.tail);
      assert Lacks(WalkAt(net, dict[i]), Fold(tail[0]));
      if f.k <= |pre| {
        TailHas(pre, tail, f.k, f.tail, net[dict[i]].walk);
        assert false;
      }
    }
  }

  lemma TailHas(pre: seq<Label>, tail: seq<Label>, k: nat, t: seq<At>, w: seq<At>)
    requires tail != [] && k <= |pre| && Folded(t) == FoldAll(pre + tail)[k..]
    requires |t| <= |w| && t == w[|w| - |t|..]
    ensures !Lacks(w, Fold(tail[0]))
  {
    var ls := pre + tail;
    assert |t| == |Folded(t)| == |ls| - k;
    assert Folded(t)[|pre| - k] == FoldAll(ls)[|pre|] == Fold(tail[0]);
    assert w[|w| - |t| + |pre| - k] == t[|pre| - k];
  }

  lemma ListedIn(dict: seq<nat>, net: Net, dn: nat, f: Found, dict': seq<nat>, net': Net, x: Bytes)
    requires DictStep(dict, dn, f, dict') && Settled(dict, net) && Extends(net, net') && |dict| < DICT_SIZE
    requires forall i :: 0 <= i < |dict| ==> Lacks(WalkAt(net, dict[i]), x)
    ensures dn in dict' && Alone(dict', net', dn, x)
  {
    hide Lacks;
    if f.FoundAt? && f.k > 0 && f.tail != [] && f.tail[0].pos in dict {
      var i :| 0 <= i < |dict| && FirstAt(dict, f.tail[0].pos, i) && dict' == dict[i := dn];
      assert dict'[i] == dn;
    } else {
      assert dict'[|dict|] == dn;
    }
    forall i | 0 <= i < |dict'| && dict'[i] != dn
      ensures Lacks(WalkAt(net', dict'[i]), x)
    {
      assert i < |dict| && dict'[i] == dict[i];
    }
  }

  /** Where the first label of the tail comes to stand. */
  lemma TailPlace(data: Bytes, dict: seq<nat>, net: Net, pre: seq<Label>, tail: seq<Label>, lim: nat)
    requires Base(data, dict, net) && ValidName(pre + tail) && tail != []
    requires var f := Attempt(data, dict, pre + tail, lim); f.FoundAt? ==> |pre| < f.k < |pre + tail|
    ensures var f := Attempt(data, dict, pre + tail, lim);
      && Fits(net, pre + tail, f) && |data| in Grown(data, net, pre + tail, f)
      && var w := Grown(data, net, pre + tail, f)[|data|].walk;
      |pre| < |w| && w[|pre|].pos == |data| + |EncLabels(pre)|
  {
    hide Attempt, NetOk, Grown, EncLabels, WireOf, Own;
    var ls := pre + tail;
    var f := Attempt(data, dict, ls, lim);
    AttemptTargets(data, dict, net, ls, lim);
    GrownOk(data, net, ls, f);
    var own := Prefix(ls, f);
    OwnPos(|data|, own, |pre|);
    assert own[..|pre|] == pre;
    assert Grown(data, net, ls, f)[|data|].walk[|pre|] == Own(|data|, own)[|pre|];
  }

  /** The name with the tail is pushed. */
  lemma PushListed(pk: Pkt, net: Net, n: nat, names: set<seq<Label>>, size: nat, pre: seq<Label>, tail: seq<Label>)
      returns (net': Net, n': nat)
    requires tail != [] && ValidName(pre + tail) && Fold(tail[0]) !in FoldAll(pre)
    requires AloneNow(pk, net, n, names, |pk.data|, Fold(tail[0])) && Unexposed(names, pre + tail)
    requires |pk.dict| < DICT_SIZE && |pk.data| + |Encode(pre + tail)| <= size
    requires |pk.data| + |EncLabels(pre)| <= MAX_TARGET
    ensures var pk', p := Apply(pk, size, Name(pre + tail)), |pk.data|;
      && AloneNow(pk', net', n', names + {FoldAll(pre + tail)}, p, Fold(tail[0])) && p in pk'.dict
      && EndsIn(WalkAt(net', p), |pre|, tail[0], tail[1..])
  {
    hide Fair, CompWire, DictScan, Grown, Attempt, Folded, FoldAll, Named, Unexposed, Lacks, DictStep, Fold, NetOk,
      Sure, EncLabels, EndsIn, Base;
    var ls, lim, p := pre + tail, Lim(pk, size), |pk.data|;
    var op := Name(ls);
    GoingNet(pk, net, n);
    CompShort(pk.data, pk.dict, net, ls, lim);
    NotInDict(pk.data, pk.dict, net, n);
    net', n' := StepGoing(pk, net, n, size, op);
    StepNamed(pk, net, n, names, size, op);
    TargetBehind(pk.data, pk.dict, net, names, pre, tail, lim);
    TailPlace(pk.data, pk.dict, net, pre, tail, lim);
    EndsInOf(net'[p].walk, pre, tail);
    var f := Attempt(pk.data, pk.dict, ls, lim);
    AttemptWire(pk.data, pk.dict, ls, lim);
    DictScanStep(pk.data, pk.dict, ls, f);
    ListedIn(pk.dict, net, p, f, Apply(pk, size, op).dict, net', Fold(tail[0]));
  }

  /** The first entry that does not lack the label is the one that ends in the tail. */
  lemma FirstEntry(pk: Pkt, net: Net, n: nat, names: set<seq<Label>>, p: nat, pre: seq<Label>, tail: seq<Label>)
      returns (i: nat)
    requires tail != [] && AloneNow(pk, net, n, names, p, Fold(tail[0])) && p in pk.dict
    requires EndsIn(WalkAt(net, p), |pre|, tail[0], tail[1..])
    ensures i < |pk.dict| && pk.dict[i] == p
    ensures forall h :: 0 <= h < i ==> Lacks(WalkAt(net, pk.dict[h]), Fold(tail[0]))
  {
    hide Going, Named, Lacks, EndsIn, WalkAt;
    var last :| 0 <= last < |pk.dict| && pk.dict[last] == p;
    i := 0;
    while pk.dict[i] != p
      invariant i <= last && forall h :: 0 <= h < i ==> Lacks(WalkAt(net, pk.dict[h]), Fold(tail[0]))
      decreases last - i
    {
      i := i + 1;
    }
  }

  lemma EndsHas(b: seq<At>, j: nat, c: Label, rest: seq<Label>)
    requires EndsIn(b, j, c, rest)
    ensures !Lacks(b, Fold(c))
  {
    assert Folded(b[j..])[0] == Fold(c);
  }

  lemma PushSaves(pk: Pkt, net: Net, n: nat, names: set<seq<Label>>, size: nat, p: nat, pre1: seq<Label>,
      pre2: seq<Label>, tail: seq<Label>)
    requires tail != [] && AloneNow(pk, net, n, names, p, Fold(tail[0])) && p in pk.dict && ValidName(pre2 + tail)
    requires EndsIn(WalkAt(net, p), |pre1|, tail[0], tail[1..]) && |pk.data| + |Encode(pre2 + tail)| < size
    ensures |pk.data| < |DPush(pk, size, pre2 + tail).data| <= |pk.data| + |EncLabels(pre2)| + 2
  {
    hide Fair, DictScan, Named, Lacks, EndsIn, Search, Entries, WireOf, EncLabels;
    var i := FirstEntry(pk, net, n, names, p, pre1, tail);
    GoingNet(pk, net, n);
    EntriesAreWalks(pk.data, pk.dict, net);
    WireSaves(pre2, tail, Walks(pk.dict, net), i, |pre1|);
    CompShort(pk.data, pk.dict, net, pre2 + tail, Lim(pk, size));
  }

  /**
   * Whatever is pushed before, as long as the dictionary has room, and whatever after: once a name with some
   * tail has been pushed, every further name with that tail takes no more octets than its other labels and a
   * pointer. The first label of the tail is one the other names do not have, the tail begins where a pointer
   * can lead, and no name is exposed to an earlier one.
   */
  lemma Saves(header: Bytes, size: nat, before: seq<Op>, pre1: seq<Label>, between: seq<Op>, pre2: seq<Label>,
      tail: seq<Label>)
    requires forall i :: 0 <= i < |before| ==> ValidOp(before[i])
    requires forall i :: 0 <= i < |between| ==> ValidOp(between[i])
    requires tail != [] && ValidName(pre1 + tail) && ValidName(pre2 + tail)
    requires NoneExposed(before + [Name(pre1 + tail)] + between) && CountNames(before) < DICT_SIZE
    requires var x := Fold(tail[0]); Without(before, x) && Without(between, x) && x !in FoldAll(pre1)
    requires var at := |Run(Pkt(header, []), size, before).data|;
      at + |EncLabels(pre1)| <= MAX_TARGET && at + |Encode(pre1 + tail)| <= size
    ensures var pk := Run(DPush(Run(Pkt(header, []), size, before), size, pre1 + tail), size, between);
      |pk.data| + |Encode(pre2 + tail)| < size ==>
        |pk.data| < |DPush(pk, size, pre2 + tail).data| <= |pk.data| + |EncLabels(pre2)| + 2
  {
    hide NoneExposed, Without, Run, Going, Named, EndsIn, EncLabels, FoldAll, Fold, Lacks, DPush, Cleared, WalkAt;
    var x, pk := Fold(tail[0]), Pkt(header, []);
    var pk0 := Run(pk, size, before);
    var at, all := |pk0.data|, [Name(pre1 + tail)] + between;
    assert before + [Name(pre1 + tail)] + between == before + all;
    EmptyGoing(header);
    NothingExposes(before + all);
    var net0, n0, names0 := RunAlone(pk, map[], 0, {}, size, before, all, at, x);
    ClearedAt(names0, all, 0);
    var net1, n1 := PushListed(pk0, net0, n0, names0, size, pre1, tail);
    ClearedNext(names0, all);
    assert all[1..] == between && between + [] == between;
    var pk1 := DPush(pk0, size, pre1 + tail);
    var names1 := names0 + {FoldAll(pre1 + tail)};
    var net2, n2, names2 := RunAlone(pk1, net1, n1, names1, size, between, [], at, x);
    EndsHas(WalkAt(net1, at), |pre1|, tail[0], tail[1..]);
    KeptWalk(pk1, net1, n1, net2, at);
    var pk2 := Run(pk1, size, between);
    if |pk2.data| + |Encode(pre2 + tail)| < size {
      PushSaves(pk2, net2, n2, names2, size, at, pre1, pre2, tail);
    }
  }

  lemma NothingExposes(ops: seq<Op>)
    ensures Cleared({}, ops)
  {
  }
}
