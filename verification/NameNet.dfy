/**
 * The names inside a packet. A net records, for every offset at which a label, a pointer or a
 * root octet of a name starts, the labels a reader collects from there, how many pointers it
 * follows before the first of them, and whether it comes to the root in the end.
 */
module NameNet {
  import opened Wire
  import opened Names
  import opened Compression

  datatype Info = Info(walk: seq<At>, hops: nat, whole: bool)

  type Net = map<nat, Info>

  /** What a pointer at `p` to a node adds up to: nothing, if a reader gives up before it gets through. */
  function Follow(info: Info, p: nat): Info
    requires info.walk != []
  {
    if info.hops + 1 > MAX_PTRS then Info([], info.hops + 1, false)
    else Info([At(p, info.walk[0].lab)] + info.walk[1..], info.hops + 1, info.whole)
  }

  ghost predicate NodeOk(data: Bytes, net: Net, p: nat)
    requires p in net
  {
    && p < |data|
    && if data[p] == 0 then
         net[p] == Info([], 0, true)
       else if data[p] < 0x40 then
         var nxt := p + 1 + data[p];
         && nxt < |data| && nxt in net && ValidLabel(data[p + 1..nxt])
         && net[p] == Info([At(p, data[p + 1..nxt])] + net[nxt].walk, 0, net[nxt].whole)
       else
         && data[p] >= 0xc0 && p + 2 <= |data|
         && var t := GetPtr(data, p);
         && t in net && net[t].walk != [] && net[p] == Follow(net[t], p)
  }

  /** Each place of a walk is a node whose own walk is the rest of it. */
  ghost predicate Nested(net: Net, p: nat)
    requires p in net
  {
    forall j :: 0 <= j < |net[p].walk| ==>
      && net[p].walk[j].pos in net
      && net[net[p].walk[j].pos].walk == net[p].walk[j..]
  }

  ghost predicate NetOk(data: Bytes, net: Net) {
    && (forall p {:trigger NodeOk(data, net, p)} :: p in net ==> NodeOk(data, net, p))
    && (forall p {:trigger Nested(net, p)} :: p in net ==> Nested(net, p))
  }

  ghost predicate Short(net: Net, n: nat) {
    forall p :: p in net ==> |net[p].walk| <= n
  }

  // ---- Readers agree with the net ------------------------------------------

  /** One label, from a node, by a reader that has followed `nptrs` pointers already. */
  lemma {:induction false} LExpandNode(data: Bytes, net: Net, p: nat, nptrs: nat)
    requires NetOk(data, net) && p in net && nptrs <= MAX_PTRS
    ensures match LExpand(data, p, nptrs)
      case Stop => net[p].walk == [] || nptrs + net[p].hops > MAX_PTRS
      case Go(l, next) =>
        && nptrs + net[p].hops <= MAX_PTRS && next in net && net[p].walk != []
        && net[p].walk[0] == At(p, l) && net[p].walk[1..] == net[next].walk && net[p].whole == net[next].whole
    decreases net[p].hops
  {
    assert NodeOk(data, net, p);
    if data[p] >= 0xc0 && nptrs + 1 <= MAX_PTRS {
      LExpandNode(data, net, GetPtr(data, p), nptrs + 1);
    }
  }

  /** A node that reads as anything is not too deep. */
  lemma Readable(data: Bytes, net: Net, p: nat)
    requires NetOk(data, net) && p in net
    ensures net[p].walk != [] || net[p].whole ==> net[p].hops <= MAX_PTRS
  {
    assert NodeOk(data, net, p);
  }

  lemma {:induction false} WalkNode(data: Bytes, net: Net, p: nat, fuel: nat)
    requires NetOk(data, net) && p in net && |net[p].walk| <= fuel
    ensures Walk(data, p, fuel) == net[p].walk
    decreases fuel
  {
    Readable(data, net, p);
    LExpandNode(data, net, p, 0);
    if fuel > 0 && net[p].walk != [] {
      WalkNode(data, net, LExpand(data, p, 0).next, fuel - 1);
    }
  }

  function LabelsOf(w: seq<At>): (r: seq<Label>)
    ensures |r| == |w|
    ensures forall i :: 0 <= i < |w| ==> r[i] == w[i].lab
  {
    seq(|w|, i requires 0 <= i < |w| => w[i].lab)
  }

  /** The text a reader that has already written `dst` ends up with. */
  function Final(dst: Bytes, w: seq<At>): Bytes {
    if dst == [] && w == [] then [DOT] else dst + Dotted(LabelsOf(w))
  }

  lemma FinalLabel(dst: Bytes, at: At, w: seq<At>)
    ensures Final(dst, [at] + w) == Final(dst + at.lab + [DOT], w)
  {
    assert LabelsOf([at] + w)[1..] == LabelsOf(w);
    assert dst + (at.lab + [DOT] + Dotted(LabelsOf(w))) == dst + at.lab + [DOT] + Dotted(LabelsOf(w));
  }

  lemma FinalPointer(dst: Bytes, w: seq<At>, p: nat)
    requires w != []
    ensures Final(dst, [At(p, w[0].lab)] + w[1..]) == Final(dst, w)
  {
    assert LabelsOf([At(p, w[0].lab)] + w[1..]) == LabelsOf(w);
  }

  /** More rounds than dns_d_expand can take from a node. */
  function Rounds(info: Info): nat {
    130 * (|info.walk| + 1) + info.hops + 1
  }

  /** Too many pointers in a row: dns_d_expand gives up. */
  lemma {:induction false} ExpandDeep(data: Bytes, net: Net, p: nat, dst: Bytes, nptrs: nat, fuel: nat)
    requires NetOk(data, net) && p in net
    requires nptrs <= MAX_PTRS < nptrs + net[p].hops && fuel >= net[p].hops + 1
    ensures Expand(data, p, dst, nptrs, fuel) == Illegal
    decreases fuel
  {
    assert NodeOk(data, net, p);
    if nptrs + 1 <= MAX_PTRS {
      ExpandDeep(data, net, GetPtr(data, p), dst, nptrs + 1, fuel - 1);
    }
  }

  /**
   * dns_d_expand finishes at every node: with the labels of the node's walk, or with an error if the root is
   * out of reach.
   */
  lemma {:induction false} ExpandNode(data: Bytes, net: Net, p: nat, dst: Bytes, nptrs: nat, fuel: nat)
    requires NetOk(data, net) && p in net && nptrs + net[p].hops <= MAX_PTRS && fuel >= Rounds(net[p])
    ensures Expand(data, p, dst, nptrs, fuel) == if net[p].whole then Expanded(Final(dst, net[p].walk)) else Illegal
    decreases fuel, 0
  {
    assert NodeOk(data, net, p);
    if 0 < data[p] < 0x40 {
      var nxt := p + 1 + data[p];
      FinalLabel(dst, At(p, data[p + 1..nxt]), net[nxt].walk);
      ExpandNext(data, net, nxt, dst + data[p + 1..nxt] + [DOT], fuel - 1);
    } else if data[p] >= 0xc0 {
      var t := GetPtr(data, p);
      FinalPointer(dst, net[t].walk, p);
      ExpandNode(data, net, t, dst, nptrs + 1, fuel - 1);
    }
  }

  /** The same behind a label, however deep the node is. */
  lemma {:induction false} ExpandNext(data: Bytes, net: Net, p: nat, dst: Bytes, fuel: nat)
    requires NetOk(data, net) && p in net && fuel >= 130 * (|net[p].walk| + 1) + MAX_PTRS + 2
    ensures Expand(data, p, dst, 0, fuel) == if net[p].whole then Expanded(Final(dst, net[p].walk)) else Illegal
    decreases fuel, 1
  {
    Readable(data, net, p);
    Shallow(data, net, p);
    if net[p].hops <= MAX_PTRS {
      ExpandNode(data, net, p, dst, 0, fuel);
    } else {
      ExpandDeep(data, net, p, dst, 0, fuel);
    }
  }

  lemma Shallow(data: Bytes, net: Net, p: nat)
    requires NetOk(data, net) && p in net
    ensures net[p].hops <= MAX_PTRS + 1
  {
    assert NodeOk(data, net, p);
    if data[p] >= 0xc0 {
      Readable(data, net, GetPtr(data, p));
    }
  }

  // ---- Growing a net -------------------------------------------------------

  /** Octets appended to the packet do not disturb its names. */
  lemma NetExtend(data: Bytes, more: Bytes, net: Net)
    requires NetOk(data, net)
    ensures NetOk(data + more, net)
  {
    forall p | p in net
      ensures NodeOk(data + more, net, p)
    {
      assert NodeOk(data, net, p);
      if 0 < data[p] < 0x40 {
        assert (data + more)[p + 1..p + 1 + data[p]] == data[p + 1..p + 1 + data[p]];
      }
    }
  }

  lemma AddNode(data: Bytes, net: Net, p: nat, info: Info)
    requires NetOk(data, net) && p !in net
    requires NodeOk(data, net[p := info], p) && Nested(net[p := info], p)
    ensures NetOk(data, net[p := info])
  {
    var net' := net[p := info];
    forall q | q in net'
      ensures NodeOk(data, net', q) && Nested(net', q)
    {
      if q != p {
        assert NodeOk(data, net, q) && Nested(net, q);
      }
    }
  }

  lemma AddPointer(data: Bytes, net: Net, p: nat, t: nat)
    requires NetOk(data, net) && p !in net && p + 2 <= |data|
    requires t in net && t <= MAX_TARGET && data[p..p + 2] == PutPtr(t) && net[t].walk != []
    ensures NetOk(data, net[p := Follow(net[t], p)])
  {
    assert data[p] == data[p..p + 2][0] && data[p + 1] == data[p..p + 2][1];
    assert GetPtr(data, p) == t;
    var info := Follow(net[t], p);
    assert Nested(net, t);
    forall j | 0 <= j < |info.walk|
      ensures info.walk[j].pos in net[p := info] && net[p := info][info.walk[j].pos].walk == info.walk[j..]
    {
      if j > 0 {
        assert info.walk[j] == net[t].walk[j];
        assert info.walk[j..] == net[t].walk[j..];
      }
    }
    AddNode(data, net, p, info);
  }

  lemma AddLabel(data: Bytes, net: Net, p: nat, l: Label)
    requires NetOk(data, net) && p !in net && ValidLabel(l)
    requires p + 1 + |l| < |data| && data[p] == |l| && data[p + 1..p + 1 + |l|] == l
    requires p + 1 + |l| in net
    ensures NetOk(data, net[p := Info([At(p, l)] + net[p + 1 + |l|].walk, 0, net[p + 1 + |l|].whole)])
  {
    var nxt := p + 1 + |l|;
    var info := Info([At(p, l)] + net[nxt].walk, 0, net[nxt].whole);
    assert Nested(net, nxt);
    forall j | 0 <= j < |info.walk|
      ensures info.walk[j].pos in net[p := info] && net[p := info][info.walk[j].pos].walk == info.walk[j..]
    {
      if j > 0 {
        assert info.walk[j] == net[nxt].walk[j - 1];
        assert info.walk[j..] == net[nxt].walk[j - 1..];
      }
    }
    AddNode(data, net, p, info);
  }

  /** The places of the labels written from `base` on. */
  ghost function Own(base: nat, ls: seq<Label>): (w: seq<At>)
    ensures |w| == |ls|
    ensures forall j :: 0 <= j < |w| ==> w[j].lab == ls[j]
    decreases |ls|
  {
    if ls == [] then [] else [At(base, ls[0])] + Own(base + 1 + |ls[0]|, ls[1..])
  }

  /** The net with the labels written from `base` on added; the octets behind them are already in it. */
  ghost function Lay(net: Net, base: nat, ls: seq<Label>): Net
    decreases |ls|
  {
    if ls == [] then net
    else
      var nxt := base + 1 + |ls[0]|;
      var net' := Lay(net, nxt, ls[1..]);
      if nxt in net' then net'[base := Info([At(base, ls[0])] + net'[nxt].walk, 0, net'[nxt].whole)] else net'
  }

  lemma EncUnfold(ls: seq<Label>)
    requires ValidName(ls) && ls != []
    ensures EncLabels(ls) == [|ls[0]|] + ls[0] + EncLabels(ls[1..])
  {
    assert ValidLabel(ls[0]);
  }

  /** Taking the first label off an encoded list. */
  lemma EncHead(data: Bytes, base: nat, ls: seq<Label>)
    requires ValidName(ls) && ls != []
    requires base + |EncLabels(ls)| <= |data| && data[base..base + |EncLabels(ls)|] == EncLabels(ls)
    ensures var nxt := base + 1 + |ls[0]|;
      && base + |EncLabels(ls)| == nxt + |EncLabels(ls[1..])|
      && data[base] == |ls[0]| && data[base + 1..nxt] == ls[0]
      && data[nxt..nxt + |EncLabels(ls[1..])|] == EncLabels(ls[1..])
  {
    hide EncLabels;
    EncUnfold(ls);
    Unpack(data, base, |ls[0]|, ls[0], EncLabels(ls[1..]));
  }

  lemma {:induction false} LayOk(data: Bytes, net: Net, base: nat, ls: seq<Label>)
    requires NetOk(data, net) && ValidName(ls)
    requires var q := base + |EncLabels(ls)|;
      && q < |data| && data[base..q] == EncLabels(ls) && q in net
      && forall p :: p in net ==> !(base <= p < q)
    ensures var q := base + |EncLabels(ls)|;
      var net' := Lay(net, base, ls);
      && NetOk(data, net') && base in net'
      && net'[base].walk == Own(base, ls) + net[q].walk && net'[base].whole == net[q].whole
      && (forall p :: p in net ==> p in net' && net'[p] == net[p])
      && (forall p :: p in net' && p !in net ==>
         base <= p < q && net'[p].hops == 0 && net'[p].whole == net[q].whole && |net'[p].walk| <= |ls| + |net[q].walk|)
      && (forall j :: 0 <= j < |ls| ==> base <= Own(base, ls)[j].pos < q)
    decreases |ls|
  {
    if ls != [] {
      hide EncLabels, NetOk, ValidLabel;
      var l := ls[0];
      var nxt := base + 1 + |l|;
      EncHead(data, base, ls);
      LayOk(data, net, nxt, ls[1..]);
      AddLabel(data, Lay(net, nxt, ls[1..]), base, l);
    }
  }
}
