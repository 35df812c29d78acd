/**
 * What a push that fails leaves in the dictionary. dns_p_push gives back the octets it wrote, but keeps the
 * entries of the names among them.
 */
module FailedPushes {
  import opened Wire
  import opened Names
  import opened Compression
  import opened NameNet
  import opened NameRuns
  import opened Rdata

  /** A name that a push writes, and the number of octets it puts in front of it. */
  datatype Piece = Piece(gap: nat, labels: seq<Label>)

  function Zeros(n: nat): (z: Bytes)
    ensures |z| == n
  {
    seq(n, _ => 0)
  }

  ghost predicate ValidPieces(ps: seq<Piece>) {
    forall i :: 0 <= i < |ps| ==> ValidName(ps[i].labels)
  }

  /** The packet after writing one name after the other, up to the first that does not fit. */
  ghost function Tries(pk: Pkt, size: nat, ps: seq<Piece>): Pkt
    requires ValidPieces(ps)
    decreases |ps|
  {
    if ps == [] then pk
    else
      var pk1 := Pkt(pk.data + Zeros(ps[0].gap), pk.dict);
      if |pk1.data| > size || DPush(pk1, size, ps[0].labels) == pk1 then pk
      else Tries(DPush(pk1, size, ps[0].labels), size, ps[1..])
  }

  /** If the push fails, an entry is left that points behind the end of the packet. */
  ghost predicate Strays(pk: Pkt, size: nat, ps: seq<Piece>)
    requires ValidPieces(ps)
  {
    exists x :: x in Tries(pk, size, ps).dict && x > |pk.data|
  }

  /** One name adds no entry behind the place it starts at. */
  lemma OwnerEntries(pk: Pkt, net: Net, size: nat, ls: seq<Label>)
    requires Base(pk.data, pk.dict, net) && ValidName(ls)
    ensures forall x :: x in DPush(pk, size, ls).dict ==> x <= |pk.data|
  {
    hide CompWire, DictScan, NetOk;
    NodesInside(pk.data, net);
    var pk2 := DPush(pk, size, ls);
    DictEntries(pk2.data, pk.dict, |pk.data|, |pk.data|);
    assert forall x :: x in pk2.dict ==> x in pk.dict || x == |pk.data|;
  }

  /** Nothing strays if the dictionary is as the owner name alone would leave it. */
  lemma OwnerNotStray(pk: Pkt, net: Net, size: nat, ls: seq<Label>, ps: seq<Piece>)
    requires Base(pk.data, pk.dict, net) && ValidName(ls) && ValidPieces(ps)
    requires Tries(pk, size, ps).dict == DPush(pk, size, ls).dict
    ensures !Strays(pk, size, ps)
  {
    hide NameRuns.DPush, Tries, Base;
    OwnerEntries(pk, net, size, ls);
  }

  /** So a record without names in its rdata leaves no stray entry. */
  lemma OwnerOnly(pk: Pkt, net: Net, size: nat, ls: seq<Label>)
    requires Base(pk.data, pk.dict, net) && ValidName(ls)
    ensures !Strays(pk, size, [Piece(0, ls)])
  {
    hide NameRuns.DPush, NetOk;
    NodesInside(pk.data, net);
    var ps, pk2 := [Piece(0, ls)], DPush(pk, size, ls);
    assert pk.data + Zeros(0) == pk.data;
    assert ps[1..] == [];
    assert Tries(pk2, size, ps[1..]) == pk2;
    assert Tries(pk, size, ps) == pk || Tries(pk, size, ps) == pk2;
    OwnerEntries(pk, net, size, ls);
  }

  lemma {:induction false} DictEntries(data: Bytes, dict: seq<nat>, dn: nat, lp: nat)
    ensures forall x :: x in DictScan(data, dict, dn, lp) ==> x in dict || x == dn
    decreases |data| - lp
  {
    if lp < |data| {
      DictEntries(data, dict, dn, LSkip(data, lp));
    }
  }

  // ---- The octets between the names do not matter -------------------------------------------

  lemma {:induction false} DictScanSame(a: Bytes, b: Bytes, dict: seq<nat>, dn: nat, lp: nat)
    requires |a| == |b| && lp <= |a| && a[lp..] == b[lp..]
    ensures DictScan(a, dict, dn, lp) == DictScan(b, dict, dn, lp)
    decreases |a| - lp
  {
    hide DictScan;
    DictScanUnfold(a, dict, dn, lp);
    DictScanUnfold(b, dict, dn, lp);
    if lp < |a| {
      SameFrom(a, b, lp, LSkip(a, lp));
      DictScanSame(a, b, dict, dn, LSkip(a, lp));
    }
  }

  lemma SameFrom(a: Bytes, b: Bytes, lp: nat, next: nat)
    requires |a| == |b| && lp < |a| && a[lp..] == b[lp..] && lp < next <= |a|
    ensures a[lp] == b[lp] && (lp + 1 < |a| ==> a[lp + 1] == b[lp + 1]) && a[next..] == b[next..]
  {
    assert a[lp] == a[lp..][0] && b[lp] == b[lp..][0];
    assert lp + 1 < |a| ==> a[lp + 1] == a[lp..][1] && b[lp + 1] == b[lp..][1];
    assert a[next..] == a[lp..][next - lp..] && b[next..] == b[lp..][next - lp..];
  }

  /** Two packets with the same names take a further name in the same way. */
  lemma SamePush(a: Bytes, b: Bytes, dict: seq<nat>, net: Net, size: nat, ls: seq<Label>)
    requires Base(a, dict, net) && Base(b, dict, net) && |a| == |b| && ValidName(ls)
    ensures var pa, pb := DPush(Pkt(a, dict), size, ls), DPush(Pkt(b, dict), size, ls);
      && pa.dict == pb.dict && |pa.data| == |pb.data| && (pa == Pkt(a, dict) <==> pb == Pkt(b, dict))
    ensures CompWire(a, dict, ls, Lim(Pkt(a, dict), size)) == CompWire(b, dict, ls, Lim(Pkt(b, dict), size))
  {
    hide DictScan, Search, NetOk, WireOf;
    EntriesAreWalks(a, dict, net);
    EntriesAreWalks(b, dict, net);
    hide Entries;
    var wire := CompWire(a, dict, ls, Lim(Pkt(a, dict), size));
    hide CompWire;
    assert (a + wire)[|a|..] == wire && (b + wire)[|b|..] == wire;
    DictScanSame(a + wire, b + wire, dict, |a|, |a|);
    WireLong(a, dict, ls, Lim(Pkt(a, dict), size));
  }

  lemma WireLong(data: Bytes, dict: seq<nat>, ls: seq<Label>, lim: nat)
    ensures |CompWire(data, dict, ls, lim)| >= 1
  {
    hide Search, Entries, EncLabels;
  }

  lemma {:induction false} TriesSame(a: Bytes, b: Bytes, dict: seq<nat>, net: Net, size: nat, ps: seq<Piece>)
    requires Base(a, dict, net) && Base(b, dict, net) && Settled(dict, net) && |a| == |b| && ValidPieces(ps)
    ensures Tries(Pkt(a, dict), size, ps).dict == Tries(Pkt(b, dict), size, ps).dict
    decreases |ps|
  {
    if ps != [] {
      hide Base, Settled, CompWire, DictScan, Grown, Attempt, Fits, Sure;
      var z, ls := Zeros(ps[0].gap), ps[0].labels;
      OctetsBase(a, dict, net, z);
      OctetsBase(b, dict, net, z);
      SamePush(a + z, b + z, dict, net, size, ls);
      var lim := Lim(Pkt(a + z, dict), size);
      PushKeeps(a + z, dict, net, ls, lim);
      PushKeeps(b + z, dict, net, ls, lim);
      SameGrown(a + z, b + z, dict, net, ls, lim);
      var pa, pb := DPush(Pkt(a + z, dict), size, ls), DPush(Pkt(b + z, dict), size, ls);
      if |a + z| <= size && pa != Pkt(a + z, dict) {
        TriesSame(pa.data, pb.data, pa.dict, Grown(a + z, net, ls, Attempt(a + z, dict, ls, lim)), size, ps[1..]);
      }
    }
  }

  lemma SameGrown(a: Bytes, b: Bytes, dict: seq<nat>, net: Net, ls: seq<Label>, lim: nat)
    requires Base(a, dict, net) && Base(b, dict, net) && |a| == |b| && ValidName(ls)
    ensures Attempt(a, dict, ls, lim) == Attempt(b, dict, ls, lim)
    ensures var f := Attempt(a, dict, ls, lim); Fits(net, ls, f) ==> Grown(a, net, ls, f) == Grown(b, net, ls, f)
  {
    hide Search, NetOk, Lay;
    EntriesAreWalks(a, dict, net);
    EntriesAreWalks(b, dict, net);
  }

  /** Entries are added at or behind the end, or earlier ones overwritten. */
  lemma {:induction false} TriesEntries(pk: Pkt, size: nat, ps: seq<Piece>)
    requires ValidPieces(ps) && |pk.dict| <= DICT_SIZE
    ensures var d := Tries(pk, size, ps).dict;
      |pk.dict| <= |d| <= DICT_SIZE && forall x :: x in d ==> x in pk.dict || x >= |pk.data|
    decreases |ps|
  {
    if ps != [] {
      hide CompWire, DictScan;
      var pk1 := Pkt(pk.data + Zeros(ps[0].gap), pk.dict);
      var pk2 := DPush(pk1, size, ps[0].labels);
      if |pk1.data| <= size && pk2 != pk1 {
        DictScanSize(pk2.data, pk.dict, |pk1.data|, |pk1.data|);
        DictRoom(pk2.data, pk.dict, |pk1.data|, |pk1.data|);
        DictEntries(pk2.data, pk.dict, |pk1.data|, |pk1.data|);
        TriesEntries(pk2, size, ps[1..]);
      }
    }
  }

  lemma {:induction false} DictRoom(data: Bytes, dict: seq<nat>, dn: nat, lp: nat)
    requires |dict| <= DICT_SIZE
    ensures |DictScan(data, dict, dn, lp)| <= DICT_SIZE
    decreases |data| - lp
  {
    if lp < |data| {
      DictRoom(data, dict, dn, LSkip(data, lp));
    }
  }

  // ---- The names of a record -----------------------------------------------------------------

  /** The labels of a text; of one that is no name, none. */
  ghost function LabelsIn(dn: Bytes): (ls: seq<Label>)
    ensures ValidName(ls)
  {
    if ValidText(dn) then Labels(dn) else []
  }

  /** The names in the rdata, `lead` octets after a given place; the rdata length comes first. */
  ghost function RdataPieces(any: RData, lead: nat): (ps: seq<Piece>)
    ensures ValidPieces(ps)
  {
    match any
    case Host(h) => [Piece(lead + 2, LabelsIn(h))]
    case Exchange(_, h) => [Piece(lead + 4, LabelsIn(h))]
    case Authority(m, r, _, _, _, _, _) => [Piece(lead + 2, LabelsIn(m)), Piece(0, LabelsIn(r))]
    case _ => []
  }

  /** All names of a record: eight octets of type, class and ttl stand between owner and rdata length. */
  ghost function PiecesOf(question: bool, dn: Bytes, any: RData): (ps: seq<Piece>)
    ensures ValidPieces(ps)
  {
    [Piece(0, LabelsIn(dn))] + if question then [] else RdataPieces(any, 8)
  }

  /** The packet could as well have `z` where it has `g`, and `z` could as well be part of the gap. */
  lemma TriesGap(d: Bytes, g: Bytes, dict: seq<nat>, net: Net, size: nat, ps: seq<Piece>)
    requires Base(d, dict, net) && Settled(dict, net) && ps != [] && ValidPieces(ps)
    requires ValidPieces([Piece(|g| + ps[0].gap, ps[0].labels)] + ps[1..])
    ensures Tries(Pkt(d + g, dict), size, ps).dict
      == Tries(Pkt(d, dict), size, [Piece(|g| + ps[0].gap, ps[0].labels)] + ps[1..]).dict
  {
    hide Base, Settled, NameRuns.DPush;
    var z := Zeros(|g|);
    OctetsBase(d, dict, net, g);
    OctetsBase(d, dict, net, z);
    TriesSame(d + g, d + z, dict, net, size, ps);
    var qs := [Piece(|g| + ps[0].gap, ps[0].labels)] + ps[1..];
    assert d + z + Zeros(ps[0].gap) == d + Zeros(|g| + ps[0].gap);
    assert qs[1..] == ps[1..];
  }

  lemma TriesLead(d: Bytes, g: Bytes, dict: seq<nat>, net: Net, size: nat, any: RData)
    requires Base(d, dict, net) && Settled(dict, net)
    ensures Tries(Pkt(d + g, dict), size, RdataPieces(any, 0)).dict
      == Tries(Pkt(d, dict), size, RdataPieces(any, |g|)).dict
  {
    var ps := RdataPieces(any, 0);
    if ps == [] {
      assert RdataPieces(any, |g|) == [];
    } else {
      hide Base, Settled, Tries, LabelsIn;
      assert RdataPieces(any, |g|) == [Piece(|g| + ps[0].gap, ps[0].labels)] + ps[1..];
      TriesGap(d, g, dict, net, size, ps);
    }
  }

  /** After an owner name that fitted, the names of the rdata have their turn. */
  lemma TriesOwner(pk: Pkt, size: nat, dn: Bytes, any: RData)
    requires |pk.data| <= size
    ensures var pk1 := DPush(pk, size, LabelsIn(dn));
      Tries(pk, size, PiecesOf(false, dn, any)) == if pk1 == pk then pk else Tries(pk1, size, RdataPieces(any, 8))
    ensures Tries(pk, size, PiecesOf(true, dn, any)) == DPush(pk, size, LabelsIn(dn))
  {
    hide NameRuns.DPush, LabelsIn;
    assert pk.data + Zeros(0) == pk.data;
    assert PiecesOf(false, dn, any)[1..] == RdataPieces(any, 8);
    assert PiecesOf(true, dn, any)[1..] == [];
    assert Tries(DPush(pk, size, LabelsIn(dn)), size, []) == DPush(pk, size, LabelsIn(dn));
  }

  /** Without an octet of room for it the first name is not written. */
  lemma NoRoom(pk: Pkt, size: nat, ps: seq<Piece>)
    requires ValidPieces(ps) && (ps != [] ==> |pk.data| + ps[0].gap >= size)
    ensures Tries(pk, size, ps) == pk
  {
    if ps != [] {
      hide CompWire, DictScan;
      var pk1 := Pkt(pk.data + Zeros(ps[0].gap), pk.dict);
      WireLong(pk1.data, pk.dict, ps[0].labels, Lim(pk1, size));
    }
  }

  lemma NoRoomFor(pk: Pkt, size: nat, any: RData)
    requires |pk.data| + 10 > size
    ensures Tries(pk, size, RdataPieces(any, 8)) == pk
  {
    hide Tries;
    NoRoom(pk, size, RdataPieces(any, 8));
  }

  lemma OnePiece(d: Bytes, g: Bytes, dict: seq<nat>, net: Net, size: nat, ls: seq<Label>)
    requires Base(d, dict, net) && Settled(dict, net) && |d| + |g| <= size && ValidName(ls)
    ensures Tries(Pkt(d, dict), size, [Piece(|g|, ls)]).dict == DPush(Pkt(d + g, dict), size, ls).dict
  {
    hide Base, Settled, NameRuns.DPush;
    var z := Zeros(|g|);
    OctetsBase(d, dict, net, g);
    OctetsBase(d, dict, net, z);
    SamePush(d + g, d + z, dict, net, size, ls);
    assert [Piece(|g|, ls)][1..] == [];
    assert Tries(DPush(Pkt(d + z, dict), size, ls), size, []) == DPush(Pkt(d + z, dict), size, ls);
  }

  lemma TwoPieces(pk: Pkt, size: nat, a: seq<Label>, b: seq<Label>)
    requires |pk.data| <= size && ValidName(a) && ValidName(b)
    ensures var pk1 := DPush(pk, size, a);
      Tries(pk, size, [Piece(0, a), Piece(0, b)]).dict == if pk1 == pk then pk.dict else DPush(pk1, size, b).dict
  {
    hide CompWire, DictScan;
    var pk1 := DPush(pk, size, a);
    var pk2 := DPush(pk1, size, b);
    var ps := [Piece(0, a), Piece(0, b)];
    assert pk.data + Zeros(0) == pk.data && pk1.data + Zeros(0) == pk1.data;
    assert ps[1..] == [Piece(0, b)] && ps[1..][1..] == [];
    assert Tries(pk2, size, []) == pk2;
    assert Tries(pk1, size, ps[1..]).dict == pk2.dict;
  }

  // ---- A stray entry, and what comes of it ------------------------------------------------------

  /** The owner is the root; the rdata starts eleven octets behind, with a name of one label. */
  function Record(x: Label): seq<Piece> {
    [Piece(0, []), Piece(10, [x])]
  }

  lemma RootWire(data: Bytes, dict: seq<nat>, size: nat)
    requires |data| + 2 <= size && |dict| < DICT_SIZE
    ensures DPush(Pkt(data, dict), size, []) == Pkt(data + [0], dict + [|data|])
  {
    assert EncLabels([]) == [];
    assert Encode([]) == [0];
    PlainWritten(data, []);
    DictPlainAt(data + Encode([]), dict, |data|, []);
  }

  lemma RootWalks(data: Bytes, p: nat, fuel: nat)
    requires p >= |data| || data[p] == 0
    ensures Walk(data, p, fuel) == []
  {
  }

  /** The failed push leaves an entry for the name in its rdata. */
  lemma Strayed(header: Bytes, size: nat, x: Label)
    requires ValidLabel(x) && |header| + 80 <= size
    ensures ValidPieces(Record(x))
    ensures Tries(Pkt(header, []), size, Record(x)).dict == [|header|, |header| + 11]
      && Strays(Pkt(header, []), size, Record(x))
  {
    hide Search, Walk, DictScan, EncLabels;
    var ps, h := Record(x), |header|;
    assert header + Zeros(0) == header;
    RootWire(header, [], size);
    var one := Pkt(header + [0], [h]);
    assert [] + [h] == [h];
    var gap := Pkt(one.data + Zeros(10), [h]);
    RootWalks(gap.data, h, |gap.data|);
    assert Entries(gap.data, [h]) == [[]];
    assert Search([x], 0, [[]]) == NotFound by {
      LastLabelMissing([x], [[]]);
    }
    EncBound([x]);
    PlainWritten(gap.data, [x]);
    DictPlainAt(gap.data + Encode([x]), [h], |gap.data|, [x]);
    var two := DPush(gap, size, [x]);
    assert two == Pkt(gap.data + Encode([x]), [h] + [h + 11]);
    assert ps[1..] == [Piece(10, [x])] && ps[1..][1..] == [];
    assert Tries(one, size, ps[1..]) == two;
    assert (h + 11) in two.dict;
  }

  /** Once a record of the right length stands there, the entry reads as if its text were a name. */
  ghost function Mistaken(header: Bytes, fixed: Bytes, t: Label): Bytes
    requires |t| < 0x100
  {
    header + [0] + fixed + [|t|] + t
  }

  lemma MistakenEntries(header: Bytes, fixed: Bytes, t: Label)
    requires ValidLabel(t) && |fixed| == 10
    ensures var data, h := Mistaken(header, fixed, t), |header|;
      Entries(data, [h, h + 11, h]) == [[], [At(h + 11, t)], []]
  {
    var data, h := Mistaken(header, fixed, t), |header|;
    assert data[h] == 0 && data[h + 11] == |t| && data[h + 12..h + 12 + |t|] == t && |data| == h + 12 + |t|;
    RootWalks(data, h, |data|);
    assert LExpand(data, h + 11, 0) == Go(t, |data|);
    RootWalks(data, |data|, |data| - 1);
    assert Walk(data, h + 11, |data|) == [At(h + 11, t)];
  }

  lemma MistakenFound(header: Bytes, fixed: Bytes, t: Label, lim: nat)
    requires ValidLabel(t) && |fixed| == 10 && |header| + 11 <= MAX_TARGET && lim > 65
    ensures var data, h := Mistaken(header, fixed, t), |header|;
      CompWire(data, [h, h + 11, h], [t], lim) == PutPtr(h + 11)
  {
    hide Entries, Mistaken;
    var h := |header|;
    MistakenEntries(header, fixed, t);
    var at := [At(h + 11, t)];
    assert ScanEntry(Have(t), [], at) == Hit(t, at);
    var es: seq<seq<At>> := [[], at, []];
    assert es[1..] == [at, []];
    assert [t][0 + 1..] == [];
    assert ScanDict(Have(t), [], es) == ScanDict(Have(t), [], [at, []]) == Hit(t, at);
    assert Search([t], 0, es) == FoundAt(0, t, at);
    EncBound([t]);
    assert EncLabels([t][..0]) == [];
    assert [] + PutPtr(h + 11) == PutPtr(h + 11);
  }

  /** A label followed by a pointer to itself: dns_d_expand goes round for ever. */
  lemma {:induction false} RoundAndRound(data: Bytes, p: nat, e: nat, dst: Bytes, nptrs: nat, fuel: nat)
    requires p + 1 < |data| && 0 < data[p] < 0x40 && e == p + 1 + data[p] && e + 2 <= |data|
    requires data[e] >= 0xc0 && GetPtr(data, e) == p && nptrs <= 1
    ensures Expand(data, p, dst, nptrs, fuel) == Running
    ensures nptrs == 0 ==> Expand(data, e, dst, 0, fuel) == Running
    decreases fuel
  {
    if fuel > 0 {
      RoundAndRound(data, p, e, dst, 1, fuel - 1);
      RoundAndRound(data, p, e, dst + data[p + 1..e] + [DOT], 0, fuel - 1);
    }
  }

  /**
   * A later name that never reads back. A push with a name in its rdata fails and leaves its entry; a record
   * with a text `t` in its rdata follows; then the name `t` is pushed, is taken to stand in that text, and
   * becomes a pointer to a label that leads back to the pointer.
   */
  lemma StrayLoops(header: Bytes, size: nat, x: Label, fixed: Bytes, t: Label, fuel: nat)
    requires ValidLabel(x) && ValidLabel(t) && |fixed| == 10 && |header| + 200 <= size && |header| + 11 <= MAX_TARGET
    requires ValidPieces(Record(x))
    ensures var failed := Pkt(header, Tries(Pkt(header, []), size, Record(x)).dict);
      var pk := Run(failed, size, [Name([]), Octets(fixed + [|t|] + t)]);
      Expand(pk.data + CompWire(pk.data, pk.dict, [t], Lim(pk, size)), |pk.data|, [], 0, fuel) == Running
  {
    hide Tries, CompWire, Entries, Expand;
    var h := |header|;
    Strayed(header, size, x);
    RootWire(header, [h, h + 11], size);
    var ops := [Name([]), Octets(fixed + [|t|] + t)];
    assert ops[1..] == [Octets(fixed + [|t|] + t)] && ops[1..][1..] == [];
    var failed := Pkt(header, [h, h + 11]);
    var data := Mistaken(header, fixed, t);
    assert header + [0] + (fixed + [|t|] + t) == data;
    assert [h, h + 11] + [h] == [h, h + 11, h];
    assert Run(failed, size, ops) == Run(Pkt(header + [0], [h, h + 11, h]), size, ops[1..])
      == Run(Pkt(data, [h, h + 11, h]), size, ops[1..][1..]);
    var pk := Pkt(data, [h, h + 11, h]);
    assert Run(failed, size, ops) == pk;
    MistakenFound(header, fixed, t, Lim(pk, size));
    var whole := data + PutPtr(h + 11);
    assert whole[h + 11] == |t| && whole[|data|..|data| + 2] == PutPtr(h + 11);
    assert GetPtr(whole, |data|) == h + 11;
    RoundAndRound(whole, h + 11, |data|, [], 0, fuel);
  }
}
