/**
 * Iterating over the records of a packet, in packet order or shuffled: dns_rr_grep and the two
 * searches behind it.
 */
module Iteration {
  import opened Wire
  import opened Records
  import opened Selection
  import opened Shuffle

  datatype Order = ByPacket | Shuffled(seed: nat)

  /** What an iterator asks for; `other` stands for the comparisons of names and of data. */
  datatype Filter = Filter(section: nat, rtype: nat, rclass: nat, other: nat -> bool)

  const T_ALL := 255
  const C_ANY := 255

  function SectionBit(s: Option<Section>): nat {
    match s
    case None => 0
    case Some(QD) => 1
    case Some(AN) => 2
    case Some(NS) => 4
    case Some(AR) => 8
  }

  predicate InMask(bit: nat, mask: nat) {
    bit > 0 && (mask / bit) % 2 == 1
  }

  /** dns_rr_i_match. */
  predicate Matches(data: Bytes, memos: Memos, f: Filter, rr: Rr) {
    && (f.section == 0 || InMask(SectionBit(RrSection(data, memos, rr.dnp)), f.section))
    && (f.rtype == 0 || rr.rtype == f.rtype || f.rtype == T_ALL)
    && (f.rclass == 0 || rr.rclass == f.rclass || f.rclass == C_ANY)
    && f.other(rr.dnp)
  }

  /** The sections a mask stands for. */
  function Sections(mask: nat): (r: set<Section>)
    ensures mask in {1, 2, 4, 8} ==> r == {match mask case 1 => QD case 2 => AN case 4 => NS case _ => AR}
  {
    (if mask % 2 == 1 then {QD} else {}) + (if mask / 2 % 2 == 1 then {AN} else {})
    + (if mask / 4 % 2 == 1 then {NS} else {}) + (if mask / 8 % 2 == 1 then {AR} else {})
  }

  predicate SectionIn(s: Option<Section>, mask: nat) {
    s.Some? && s.value in Sections(mask)
  }

  /** What the comparisons come to: types and classes 0 and 255 stand for any, section 0 for any. */
  lemma MatchesIff(data: Bytes, memos: Memos, f: Filter, rr: Rr)
    ensures Matches(data, memos, f, rr) <==>
      && (f.rtype !in {0, 255} ==> rr.rtype == f.rtype) && (f.rclass !in {0, 255} ==> rr.rclass == f.rclass)
      && (f.section != 0 ==> SectionIn(RrSection(data, memos, rr.dnp), f.section)) && f.other(rr.dnp)
  {
    hide RrSection;
  }

  /** A record boundary at which a record parses that the filter lets through. */
  predicate Picked(data: Bytes, memos: Memos, f: Filter, rp: nat) {
    && rp < |data| && RrParse(data, rp).Some? && Matches(data, memos, f, RrParse(data, rp).value)
  }

  ghost predicate OnWalk(data: Bytes, rp: nat) {
    exists k: nat :: Bound(Skipper(data), |data|, k) == rp
  }

  ghost function Wanted(data: Bytes, memos: Memos, f: Filter): nat -> bool {
    (rp: nat) => OnWalk(data, rp) && Picked(data, memos, f, rp)
  }

  /** The comparators dns_rr_i_packet and dns_rr_i_shuffle compare by this number. */
  function KeyOf(order: Order, data: Bytes, memos: Memos, rp: nat): nat {
    match order
    case ByPacket => rp
    case Shuffled(seed) => 0x1_0000 * SectionBit(RrSection(data, memos, rp)) + Shuffle16(rp, seed)
  }

  ghost function Key(order: Order, data: Bytes, memos: Memos): nat -> int {
    (rp: nat) => KeyOf(order, data, memos, rp)
  }

  /** Different records have different keys, because the shuffle is injective. */
  lemma KeysDiffer(order: Order, data: Bytes, memos: Memos, f: Filter)
    requires |data| <= MAX_PACKET
    ensures Keyed(Wanted(data, memos, f), Key(order, data, memos))
  {
    hide Picked, OnWalk, Shuffle16, RrSection;
    var cand, key := Wanted(data, memos, f), Key(order, data, memos);
    forall c: nat, d: nat | cand(c) && cand(d) && key(c) == key(d)
      ensures c == d
    {
      InPacket(data, memos, f, c);
      InPacket(data, memos, f, d);
      if order.Shuffled? {
        var x, y := SectionBit(RrSection(data, memos, c)), SectionBit(RrSection(data, memos, d));
        assert 0x1_0000 * x + Shuffle16(c, order.seed) == 0x1_0000 * y + Shuffle16(d, order.seed);
        ShuffleInjective(c, d, order.seed);
      }
    }
  }

  lemma InPacket(data: Bytes, memos: Memos, f: Filter, rp: nat)
    requires Picked(data, memos, f, rp)
    ensures rp < |data|
  {
  }

  lemma WalkStarts(data: Bytes)
    ensures OnWalk(data, HEADER) && forall d: nat :: OnWalk(data, d) ==> d >= HEADER
  {
    SkipperAdvances(data);
    assert Bound(Skipper(data), |data|, 0) == HEADER;
    forall d: nat | OnWalk(data, d)
      ensures d >= HEADER
    {
      var k: nat :| Bound(Skipper(data), |data|, k) == d;
      BoundRises(Skipper(data), |data|, 0, k);
    }
  }

  /** Nothing lies between a boundary and the next one. */
  lemma WalkGoesOn(data: Bytes, rp: nat)
    requires OnWalk(data, rp) && rp < |data|
    ensures OnWalk(data, RrSkip(data, rp)) && forall d: nat :: OnWalk(data, d) && d < RrSkip(data, rp) ==> d <= rp
  {
    hide RrSkip;
    var skip, end := Skipper(data), |data|;
    SkipperAdvances(data);
    var k: nat :| Bound(skip, end, k) == rp;
    assert Bound(skip, end, k + 1) == RrSkip(data, rp);
    forall d: nat | OnWalk(data, d) && d < RrSkip(data, rp)
      ensures d <= rp
    {
      var j: nat :| Bound(skip, end, j) == d;
      if j <= k {
        BoundRises(skip, end, j, k);
      } else {
        BoundRises(skip, end, k + 1, j);
      }
    }
  }

  /** The first loop of both searches: the first wanted record from `from` on with a key above `floor`. */
  method FirstFrom(data: Bytes, memos: Memos, f: Filter, order: Order, from: nat, floor: int) returns (rp: nat)
    requires from >= |data| || OnWalk(data, from)
    ensures rp >= |data| || (rp >= from && Wanted(data, memos, f)(rp) && KeyOf(order, data, memos, rp) > floor)
    ensures forall d: nat :: Wanted(data, memos, f)(d) && from <= d < rp ==> KeyOf(order, data, memos, d) <= floor
  {
    hide RrParse, RrSkip, Matches, KeyOf, OnWalk;
    rp := from;
    while rp < |data|
      invariant rp >= from && (rp >= |data| || OnWalk(data, rp))
      invariant forall d: nat :: Wanted(data, memos, f)(d) && from <= d < rp ==> KeyOf(order, data, memos, d) <= floor
      decreases |data| - rp
    {
      var rr := RrParse(data, rp);
      if rr.Some? && Matches(data, memos, f, rr.value) && KeyOf(order, data, memos, rp) > floor {
        return;
      }
      WalkGoesOn(data, rp);
      rp := RrSkip(data, rp);
    }
  }

  /** The second loop: from `r` on, the wanted record with the least key above `floor`. */
  method Lowest(data: Bytes, memos: Memos, f: Filter, order: Order, r: nat, floor: int) returns (best: nat)
    requires Wanted(data, memos, f)(r) && KeyOf(order, data, memos, r) > floor
    ensures Wanted(data, memos, f)(best) && KeyOf(order, data, memos, best) > floor
    ensures forall d: nat :: Wanted(data, memos, f)(d) && d >= r && KeyOf(order, data, memos, d) > floor
              ==> KeyOf(order, data, memos, best) <= KeyOf(order, data, memos, d)
  {
    hide RrParse, RrSkip, Matches, KeyOf, OnWalk;
    best := r;
    WalkGoesOn(data, r);
    var rp := RrSkip(data, r);
    while rp < |data|
      invariant rp >= |data| || OnWalk(data, rp)
      invariant Wanted(data, memos, f)(best) && KeyOf(order, data, memos, best) > floor
      invariant forall d: nat :: Wanted(data, memos, f)(d) && r <= d < rp && KeyOf(order, data, memos, d) > floor
                  ==> KeyOf(order, data, memos, best) <= KeyOf(order, data, memos, d)
      decreases |data| - rp
    {
      var rr := RrParse(data, rp);
      if rr.Some? && Matches(data, memos, f, rr.value)
         && KeyOf(order, data, memos, rp) > floor && KeyOf(order, data, memos, rp) < KeyOf(order, data, memos, best) {
        best := rp;
      }
      WalkGoesOn(data, rp);
      rp := RrSkip(data, rp);
    }
  }

  function Found(data: Bytes, rp: nat): Option<nat> {
    if rp < |data| then Some(rp) else None
  }

  /** dns_rr_i_start. */
  method Start(data: Bytes, memos: Memos, f: Filter, order: Order) returns (rp: nat)
    ensures Shows(Wanted(data, memos, f), Key(order, data, memos), -1, Found(data, rp))
  {
    hide Matches, OnWalk, RrSection, Shuffle16, RrParse;
    WalkStarts(data);
    rp := FirstFrom(data, memos, f, order, HEADER, -1);
    if rp < |data| && order.Shuffled? {
      rp := Lowest(data, memos, f, order, rp, -1);
    }
  }

  /** dns_rr_i_skip, from a record the iterator has shown. */
  method Skip(data: Bytes, memos: Memos, f: Filter, order: Order, r0: nat) returns (rp: nat)
    requires Wanted(data, memos, f)(r0)
    ensures Shows(Wanted(data, memos, f), Key(order, data, memos), KeyOf(order, data, memos, r0), Found(data, rp))
  {
    hide Matches, OnWalk, RrSection, Shuffle16, RrParse, RrSkip;
    WalkStarts(data);
    WalkGoesOn(data, r0);
    var from := if order.ByPacket? then RrSkip(data, r0) else HEADER;
    rp := FirstFrom(data, memos, f, order, from, KeyOf(order, data, memos, r0));
    if rp < |data| && order.Shuffled? {
      rp := Lowest(data, memos, f, order, rp, KeyOf(order, data, memos, r0));
    }
  }

  /** struct dns_rr_i; `shown` lists the records it has returned. */
  class RecordIterator {
    const order: Order
    const filter: Filter
    var started: bool
    var next: nat
    var count: nat
    ghost var shown: seq<nat>

    constructor (order: Order, filter: Filter)
      ensures this.order == order && this.filter == filter && !started && shown == [] && count == 0
    {
      this.order := order;
      this.filter := filter;
      started, next, count, shown := false, 0, 0, [];
    }

    /** What has been shown and what comes next, for an iterator over one packet. */
    ghost predicate Over(data: Bytes, memos: Memos)
      reads this
    {
      && |data| <= MAX_PACKET && count == |shown|
      && if started then Visited(Wanted(data, memos, filter), Key(order, data, memos), shown, Found(data, next))
         else shown == []
    }

    /** dns_rr_grep. Parsing what the iterator points to never fails. */
    method Grep(data: Bytes, memos: Memos, lim: nat) returns (out: seq<Rr>, failed: bool)
      requires Over(data, memos)
      modifies this`started, this`next, this`count, this`shown
      ensures Over(data, memos) && started && !failed
      ensures |out| <= lim && (|out| < lim ==> next >= |data|)
      ensures shown == old(shown) + Offsets(out)
      ensures forall rr :: rr in out ==> RrParse(data, rr.dnp) == Some(rr) && filter.other(rr.dnp)
      ensures forall rr :: rr in out && filter.rtype !in {0, 255} ==> rr.rtype == filter.rtype
      ensures forall rr :: rr in out && filter.rclass !in {0, 255} ==> rr.rclass == filter.rclass
      ensures forall rr :: rr in out && filter.section != 0 ==>
        SectionIn(RrSection(data, memos, rr.dnp), filter.section)
    {
      hide Matches, OnWalk, RrSection, Shuffle16, RrParse, Visited, KeyOf, Keyed;
      KeysDiffer(order, data, memos, filter);
      out, failed := [], false;
      if !started {
        next := Start(data, memos, filter, order);
        StartVisit(Wanted(data, memos, filter), Key(order, data, memos), Found(data, next));
        started := true;
      }
      while |out| < lim && next < |data|
        invariant Over(data, memos) && started && |out| <= lim && shown == old(shown) + Offsets(out)
        invariant forall rr :: rr in out ==> RrParse(data, rr.dnp) == Some(rr) && Matches(data, memos, filter, rr)
        decreases lim - |out|
      {
        NextWanted(this, data, memos);
        ParsedHere(data, next);
        var rr := RrParse(data, next);
        var after := Skip(data, memos, filter, order, next);
        VisitNext(Wanted(data, memos, filter), Key(order, data, memos), shown, next, Found(data, after));
        out, shown, count, next := out + [rr.value], shown + [next], count + 1, after;
      }
      forall rr | rr in out
        ensures filter.other(rr.dnp) && (filter.rtype !in {0, 255} ==> rr.rtype == filter.rtype)
        ensures filter.rclass !in {0, 255} ==> rr.rclass == filter.rclass
        ensures filter.section != 0 ==> SectionIn(RrSection(data, memos, rr.dnp), filter.section)
      {
        MatchesIff(data, memos, filter, rr);
      }
    }
  }

  lemma NextWanted(it: RecordIterator, data: Bytes, memos: Memos)
    requires it.Over(data, memos) && it.started && it.next < |data|
    ensures Wanted(data, memos, it.filter)(it.next) && RrParse(data, it.next).Some?
    ensures Matches(data, memos, it.filter, RrParse(data, it.next).value)
  {
  }

  lemma ParsedHere(data: Bytes, rp: nat)
    requires RrParse(data, rp).Some?
    ensures RrParse(data, rp).value.dnp == rp
  {
  }

  function Offsets(rrs: seq<Rr>): (r: seq<nat>)
    ensures |r| == |rrs|
  {
    seq(|rrs|, i requires 0 <= i < |rrs| => rrs[i].dnp)
  }

  /** A record starts at `rp`, with the type, class and section asked for. */
  ghost predicate AskedFor(data: Bytes, memos: Memos, f: Filter, rp: nat) {
    && OnWalk(data, rp) && rp < |data| && RrParse(data, rp).Some? && f.other(rp)
    && var rr := RrParse(data, rp).value;
    && (f.rtype !in {0, 255} ==> rr.rtype == f.rtype) && (f.rclass !in {0, 255} ==> rr.rclass == f.rclass)
    && (f.section != 0 ==> SectionIn(RrSection(data, memos, rp), f.section))
  }

  lemma AskedIsWanted(data: Bytes, memos: Memos, f: Filter, rp: nat)
    ensures AskedFor(data, memos, f, rp) <==> Wanted(data, memos, f)(rp)
  {
    hide OnWalk, RrSection, RrParse, Matches;
    if RrParse(data, rp).Some? {
      ParsedHere(data, rp);
      MatchesIff(data, memos, f, RrParse(data, rp).value);
    }
  }

  /** The order in which records are shown: by offset, or by section and, within one, by shuffle. */
  ghost predicate Before(order: Order, data: Bytes, memos: Memos, a: nat, b: nat) {
    match order
    case ByPacket => a < b
    case Shuffled(seed) =>
      var s, t := RrSection(data, memos, a), RrSection(data, memos, b);
      if s == t then Shuffle16(a, seed) < Shuffle16(b, seed) else Earlier(s, t)
  }

  predicate Earlier(s: Option<Section>, t: Option<Section>) {
    || (s.None? && t.Some?)
    || (s == Some(QD) && t.Some? && t.value != QD)
    || (s == Some(AN) && (t == Some(NS) || t == Some(AR)))
    || (s == Some(NS) && t == Some(AR))
  }

  lemma KeyOrders(order: Order, data: Bytes, memos: Memos, a: nat, b: nat)
    requires a < 0x1_0000 && b < 0x1_0000 && KeyOf(order, data, memos, a) < KeyOf(order, data, memos, b)
    ensures Before(order, data, memos, a, b)
  {
    hide RrSection, Shuffle16;
  }

  /**
   * An iterator that has stopped has shown every record asked for, in order and exactly once; and before that
   * it can return at most as many records as the packet has octets.
   */
  lemma Complete(it: RecordIterator, data: Bytes, memos: Memos)
    requires it.Over(data, memos) && it.started
    ensures forall i, j :: 0 <= i < j < |it.shown| ==> Before(it.order, data, memos, it.shown[i], it.shown[j])
    ensures |it.shown| <= |data|
    ensures it.next >= |data| ==> forall rp: nat :: rp in it.shown <==> AskedFor(data, memos, it.filter, rp)
  {
    hide Matches, OnWalk, RrSection, Shuffle16, RrParse, KeyOf, AskedFor, Before;
    VisitsEnd(Wanted(data, memos, it.filter), Key(it.order, data, memos), it.shown, Found(data, it.next), |data|);
    forall rp: nat
      ensures AskedFor(data, memos, it.filter, rp) <==> Wanted(data, memos, it.filter)(rp)
    {
      AskedIsWanted(data, memos, it.filter, rp);
    }
    forall i, j | 0 <= i < j < |it.shown|
      ensures Before(it.order, data, memos, it.shown[i], it.shown[j])
    {
      assert it.shown[i] in it.shown && it.shown[j] in it.shown;
      assert Key(it.order, data, memos)(it.shown[i]) < Key(it.order, data, memos)(it.shown[j]);
      KeyOrders(it.order, data, memos, it.shown[i], it.shown[j]);
    }
  }
}
