/**
 * Resource records inside a packet: skipping, parsing, and the section a record belongs to, by
 * the memo ranges of dns_p_study and by counting (sections 4.1.1 to 4.1.3 of RFC 1035). The
 * functions work on the octets in use, `data[..end]`, of any packet of at most 65535 octets.
 */
module Records {
  import opened Wire

  const HEADER := 12
  const MAX_PACKET := 0xffff

  datatype Section = QD | AN | NS | AR

  /** dns_p_count: the header's record counts; a packet too short for a header holds no record. */
  function Count(data: Bytes, s: Section): (n: nat)
    ensures n < 0x1_0000
  {
    if |data| < HEADER then 0
    else Get16(data, match s case QD => 4 case AN => 6 case NS => 8 case AR => 10)
  }

  /** dns_d_skip: the offset behind the name at `src`, or the end of the packet. */
  function DSkip(data: Bytes, src: nat): (r: nat)
    ensures if src < |data| then src < r <= |data| else r == |data|
    decreases |data| - src
  {
    if src >= |data| then |data|
    else if data[src] == 0 then src + 1
    else if data[src] < 0x40 then
      if |data| - (src + 1) > data[src] then DSkip(data, src + 1 + data[src]) else |data|
    else if data[src] >= 0xc0 && |data| - src >= 2 then src + 2
    else |data|
  }

  /** dns_p_qend with `n` questions still to pass, from `qend` on. */
  function QEndFrom(data: Bytes, n: nat, qend: nat): (r: nat)
    ensures r <= |data|
    decreases n
  {
    if n > 0 && qend < |data| then
      var p := DSkip(data, qend);
      if p == |data| || |data| - p < 4 then |data| else QEndFrom(data, n - 1, p + 4)
    else if qend < |data| then qend else |data|
  }

  function QEnd(data: Bytes): (r: nat)
    ensures r <= |data|
  {
    QEndFrom(data, Count(data, QD), HEADER)
  }

  /** What dns_rr_parse fills in; a question has no ttl and no rdata. */
  datatype Rr = Rr(dnp: nat, dnlen: nat, rtype: nat, rclass: nat, question: bool, ttl: nat, rdp: nat, rdlen: nat)

  function RrParse(data: Bytes, src: nat): Option<Rr> {
    var p := DSkip(data, src);
    if src >= |data| || |data| - p < 4 then None
    else
      var rtype, rclass := Get16(data, p), Get16(data, p + 2);
      if src < QEnd(data) then Some(Rr(src, p - src, rtype, rclass, true, 0, 0, 0))
      else if |data| - (p + 4) < 6 then None
      else
        var rdlen := Get16(data, p + 8);
        if |data| - (p + 10) < rdlen then None
        else Some(Rr(src, p - src, rtype, rclass, false, Get32(data, p + 4) % 0x8000_0000, p + 10, rdlen))
  }

  /** dns_rr_skip: `src` plus dns_rr_len. It always advances, and stays within the packet. */
  function RrSkip(data: Bytes, src: nat): (r: nat)
    requires src < |data|
    ensures src < r <= |data|
  {
    var p := DSkip(data, src);
    if |data| - p < 4 then |data|
    else if p + 4 <= QEnd(data) then p + 4
    else if |data| - (p + 4) < 6 then |data|
    else if |data| - (p + 10) < Get16(data, p + 8) then |data|
    else p + 10 + Get16(data, p + 8)
  }

  /** dns_rr_skip as a walk; beyond the packet it stands still. */
  function Skipper(data: Bytes): nat -> nat {
    (src: nat) => if src < |data| then RrSkip(data, src) else src
  }

  // ---- Boundaries, and the two ways to a section ----------------------------

  /** A walk that always moves forward inside a packet of `end` octets. */
  ghost predicate Advancing(skip: nat -> nat, end: nat) {
    forall src: nat :: src < end ==> src < skip(src)
  }

  lemma SkipperAdvances(data: Bytes)
    ensures Advancing(Skipper(data), |data|)
  {
  }

  /** Offset of record number `k`; the end of the packet when there are fewer. */
  function Bound(skip: nat -> nat, end: nat, k: nat): nat {
    if k == 0 then HEADER
    else
      var b := Bound(skip, end, k - 1);
      if b < end then skip(b) else b
  }

  datatype Memo = Memo(base: nat, end: nat)

  datatype Memos = Memos(qd: Memo, an: Memo, ns: Memo, ar: Memo)

  datatype Counts = Counts(qd: nat, an: nat, ns: nat, ar: nat)

  function CountsOf(data: Bytes): Counts {
    Counts(Count(data, QD), Count(data, AN), Count(data, NS), Count(data, AR))
  }

  /** The loop of dns_s_study. */
  function StudyEnd(skip: nat -> nat, end: nat, rp: nat, count: nat): nat
    decreases count
  {
    if count == 0 || rp >= end then rp else StudyEnd(skip, end, skip(rp), count - 1)
  }

  /** dns_p_study over a given walk and given counts. */
  function StudyBy(skip: nat -> nat, end: nat, c: Counts): Memos {
    var q := StudyEnd(skip, end, HEADER, c.qd);
    var a := StudyEnd(skip, end, q, c.an);
    var n := StudyEnd(skip, end, a, c.ns);
    Memos(Memo(HEADER, q), Memo(q, a), Memo(a, n), Memo(n, StudyEnd(skip, end, n, c.ar)))
  }

  function Study(data: Bytes): Memos {
    StudyBy(Skipper(data), |data|, CountsOf(data))
  }

  /** The walk of the slow path: the index it has reached when it gets to `src`. */
  function IndexFrom(skip: nat -> nat, end: nat, src: nat, rp: nat, index: nat): nat
    requires Advancing(skip, end)
    decreases end - rp
  {
    if rp < src && rp < end then IndexFrom(skip, end, src, skip(rp), index + 1) else index
  }

  /** The closing loop of dns_rr_section: add up counts until the index falls below them. */
  function SectionAt(c: Counts, index: nat): Option<Section> {
    if index < c.qd then Some(QD)
    else if index < c.qd + c.an then Some(AN)
    else if index < c.qd + c.an + c.ns then Some(NS)
    else if index < c.qd + c.an + c.ns + c.ar then Some(AR)
    else None
  }

  function SlowSection(skip: nat -> nat, end: nat, c: Counts, src: nat): Option<Section>
    requires Advancing(skip, end)
  {
    SectionAt(c, IndexFrom(skip, end, src, HEADER, 0))
  }

  predicate Within(src: nat, m: Memo) {
    m.base <= src < m.end
  }

  /** dns_rr_section over a given walk: the memo ranges first, then the count. */
  function SectionBy(skip: nat -> nat, end: nat, c: Counts, m: Memos, src: nat): Option<Section>
    requires Advancing(skip, end)
  {
    if Within(src, m.qd) then Some(QD)
    else if Within(src, m.an) then Some(AN)
    else if Within(src, m.ns) then Some(NS)
    else if Within(src, m.ar) then Some(AR)
    else SlowSection(skip, end, c, src)
  }

  function RrSection(data: Bytes, m: Memos, src: nat): Option<Section> {
    SkipperAdvances(data);
    SectionBy(Skipper(data), |data|, CountsOf(data), m, src)
  }

  lemma {:induction false} BoundRises(skip: nat -> nat, end: nat, i: nat, j: nat)
    requires Advancing(skip, end) && i <= j
    ensures Bound(skip, end, i) <= Bound(skip, end, j)
    ensures i < j && Bound(skip, end, i) < end ==> Bound(skip, end, i) < Bound(skip, end, j)
    ensures Bound(skip, end, i) >= end ==> Bound(skip, end, j) == Bound(skip, end, i)
    decreases j - i
  {
    if i < j {
      BoundRises(skip, end, i, j - 1);
    }
  }

  lemma {:induction false} StudyReaches(skip: nat -> nat, end: nat, k: nat, count: nat)
    requires Advancing(skip, end)
    ensures StudyEnd(skip, end, Bound(skip, end, k), count) == Bound(skip, end, k + count)
    decreases count
  {
    if count > 0 {
      if Bound(skip, end, k) < end {
        assert Bound(skip, end, k + 1) == skip(Bound(skip, end, k));
        StudyReaches(skip, end, k + 1, count - 1);
      } else {
        BoundRises(skip, end, k, k + count);
      }
    }
  }

  lemma BoundZero(skip: nat -> nat, end: nat)
    ensures Bound(skip, end, 0) == HEADER
  {
  }

  ghost function BoundMemos(skip: nat -> nat, end: nat, c: Counts): Memos {
    var q, a, n := c.qd, c.qd + c.an, c.qd + c.an + c.ns;
    Memos(Memo(HEADER, Bound(skip, end, q)), Memo(Bound(skip, end, q), Bound(skip, end, a)),
          Memo(Bound(skip, end, a), Bound(skip, end, n)), Memo(Bound(skip, end, n), Bound(skip, end, n + c.ar)))
  }

  /** dns_p_study stores the boundaries at which the counts add up. */
  lemma StudyIsBounds(skip: nat -> nat, end: nat, c: Counts)
    requires Advancing(skip, end)
    ensures StudyBy(skip, end, c) == BoundMemos(skip, end, c)
  {
    hide StudyEnd, Bound;
    BoundZero(skip, end);
    StudyReaches(skip, end, 0, c.qd);
    StudyReaches(skip, end, c.qd, c.an);
    StudyReaches(skip, end, c.qd + c.an, c.ns);
    StudyReaches(skip, end, c.qd + c.an + c.ns, c.ar);
  }

  lemma {:induction false} IndexReaches(skip: nat -> nat, end: nat, k: nat, i: nat)
    requires Advancing(skip, end) && i <= k && Bound(skip, end, k) < end
    ensures IndexFrom(skip, end, Bound(skip, end, k), Bound(skip, end, i), i) == k
    decreases k - i
  {
    BoundRises(skip, end, i, k);
    if i < k {
      assert Bound(skip, end, i + 1) == skip(Bound(skip, end, i));
      IndexReaches(skip, end, k, i + 1);
    }
  }

  lemma RangeIsIndex(skip: nat -> nat, end: nat, k: nat, i: nat, j: nat)
    requires Advancing(skip, end) && i <= j && Bound(skip, end, k) < end
    ensures Within(Bound(skip, end, k), Memo(Bound(skip, end, i), Bound(skip, end, j))) <==> i <= k < j
  {
    if i <= k {
      BoundRises(skip, end, i, k);
    } else {
      BoundRises(skip, end, k, i);
    }
    if k < j {
      BoundRises(skip, end, k, j);
    } else {
      BoundRises(skip, end, j, k);
    }
  }

  lemma RangesAreIndices(skip: nat -> nat, end: nat, c: Counts, k: nat, b: nat)
    requires Advancing(skip, end) && b == Bound(skip, end, k) < end
    ensures var m, q, a, n := StudyBy(skip, end, c), c.qd, c.qd + c.an, c.qd + c.an + c.ns;
      && (Within(b, m.qd) <==> k < q) && (Within(b, m.an) <==> q <= k < a)
      && (Within(b, m.ns) <==> a <= k < n) && (Within(b, m.ar) <==> n <= k < n + c.ar)
  {
    hide StudyEnd, Bound, StudyBy;
    BoundZero(skip, end);
    StudyIsBounds(skip, end, c);
    var q, a, n := c.qd, c.qd + c.an, c.qd + c.an + c.ns;
    RangeIsIndex(skip, end, k, 0, q);
    RangeIsIndex(skip, end, k, q, a);
    RangeIsIndex(skip, end, k, a, n);
    RangeIsIndex(skip, end, k, n, n + c.ar);
  }

  /** At every boundary the memo ranges and the index-counting path name the same section. */
  lemma MemoByWalk(skip: nat -> nat, end: nat, c: Counts, k: nat, b: nat)
    requires Advancing(skip, end) && b == Bound(skip, end, k) < end
    ensures SectionBy(skip, end, c, StudyBy(skip, end, c), b) == SlowSection(skip, end, c, b) == SectionAt(c, k)
  {
    IndexReaches(skip, end, k, 0);
    RangesAreIndices(skip, end, c, k, b);
  }

  /**
   * Memo agrees with recount, on any octets, well formed or not: at the boundary of record `k` the
   * memos left by dns_p_study give the section the slow path counts out, which is where the
   * header's counts put record `k`.
   */
  lemma MemoAgreesWithRecount(data: Bytes, k: nat)
    requires Bound(Skipper(data), |data|, k) < |data|
    ensures var b := Bound(Skipper(data), |data|, k);
      && Advancing(Skipper(data), |data|)
      && RrSection(data, Study(data), b) == SlowSection(Skipper(data), |data|, CountsOf(data), b)
      && RrSection(data, Study(data), b) == SectionAt(CountsOf(data), k)
  {
    SkipperAdvances(data);
    MemoByWalk(Skipper(data), |data|, CountsOf(data), k, Bound(Skipper(data), |data|, k));
  }
}
