/** Packets laid out record by record, and what the parsing side makes of them. */
module RecordRuns {
  import opened Wire
  import opened Records

  /** A record as it was pushed: `rdlen` octets of rdata behind the ten fixed ones, none of either in a question. */
  datatype Rec = Rec(section: Section, start: nat, dnlen: nat, rtype: nat, rclass: nat, ttl: nat, rdlen: nat)

  function Next(r: Rec): nat {
    r.start + r.dnlen + 4 + if r.section.QD? then 0 else 6 + r.rdlen
  }

  /** What dns_rr_parse should say of it. */
  function View(r: Rec): Rr {
    var p := r.start + r.dnlen;
    if r.section.QD? then Rr(r.start, r.dnlen, r.rtype, r.rclass, true, 0, 0, 0)
    else Rr(r.start, r.dnlen, r.rtype, r.rclass, false, r.ttl, p + 10, r.rdlen)
  }

  /** The octets from `p` to `q` are labels closed by a root octet or a pointer. */
  ghost predicate NameAt(data: Bytes, p: nat, q: nat)
    decreases q - p
  {
    && p < q <= |data|
    && if data[p] == 0 then q == p + 1
       else if data[p] < 0x40 then p + 1 + data[p] < q && NameAt(data, p + 1 + data[p], q)
       else data[p] >= 0xc0 && q == p + 2
  }

  ghost predicate RecAt(data: Bytes, r: Rec) {
    var p := r.start + r.dnlen;
    && Next(r) <= |data| && NameAt(data, r.start, p)
    && Get16(data, p) == r.rtype && Get16(data, p + 2) == r.rclass
    && if r.section.QD? then r.ttl == 0 && r.rdlen == 0
       else Get32(data, p + 4) == r.ttl < 0x8000_0000 && Get16(data, p + 8) == r.rdlen
  }

  function StartOf(recs: seq<Rec>, k: nat): nat
    requires k <= |recs|
  {
    if k == 0 then HEADER else Next(recs[k - 1])
  }

  ghost predicate Linked(recs: seq<Rec>, i: nat) {
    i < |recs| && recs[i].start == StartOf(recs, i)
  }

  ghost predicate Chain(data: Bytes, recs: seq<Rec>) {
    && |data| == StartOf(recs, |recs|)
    && (forall i: nat {:trigger Linked(recs, i)} :: i < |recs| ==> Linked(recs, i))
    && (forall i: nat {:trigger RecAt(data, recs[i])} :: i < |recs| ==> RecAt(data, recs[i]))
  }

  /** The counts add up to the records, and give each of them its section. */
  ghost predicate Counted(recs: seq<Rec>, c: Counts) {
    && c.qd + c.an + c.ns + c.ar == |recs|
    && forall i: nat {:trigger SectionAt(c, i)} :: i < |recs| ==> SectionAt(c, i) == Some(recs[i].section)
  }

  /** The packet holds exactly these records, and its header counts them. */
  ghost predicate Built(data: Bytes, recs: seq<Rec>) {
    Chain(data, recs) && Counted(recs, CountsOf(data))
  }

  // ---- Reading a built packet ------------------------------------------------

  lemma {:induction false} NameAtSkip(data: Bytes, p: nat, q: nat)
    requires NameAt(data, p, q)
    ensures DSkip(data, p) == q
    decreases q - p
  {
    if 0 < data[p] < 0x40 {
      NameAtSkip(data, p + 1 + data[p], q);
    }
  }

  lemma {:induction false} StartsRise(data: Bytes, recs: seq<Rec>, i: nat, j: nat)
    requires Chain(data, recs) && i <= j <= |recs|
    ensures HEADER <= StartOf(recs, i)
    ensures StartOf(recs, i) + 5 * (j - i) <= StartOf(recs, j)
    decreases j
  {
    if i < j {
      StartsRise(data, recs, i, j - 1);
      assert RecAt(data, recs[j - 1]) && Linked(recs, j - 1);
    } else if i > 0 {
      StartsRise(data, recs, i - 1, i - 1);
      assert Linked(recs, i - 1);
    }
  }

  /** dns_p_qend stops exactly behind the last question. */
  lemma {:induction false} QEndOf(data: Bytes, recs: seq<Rec>, c: Counts, i: nat)
    requires Chain(data, recs) && Counted(recs, c) && i <= c.qd
    ensures QEndFrom(data, c.qd - i, StartOf(recs, i)) == StartOf(recs, c.qd)
    decreases c.qd - i
  {
    StartsRise(data, recs, i, |recs|);
    if i < c.qd {
      StartsRise(data, recs, i, i + 1);
      assert SectionAt(c, i) == Some(recs[i].section);
      assert RecAt(data, recs[i]) && Linked(recs, i);
      NameAtSkip(data, recs[i].start, recs[i].start + recs[i].dnlen);
      QEndOf(data, recs, c, i + 1);
    }
  }

  lemma QuestionSide(data: Bytes, recs: seq<Rec>, c: Counts, i: nat)
    requires Chain(data, recs) && Counted(recs, c) && c.qd == Count(data, QD) && i < |recs|
    ensures recs[i].section.QD? ==> Next(recs[i]) <= QEnd(data)
    ensures !recs[i].section.QD? ==> QEnd(data) <= recs[i].start
    ensures HEADER <= recs[i].start < |data|
  {
    QEndOf(data, recs, c, 0);
    assert SectionAt(c, i) == Some(recs[i].section) && Linked(recs, i);
    if i < c.qd {
      StartsRise(data, recs, i + 1, c.qd);
    } else {
      StartsRise(data, recs, c.qd, i);
    }
    StartsRise(data, recs, 0, i);
    StartsRise(data, recs, i, |recs|);
  }

  lemma ReadRecord(data: Bytes, recs: seq<Rec>, i: nat)
    requires Built(data, recs) && i < |recs|
    ensures HEADER <= recs[i].start < |data|
    ensures RrParse(data, recs[i].start) == Some(View(recs[i]))
    ensures RrSkip(data, recs[i].start) == Next(recs[i])
  {
    QuestionSide(data, recs, CountsOf(data), i);
    var r := recs[i];
    assert RecAt(data, r);
    NameAtSkip(data, r.start, r.start + r.dnlen);
  }

  /** A walk that steps from each record to the next. */
  ghost predicate Along(skip: nat -> nat, end: nat, recs: seq<Rec>) {
    && Advancing(skip, end) && StartOf(recs, |recs|) == end
    && forall k: nat {:trigger Steps(skip, end, recs, k)} :: k < |recs| ==> Steps(skip, end, recs, k)
  }

  ghost predicate Steps(skip: nat -> nat, end: nat, recs: seq<Rec>, k: nat)
    requires k < |recs|
  {
    StartOf(recs, k) < end && skip(StartOf(recs, k)) == StartOf(recs, k + 1)
  }

  lemma SkipperAlong(data: Bytes, recs: seq<Rec>)
    requires Built(data, recs)
    ensures Along(Skipper(data), |data|, recs)
  {
    SkipperAdvances(data);
    forall k: nat | k < |recs|
      ensures Steps(Skipper(data), |data|, recs, k)
    {
      ReadRecord(data, recs, k);
      assert Linked(recs, k);
    }
  }

  lemma {:induction false} BoundsAlong(skip: nat -> nat, end: nat, recs: seq<Rec>, k: nat)
    requires Along(skip, end, recs) && k <= |recs|
    ensures Bound(skip, end, k) == StartOf(recs, k)
  {
    if k > 0 {
      BoundsAlong(skip, end, recs, k - 1);
      assert Steps(skip, end, recs, k - 1);
    }
  }

  /** Everything the parsing side reports, record after record, from offset `rp` on. */
  function Listing(data: Bytes, m: Memos, rp: nat): seq<(Option<Rr>, Option<Section>)>
    decreases |data| - rp
  {
    if rp >= |data| then []
    else [(RrParse(data, rp), RrSection(data, m, rp))] + Listing(data, m, RrSkip(data, rp))
  }

  function Views(recs: seq<Rec>): seq<(Option<Rr>, Option<Section>)> {
    seq(|recs|, i requires 0 <= i < |recs| => (Some(View(recs[i])), Some(recs[i].section)))
  }

  lemma SectionRecord(data: Bytes, recs: seq<Rec>, i: nat)
    requires Built(data, recs) && i < |recs|
    ensures RrSection(data, Study(data), recs[i].start) == Some(recs[i].section)
  {
    ReadRecord(data, recs, i);
    SkipperAlong(data, recs);
    BoundsAlong(Skipper(data), |data|, recs, i);
    assert Linked(recs, i);
    MemoAgreesWithRecount(data, i);
    assert SectionAt(CountsOf(data), i) == Some(recs[i].section);
  }

  lemma {:induction false} ListingFrom(data: Bytes, recs: seq<Rec>, m: Memos, k: nat)
    requires Built(data, recs) && m == Study(data) && k <= |recs|
    ensures Listing(data, m, StartOf(recs, k)) == Views(recs)[k..]
    decreases |recs| - k
  {
    if k < |recs| {
      ReadRecord(data, recs, k);
      SectionRecord(data, recs, k);
      assert Linked(recs, k);
      ListingFrom(data, recs, m, k + 1);
      assert Views(recs)[k..] == [Views(recs)[k]] + Views(recs)[k + 1..];
    }
  }

  /** Skipping and parsing walk a built packet back to exactly its records, in order. */
  lemma WalksBack(data: Bytes, recs: seq<Rec>)
    requires Built(data, recs)
    ensures Listing(data, Study(data), HEADER) == Views(recs)
  {
    ListingFrom(data, recs, Study(data), 0);
  }

  function SectionMemos(q: nat, a: nat, n: nat, end: nat): Memos {
    Memos(Memo(HEADER, q), Memo(q, a), Memo(a, n), Memo(n, end))
  }

  lemma StudyAlong(skip: nat -> nat, end: nat, recs: seq<Rec>, c: Counts)
    requires Along(skip, end, recs) && c.qd + c.an + c.ns + c.ar == |recs|
    ensures StudyBy(skip, end, c)
      == SectionMemos(StartOf(recs, c.qd), StartOf(recs, c.qd + c.an), StartOf(recs, c.qd + c.an + c.ns), end)
  {
    hide StudyBy, Bound;
    StudyIsBounds(skip, end, c);
    BoundsAlong(skip, end, recs, c.qd);
    BoundsAlong(skip, end, recs, c.qd + c.an);
    BoundsAlong(skip, end, recs, c.qd + c.an + c.ns);
    BoundsAlong(skip, end, recs, |recs|);
  }

  /** dns_p_study on a built packet: the sections' first and last octets. */
  lemma StudyOfBuilt(data: Bytes, recs: seq<Rec>, c: Counts)
    requires Built(data, recs) && c == CountsOf(data)
    ensures Study(data)
      == SectionMemos(StartOf(recs, c.qd), StartOf(recs, c.qd + c.an), StartOf(recs, c.qd + c.an + c.ns), |data|)
  {
    SkipperAlong(data, recs);
    StudyAlong(Skipper(data), |data|, recs, c);
  }

  // ---- Adding a record ---------------------------------------------------------

  /** The same octets behind the header, possibly with more behind them. */
  ghost predicate SameRecords(data: Bytes, data': Bytes) {
    HEADER <= |data| <= |data'| && data[HEADER..] == data'[HEADER..|data|]
  }

  lemma {:induction false} NameAtSame(data: Bytes, data': Bytes, p: nat, q: nat)
    requires SameRecords(data, data') && HEADER <= p && NameAt(data, p, q)
    ensures NameAt(data', p, q)
    decreases q - p
  {
    assert data'[p] == data'[HEADER..|data|][p - HEADER] == data[p];
    if 0 < data[p] < 0x40 {
      NameAtSame(data, data', p + 1 + data[p], q);
    }
  }

  lemma RecAtSame(data: Bytes, data': Bytes, r: Rec)
    requires SameRecords(data, data') && HEADER <= r.start && RecAt(data, r)
    ensures RecAt(data', r)
  {
    NameAtSame(data, data', r.start, r.start + r.dnlen);
    assert forall i :: HEADER <= i < |data| ==> data'[i] == data'[HEADER..|data|][i - HEADER] == data[i];
  }

  function Plus(c: Counts, s: Section): Counts {
    match s
    case QD => c.(qd := c.qd + 1)
    case AN => c.(an := c.an + 1)
    case NS => c.(ns := c.ns + 1)
    case AR => c.(ar := c.ar + 1)
  }

  /** dns_p_push's check for DNS_EORDER: no later section may have records yet. */
  predicate InOrder(c: Counts, s: Section) {
    match s
    case QD => c.an + c.ns + c.ar == 0
    case AN => c.ns + c.ar == 0
    case NS => c.ar == 0
    case AR => true
  }

  lemma BuiltAppend(data: Bytes, data': Bytes, recs: seq<Rec>, r: Rec)
    requires Built(data, recs) && SameRecords(data, data')
    requires r.start == |data| && Next(r) == |data'| && RecAt(data', r)
    requires InOrder(CountsOf(data), r.section) && CountsOf(data') == Plus(CountsOf(data), r.section)
    ensures Built(data', recs + [r])
  {
    var recs' := recs + [r];
    assert StartOf(recs', |recs'|) == |data'|;
    forall i: nat | i < |recs'|
      ensures Linked(recs', i) && RecAt(data', recs'[i])
    {
      if i < |recs| {
        assert Linked(recs, i) && RecAt(data, recs[i]);
        StartsRise(data, recs, i, i);
        RecAtSame(data, data', recs[i]);
        assert StartOf(recs', i) == StartOf(recs, i);
      } else {
        assert StartOf(recs', i) == StartOf(recs, |recs|);
      }
    }
    CountedAppend(recs, r, CountsOf(data));
  }

  lemma CountedAppend(recs: seq<Rec>, r: Rec, c: Counts)
    requires Counted(recs, c) && InOrder(c, r.section)
    ensures Counted(recs + [r], Plus(c, r.section))
  {
    var c' := Plus(c, r.section);
    forall i: nat | i < |recs + [r]|
      ensures SectionAt(c', i) == Some((recs + [r])[i].section)
    {
      if i < |recs| {
        assert SectionAt(c, i) == Some(recs[i].section);
      }
    }
  }

  /** The memos dns_p_push writes down after adding a record, `end` being the new end of the packet. */
  function PushMemos(m: Memos, s: Section, end: nat): Memos {
    match s
    case QD => Memos(Memo(m.qd.base, end), Memo(end, end), Memo(end, end), Memo(end, end))
    case AN => Memos(m.qd, Memo(m.an.base, end), Memo(end, end), Memo(end, end))
    case NS => Memos(m.qd, m.an, Memo(m.ns.base, end), Memo(end, end))
    case AR => Memos(m.qd, m.an, m.ns, Memo(m.ar.base, end))
  }

  /** They are the ones dns_p_study would compute. */
  lemma PushMemosStudied(data: Bytes, data': Bytes, recs: seq<Rec>, r: Rec)
    requires Built(data, recs) && Built(data', recs + [r])
    requires InOrder(CountsOf(data), r.section) && CountsOf(data') == Plus(CountsOf(data), r.section)
    requires |data'| == Next(r)
    ensures PushMemos(Study(data), r.section, |data'|) == Study(data')
  {
    StudyOfBuilt(data, recs, CountsOf(data));
    StudyOfBuilt(data', recs + [r], CountsOf(data'));
    var recs' := recs + [r];
    assert forall k: nat :: k <= |recs| ==> StartOf(recs', k) == StartOf(recs, k);
    assert StartOf(recs', |recs'|) == |data'|;
  }
}
