/** Record data as dns_any_push takes it, and the segmented form of TXT data (section 3.3.14 of RFC 1035). */
module Rdata {
  import opened Wire
  import opened Names
  import opened Records

  datatype RData =
    | Address(octets: Bytes)                       // A (4 octets) and AAAA (16 octets)
    | Host(host: Bytes)                            // NS, CNAME, PTR
    | Exchange(preference: nat, host: Bytes)       // MX
    | Authority(mname: Bytes, rname: Bytes, serial: nat, refresh: nat, retry: nat, expire: nat, minimum: nat)  // SOA
    | Txt(text: Bytes)                             // TXT, SPF
    | Opaque(octets: Bytes)                        // any type libdns does not know

  const T_A := 1
  const T_NS := 2
  const T_CNAME := 5
  const T_SOA := 6
  const T_PTR := 12
  const T_MX := 15
  const T_TXT := 16
  const T_AAAA := 28
  const T_SRV := 33
  const T_SSHFP := 44
  const T_SPF := 99

  /** The union member dns_any_push reads for a record type. */
  predicate Fitting(rtype: nat, any: RData) {
    match any
    case Address(o) => (rtype == T_A && |o| == 4) || (rtype == T_AAAA && |o| == 16)
    case Host(h) => rtype in {T_NS, T_CNAME, T_PTR} && ValidText(h)
    case Exchange(_, h) => rtype == T_MX && ValidText(h)
    case Authority(m, r, _, _, _, _, _) => rtype == T_SOA && ValidText(m) && ValidText(r)
    case Txt(_) => rtype in {T_TXT, T_SPF}
    case Opaque(_) => rtype !in {T_A, T_NS, T_CNAME, T_SOA, T_PTR, T_MX, T_TXT, T_AAAA, T_SRV, T_SSHFP, T_SPF}
  }

  /** Segments of at most 255 octets, each behind its length. */
  function TxtWire(t: Bytes): Bytes
    decreases |t|
  {
    if t == [] then []
    else var n := Min(255, |t|); [n as byte] + t[..n] + TxtWire(t[n..])
  }

  /** The length dns_txt_push announces is the length it goes on to write. */
  lemma {:induction false} TxtWireLength(t: Bytes)
    ensures |TxtWire(t)| == |t| + (|t| + 254) / 255
    decreases |t|
  {
    if t != [] {
      TxtWireLength(t[Min(255, |t|)..]);
    }
  }

  /** The loop of dns_txt_parse: `dst` is the payload so far, `cap` the room for all of it. */
  function TxtParse(data: Bytes, p: nat, end: nat, dst: Bytes, cap: nat): Option<Bytes>
    requires end <= |data|
    decreases end - p
  {
    if p >= end then Some(dst)
    else if end - (p + 1) < data[p] || cap - |dst| < data[p] then None
    else TxtParse(data, p + 1 + data[p], end, dst + data[p + 1..p + 1 + data[p]], cap)
  }

  /** Parsing returns the payload unchanged across all segment boundaries. */
  lemma {:induction false} TxtRoundTrip(data: Bytes, p: nat, t: Bytes, dst: Bytes, cap: nat)
    requires p + |TxtWire(t)| <= |data| && data[p..p + |TxtWire(t)|] == TxtWire(t) && |dst| + |t| <= cap
    ensures TxtParse(data, p, p + |TxtWire(t)|, dst, cap) == Some(dst + t)
    decreases |t|
  {
    var w := TxtWire(t);
    if t != [] {
      var n := Min(255, |t|);
      assert w == [n] + t[..n] + TxtWire(t[n..]);
      assert data[p] == data[p..p + |w|][0];
      SliceOfSlice(data, p, p + |w|, 1, 1 + n);
      SliceOfSlice(data, p, p + |w|, 1 + n, |w|);
      assert w[1..1 + n] == t[..n] && w[1 + n..] == TxtWire(t[n..]);
      TxtRoundTrip(data, p + 1 + n, t[n..], dst + t[..n], cap);
      assert dst + t[..n] + t[n..] == dst + t;
    } else {
      assert dst + t == dst;
    }
  }
}
