/** Octets and the big-endian integers every wire format of the system is built from. */
module Wire {

  datatype Option<T> = None | Some(value: T)

  type byte = b: int | 0 <= b < 0x100

  type Bytes = seq<byte>

  /** The two octets of a 16-bit integer, most significant first; wider values are truncated. */
  function Put16(n: nat): (s: Bytes)
    ensures |s| == 2
  {
    [n / 0x100 % 0x100, n % 0x100]
  }

  /** The 16-bit integer stored at offset `p`. */
  function Get16(s: Bytes, p: nat): (n: nat)
    requires p + 2 <= |s|
    ensures n < 0x1_0000
  {
    var hi: int, lo: int := s[p], s[p + 1];
    hi * 0x100 + lo
  }

  /** The four octets of a 32-bit integer, most significant first; wider values are truncated. */
  function Put32(n: nat): (s: Bytes)
    ensures |s| == 4
  {
    Put16(n / 0x1_0000) + Put16(n)
  }

  /** The 32-bit integer stored at offset `p`. */
  function Get32(s: Bytes, p: nat): (n: nat)
    requires p + 4 <= |s|
    ensures n < 0x1_0000_0000
  {
    Get16(s, p) * 0x1_0000 + Get16(s, p + 2)
  }

  /** Reading back a 16-bit integer from wherever it was written yields it modulo 2^16. */
  lemma Get16Put16(s: Bytes, p: nat, n: nat)
    requires p + 2 <= |s| && s[p..p + 2] == Put16(n)
    ensures Get16(s, p) == n % 0x1_0000
  {
    assert s[p] == s[p..p + 2][0] && s[p + 1] == s[p..p + 2][1];
  }

  /** Reading back a 32-bit integer from wherever it was written yields it modulo 2^32. */
  lemma Get32Put32(s: Bytes, p: nat, n: nat)
    requires p + 4 <= |s| && s[p..p + 4] == Put32(n)
    ensures Get32(s, p) == n % 0x1_0000_0000
  {
    assert s[p..p + 2] == s[p..p + 4][..2] == Put16(n / 0x1_0000);
    assert s[p + 2..p + 4] == s[p..p + 4][2..] == Put16(n);
    Get16Put16(s, p, n / 0x1_0000);
    Get16Put16(s, p + 2, n);
  }

  /** The number that octets spell in base 256, the first one being the most significant. */
  function Spelled(s: Bytes): nat {
    if s == [] then 0
    else
      var last: int := s[|s| - 1];
      Spelled(s[..|s| - 1]) * 0x100 + last
  }

  lemma ValueOfTwo(s: Bytes, t: Bytes)
    requires |t| == 2
    ensures Spelled(s + t) == Spelled(s) * 0x1_0000 + Get16(t, 0)
  {
    var u := s + t;
    assert u[..|u| - 1] == s + t[..1] && (s + t[..1])[..|s|] == s;
    assert Spelled(s + t[..1]) == Spelled(s) * 0x100 + Get16(t, 0) / 0x100;
  }

  lemma ValueOf16(n: nat)
    ensures Spelled(Put16(n)) == n % 0x1_0000
  {
    ValueOfTwo([], Put16(n));
    assert [] + Put16(n) == Put16(n);
    Get16Put16(Put16(n), 0, n);
  }

  /** What is written spells the number. */
  lemma PutSpells(n: nat)
    ensures Spelled(Put16(n)) == n % 0x1_0000 && Spelled(Put32(n)) == n % 0x1_0000_0000
  {
    hide Spelled, Get16, Put16;
    ValueOf16(n);
    ValueOf16(n / 0x1_0000);
    ValueOfTwo(Put16(n / 0x1_0000), Put16(n));
    Get16Put16(Put16(n), 0, n);
  }

  /** What is read is the number spelled. */
  lemma GetSpelled(s: Bytes, p: nat)
    ensures p + 2 <= |s| ==> Get16(s, p) == Spelled(s[p..p + 2])
    ensures p + 4 <= |s| ==> Get32(s, p) == Spelled(s[p..p + 4])
  {
    if p + 2 <= |s| {
      var t := s[p..p + 2];
      ValueOfTwo([], t);
      assert [] + t == t && Spelled([]) == 0;
    }
    if p + 4 <= |s| {
      var t := s[p + 2..p + 4];
      hide Spelled;
      assert s[p..p + 2] + t == s[p..p + 4];
      ValueOfTwo(s[p..p + 2], t);
    }
  }

  lemma SliceOfSlice<T>(s: seq<T>, a: nat, b: nat, i: nat, j: nat)
    requires a <= b <= |s| && i <= j <= b - a
    ensures s[a..b][i..j] == s[a + i..a + j]
  {
    var t := s[a..b];
    assert forall k :: 0 <= k < j - i ==> t[i..j][k] == t[i + k] == s[a + i + k];
  }

  /** Taking apart a run of octets: one, then `l`, then `rest`. */
  lemma Unpack(data: Bytes, base: nat, b: byte, l: Bytes, rest: Bytes)
    requires base + 1 + |l| + |rest| <= |data|
    requires data[base..base + 1 + |l| + |rest|] == [b] + l + rest
    ensures data[base] == b && data[base + 1..base + 1 + |l|] == l
    ensures data[base + 1 + |l|..base + 1 + |l| + |rest|] == rest
  {
    var t := data[base..base + 1 + |l| + |rest|];
    assert t[0] == b && t[1..1 + |l|] == l && t[1 + |l|..] == rest;
    SliceOfSlice(data, base, base + 1 + |l| + |rest|, 1, 1 + |l|);
    SliceOfSlice(data, base, base + 1 + |l| + |rest|, 1 + |l|, 1 + |l| + |rest|);
  }

  lemma ConcatParts<T>(a: seq<T>, b: seq<T>)
    ensures (a + b)[..|a|] == a && (a + b)[|a|..] == b
  {
  }

  lemma Assoc<T>(a: seq<T>, b: seq<T>, c: seq<T>)
    ensures a + b + c == a + (b + c)
  {
  }

  lemma MidSlice<T>(a: seq<T>, b: seq<T>, c: seq<T>)
    ensures (a + b + c)[|a|..|a| + |b|] == b
  {
  }

  lemma TakeDrop<T>(s: seq<T>, k: nat)
    requires k <= |s|
    ensures s == s[..k] + s[k..]
  {
  }

  /** Pieces put together. */
  function Concat(ls: seq<Bytes>): Bytes {
    if ls == [] then [] else ls[0] + Concat(ls[1..])
  }

  lemma {:induction false} ConcatSnoc(ls: seq<Bytes>, l: Bytes)
    ensures Concat(ls + [l]) == Concat(ls) + l
  {
    if ls == [] {
      assert ls + [l] == [l];
      assert Concat([l]) == l + Concat([]);
    } else {
      assert (ls + [l])[1..] == ls[1..] + [l];
      ConcatSnoc(ls[1..], l);
    }
  }

  /** A prefix of `w + rest` either falls short of `w` or covers it. */
  lemma PrefixCovers<T>(part: seq<T>, w: seq<T>, rest: seq<T>)
    requires part <= w + rest
    ensures |part| < |w| ==> part < w
    ensures |part| >= |w| ==> part == w + part[|w|..] && part[|w|..] + (w + rest)[|part|..] == rest
  {
    assert forall i :: 0 <= i < |part| ==> part[i] == (w + rest)[i];
    if |part| >= |w| {
      assert part[|w|..] == rest[..|part| - |w|];
      assert (w + rest)[|part|..] == rest[|part| - |w|..];
    }
  }
}
