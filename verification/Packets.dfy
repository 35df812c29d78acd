/** The packet buffer of libdns: `data[..end]` is in use, `dict` lists earlier names, the memos mark the sections. */
module Packets {
  import opened Wire
  import opened Names
  import opened Compression
  import opened NameNet
  import opened NameRuns
  import opened FailedPushes
  import opened Records
  import opened RecordRuns
  import opened Rdata

  datatype Error = Ok | NoBufs | BadOrder | BadSection

  const UNSTUDIED := Memos(Memo(0, 0), Memo(0, 0), Memo(0, 0), Memo(0, 0))

  lemma {:induction false} EncSplit(ls: seq<Label>, m: nat)
    requires m <= |ls|
    ensures EncLabels(ls) == EncLabels(ls[..m]) + EncLabels(ls[m..])
    ensures m < |ls| ==> EncLabels(ls[m..]) == [|ls[m]| % 0x40] + ls[m] + EncLabels(ls[m + 1..])
  {
    if m > 0 {
      EncSplit(ls[1..], m - 1);
      assert ls[1..][..m - 1] == ls[..m][1..] && ls[1..][m - 1..] == ls[m..];
      if m < |ls| {
        assert ls[m..][1..] == ls[m + 1..];
      }
    } else {
      assert ls[..0] == [] && ls[0..] == ls;
    }
  }

  /** Offset of label `k` in the encoding of `ls`. */
  ghost function Off(ls: seq<Label>, k: nat): nat
    requires k <= |ls|
  {
    |EncLabels(ls[..k])|
  }

  lemma OffNext(ls: seq<Label>, k: nat)
    requires ValidName(ls) && k < |ls|
    ensures Off(ls, k + 1) == Off(ls, k) + 1 + |ls[k]|
  {
    EncSnoc(ls[..k], ls[k]);
    assert ls[..k + 1] == ls[..k] + [ls[k]];
  }

  lemma EncAt(ls: seq<Label>, k: nat)
    requires ValidName(ls) && k <= |ls|
    ensures var o, enc := Off(ls, k), Encode(ls);
      if k < |ls| then
        o + 2 + |ls[k]| <= |enc| && enc[o] == |ls[k]| && enc[o + 1..o + 1 + |ls[k]|] == ls[k]
      else
        o + 1 == |enc| && enc[o] == 0
  {
    EncSplit(ls, k);
    var o, enc := Off(ls, k), Encode(ls);
    if k < |ls| {
      var l, after := ls[k], EncLabels(ls[k + 1..]);
      assert enc == EncLabels(ls[..k]) + [|l|] + l + after + [0];
    } else {
      assert ls[..k] == ls;
    }
  }

  /** Reading label `k` back from the octets just written. */
  lemma DstLabel(dst: Bytes, ls: seq<Label>, k: nat)
    requires ValidName(ls) && k <= |ls| && |Encode(ls)| <= |dst| && dst[..|Encode(ls)|] == Encode(ls)
    ensures LExpand(dst, Off(ls, k), 0) == if k < |ls| then Go(ls[k], Off(ls, k + 1)) else Stop
    ensures k < |ls| ==> Off(ls, k) + 3 <= |Encode(ls)|
  {
    var o, enc := Off(ls, k), Encode(ls);
    EncAt(ls, k);
    assert dst[o] == dst[..|enc|][o];
    if k < |ls| {
      OffNext(ls, k);
      SliceOfSlice(dst, 0, |enc|, o + 1, o + 1 + |ls[k]|);
    }
  }

  class Packet {
    const data: array<byte>
    var end: nat
    var dict: seq<nat>
    var memos: Memos
    ghost var net: Net
    ghost var recs: seq<Rec>

    /** The names written so far, and a bound on how deep pointers nest in them. */
    ghost var names: set<seq<Label>>
    ghost var level: nat

    /** The octets in use. */
    ghost function Used(): Bytes
      requires end <= data.Length
      reads this, data
    {
      data[..end]
    }

    ghost predicate Sized()
      reads this
    {
      HEADER <= end <= data.Length <= MAX_PACKET
    }

    /** The dictionary points at names, or at the end of the packet. */
    ghost predicate NamesReady()
      reads this, data
    {
      Sized() && Base(Used(), dict, net) && forall p :: p in net ==> p >= HEADER
    }

    /** It points at names only. */
    ghost predicate NamesOk()
      reads this, data
    {
      NamesReady() && Settled(dict, net)
    }

    /** Every name is readable, and reads as it was pushed. */
    ghost predicate Clean()
      reads this, data
    {
      end <= data.Length && Fair(Used(), dict, net, level) && Named(dict, net, names)
    }

    /** How many pushes must have failed for the bound to be where it is. */
    ghost function Owed(): int
      reads this
    {
      level - |dict| + if end in dict then 1 else 0
    }

    ghost function Here(): Pkt
      requires end <= data.Length
      reads this, data
    {
      Pkt(Used(), dict)
    }

    // ---- dns_d_comp ----------------------------------------------------------

    /** The loop of dns_d_comp over the text: whole labels get their length, the last one is still open. */
    method EncodeLoop(dn: Bytes) returns (dp: nat, dx: nat, sp: nat, ghost done: seq<Label>, ghost out: Bytes)
      requires end <= data.Length
      modifies data
      ensures Used() == old(Used()) && sp <= |dn|
      ensures dp < dx == |out| && Pending(dn, sp, |dn|, done, out, dp)
      ensures forall i :: 0 <= i < dx && end + i < data.Length && i != dp ==> data[end + i] == out[i]
    {
      hide Pending;
      var lim, sx := data.Length - end, 0;
      dp, dx, sp, done, out := 0, 1, 0, [], [0];
      PendingStart(dn);
      while sx < |dn|
        invariant sp <= sx <= |dn| && dx == |out| && dp < dx
        invariant data[..end] == old(data[..end])
        invariant Pending(dn, sp, sx, done, out, dp)
        invariant forall i :: 0 <= i < dx && i < lim && i != dp ==> data[end + i] == out[i]
      {
        if dn[sx] == DOT {
          PendingDot(dn, sp, sx, done, out, dp);
          if dp < lim {
            data[end + dp] := (sx - sp) % 0x40;
          }
          done, out := done + [dn[sp..sx]], out[dp := (sx - sp) % 0x40] + [0];
          dp := dx;
          dx := dx + 1;
          sx := sx + 1;
          sp := sx;
        } else {
          PendingOctet(dn, sp, sx, done, out, dp);
          if dx < lim {
            data[end + dx] := dn[sx];
          }
          out := out + [dn[sx]];
          dx := dx + 1;
          sx := sx + 1;
        }
      }
    }

    /** First half of dns_d_comp: write the labels behind the packet's end, without compression. */
    method EncodeText(dn: Bytes) returns (len: nat)
      requires end <= data.Length && ValidText(dn)
      modifies data
      ensures Used() == old(Used())
      ensures len == |Encode(Labels(dn))|
      ensures len <= data.Length - end ==> data[end..end + len] == Encode(Labels(dn))
    {
      hide Pending, Labels, Encode, ValidText;
      var lim := data.Length - end;
      var dp, dx, sp, done, out := EncodeLoop(dn);
      PendingEnd(dn, sp, done, out, dp);
      if |dn| > sp {
        if dp < lim {
          data[end + dp] := (|dn| - sp) % 0x40;
        }
        out := out[dp := (|dn| - sp) % 0x40];
        dp := dx;
      }
      if dp > 1 {
        if dp < lim {
          data[end + dp] := 0;
        }
        out := out[..dp] + [0];
        dp := dp + 1;
      }
      len := dp;
      if len <= lim {
        assert forall i :: 0 <= i < len ==> data[end + i] == out[i];
        assert data[end..end + len] == out[..len];
      }
    }

    /** The innermost loop: compare the labels from `ax` on with those from the label `b` on. */
    method MatchLabels(cur: Cursor, ax: nat, b: Step, ghost ls: seq<Label>, ghost k: nat, ghost w: seq<At>)
      returns (cur': Cursor, ended: bool)
      requires end <= data.Length && NetOk(Used(), net)
      requires ValidName(ls) && k < |ls| && |Encode(ls)| <= data.Length - end
        && data[end..][..|Encode(ls)|] == Encode(ls)
      requires ax == Off(ls, k + 1) && b.Go? && w != [] && b.lab == w[0].lab && b.next in net
        && net[b.next].walk == w[1..]
      ensures MatchResult(ls[k + 1..], w, cur, cur', ended)
    {
      hide Matched, MatchResult, NetOk, LExpand, Encode;
      var a, bc, aq, bq := cur, Have(b.lab), ax, b.next;
      ghost var t := 0;
      assert Matched(ls, k, w, net, cur, t, a, bc, aq, bq) by {
        MatchedStart(ls, k, w, net, cur, b);
      }
      while a.Have? && bc.Have? && Fold(a.lab) == Fold(bc.lab)
        invariant t <= |w| && Matched(ls, k, w, net, cur, t, a, bc, aq, bq)
        decreases |w| - t
      {
        MatchedNext(ls, k, w, net, cur, t, a, bc, aq, bq, Used(), data[end..]);
        MatchedBound(ls, k, w, net, cur, t, a, bc, aq, bq);
        var sa, sb := LExpand(data[end..], aq, 0), LExpand(data[..end], bq, 0);
        var (a', aq') := Advance(sa, aq);
        var (b', bq') := Advance(sb, bq);
        a, aq, bc, bq := a', aq', b', bq';
        t := t + 1;
      }
      MatchedDone(ls, k, w, net, cur, t, a, bc, aq, bq);
      cur', ended := a, bc.Ended?;
    }

    /** The middle loop: slide along the name at `start`, looking for the labels from `ax` on. */
    method ScanName(start: nat, cur: Cursor, ax: nat, ghost ls: seq<Label>, ghost k: nat)
      returns (hit: bool, bp: nat, cur': Cursor)
      requires end <= data.Length && NetOk(Used(), net) && (start in net || start == end)
      requires ValidName(ls) && k < |ls| && |Encode(ls)| <= data.Length - end
        && data[end..][..|Encode(ls)|] == Encode(ls)
      requires ax == Off(ls, k + 1)
      ensures match ScanEntry(cur, ls[k + 1..], WalkAt(net, start))
        case Hit(_, tail) => hit && tail != [] && bp == tail[0].pos
        case Miss(c) => !hit && cur' == c
    {
      hide NetOk, LExpand, Encode;
      ghost var rest := ls[k + 1..];
      bp, cur' := start, cur;
      NodesInside(Used(), net);
      var b := LExpand(data[..end], bp, 0);
      FirstLabel(Used(), net, bp);
      while b.Go?
        invariant b == LExpand(Used(), bp, 0)
        invariant ScanEntry(cur, rest, WalkAt(net, start)) == ScanEntry(cur', rest, WalkAt(net, bp))
        invariant b.Stop? ==> WalkAt(net, bp) == []
        invariant b.Go? ==>
          bp in net && net[bp].walk != [] && net[bp].walk[0] == At(bp, b.lab) && b.next in net
          && net[bp].walk[1..] == net[b.next].walk
        decreases |WalkAt(net, bp)|
      {
        ghost var was := cur';
        var ended: bool;
        cur', ended := MatchLabels(cur', ax, b, ls, k, net[bp].walk);
        if cur'.Ended? && ended && bp <= MAX_TARGET {
          return true, bp, cur';
        }
        bp := b.next;
        FirstLabel(Used(), net, bp);
        b := LExpand(data[..end], bp, 0);
      }
      hit := false;
    }

    /** Second half of dns_d_comp: try every suffix of the name just written against every entry. */
    method FindSuffix(ghost ls: seq<Label>) returns (hit: bool, ap: nat, bp: nat)
      requires end <= data.Length && Base(Used(), dict, net) && ValidName(ls)
      requires |Encode(ls)| <= data.Length - end && data[end..][..|Encode(ls)|] == Encode(ls)
      ensures var f := Search(ls, 0, Entries(Used(), dict));
        if f.NotFound? then !hit else hit && f.k < |ls| && ap == Off(ls, f.k) && f.tail != [] && bp == f.tail[0].pos
    {
      hide NetOk, LExpand, Encode, Entries, ScanEntry, Off;
      EntriesAreWalks(Used(), dict, net);
      ghost var entries := Entries(Used(), dict);
      assert |entries| == |dict|;
      ghost var k := 0;
      hit, ap, bp := false, 0, 0;
      OffZero(ls);
      DstLabel(data[end..], ls, 0);
      var a := LExpand(data[end..], ap, 0);
      while a.Go?
        invariant k <= |ls| && ap == Off(ls, k)
        invariant a == if k < |ls| then Go(ls[k], Off(ls, k + 1)) else Stop
        invariant Search(ls, 0, entries) == Search(ls, k, entries)
        decreases |ls| - k
      {
        var cur, i := Have(a.lab), 0;
        while i < |dict|
          invariant i <= |dict|
          invariant ScanDict(Have(ls[k]), ls[k + 1..], entries) == ScanDict(cur, ls[k + 1..], entries[i..])
        {
          assert entries[i..][0] == WalkAt(net, dict[i]) && entries[i..][1..] == entries[i + 1..];
          hit, bp, cur := ScanName(dict[i], cur, a.next, ls, k);
          if hit {
            return;
          }
          i := i + 1;
        }
        ap, k := a.next, k + 1;
        DstLabel(data[end..], ls, k);
        a := LExpand(data[end..], ap, 0);
      }
    }

    /** Overwrite what stands `ap` octets behind the end with a pointer to `bp`. */
    method PutPointer(ap: nat, bp: nat) returns (len: nat)
      requires end + ap + 2 <= data.Length
      modifies data
      ensures Used() == old(Used()) && len == ap + 2
      ensures data[end..end + len] == old(data[end..][..ap]) + PutPtr(bp)
    {
      ghost var pre := data[end..][..ap];
      assert forall i :: 0 <= i < ap ==> pre[i] == data[end + i];
      data[end + ap] := 0xc0 + bp / 0x100 % 0x40;
      data[end + ap + 1] := bp % 0x100;
      len := ap + 2;
      assert forall i :: 0 <= i < ap ==> data[end..end + len][i] == pre[i];
      assert data[end..end + len] == pre + PutPtr(bp);
    }

    /** dns_d_comp, writing behind the packet's end; more than the free room means it did not fit. */
    method DComp(dn: Bytes) returns (len: nat)
      requires end <= data.Length && Base(Used(), dict, net) && ValidText(dn)
      modifies data
      ensures Used() == old(Used())
      ensures len == |CompWire(Used(), dict, Labels(dn), data.Length - end)|
      ensures len <= data.Length - end ==> data[end..end + len] == CompWire(Used(), dict, Labels(dn), data.Length - end)
    {
      hide NetOk, LExpand, Entries, Search, Off, Labels, ValidText, Encode, EncLabels;
      ghost var ls := Labels(dn);
      var lim := data.Length - end;
      len := EncodeText(dn);
      if len < lim {
        assert data[end..][..len] == data[end..end + len];
        var hit, ap, bp := FindSuffix(ls);
        ghost var f := Search(ls, 0, Entries(Used(), dict));
        if hit {
          PrefixWritten(data[end..], ls, f.k);
          len := PutPointer(ap, bp);
        }
      }
    }

    /** dns_p_dictadd. */
    method DictAdd(dn: nat)
      requires end <= data.Length
      modifies this`dict
      ensures dict == DictScan(Used(), old(dict), dn, dn)
    {
      hide DictScan, LSkip;
      var lp := dn;
      while lp < end
        invariant dict == old(dict) && DictScan(Used(), dict, dn, dn) == DictScan(Used(), dict, dn, lp)
        decreases end - lp
      {
        DictScanUnfold(Used(), dict, dn, lp);
        if data[lp] >= 0xc0 && end - lp >= 2 && lp != dn {
          var lptr := GetPtr(data[..end], lp);
          var i := 0;
          while i < |dict|
            invariant i <= |dict| && dict == old(dict) && lptr !in dict[..i]
          {
            if dict[i] == lptr {
              ReplaceFirst(dict, lptr, dn, i);
              dict := dict[i := dn];
              return;
            }
            i := i + 1;
          }
          assert dict[..i] == dict;
        }
        lp := LSkip(data[..end], lp);
      }
      DictScanUnfold(Used(), dict, dn, lp);
      if |dict| < DICT_SIZE {
        dict := dict + [dn];
      }
    }

    /**
     * dns_d_push. Entries that pointed at the end now point at the new name. In a clean packet a name that is
     * not exposed to an earlier one reads back, and the packet stays clean.
     */
    method DPush(dn: Bytes) returns (error: Error)
      requires NamesReady() && ValidText(dn)
      modifies this`end, this`dict, this`net, this`names, this`level, data
      ensures Sized() && old(end) <= end && data[..old(end)] == old(Used())
      ensures Here() == NameRuns.DPush(old(Here()), data.Length, Labels(dn))
      ensures error == Ok || error == NoBufs
      ensures error == NoBufs ==>
        end == old(end) && dict == old(dict) && net == old(net) && names == old(names) && level == old(level)
      ensures error == Ok ==>
        NamesOk() && Extends(old(net), net) && NewNodes(old(net), net, old(end)) && old(end) in net
      ensures error == Ok ==> old(end) < end <= old(end) + NameSize(dn) && NameAt(Used(), old(end), end)
      ensures old(end) + NameSize(dn) <= data.Length ==> error == Ok
      ensures error == Ok ==> names == old(names) + {FoldAll(Labels(dn))} && Owed() <= old(Owed())
      ensures error == Ok && old(Clean()) && old(Owed()) <= MARGIN && Unexposed(old(names), Labels(dn)) ==>
        Clean() && Reads(net, old(end), dn)
    {
      hide NetOk, LExpand, Entries, Search, Off, Labels, ValidText, Encode, EncLabels, DictScan, CompWire,
        Grown, Attempt, Base, Fair, NameAt, Fits, Named, Unexposed, Settled, Extends;
      ghost var ls, before, was := Labels(dn), data[..end], net;
      var lim := data.Length - end;
      BaseNet(before, dict, net);
      PushSummary(before, dict, net, level, names, ls, lim);
      CompShort(before, dict, net, ls, lim);
      EncodeSize(dn);
      var dp := end;
      var len := DComp(dn);
      if len > lim {
        return NoBufs;
      }
      assert data[..end + len] == before + data[end..end + len];
      end := end + len;
      DictAdd(dp);
      net := Grown(before, was, ls, Attempt(before, old(dict), ls, lim));
      level := Level(level, old(dict), dict, dp);
      names := names + {FoldAll(ls)};
      DictScanSize(data[..end], old(dict), dp, dp);
      BaseNet(data[..end], dict, net);
      SettledInside(data[..end], dict, net);
      error := Ok;
    }

    // ---- dns_d_expand ----------------------------------------------------------

    /** dns_d_expand, for an offset from which its loop ends: after fewer than `fuel` rounds. */
    method DExpand(src: nat, ghost fuel: nat) returns (r: Expansion)
      requires end <= data.Length && Expand(Used(), src, [], 0, fuel) != Running
      ensures r == Expand(Used(), src, [], 0, fuel)
    {
      var p: nat, dst: Bytes, nptrs: nat := src, [], 0;
      ghost var left: nat := fuel;
      while p < end
        invariant Expand(Used(), src, [], 0, fuel) == Expand(Used(), p, dst, nptrs, left)
        decreases left
      {
        if data[p] == 0 {
          return Expanded(if dst == [] then [DOT] else dst);
        } else if data[p] < 0x40 {
          if end - (p + 1) < data[p] {
            return Illegal;
          }
          var len := data[p];
          var lab := data[p + 1..p + 1 + len];
          assert forall k :: 0 <= k < len ==> lab[k] == Used()[p + 1 + k];
          assert lab == Used()[p + 1..p + 1 + len];
          dst := dst + lab + [DOT];
          p, nptrs := p + 1 + len, 0;
        } else {
          if data[p] < 0xc0 || nptrs + 1 > MAX_PTRS || end - p < 2 {
            return Illegal;
          }
          p, nptrs := GetPtr(data[..end], p), nptrs + 1;
        }
        left := left - 1;
      }
      r := Illegal;
    }

    // ---- Appending and patching octets -------------------------------------------

    /** A run of `P->data[P->end++] = ...`. */
    method Append(s: Bytes)
      requires Sized() && end + |s| <= data.Length
      modifies this`end, data
      ensures Sized() && end == old(end) + |s| && Used() == old(Used()) + s
      ensures old(NamesOk()) ==> NamesOk() && Owed() == old(Owed()) && (old(Clean()) ==> Clean())
    {
      hide NetOk, Base, Fair, Named, Settled;
      ghost var before := data[..end];
      for i := 0 to |s|
        invariant end == old(end) + i && data[..end] == before + s[..i]
      {
        data[end] := s[i];
        end := end + 1;
        assert s[..i + 1] == s[..i] + [s[i]];
      }
      assert s[..|s|] == s;
      AppendNames(before, s, dict, net, level);
    }

    /** Leave two octets free for a length that is only known later. */
    method Reserve()
      requires Sized() && end + 2 <= data.Length
      modifies this`end
      ensures Sized() && end == old(end) + 2 && data[..old(end)] == old(Used())
      ensures old(NamesOk()) ==> NamesOk() && Owed() == old(Owed()) && (old(Clean()) ==> Clean())
    {
      hide NetOk, Base, Fair, Named, Settled;
      ghost var before := data[..end];
      end := end + 2;
      assert data[..end] == before + data[end - 2..end];
      AppendNames(before, data[end - 2..end], dict, net, level);
    }

    /** Fill in the length reserved at `at`; all names pushed since then stand behind it. */
    method PatchLength(at: nat, ghost was: Net, ghost pre: Bytes)
      requires NamesOk() && at + 2 <= end && end - at - 2 < 0x1_0000
      requires pre == data[..at] && NetOk(pre, was) && Extends(was, net) && NewNodes(was, net, at + 2)
      modifies data
      ensures NamesOk() && data[..at] == pre && (old(Clean()) ==> Clean())
      ensures forall i :: at + 2 <= i < end ==> data[i] == old(data[i])
      ensures Get16(Used(), at) == end - at - 2
    {
      hide NetOk, Base, Fair, Named, Settled;
      ghost var before := data[..end];
      var len := end - at - 2;
      data[at] := len / 0x100 % 0x100;
      data[at + 1] := len % 0x100;
      BaseNet(before, dict, net);
      NetPatch(pre, before, data[..end], was, net);
      SameNames(before, data[..end], dict, net, level);
      assert data[..end][at] == data[at] && data[..end][at + 1] == data[at + 1];
    }

    // ---- Record data -------------------------------------------------------------

    /** dns_a_push, dns_aaaa_push and the fallback of dns_any_push. */
    method OctetsPush(o: Bytes) returns (error: Error)
      requires NamesOk()
      modifies this`end, data
      ensures Pushed(old(end), old(Used()), old(net), error) && Owed() == old(Owed())
      ensures error == Ok <==> old(end) + 2 + |o| <= data.Length
      ensures error == Ok ==> NamesOk() && Used()[old(end) + 2..] == o && (old(Clean()) ==> Clean())
    {
      hide NetOk, Base, Fair, Named, Settled;
      if data.Length - end < |o| + 2 {
        return NoBufs;
      }
      Append(Put16(|o|));
      Append(o);
      Get16Put16(Used(), old(end), |o|);
      error := Ok;
    }

    /** The close of dns_ns_push and dns_mx_push: a name, then the length reserved at `start`, or back to `start`. */
    method NameThenLength(start: nat, host: Bytes, ghost before: Bytes) returns (error: Error)
      requires NamesOk() && ValidText(host) && HEADER <= start && start + 2 <= end
      requires before == data[..start] && NetOk(before, net)
      modifies this`end, this`dict, this`net, this`names, this`level, data
      ensures Pushed(start, before, old(net), error)
      ensures dict == NameRuns.DPush(old(Here()), data.Length, Labels(host)).dict
      ensures error == Ok ==> old(end) < end <= old(end) + NameSize(host) && NameAt(Used(), old(end), end)
      ensures old(end) + NameSize(host) <= data.Length ==> error == Ok
      ensures error == Ok ==> Owed() <= old(Owed())
      ensures error == Ok ==> names == old(names) + {FoldAll(Labels(host))}
      ensures error != Ok ==> dict == old(dict) && names == old(names) && level == old(level)
      ensures error == Ok ==> forall i :: start + 2 <= i < old(end) ==> data[i] == old(data[i])
      ensures error == Ok && old(Clean()) && old(Owed()) <= MARGIN && Unexposed(old(names), Labels(host)) ==>
        Clean() && Reads(net, old(end), host)
    {
      hide NetOk, Base, Fair, Named, Settled, Labels, ValidText, NameAt, Unexposed, NameRuns.DPush;
      ghost var mid := data[..end];
      error := DPush(host);
      assert data[..start] == mid[..start];
      if error != Ok {
        end := start;
        return;
      }
      ghost var full := data[..end];
      assert forall i :: start + 2 <= i < |mid| ==> data[i] == mid[i];
      PatchLength(start, old(net), before);
      NameAtFrom(full, data[..end], |mid|, end);
    }

    /** dns_ns_push, also used for CNAME and PTR. */
    method HostPush(host: Bytes) returns (error: Error)
      requires NamesOk() && ValidText(host)
      modifies this`end, this`dict, this`net, this`names, this`level, data
      ensures Pushed(old(end), old(Used()), old(net), error)
      ensures dict == Tries(old(Here()), data.Length, [Piece(2, Labels(host))]).dict
      ensures error == Ok ==> Owed() <= old(Owed()) && names == old(names) + {FoldAll(Labels(host))}
      ensures error != Ok ==> dict == old(dict) && names == old(names) && level == old(level)
      ensures error == Ok ==> NameAt(Used(), old(end) + 2, end) && end <= old(end) + 2 + NameSize(host)
      ensures old(end) + 2 + NameSize(host) <= data.Length ==> error == Ok
      ensures error == Ok && old(Clean()) && old(Owed()) <= MARGIN && Unexposed(old(names), Labels(host)) ==>
        Clean() && Reads(net, old(end) + 2, host)
    {
      hide NetOk, Base, Fair, Named, Settled, Labels, ValidText, NameAt, Unexposed, NameRuns.DPush, Tries;
      ghost var before := data[..end];
      BaseNet(before, dict, net);
      if data.Length - end < 3 {
        NoRoom(Here(), data.Length, [Piece(2, Labels(host))]);
        return NoBufs;
      }
      var start := end;
      Reserve();
      assert data[..end] == before + data[end - 2..end];
      OnePiece(before, data[end - 2..end], dict, net, data.Length, Labels(host));
      error := NameThenLength(start, host, before);
    }

    /** dns_mx_push. */
    method ExchangePush(preference: nat, host: Bytes) returns (error: Error)
      requires NamesOk() && ValidText(host)
      modifies this`end, this`dict, this`net, this`names, this`level, data
      ensures Pushed(old(end), old(Used()), old(net), error)
      ensures dict == Tries(old(Here()), data.Length, [Piece(4, Labels(host))]).dict
      ensures error == Ok ==> old(end) + 4 <= end && Get16(Used(), old(end) + 2) == preference % 0x1_0000
      ensures error == Ok ==> Owed() <= old(Owed()) && names == old(names) + {FoldAll(Labels(host))}
      ensures error != Ok ==> dict == old(dict) && names == old(names) && level == old(level)
      ensures error == Ok ==> NameAt(Used(), old(end) + 4, end) && end <= old(end) + 4 + NameSize(host)
      ensures old(end) + 4 + NameSize(host) <= data.Length ==> error == Ok
      ensures error == Ok && old(Clean()) && old(Owed()) <= MARGIN && Unexposed(old(names), Labels(host)) ==>
        Clean() && Reads(net, old(end) + 4, host)
    {
      hide NetOk, Base, Fair, Named, Settled, Labels, ValidText, NameAt, Unexposed, NameRuns.DPush, Tries, Get16,
        Put16, Reads, Extends, FoldAll;
      ghost var before := data[..end];
      BaseNet(before, dict, net);
      if data.Length - end < 5 {
        NoRoom(Here(), data.Length, [Piece(4, Labels(host))]);
        return NoBufs;
      }
      var start := end;
      Reserve();
      ghost var mid := data[..end];
      Append(Put16(preference));
      ghost var now := data[..end];
      ConcatParts(mid, Put16(preference));
      assert now[..start] == mid[..start] == before;
      TakeDrop(now, start);
      OnePiece(before, now[start..], dict, net, data.Length, Labels(host));
      error := NameThenLength(start, host, before);
      if error == Ok {
        PreferenceKept(now, Used(), start + 2, preference);
      }
    }

    /** Copy octets into the buffer. */
    method CopyTo(at: nat, s: Bytes)
      requires at + |s| <= data.Length
      modifies data
      ensures data[..at] == old(data[..at]) && data[at..at + |s|] == s
    {
      for i := 0 to |s|
        invariant data[..at] == old(data[..at]) && data[at..at + i] == s[..i]
      {
        data[at + i] := s[i];
        assert s[..i + 1] == s[..i] + [s[i]];
      }
    }

    /** The loop of dns_txt_push, from offset `from` on. */
    method TxtSegments(t: Bytes, from: nat) returns (ok: bool, p: nat)
      requires from <= data.Length
      modifies data
      ensures from <= p && data[..from] == old(data[..from])
      ensures ok ==> p <= data.Length && data[from..p] == TxtWire(t)
      ensures ok <==> from + |TxtWire(t)| <= data.Length
    {
      hide TxtWire;
      var sp := 0;
      p := from;
      assert t[sp..] == t && data[..p][from..] == [];
      while sp < |t|
        invariant sp <= |t| && from <= p <= data.Length && data[..from] == old(data[..from])
        invariant data[..p][from..] + TxtWire(t[sp..]) == TxtWire(t)
      {
        ghost var written := data[..p][from..];
        var m := Min(255, |t| - sp);
        TxtNext(written, t, sp, m);
        if p >= data.Length {
          return false, p;
        }
        data[p] := m;
        p := p + 1;
        if data.Length - p < m {
          return false, p;
        }
        ghost var head := data[..p];
        assert head[..from] == old(data[..from]) && head[from..] == written + [m];
        CopyTo(p, t[sp..sp + m]);
        p, sp := p + m, sp + m;
        SegmentWritten(data[..p], head, from, t[sp - m..sp]);
      }
      TxtEnd(data[..p][from..], t, sp);
      assert data[from..p] == data[..p][from..];
      ok := true;
    }

    /** dns_txt_push: segments of at most 255 octets; the end moves only when all of them fitted. */
    method TxtPush(t: Bytes) returns (error: Error)
      requires NamesOk()
      modifies this`end, data
      ensures Pushed(old(end), old(Used()), old(net), error) && Owed() == old(Owed())
      ensures error == Ok <==> old(end) + 2 + |t| + (|t| + 254) / 255 <= data.Length
      ensures error == Ok ==> NamesOk() && Used()[old(end) + 2..] == TxtWire(t) && (old(Clean()) ==> Clean())
    {
      hide NetOk, Base, Fair, Named, Settled, TxtWire;
      ghost var before := data[..end];
      TxtWireLength(t);
      if data.Length - end < 2 {
        return NoBufs;
      }
      var len := |t| + (|t| + 254) / 255;
      CopyTo(end, Put16(len));
      ghost var head := data[..end + 2];
      assert head == before + Put16(len);
      var ok, p := TxtSegments(t, end + 2);
      assert data[..end] == head[..end];
      if !ok {
        return NoBufs;
      }
      assert data[..p][..end + 2] == head && data[..p][end + 2..] == data[end + 2..p];
      TxtPlaced(data[..p], before, len, t);
      end := p;
      AppendNames(before, Put16(len) + TxtWire(t), dict, net, level);
      error := Ok;
    }

    /** The two names of dns_soa_push; `mid` is where the second one starts. */
    method TwoNames(mname: Bytes, rname: Bytes) returns (error: Error, ghost mid: nat)
      requires NamesOk() && ValidText(mname) && ValidText(rname)
      modifies this`end, this`dict, this`net, this`names, this`level, data
      ensures Sized() && old(end) <= end && data[..old(end)] == old(Used()) && (error == Ok || error == NoBufs)
      ensures dict == Tries(old(Here()), data.Length, [Piece(0, Labels(mname)), Piece(0, Labels(rname))]).dict
      ensures error == Ok ==> NamesOk() && Extends(old(net), net) && NewNodes(old(net), net, old(end))
      ensures error == Ok ==>
        Owed() <= old(Owed()) && names == old(names) + {FoldAll(Labels(mname)), FoldAll(Labels(rname))}
      ensures error == Ok ==> NameAt(Used(), old(end), mid) && NameAt(Used(), mid, end)
      ensures error == Ok ==> end <= old(end) + NameSize(mname) + NameSize(rname)
      ensures old(end) + NameSize(mname) + NameSize(rname) <= data.Length ==> error == Ok
      ensures && error == Ok && old(Clean()) && old(Owed()) <= MARGIN
              && BothUnexposed(old(names), Labels(mname), Labels(rname)) ==>
        Clean() && Reads(net, old(end), mname) && Reads(net, mid, rname)
    {
      hide NetOk, Base, Fair, Named, Settled, Labels, ValidText, NameAt, Unexposed, NameRuns.DPush, Tries, Reads,
        FoldAll;
      TwoPieces(Here(), data.Length, Labels(mname), Labels(rname));
      error := DPush(mname);
      mid := end;
      if error == Ok {
        ghost var one, net1, names1 := data[..end], net, names;
        error := DPush(rname);
        assert data[..old(end)] == one[..old(end)];
        if error == Ok {
          assert data[..end] == one + data[|one|..end];
          NameAtMore(one, data[|one|..end], old(end), mid);
          ReadsKept(net1, net, old(end), mname);
          ExtendsTrans(old(net), net1, net);
          assert names == old(names) + {FoldAll(Labels(mname)), FoldAll(Labels(rname))};
        }
      }
    }

    /** The five counters of dns_soa_push. */
    method Counters(ts: seq<nat>) returns (error: Error)
      requires NamesOk()
      modifies this`end, data
      ensures Sized() && old(end) <= end && data[..old(end)] == old(Used()) && (error == Ok || error == NoBufs)
      ensures error == Ok <==> ts == [] || old(end) + 4 * |ts| < data.Length
      ensures error == Ok ==> end == old(end) + 4 * |ts|
      ensures error == Ok ==> forall i :: 0 <= i < |ts| ==> Get32(Used(), old(end) + 4 * i) == ts[i] % 0x1_0000_0000
      ensures NamesOk() && Owed() == old(Owed()) && (old(Clean()) ==> Clean())
    {
      hide NetOk, Base, Fair, Named, Settled, Get32;
      ghost var start, before := end, data[..end];
      for i := 0 to |ts|
        invariant Sized() && end == start + 4 * i && data[..start] == before && (i == 0 || end < data.Length)
        invariant forall j :: 0 <= j < i ==> Get32(data[..end], start + 4 * j) == ts[j] % 0x1_0000_0000
        invariant NamesOk() && Owed() == old(Owed()) && (old(Clean()) ==> Clean())
      {
        if end + 4 >= data.Length {
          return NoBufs;
        }
        ghost var was := data[..end];
        Append(Put32(ts[i]));
        assert data[..start] == was[..start];
        CountersNext(was, start, ts, i);
      }
      error := Ok;
    }

    /** The names and counters of dns_soa_push, behind the length reserved at `start`. */
    method AuthorityBody(soa: RData) returns (error: Error, ghost mid: nat)
      requires NamesOk() && soa.Authority? && ValidText(soa.mname) && ValidText(soa.rname)
      modifies this`end, this`dict, this`net, this`names, this`level, data
      ensures Sized() && old(end) <= end && data[..old(end)] == old(Used()) && (error == Ok || error == NoBufs)
      ensures dict == Tries(old(Here()), data.Length, [Piece(0, Labels(soa.mname)), Piece(0, Labels(soa.rname))]).dict
      ensures error == Ok ==> NamesOk() && Extends(old(net), net) && NewNodes(old(net), net, old(end))
      ensures error == Ok ==>
        Owed() <= old(Owed()) && names == old(names) + {FoldAll(Labels(soa.mname)), FoldAll(Labels(soa.rname))}
      ensures error == Ok ==> end >= old(end) + 20 && NameAt(Used(), old(end), mid) && NameAt(Used(), mid, end - 20)
      ensures error == Ok ==> end <= old(end) + NameSize(soa.mname) + NameSize(soa.rname) + 20
      ensures old(end) + NameSize(soa.mname) + NameSize(soa.rname) + 20 < data.Length ==> error == Ok
      ensures error == Ok ==> forall i :: 0 <= i < 5 ==>
        Get32(Used(), end - 20 + 4 * i) == TimersOf(soa)[i] % 0x1_0000_0000
      ensures && error == Ok && old(Clean()) && old(Owed()) <= MARGIN
              && BothUnexposed(old(names), Labels(soa.mname), Labels(soa.rname)) ==>
        Clean() && Reads(net, old(end), soa.mname) && Reads(net, mid, soa.rname)
    {
      hide NetOk, Base, Fair, Named, Settled, Labels, ValidText, NameAt, BothUnexposed, Tries, Reads, FoldAll, Get32,
        Extends;
      ghost var start := end;
      error, mid := TwoNames(soa.mname, soa.rname);
      if error == Ok {
        ghost var named := data[..end];
        error := Counters(TimersOf(soa));
        assert data[..start] == named[..start];
        assert data[..end] == named + data[|named|..end];
        NameAtMore(named, data[|named|..end], start, mid);
        NameAtMore(named, data[|named|..end], mid, |named|);
      }
    }

    /** dns_soa_push. */
    method AuthorityPush(soa: RData) returns (error: Error, ghost mid: nat)
      requires NamesOk() && soa.Authority? && ValidText(soa.mname) && ValidText(soa.rname)
      modifies this`end, this`dict, this`net, this`names, this`level, data
      ensures Pushed(old(end), old(Used()), old(net), error)
      ensures dict == Tries(old(Here()), data.Length, [Piece(2, Labels(soa.mname)), Piece(0, Labels(soa.rname))]).dict
      ensures error == Ok ==> old(end) + 22 <= end && Timers(Used(), end - 20, soa)
      ensures error == Ok ==>
        Owed() <= old(Owed()) && names == old(names) + {FoldAll(Labels(soa.mname)), FoldAll(Labels(soa.rname))}
      ensures error != Ok ==> names == old(names) && level == old(level)
      ensures error == Ok ==> NameAt(Used(), old(end) + 2, mid) && NameAt(Used(), mid, end - 20)
      ensures error == Ok ==> end <= old(end) + 2 + NameSize(soa.mname) + NameSize(soa.rname) + 20
      ensures old(end) + 2 + NameSize(soa.mname) + NameSize(soa.rname) + 20 < data.Length ==> error == Ok
      ensures && error == Ok && old(Clean()) && old(Owed()) <= MARGIN
              && BothUnexposed(old(names), Labels(soa.mname), Labels(soa.rname)) ==>
        Clean() && Reads(net, old(end) + 2, soa.mname) && Reads(net, mid, soa.rname)
    {
      hide NetOk, Base, Fair, Named, Settled, Labels, ValidText, NameAt, BothUnexposed, Tries, Reads, FoldAll, Get32,
        Get16, Extends, Timers, TimersOf, NewNodes;
      var start := end;
      ghost var before, was := data[..end], net;
      mid := end;
      BaseNet(before, dict, net);
      if end + 2 >= data.Length {
        NoRoom(Here(), data.Length, [Piece(2, Labels(soa.mname)), Piece(0, Labels(soa.rname))]);
        return NoBufs, mid;
      }
      Reserve();
      ghost var reserved := data[..end];
      assert reserved[..start] == before;
      TakeDrop(reserved, start);
      TriesGap(before, reserved[start..], dict, net, data.Length,
        [Piece(0, Labels(soa.mname)), Piece(0, Labels(soa.rname))]);
      SecondPiece(Labels(soa.mname), Labels(soa.rname));
      error, mid := AuthorityBody(soa);
      assert data[..start] == reserved[..start];
      if error != Ok {
        end, net, names, level := start, was, old(names), old(level);
        return;
      }
      ghost var all := data[..end];
      PatchLength(start, was, before);
      AuthorityKept(all, data[..end], start + 2, mid, soa);
    }

    /** dns_any_push for rdata without names. */
    method PlainPush(any: RData) returns (error: Error)
      requires NamesOk() && (any.Address? || any.Opaque? || any.Txt?)
      modifies this`end, data
      ensures Pushed(old(end), old(Used()), old(net), error) && Owed() == old(Owed())
      ensures error == Ok <==> old(end) + RdataSize(any) <= data.Length
      ensures error == Ok ==> RawHolds(Used(), old(end) + 2, any) && (old(Clean()) ==> Clean())
    {
      hide TxtWire, Clean, Base, Settled, NetOk, Extends;
      match any
      case Address(o) => error := OctetsPush(o);
      case Opaque(o) => error := OctetsPush(o);
      case Txt(t) => error := TxtPush(t);
    }

    /** dns_any_push: the rdata, behind its length. */
    method AnyPush(rtype: nat, any: RData) returns (error: Error)
      requires NamesOk() && Fitting(rtype, any)
      modifies this`end, this`dict, this`net, this`names, this`level, data
      ensures Pushed(old(end), old(Used()), old(net), error)
      ensures dict == Tries(old(Here()), data.Length, RdataPieces(any, 0)).dict
      ensures error == Ok ==> Owed() <= old(Owed()) && names == old(names) + RdataNames(any)
      ensures error != Ok ==> names == old(names) && level == old(level) && (!any.Authority? ==> dict == old(dict))
      ensures error == Ok ==> RawHolds(Used(), old(end) + 2, any)
      ensures error == Ok ==> end <= old(end) + RdataSize(any)
      ensures old(end) + RdataSize(any) <= data.Length ==> error == Ok
      ensures error == Ok && old(Clean()) && old(Owed()) <= MARGIN && ClearRdata(old(names), any) ==>
        Clean() && NameHolds(Used(), net, old(end) + 2, any)
    {
      hide NetOk, Labels, ValidText, TxtWire, Get32, Timers, Extends, Fair, Named, Unexposed, NameAt, Reads, FoldAll,
        Base, Settled, Tries, Clean;
      if any.Address? || any.Opaque? || any.Txt? {
        hide RawHolds;
        NoPieces(Here(), data.Length);
        error := PlainPush(any);
        if error == Ok {
          PlainSize(Used(), old(end) + 2, any);
        }
      } else {
        hide NamesOk;
        match any
        case Host(h) => error := HostPush(h);
        case Exchange(p, h) => error := ExchangePush(p, h);
        case Authority(_, _, _, _, _, _, _) =>
          ghost var mid;
          error, mid := AuthorityPush(any);
      }
    }

    // ---- dns_p_push ----------------------------------------------------------------

    /** The octets every record starts with: name, type and class; `named` is the packet up to the name's end. */
    method PushHead(dn: Bytes, rtype: nat, rclass: nat) returns (error: Error, ghost named: Bytes)
      requires NamesReady() && ValidText(dn)
      modifies this`end, this`dict, this`net, this`names, this`level, data
      ensures Sized() && old(end) <= end && data[..old(end)] == old(Used()) && (error == Ok || error == NoBufs)
      ensures Pkt(named, dict) == NameRuns.DPush(old(Here()), data.Length, Labels(dn))
      ensures error == NoBufs ==> data.Length - |named| < 4 || Pkt(named, dict) == old(Here())
      ensures error == Ok ==> NamesOk() && Extends(old(net), net) && NameAt(named, old(end), |named|)
      ensures error == Ok ==> old(end) < |named| && Used() == named + (Put16(rtype) + Put16(rclass))
      ensures error == Ok ==> end <= old(end) + NameSize(dn) + 4
      ensures old(end) + NameSize(dn) + 4 <= data.Length ==> error == Ok
      ensures error == Ok ==> Base(named, dict, net) && Settled(dict, net)
      ensures error == Ok ==> Owed() <= old(Owed()) && names == old(names) + {FoldAll(Labels(dn))}
      ensures error == Ok && old(Clean()) && old(Owed()) <= MARGIN && Unexposed(old(names), Labels(dn)) ==>
        Clean() && Reads(net, old(end), dn)
    {
      hide NetOk, Labels, ValidText, NameAt, Base, Fair, NameRuns.DPush, Named, Unexposed, Settled;
      error := DPush(dn);
      named := data[..end];
      if error == Ok {
        if data.Length - end < 4 {
          return NoBufs, named;
        }
        Append(Put16(rtype) + Put16(rclass));
        assert data[..old(end)] == named[..old(end)];
      }
    }

    /** What follows the head of an answer: ttl and rdata. */
    method PushTail(rtype: nat, ttl: nat, any: RData, ghost named: Bytes) returns (error: Error)
      requires NamesOk() && Fitting(rtype, any) && end == |named| + 4 && data[..|named|] == named
        && Base(named, dict, net)
      modifies this`end, this`dict, this`net, this`names, this`level, data
      ensures Sized() && old(end) <= end && data[..old(end)] == old(Used()) && (error == Ok || error == NoBufs)
      ensures dict == Tries(Pkt(named, old(dict)), data.Length, RdataPieces(any, 8)).dict
      ensures error != Ok && !any.Authority? ==> dict == old(dict)
      ensures error == Ok ==> NamesOk() && Extends(old(net), net) && |named| + 10 <= end
      ensures error == Ok ==>
        data[..|named| + 8] == old(Used()) + Put32(ttl % 0x8000_0000)
        && Get16(Used(), |named| + 8) == end - (|named| + 10)
      ensures error == Ok ==> Owed() <= old(Owed()) && names == old(names) + RdataNames(any)
      ensures error == Ok ==> RawHolds(Used(), |named| + 10, any)
      ensures error == Ok ==> end <= old(end) + 4 + RdataSize(any)
      ensures old(end) + 4 + RdataSize(any) <= data.Length ==> error == Ok
      ensures error == Ok && old(Clean()) && old(Owed()) <= MARGIN && ClearRdata(old(names), any) ==>
        Clean() && NameHolds(Used(), net, |named| + 10, any)
    {
      hide NetOk, Labels, ValidText, Get16, Put32, RawHolds, NameHolds, Base, Fair, Extends, Named, Settled, FoldAll,
        Tries, RdataPieces, ClearRdata, RdataNames;
      if data.Length - end < 6 {
        NoRoomFor(Pkt(named, dict), data.Length, any);
        return NoBufs;
      }
      Append(Put32(ttl % 0x8000_0000));
      ghost var timed := data[..end];
      assert timed[..|named|] == named;
      TakeDrop(timed, |named|);
      TriesLead(named, timed[|named|..], dict, net, data.Length, any);
      error := AnyPush(rtype, any);
      assert data[..old(end)] == timed[..old(end)];
    }

    /** The octets of a record: behind a question's head nothing follows, else ttl and rdata. */
    method PushOctets(question: bool, dn: Bytes, rtype: nat, rclass: nat, ttl: nat, any: RData)
      returns (error: Error, ghost dnlen: nat)
      requires NamesReady() && ValidText(dn) && (question || Fitting(rtype, any))
      modifies this`end, this`dict, this`net, this`names, this`level, data
      ensures Sized() && old(end) <= end && data[..old(end)] == old(Used()) && (error == Ok || error == NoBufs)
      ensures dict == Tries(old(Here()), data.Length, PiecesOf(question, dn, any)).dict
      ensures error != Ok && !any.Authority? ==> dict == NameRuns.DPush(old(Here()), data.Length, Labels(dn)).dict
      ensures error == Ok ==> NamesOk() && Extends(old(net), net)
      ensures error == Ok ==> RecordAt(Used(), old(end), dnlen, question, rtype, rclass, ttl)
      ensures error == Ok ==> Owed() <= old(Owed()) && names == old(names) + AllNames(question, dn, any)
      ensures error == Ok && !question ==> RawHolds(Used(), old(end) + dnlen + 10, any)
      ensures error == Ok ==> end <= old(end) + RecordSize(question, dn, any)
      ensures old(end) + RecordSize(question, dn, any) <= data.Length ==> error == Ok
      ensures error == Ok && old(Clean()) && old(Owed()) <= MARGIN && Clear(old(names), question, dn, any) ==>
        Clean() && Reads(net, old(end), dn) && (question || NameHolds(Used(), net, old(end) + dnlen + 10, any))
    {
      hide NetOk, Labels, ValidText, Get32, Get16, NameAt, RawHolds, NameHolds, RecordAt, Base, Fair, Extends, Reads,
        Named, Unexposed, Settled, FoldAll, Tries, NameRuns.DPush, RdataPieces, PiecesOf, ClearRdata, RdataNames,
        Put32, Put16;
      ghost var start, before, named := end, data[..end], [];
      TriesOwner(Here(), data.Length, dn, any);
      dnlen := 0;
      error, named := PushHead(dn, rtype, rclass);
      if error != Ok {
        if !question && Pkt(named, dict) != old(Here()) {
          NoRoomFor(Pkt(named, dict), data.Length, any);
        }
        return;
      }
      dnlen := |named| - start;
      if question {
        QuestionAt(named, start, rtype, rclass, ttl);
        return Ok, dnlen;
      }
      ghost var fixed, headed := data[..end], net;
      assert fixed[..|named|] == named;
      error := PushTail(rtype, ttl, any, named);
      assert data[..start] == fixed[..start];
      if error == Ok {
        assert Used()[..|named| + 8] == data[..|named| + 8];
        AnswerAt(named, Used(), start, rtype, rclass, ttl);
        ReadsKept(headed, net, start, dn);
        ExtendsTrans(old(net), headed, net);
      }
    }

    /** The records the packet holds, and memos that agree with them (or were never set). */
    ghost predicate Valid()
      reads this, data
    {
      Sized() && Built(Used(), recs) && (memos == Study(Used()) || (recs == [] && memos == UNSTUDIED))
    }

    constructor (size: nat)
      requires HEADER <= size <= MAX_PACKET
      ensures fresh(data) && data.Length == size
      ensures Valid() && recs == [] && NamesOk() && Clean() && Owed() == 0 && names == {}
    {
      data := new byte[size](_ => 0);
      end, dict, memos := HEADER, [], UNSTUDIED;
      net, recs, names, level := map[], [], {}, 0;
      new;
      assert Used() == seq(HEADER, _ => 0);
      EmptyBuilt(Used());
    }

    /** Add one to a count in the header. */
    method Bump(s: Section)
      requires NamesOk() && Count(Used(), s) < 0xffff
      modifies data
      ensures NamesOk() && SameRecords(old(Used()), Used()) && (old(Clean()) ==> Clean())
      ensures CountsOf(Used()) == Plus(old(CountsOf(Used())), s)
    {
      hide NetOk, Base, Fair, Named, Settled;
      ghost var before := data[..end];
      var off := match s case QD => 4 case AN => 6 case NS => 8 case AR => 10;
      var count := Count(data[..end], s) + 1;
      data[off] := count / 0x100;
      data[off + 1] := count % 0x100;
      assert data[..end][HEADER..] == before[HEADER..];
      BaseNet(before, dict, net);
      HeaderNames(before, data[..end], net);
      SameNames(before, data[..end], dict, net, level);
    }

    /** dns_s_study: `count` records from `base` on. */
    method SStudy(base: nat, count: nat) returns (m: Memo)
      requires end <= data.Length
      ensures m == Memo(base, StudyEnd(Skipper(Used()), |Used()|, base, count))
    {
      var rp: nat, left: nat := base, count;
      while left > 0 && rp < end
        invariant left <= count
        invariant StudyEnd(Skipper(Used()), |Used()|, base, count) == StudyEnd(Skipper(Used()), |Used()|, rp, left)
        decreases left
      {
        rp, left := RrSkip(data[..end], rp), left - 1;
      }
      m := Memo(base, rp);
    }

    /** dns_p_study. */
    method PStudy()
      requires end <= data.Length
      modifies this`memos
      ensures memos == Study(Used())
    {
      hide Skipper, StudyEnd;
      var qd := SStudy(HEADER, Count(data[..end], QD));
      var an := SStudy(qd.end, Count(data[..end], AN));
      var ns := SStudy(an.end, Count(data[..end], NS));
      var ar := SStudy(ns.end, Count(data[..end], AR));
      memos := Memos(qd, an, ns, ar);
    }

    /** The `update` part of dns_p_push for a record `r` that stands complete behind the others. */
    method Commit(s: Section, ghost r: Rec, ghost before: Bytes)
      requires NamesOk() && Built(before, recs) && SameRecords(before, Used()) && CountsOf(before) == CountsOf(Used())
      requires memos == Study(before) || (recs == [] && memos == UNSTUDIED)
      requires r.section == s && r.start == |before| && Next(r) == end && RecAt(Used(), r)
        && InOrder(CountsOf(before), s)
      modifies this`memos, this`recs, data
      ensures Valid() && NamesOk() && recs == old(recs) + [r] && SameRecords(old(Used()), Used())
      ensures memos == Study(Used()) && (old(Clean()) ==> Clean())
    {
      hide NetOk, Base, Fair, Named, Settled, Built, Study, RecAt, CountsOf, SameRecords;
      ghost var full := data[..end];
      StudyBases(before, recs);
      var m := match s case QD => memos.qd case AN => memos.an case NS => memos.ns case AR => memos.ar;
      if m.base == 0 {
        PStudy();
        StudyEmpty(before, full, recs);
      }
      CountsSmall(before, full, recs, s);
      Bump(s);
      CommitBuilt(before, full, data[..end], recs, r);
      memos := PushMemos(memos, s, end);
      recs := recs + [r];
    }

    /**
     * dns_p_push. One that fails changes nothing but the dictionary; further pushes are safe if and only if
     * no name it wrote behind the owner name is left in there.
     */
    method PPush(section: Option<Section>, dn: Bytes, rtype: nat, rclass: nat, ttl: nat, any: RData)
      returns (error: Error)
      requires Valid() && NamesReady() && ValidText(dn) && (section == Some(QD) || Fitting(rtype, any))
      modifies this, data
      ensures Valid()
      ensures error == Ok ==>
        && section.Some? && NamesOk() && Extends(old(net), net) && |recs| == |old(recs)| + 1
        && recs[..|old(recs)|] == old(recs)
        && SameRecords(old(Used()), Used()) && memos == Study(Used())
        && var r := recs[|old(recs)|];
        && r.section == section.value && r.start == old(end) && Next(r) == end
        && r.rtype == rtype % 0x1_0000 && r.rclass == rclass % 0x1_0000
        && r.ttl == (if r.section.QD? then 0 else ttl % 0x8000_0000)
        && (r.section.QD? || RawHolds(Used(), RdAt(r), any))
      ensures error != Ok ==> recs == old(recs) && Used() == old(Used()) && memos == old(memos) && net == old(net)
      ensures dict == Tries(old(Here()), data.Length, PiecesOf(section == Some(QD), dn, any)).dict
      ensures error != Ok ==>
        (NamesReady() <==> !Strays(old(Here()), data.Length, PiecesOf(section == Some(QD), dn, any)))
      ensures error == NoBufs && !any.Authority? ==> NamesReady()
      ensures error == BadOrder ==> section.Some? && !InOrder(CountsOf(Used()), section.value)
      ensures error == BadSection ==> section.None?
      ensures old(end) + RecordSize(section == Some(QD), dn, any) <= data.Length ==>
        error == if section.None? then BadSection
                 else if old(InOrder(CountsOf(Used()), section.value)) then Ok else BadOrder
      ensures error == Ok ==> end <= old(end) + RecordSize(section == Some(QD), dn, any)
      ensures error == Ok ==> InOrder(old(CountsOf(Used())), section.value)
      ensures error == Ok ==> Owed() <= old(Owed()) && names == old(names) + AllNames(section == Some(QD), dn, any)
      ensures error != Ok ==>
        names == old(names) && Owed() <= old(Owed()) + 1 && (old(Clean()) && NamesReady() ==> Clean())
      ensures && error == Ok && old(Clean()) && old(Owed()) <= MARGIN
              && Clear(old(names), section == Some(QD), dn, any) ==>
        && Clean() && Reads(net, old(end), dn)
        && (section == Some(QD) || NameHolds(Used(), net, RdAt(recs[|old(recs)|]), any))
    {
      hide NetOk, Base, Fair, Named, Settled, Built, Study, RecAt, CountsOf, SameRecords, Labels, ValidText, NameAt,
        RawHolds, NameHolds, RecordAt, Extends, Reads, Tries, PiecesOf, Clear, AllNames, Strays, NameRuns.DPush,
        InOrder, FoldAll, LabelsIn;
      var start := end;
      ghost var before, was := data[..end], net;
      ghost var dnlen;
      error, dnlen := PushOctets(section == Some(QD), dn, rtype, rclass, ttl, any);
      ghost var full := data[..end];
      PrefixCounts(before, full);
      if error == Ok && section.None? {
        error := BadSection;
      } else if error == Ok && !InOrder(CountsOf(data[..end]), section.value) {
        error := BadOrder;
      }
      if error != Ok {
        end, net, names, level := start, was, old(names), old(level);
        FailedNames(before, old(dict), net, level, names, data.Length, PiecesOf(section == Some(QD), dn, any));
        if error == NoBufs && !any.Authority? {
          OwnerNotStray(Pkt(before, old(dict)), net, data.Length, Labels(dn), PiecesOf(section == Some(QD), dn, any));
        }
        return;
      }
      ghost var rec := RecordOf(full, start, dnlen, section.value, rtype, rclass, ttl);
      Commit(section.value, rec, before);
      SameTrans(before, full, data[..end]);
      if section != Some(QD) {
        HoldsHeader(full, data[..end], net, start + dnlen + 10, any);
      }
    }

    /** After `k` pushes of a run: what was kept, and whether the run can go on. */
    ghost predicate Progress(reqs: seq<Request>, k: nat, kept: seq<nat>, going: bool)
      reads this, data
    {
      && Valid() && |kept| <= k <= |reqs| && Rising(kept, k) && (going <==> NamesReady())
      && NetOk(Used(), net) && AnswersAll(Used(), reqs, kept, recs)
      && Owed() <= k - |kept| && names <= NamesBefore(reqs, k)
      && (Sorted(reqs) && Needed(reqs) <= data.Length ==> |kept| == k && going && end <= NeededBy(reqs, k))
      && (NoneExposedIn(reqs) && k - |kept| <= MARGIN ==>
         (going ==> Clean()) && ReadsAll(Used(), net, reqs, kept, recs))
      && (kept != [] ==> memos == Study(Used()))
    }

    /** One push of a run. */
    method PushNext(reqs: seq<Request>, k: nat, kept: seq<nat>) returns (kept': seq<nat>, going: bool)
      requires k < |reqs| && Acceptable(reqs[k]) && Progress(reqs, k, kept, true)
      modifies this, data
      ensures Progress(reqs, k + 1, kept', going)
    {
      hide Fair, NetOk, Base, Built, Study, Labels, ValidText, Extends, AnswersAll, ReadsAll, Rising, NoneExposedIn,
        Named, Settled, Strays, RawHolds, NameHolds, Reads, SameRecords, Tries, Clear, AllNames, PiecesOf,
        NamesBefore, FoldAll, InOrder, CountsOf, Sorted, NeededBy, RecordSize;
      var q := reqs[k];
      ghost var plain := NoneExposedIn(reqs) && k - |kept| <= MARGIN;
      ghost var was, recs0, before, dict0 := net, recs, data[..end], dict;
      kept', going := kept, true;
      RisingBelow(kept, k);
      if NoneExposedIn(reqs) {
        ClearNow(reqs, k, names);
      }
      NamesNext(reqs, k);
      if Sorted(reqs) && Needed(reqs) <= data.Length {
        NextFits(Used(), reqs, kept, recs, k);
      }
      var error := PPush(Some(q.section), q.dn, q.rtype, q.rclass, q.ttl, q.any);
      if error == Ok {
        BaseNet(Used(), dict, net);
        assert Used()[..end] == Used();
        AnswersMore(before, Used(), reqs, kept, recs0, recs, k);
        if plain {
          ReadsMore(before, Used(), was, net, reqs, kept, recs0, recs, k);
        }
        kept' := kept + [k];
      } else {
        going := Fit(dict, end);
        StraysFit(Pkt(before, dict0), data.Length, PiecesOf(q.section.QD?, q.dn, q.any));
      }
    }

    /**
     * A run of pushes into an empty packet, failed ones among them. However the records are chosen,
     * skipping and parsing then walk the packet back to exactly the records of the pushes that succeeded,
     * in order, and their rdata stands where the record says. If no name is exposed to an earlier one and at
     * most MARGIN pushes failed, every name reads back as it was pushed, up to case. The run ends early, after
     * `k` pushes, only when a failed push left an entry behind the end.
     */
    method PushRun(reqs: seq<Request>) returns (k: nat, kept: seq<nat>)
      requires Valid() && recs == [] && NamesOk() && Clean() && Owed() <= 0 && names == {}
      requires forall i :: 0 <= i < |reqs| ==> Acceptable(reqs[i])
      modifies this, data
      ensures Valid() && k <= |reqs| && (k < |reqs| ==> !NamesReady())
      ensures Rising(kept, k) && AnswersAll(Used(), reqs, kept, recs)
      ensures Listing(Used(), Study(Used()), HEADER) == Views(recs)
      ensures kept != [] ==> memos == Study(Used())
      ensures NoneExposedIn(reqs) && k - |kept| <= MARGIN ==> NamesAll(Used(), reqs, kept, recs)
      ensures Sorted(reqs) && Needed(reqs) <= data.Length ==> |kept| == k == |reqs|
    {
      hide Progress, Valid, NamesOk, NamesReady, Clean, Owed, Study, Listing, Views, AnswersAll, NamesAll, Rising,
        NoneExposedIn, Acceptable, Sorted, NeededBy;
      k, kept := 0, [];
      RunStarts(reqs);
      var going := true;
      while k < |reqs| && going
        invariant k <= |reqs| && Progress(reqs, k, kept, going)
        decreases |reqs| - k
      {
        kept, going := PushNext(reqs, k, kept);
        k := k + 1;
      }
      RunEnds(reqs, k, kept, going);
    }

    lemma RunStarts(reqs: seq<Request>)
      requires Valid() && recs == [] && NamesOk() && Clean() && Owed() <= 0 && names == {}
      ensures Progress(reqs, 0, [], true)
    {
      hide Fair, NetOk, Base, Built, Study, AnswersAll, ReadsAll, Rising, NoneExposedIn, Named, Settled;
      BaseNet(Used(), dict, net);
      EmptyHeader(Used());
      NothingKept(Used(), net, reqs);
    }

    lemma RunEnds(reqs: seq<Request>, k: nat, kept: seq<nat>, going: bool)
      requires Progress(reqs, k, kept, going)
      ensures Valid() && Rising(kept, k) && |kept| <= k && AnswersAll(Used(), reqs, kept, recs)
        && (going <==> NamesReady())
      ensures Sorted(reqs) && Needed(reqs) <= data.Length ==> |kept| == k && going
      ensures Listing(Used(), Study(Used()), HEADER) == Views(recs)
      ensures kept != [] ==> memos == Study(Used())
      ensures NoneExposedIn(reqs) && k - |kept| <= MARGIN ==> NamesAll(Used(), reqs, kept, recs)
    {
      hide Fair, NetOk, Base, Built, Study, Listing, Views, AnswersAll, ReadsAll, NamesAll, Rising, NoneExposedIn,
        Named, Settled;
      WalksBack(Used(), recs);
      if NoneExposedIn(reqs) && k - |kept| <= MARGIN {
        NamesRead(Used(), net, reqs, kept, recs);
      }
    }

    /** What every rdata push leaves: all of it behind a length that says so, or nothing. */
    ghost predicate Pushed(start: nat, before: Bytes, was: Net, error: Error)
      reads this, data
    {
      && Sized() && |before| == start <= end && data[..start] == before
      && (error == Ok || error == NoBufs)
      && (error != Ok ==> end == start && net == was)
      && (error == Ok ==>
          && NamesOk() && Extends(was, net) && NewNodes(was, net, start + 2)
          && start + 2 <= end && Get16(Used(), start) == end - start - 2)
    }
  }

  lemma TxtNext(written: Bytes, t: Bytes, sp: nat, m: nat)
    requires sp < |t| && m == Min(255, |t| - sp)
    ensures written + TxtWire(t[sp..]) == written + [m] + t[sp..sp + m] + TxtWire(t[sp + m..])
  {
    assert t[sp..][..m] == t[sp..sp + m] && t[sp..][m..] == t[sp + m..];
    assert TxtWire(t[sp..]) == [m] + t[sp..sp + m] + TxtWire(t[sp + m..]);
    hide TxtWire;
    Assoc(written, [m] + t[sp..sp + m], TxtWire(t[sp + m..]));
    Assoc(written, [m], t[sp..sp + m]);
  }

  lemma TxtPlaced(now: Bytes, before: Bytes, len: nat, t: Bytes)
    requires |now| == |before| + 2 + |TxtWire(t)| && |now| < 0x1_0000 && len == |TxtWire(t)|
    requires now[..|before| + 2] == before + Put16(len) && now[|before| + 2..] == TxtWire(t)
    ensures now == before + (Put16(len) + TxtWire(t)) && Get16(now, |before|) == len
  {
    hide TxtWire, Put16, Get16;
    TakeDrop(now, |before| + 2);
    MidSlice(before, Put16(len), TxtWire(t));
    Assoc(before, Put16(len), TxtWire(t));
    Get16Put16(now, |before|, len);
  }

  lemma SegmentWritten(now: Bytes, head: Bytes, from: nat, seg: Bytes)
    requires from <= |head| <= |now| && now[..|head|] == head && now[|head|..] == seg
    ensures now[..from] == head[..from] && now[from..] == head[from..] + seg
  {
    assert now == head + seg;
  }

  lemma TxtEnd(written: Bytes, t: Bytes, sp: nat)
    requires sp == |t| && written + TxtWire(t[sp..]) == TxtWire(t)
    ensures written == TxtWire(t)
  {
    assert t[sp..] == [] && TxtWire([]) == [];
    assert written + [] == written;
  }

  lemma PreferenceKept(now: Bytes, data: Bytes, p: nat, preference: nat)
    requires |now| == p + 2 <= |data| && now[p..] == Put16(preference) && forall i :: p <= i < |now| ==>
      data[i] == now[i]
    ensures Get16(data, p) == preference % 0x1_0000
  {
    assert data[p..p + 2] == now[p..];
    Get16Put16(data, p, preference);
  }

  /** The five counters of an SOA record; three of them have 31 bits. */
  ghost predicate Timers(data: Bytes, p: nat, soa: RData)
    requires soa.Authority?
  {
    && p + 20 <= |data|
    && Get32(data, p) == soa.serial % 0x1_0000_0000
    && Get32(data, p + 4) == soa.refresh % 0x8000_0000
    && Get32(data, p + 8) == soa.retry % 0x8000_0000
    && Get32(data, p + 12) == soa.expire % 0x8000_0000
    && Get32(data, p + 16) == soa.minimum % 0x1_0000_0000
  }

  function TimersOf(soa: RData): (ts: seq<nat>)
    requires soa.Authority?
    ensures |ts| == 5
  {
    [soa.serial, soa.refresh % 0x8000_0000, soa.retry % 0x8000_0000, soa.expire % 0x8000_0000, soa.minimum]
  }

  lemma TimersKept(data: Bytes, data': Bytes, p: nat, soa: RData)
    requires soa.Authority? && p + 20 == |data| == |data'|
    requires forall i :: p <= i < |data| ==> data'[i] == data[i]
    requires forall i :: 0 <= i < |TimersOf(soa)| ==> Get32(data, p + 4 * i) == TimersOf(soa)[i] % 0x1_0000_0000
    ensures Timers(data', p, soa)
  {
    forall i | 0 <= i < 5
      ensures Get32(data', p + 4 * i) == Get32(data, p + 4 * i)
    {
    }
    var ts := TimersOf(soa);
    assert Get32(data, p + 4 * 0) == ts[0] % 0x1_0000_0000;
    assert Get32(data, p + 4 * 1) == ts[1] % 0x1_0000_0000;
    assert Get32(data, p + 4 * 2) == ts[2] % 0x1_0000_0000;
    assert Get32(data, p + 4 * 3) == ts[3] % 0x1_0000_0000;
    assert Get32(data, p + 4 * 4) == ts[4] % 0x1_0000_0000;
  }

  lemma AuthorityKept(data: Bytes, data': Bytes, p: nat, mid: nat, soa: RData)
    requires soa.Authority? && p + 20 <= |data| == |data'| && forall i :: p <= i < |data| ==> data'[i] == data[i]
    requires forall i :: 0 <= i < |TimersOf(soa)| ==>
      Get32(data, |data| - 20 + 4 * i) == TimersOf(soa)[i] % 0x1_0000_0000
    requires NameAt(data, p, mid) && NameAt(data, mid, |data| - 20)
    ensures Timers(data', |data| - 20, soa) && NameAt(data', p, mid) && NameAt(data', mid, |data| - 20)
  {
    hide NameAt, Get32, Timers;
    NameAtOrder(data, p, mid);
    NameAtOrder(data, mid, |data| - 20);
    TimersKept(data, data', |data| - 20, soa);
    NameAtFrom(data, data', p, mid);
    NameAtFrom(data, data', mid, |data| - 20);
  }

  lemma CountersNext(was: Bytes, start: nat, ts: seq<nat>, i: nat)
    requires i < |ts| && |was| == start + 4 * i
    requires forall j :: 0 <= j < i ==> Get32(was, start + 4 * j) == ts[j] % 0x1_0000_0000
    ensures forall j :: 0 <= j < i + 1 ==> Get32(was + Put32(ts[i]), start + 4 * j) == ts[j] % 0x1_0000_0000
  {
    var now := was + Put32(ts[i]);
    forall j | 0 <= j < i + 1
      ensures Get32(now, start + 4 * j) == ts[j] % 0x1_0000_0000
    {
      if j < i {
        assert Get32(was, start + 4 * j) == ts[j] % 0x1_0000_0000;
        assert now[start + 4 * j..start + 4 * j + 4] == was[start + 4 * j..start + 4 * j + 4];
      } else {
        assert now[|was|..|was| + 4] == Put32(ts[i]);
        Get32Put32(now, |was|, ts[i]);
      }
    }
  }

  /** The octets dns_any_push may need at most, with the length; dns_soa_push leaves one free. */
  function RdataSize(any: RData): (n: nat)
    ensures n >= 2
  {
    match any
    case Address(o) => 2 + |o|
    case Opaque(o) => 2 + |o|
    case Txt(t) => 2 + |t| + (|t| + 254) / 255
    case Host(h) => 2 + NameSize(h)
    case Exchange(_, h) => 4 + NameSize(h)
    case Authority(m, r, _, _, _, _, _) => 2 + NameSize(m) + NameSize(r) + 20 + 1
  }

  /** The octets of a whole record before any compression. */
  function RecordSize(question: bool, dn: Bytes, any: RData): nat {
    NameSize(dn) + 4 + if question then 0 else 4 + RdataSize(any)
  }

  lemma PlainSize(data: Bytes, p: nat, any: RData)
    requires RawHolds(data, p, any) && (any.Address? || any.Opaque? || any.Txt?)
    ensures |data| + 2 == p + RdataSize(any)
  {
    if any.Txt? {
      TxtWireLength(any.text);
    }
  }

  /** The most pushes that may fail before pointers could nest too deep for readers. */
  const MARGIN := SAFE - DICT_SIZE

  /** The names inside the rdata. */
  ghost function RdataNames(any: RData): set<seq<Label>> {
    match any
    case Host(h) => {FoldAll(LabelsIn(h))}
    case Exchange(_, h) => {FoldAll(LabelsIn(h))}
    case Authority(m, r, _, _, _, _, _) => {FoldAll(LabelsIn(m)), FoldAll(LabelsIn(r))}
    case _ => {}
  }

  ghost function AllNames(question: bool, dn: Bytes, any: RData): set<seq<Label>> {
    {FoldAll(LabelsIn(dn))} + if question then {} else RdataNames(any)
  }

  /** Of two names pushed one after the other. */
  ghost predicate BothUnexposed(names: set<seq<Label>>, a: seq<Label>, b: seq<Label>) {
    Unexposed(names, a) && Unexposed(names + {FoldAll(a)}, b)
  }

  /** No name inside the rdata is exposed to an earlier one. */
  ghost predicate ClearRdata(names: set<seq<Label>>, any: RData) {
    match any
    case Host(h) => Unexposed(names, LabelsIn(h))
    case Exchange(_, h) => Unexposed(names, LabelsIn(h))
    case Authority(m, r, _, _, _, _, _) => BothUnexposed(names, LabelsIn(m), LabelsIn(r))
    case _ => true
  }

  ghost predicate Clear(names: set<seq<Label>>, question: bool, dn: Bytes, any: RData) {
    Unexposed(names, LabelsIn(dn)) && (question || ClearRdata(names + {FoldAll(LabelsIn(dn))}, any))
  }

  /** The octets from `p` to the end are the rdata that was pushed, names apart, which are whole. */
  ghost predicate RawHolds(data: Bytes, p: nat, any: RData) {
    && p <= |data|
    && match any
       case Address(o) => data[p..] == o
       case Opaque(o) => data[p..] == o
       case Txt(t) => data[p..] == TxtWire(t)
       case Host(_) => NameAt(data, p, |data|)
       case Exchange(pref, _) => p + 2 <= |data| && Get16(data, p) == pref % 0x1_0000 && NameAt(data, p + 2, |data|)
       case Authority(_, _, _, _, _, _, _) =>
         && p + 20 <= |data| && Timers(data, |data| - 20, any)
         && exists mid :: NameAt(data, p, mid) && NameAt(data, mid, |data| - 20)
  }

  /** The names in there read as they were pushed. */
  ghost predicate NameHolds(data: Bytes, net: Net, p: nat, any: RData) {
    match any
    case Host(h) => ValidText(h) && Reads(net, p, h)
    case Exchange(_, h) => ValidText(h) && Reads(net, p + 2, h)
    case Authority(m, r, _, _, _, _, _) =>
      ValidText(m) && ValidText(r) && Reads(net, p, m) && exists mid :: NameAt(data, p, mid) && Reads(net, mid, r)
    case _ => true
  }

  /** A whole record stands between `start` and the end. */
  ghost predicate RecordAt(data: Bytes, start: nat, dnlen: nat, question: bool, rtype: nat, rclass: nat, ttl: nat) {
    var p := start + dnlen;
    && NameAt(data, start, p) && p + 4 <= |data|
    && Get16(data, p) == rtype % 0x1_0000 && Get16(data, p + 2) == rclass % 0x1_0000
    && if question then p + 4 == |data|
       else p + 10 <= |data| && Get32(data, p + 4) == ttl % 0x8000_0000 && Get16(data, p + 8) == |data| - (p + 10)
  }

  lemma {:induction false} NameAtMore(data: Bytes, more: Bytes, p: nat, q: nat)
    requires NameAt(data, p, q)
    ensures NameAt(data + more, p, q)
    decreases q - p
  {
    if 0 < data[p] < 0x40 {
      NameAtMore(data, more, p + 1 + data[p], q);
    }
  }

  lemma FixedAt(named: Bytes, more: Bytes, rtype: nat, rclass: nat)
    ensures var data := named + (Put16(rtype) + Put16(rclass)) + more;
      Get16(data, |named|) == rtype % 0x1_0000 && Get16(data, |named| + 2) == rclass % 0x1_0000
  {
    var t, c := Put16(rtype), Put16(rclass);
    var data := named + (t + c) + more;
    assert data == named + t + (c + more);
    MidSlice(named, t, c + more);
    Get16Put16(data, |named|, rtype);
    assert data == named + t + c + more;
    MidSlice(named + t, c, more);
    Get16Put16(data, |named| + 2, rclass);
  }

  lemma QuestionAt(named: Bytes, start: nat, rtype: nat, rclass: nat, ttl: nat)
    requires NameAt(named, start, |named|)
    ensures RecordAt(named + (Put16(rtype) + Put16(rclass)), start, |named| - start, true, rtype, rclass, ttl)
  {
    NameAtMore(named, Put16(rtype) + Put16(rclass), start, |named|);
    FixedAt(named, [], rtype, rclass);
    assert named + (Put16(rtype) + Put16(rclass)) + [] == named + (Put16(rtype) + Put16(rclass));
  }

  lemma AnswerAt(named: Bytes, data: Bytes, start: nat, rtype: nat, rclass: nat, ttl: nat)
    requires NameAt(named, start, |named|) && |named| + 10 <= |data|
    requires data[..|named| + 8] == named + (Put16(rtype) + Put16(rclass)) + Put32(ttl % 0x8000_0000)
    requires Get16(data, |named| + 8) == |data| - (|named| + 10)
    ensures RecordAt(data, start, |named| - start, false, rtype, rclass, ttl)
  {
    hide NameAt, Get32, Put32, Put16, Get16;
    var fixed, t, rest := named + (Put16(rtype) + Put16(rclass)), Put32(ttl % 0x8000_0000), data[|named| + 8..];
    TakeDrop(data, |named| + 8);
    Assoc(fixed, t, rest);
    Assoc(named, Put16(rtype) + Put16(rclass), t + rest);
    NameAtMore(named, (Put16(rtype) + Put16(rclass)) + (t + rest), start, |named|);
    FixedAt(named, t + rest, rtype, rclass);
    MidSlice(fixed, t, rest);
    Get32Put32(data, |fixed|, ttl % 0x8000_0000);
  }

  /** What a failed push leaves, with the net as before. */
  lemma FailedNames(data: Bytes, dict: seq<nat>, net: Net, n: nat, names: set<seq<Label>>, size: nat, ps: seq<Piece>)
    requires Base(data, dict, net) && ValidPieces(ps)
    ensures var dict' := Tries(Pkt(data, dict), size, ps).dict;
      && (Base(data, dict', net) <==> !Strays(Pkt(data, dict), size, ps)) && |dict| <= |dict'|
      && (Fair(data, dict, net, n) && Base(data, dict', net) ==> Fair(data, dict', net, n))
      && (Named(dict, net, names) ==> Named(dict', net, names))
  {
    hide NetOk, Tries, Strays;
    var dict' := Tries(Pkt(data, dict), size, ps).dict;
    NodesInside(data, net);
    TriesEntries(Pkt(data, dict), size, ps);
    StraysFit(Pkt(data, dict), size, ps);
    assert forall i :: 0 <= i < |dict'| ==> dict'[i] in dict || dict'[i] >= |data|;
    assert forall x :: x in dict' && x in net ==> x in dict;
    if Deep(dict, net, n) {
      forall i: nat, j: nat
        ensures DeepAt(dict', net, n, i, j)
      {
        if i < |dict'| && dict'[i] in net {
          var i0 :| 0 <= i0 < |dict| && dict[i0] == dict'[i];
          assert DeepAt(dict, net, n, i0, j);
        }
      }
    }
  }

  predicate Fit(dict: seq<nat>, end: nat) {
    forall i :: 0 <= i < |dict| ==> dict[i] <= end
  }

  lemma StraysFit(pk: Pkt, size: nat, ps: seq<Piece>)
    requires ValidPieces(ps)
    ensures Strays(pk, size, ps) <==> !Fit(Tries(pk, size, ps).dict, |pk.data|)
  {
    hide Tries;
    var d := Tries(pk, size, ps).dict;
    if !Fit(d, |pk.data|) {
      var i :| 0 <= i < |d| && d[i] > |pk.data|;
      assert d[i] in d;
    }
  }

  /** The name at `p` comes to the root and reads as the text `dn`, up to case. */
  ghost predicate Reads(net: Net, p: nat, dn: Bytes)
    requires ValidText(dn)
  {
    p in net && net[p].whole && Folded(net[p].walk) == FoldAll(Labels(dn))
  }

  lemma ExtendsTrans(a: Net, b: Net, c: Net)
    requires Extends(a, b) && Extends(b, c)
    ensures Extends(a, c)
  {
  }

  lemma ReadsKept(net: Net, net': Net, p: nat, dn: Bytes)
    requires Extends(net, net') && ValidText(dn)
    ensures Reads(net, p, dn) ==> Reads(net', p, dn)
  {
  }

  lemma EmptyBuilt(data: Bytes)
    requires data == seq(HEADER, _ => 0)
    ensures Built(data, [])
  {
    assert CountsOf(data) == Counts(0, 0, 0, 0);
  }

  lemma PrefixCounts(before: Bytes, full: Bytes)
    requires HEADER <= |before| <= |full| && full[..|before|] == before
    ensures SameRecords(before, full) && CountsOf(full) == CountsOf(before)
  {
    assert forall i :: 0 <= i < |before| ==> full[i] == full[..|before|][i] == before[i];
    assert full[HEADER..|before|] == before[HEADER..];
  }

  /** Sixteen bits are enough to count the records of a packet. */
  lemma CountsSmall(before: Bytes, full: Bytes, recs: seq<Rec>, s: Section)
    requires Built(before, recs) && |before| <= MAX_PACKET && CountsOf(full) == CountsOf(before)
    ensures Count(full, s) < 0xffff
  {
    StartsRise(before, recs, 0, |recs|);
    var c := CountsOf(full);
    assert Count(full, s) == match s case QD => c.qd case AN => c.an case NS => c.ns case AR => c.ar;
  }

  lemma CommitBuilt(before: Bytes, full: Bytes, after: Bytes, recs: seq<Rec>, r: Rec)
    requires Built(before, recs) && SameRecords(before, full) && SameRecords(full, after) && |after| == |full|
    requires CountsOf(full) == CountsOf(before) && CountsOf(after) == Plus(CountsOf(full), r.section)
    requires InOrder(CountsOf(before), r.section) && r.start == |before| && Next(r) == |full| && RecAt(full, r)
    ensures Built(after, recs + [r]) && PushMemos(Study(before), r.section, |after|) == Study(after)
  {
    hide RecAt, Built, CountsOf, Study;
    SameTrans(before, full, after);
    RecAtSame(full, after, r);
    BuiltAppend(before, after, recs, r);
    PushMemosStudied(before, after, recs, r);
  }

  lemma SameTrans(a: Bytes, b: Bytes, c: Bytes)
    requires SameRecords(a, b) && SameRecords(b, c)
    ensures SameRecords(a, c) && HEADER <= |a|
  {
    assert c[HEADER..|a|] == c[HEADER..|b|][..|a| - HEADER] == b[HEADER..][..|a| - HEADER] == b[HEADER..|a|];
  }

  /** dns_p_study while the header still counts nothing: all sections are empty. */
  lemma StudyEmpty(before: Bytes, full: Bytes, recs: seq<Rec>)
    requires Built(before, recs) && recs == [] && CountsOf(full) == CountsOf(before)
    ensures Study(full) == Study(before)
  {
    StudyOfBuilt(before, recs, CountsOf(before));
    assert CountsOf(full) == Counts(0, 0, 0, 0);
  }

  lemma StudyBases(data: Bytes, recs: seq<Rec>)
    requires Built(data, recs)
    ensures var m := Study(data);
      m.qd.base >= HEADER && m.an.base >= HEADER && m.ns.base >= HEADER && m.ar.base >= HEADER
  {
    var c := CountsOf(data);
    StudyOfBuilt(data, recs, c);
    StartsRise(data, recs, c.qd, c.qd);
    StartsRise(data, recs, c.qd + c.an, c.qd + c.an);
    StartsRise(data, recs, c.qd + c.an + c.ns, c.qd + c.an + c.ns);
  }

  ghost function RecordOf(data: Bytes, start: nat, dnlen: nat, s: Section, rtype: nat, rclass: nat, ttl: nat): (r: Rec)
    requires HEADER <= start && RecordAt(data, start, dnlen, s.QD?, rtype, rclass, ttl)
    ensures RecAt(data, r) && r.start == start && Next(r) == |data| && r.section == s
  {
    var p := start + dnlen;
    if s.QD? then Rec(s, start, dnlen, rtype % 0x1_0000, rclass % 0x1_0000, 0, 0)
    else Rec(s, start, dnlen, rtype % 0x1_0000, rclass % 0x1_0000, ttl % 0x8000_0000, |data| - (p + 10))
  }

  lemma {:induction false} NameAtFrom(data: Bytes, data': Bytes, p: nat, q: nat)
    requires NameAt(data, p, q) && q <= |data'| && forall i :: p <= i < q ==> data'[i] == data[i]
    ensures NameAt(data', p, q)
    decreases q - p
  {
    if 0 < data[p] < 0x40 {
      NameAtFrom(data, data', p + 1 + data[p], q);
    }
  }

  /** Rdata depends on nothing in front of it. */
  lemma HoldsFrom(data: Bytes, data': Bytes, p: nat, any: RData)
    requires |data'| == |data| && p <= |data| && (forall i :: p <= i < |data| ==> data'[i] == data[i])
      && RawHolds(data, p, any)
    ensures RawHolds(data', p, any)
  {
    hide NameAt, Get16, TxtWire;
    match any
    case Address(_) => assert data'[p..] == data[p..];
    case Opaque(_) => assert data'[p..] == data[p..];
    case Txt(_) => assert data'[p..] == data[p..];
    case Host(_) => NameAtFrom(data, data', p, |data|);
    case Exchange(_, _) =>
      NameAtFrom(data, data', p + 2, |data|);
      Get16From(data, data', p);
    case Authority(_, _, _, _, _, _, _) =>
      var mid :| NameAt(data, p, mid) && NameAt(data, mid, |data| - 20);
      NameAtOrder(data, p, mid);
      NameAtOrder(data, mid, |data| - 20);
      NameAtFrom(data, data', p, mid);
      NameAtFrom(data, data', mid, |data| - 20);
      TimersFrom(data, data', |data| - 20, any);
  }

  lemma NameAtOrder(data: Bytes, p: nat, q: nat)
    requires NameAt(data, p, q)
    ensures p < q <= |data|
  {
  }

  lemma Get16From(data: Bytes, data': Bytes, p: nat)
    requires p + 2 <= |data| <= |data'| && data'[p] == data[p] && data'[p + 1] == data[p + 1]
    ensures Get16(data', p) == Get16(data, p)
  {
  }

  lemma TimersFrom(data: Bytes, data': Bytes, p: nat, soa: RData)
    requires soa.Authority? && Timers(data, p, soa) && |data'| >= p + 20 && forall i :: p <= i < p + 20 ==>
      data'[i] == data[i]
    ensures Timers(data', p, soa)
  {
  }

  lemma NamesHoldFrom(data: Bytes, data': Bytes, net: Net, net': Net, p: nat, any: RData)
    requires |data'| == |data| && (forall i :: p <= i < |data| ==> data'[i] == data[i]) && Extends(net, net')
    requires NameHolds(data, net, p, any)
    ensures NameHolds(data', net', p, any)
  {
    hide NameAt, FoldAll, Labels, ValidText;
    if any.Authority? {
      var mid :| NameAt(data, p, mid) && Reads(net, mid, any.rname);
      NameAtOrder(data, p, mid);
      NameAtFrom(data, data', p, mid);
    }
  }

  /** Changing the header does not touch rdata. */
  lemma HoldsHeader(data: Bytes, data': Bytes, net: Net, p: nat, any: RData)
    requires SameRecords(data, data') && |data'| == |data| && HEADER <= p
    ensures RawHolds(data, p, any) ==> RawHolds(data', p, any)
    ensures NameHolds(data, net, p, any) ==> NameHolds(data', net, p, any)
  {
    hide RawHolds, NameHolds;
    assert forall i :: HEADER <= i < |data| ==> data'[i] == data'[HEADER..|data|][i - HEADER] == data[i];
    if RawHolds(data, p, any) {
      RawInside(data, p, any);
      HoldsFrom(data, data', p, any);
    }
    if NameHolds(data, net, p, any) {
      NamesHoldFrom(data, data', net, net, p, any);
    }
  }

  lemma RawInside(data: Bytes, p: nat, any: RData)
    requires RawHolds(data, p, any)
    ensures p <= |data|
  {
  }

  datatype Request = Request(section: Section, dn: Bytes, rtype: nat, rclass: nat, ttl: nat, any: RData)

  /** Valid names, and rdata that fits the type. */
  ghost predicate Acceptable(q: Request) {
    ValidText(q.dn) && (q.section.QD? || Fitting(q.rtype, q.any))
  }

  /** Where the rdata of a record starts, unless it is a question. */
  function RdAt(r: Rec): nat {
    r.start + r.dnlen + 10
  }

  /** Section, type, class, ttl and rdata of a record are those of the request. */
  ghost predicate Answers(data: Bytes, q: Request, r: Rec) {
    && r.section == q.section && r.rtype == q.rtype % 0x1_0000 && r.rclass == q.rclass % 0x1_0000
    && r.ttl == (if q.section.QD? then 0 else q.ttl % 0x8000_0000)
    && HEADER <= r.start && Next(r) <= |data|
    && (q.section.QD? || RawHolds(data[..Next(r)], RdAt(r), q.any))
  }

  /** So far its names read, in the net, as they were asked for. */
  ghost predicate ReadsOne(data: Bytes, net: Net, q: Request, r: Rec) {
    && Next(r) <= |data| && HEADER <= r.start && ValidText(q.dn) && Reads(net, r.start, q.dn)
    && (q.section.QD? || NameHolds(data[..Next(r)], net, RdAt(r), q.any))
  }

  /** The name at `p` expands to the text `dn`, up to case. */
  ghost predicate Expands(data: Bytes, p: nat, dn: Bytes) {
    ValidText(dn) && ReadsBack(data, p, Labels(dn))
  }

  /** The names of a record, owner and rdata, expand to the ones that were asked for. */
  ghost predicate NamesExpand(data: Bytes, q: Request, r: Rec) {
    && Expands(data, r.start, q.dn) && Next(r) <= |data|
    && (q.section.QD? ||
        var p := RdAt(r);
        match q.any
        case Host(h) => Expands(data, p, h)
        case Exchange(_, h) => Expands(data, p + 2, h)
        case Authority(m, n, _, _, _, _, _) =>
          Expands(data, p, m) && exists mid :: NameAt(data[..Next(r)], p, mid) && Expands(data, mid, n)
        case _ => true)
  }

  /** Which of `k` requests were kept: their numbers, in order. */
  ghost predicate Rising(kept: seq<nat>, k: nat) {
    && (forall i :: 0 <= i < |kept| ==> kept[i] < k)
    && (forall i, j :: 0 <= i < j < |kept| ==> kept[i] < kept[j])
  }

  function Rank(s: Section): nat {
    match s case QD => 0 case AN => 1 case NS => 2 case AR => 3
  }

  /** The records are asked for in the order of their sections. */
  ghost predicate Sorted(reqs: seq<Request>) {
    forall i, j :: 0 <= i < j < |reqs| ==> Rank(reqs[i].section) <= Rank(reqs[j].section)
  }

  /** The size at which the first `k` records fit even without compression. */
  function NeededBy(reqs: seq<Request>, k: nat): nat
    requires k <= |reqs|
  {
    if k == 0 then HEADER
    else NeededBy(reqs, k - 1) + RecordSize(reqs[k - 1].section.QD?, reqs[k - 1].dn, reqs[k - 1].any)
  }

  function Needed(reqs: seq<Request>): nat {
    NeededBy(reqs, |reqs|)
  }

  lemma {:induction false} NeededRises(reqs: seq<Request>, k: nat, n: nat)
    requires k <= n <= |reqs|
    ensures NeededBy(reqs, k) <= NeededBy(reqs, n)
    decreases n - k
  {
    if k < n {
      NeededRises(reqs, k, n - 1);
    }
  }

  /** In a built packet only the last record decides what may follow. */
  lemma LastDecides(data: Bytes, recs: seq<Rec>, s: Section)
    requires Built(data, recs) && (recs != [] ==> Rank(recs[|recs| - 1].section) <= Rank(s))
    ensures InOrder(CountsOf(data), s)
  {
    var c := CountsOf(data);
    if recs != [] {
      assert SectionAt(c, |recs| - 1) == Some(recs[|recs| - 1].section);
    }
  }

  lemma {:induction false} AllKept(kept: seq<nat>, k: nat)
    requires Rising(kept, k) && |kept| == k
    ensures forall i :: 0 <= i < k ==> kept[i] == i
  {
    if k > 0 {
      var less := kept[..k - 1];
      assert forall i :: 0 <= i < k - 1 ==> less[i] == kept[i] < kept[k - 1];
      assert Rising(less, k - 1);
      AllKept(less, k - 1);
      assert k > 1 ==> kept[k - 2] == less[k - 2] == k - 2;
    }
  }

  /** When nothing was refused so far and the sizes add up, the next record finds order and room. */
  lemma NextFits(data: Bytes, reqs: seq<Request>, kept: seq<nat>, recs: seq<Rec>, k: nat)
    requires k < |reqs| && Sorted(reqs) && Rising(kept, k) && |kept| == k
    requires Built(data, recs) && AnswersAll(data, reqs, kept, recs)
    ensures InOrder(CountsOf(data), reqs[k].section)
    ensures NeededBy(reqs, k + 1) <= Needed(reqs)
    ensures NeededBy(reqs, k + 1) == NeededBy(reqs, k) + RecordSize(reqs[k].section.QD?, reqs[k].dn, reqs[k].any)
  {
    hide RawHolds, Built, InOrder, CountsOf, RecordSize;
    AllKept(kept, k);
    if k > 0 {
      assert Answers(data, reqs[kept[k - 1]], recs[k - 1]);
    }
    LastDecides(data, recs, reqs[k].section);
    NeededRises(reqs, k + 1, |reqs|);
  }

  lemma EmptyHeader(data: Bytes)
    requires Built(data, [])
    ensures |data| == HEADER
  {
  }

  lemma NothingKept(data: Bytes, net: Net, reqs: seq<Request>)
    ensures Rising([], 0) && AnswersAll(data, reqs, [], []) && ReadsAll(data, net, reqs, [], [])
  {
  }

  lemma RisingBelow(kept: seq<nat>, k: nat)
    requires Rising(kept, k)
    ensures forall i :: 0 <= i < |kept| ==> kept[i] < k
    ensures Rising(kept, k + 1) && Rising(kept + [k], k + 1)
  {
  }

  ghost predicate AnswersAll(data: Bytes, reqs: seq<Request>, kept: seq<nat>, recs: seq<Rec>) {
    |recs| == |kept| && forall i :: 0 <= i < |kept| ==> kept[i] < |reqs| && Answers(data, reqs[kept[i]], recs[i])
  }

  ghost predicate ReadsAll(data: Bytes, net: Net, reqs: seq<Request>, kept: seq<nat>, recs: seq<Rec>) {
    |recs| == |kept| && forall i :: 0 <= i < |kept| ==> kept[i] < |reqs| && ReadsOne(data, net, reqs[kept[i]], recs[i])
  }

  ghost predicate NamesAll(data: Bytes, reqs: seq<Request>, kept: seq<nat>, recs: seq<Rec>) {
    |recs| == |kept| && forall i :: 0 <= i < |kept| ==> kept[i] < |reqs| && NamesExpand(data, reqs[kept[i]], recs[i])
  }

  /** What stands in a packet is still there when it has grown. */
  lemma PartSame(data: Bytes, data': Bytes, n: nat)
    requires SameRecords(data, data') && HEADER <= n <= |data|
    ensures SameRecords(data[..n], data'[..n])
  {
    assert data'[HEADER..|data|][..n - HEADER] == data'[HEADER..n] && data[HEADER..][..n - HEADER] == data[HEADER..n];
    assert data[..n][HEADER..] == data[HEADER..n] && data'[..n][HEADER..n] == data'[HEADER..n];
  }

  lemma AnswersLater(data: Bytes, data': Bytes, q: Request, r: Rec)
    requires SameRecords(data, data') && Answers(data, q, r)
    ensures Answers(data', q, r)
  {
    hide RawHolds, NameHolds;
    PartSame(data, data', Next(r));
    if !q.section.QD? {
      HoldsHeader(data[..Next(r)], data'[..Next(r)], map[], RdAt(r), q.any);
    }
  }

  lemma ReadsLater(data: Bytes, data': Bytes, net: Net, net': Net, q: Request, r: Rec)
    requires SameRecords(data, data') && Extends(net, net') && ReadsOne(data, net, q, r)
    ensures ReadsOne(data', net', q, r)
  {
    hide RawHolds, NameHolds, FoldAll, Labels, ValidText;
    var n := Next(r);
    PartSame(data, data', n);
    if !q.section.QD? {
      var p := RdAt(r);
      HoldsHeader(data[..n], data'[..n], net, p, q.any);
      NamesHoldFrom(data'[..n], data'[..n], net, net', p, q.any);
    }
  }

  lemma AnswersMore(data: Bytes, data': Bytes, reqs: seq<Request>, kept: seq<nat>, recs: seq<Rec>, recs': seq<Rec>,
      k: nat)
    requires AnswersAll(data, reqs, kept, recs) && k < |reqs| && SameRecords(data, data')
    requires |recs'| == |recs| + 1 && recs'[..|recs|] == recs && Answers(data', reqs[k], recs'[|recs|])
    ensures AnswersAll(data', reqs, kept + [k], recs')
  {
    hide Answers;
    forall i | 0 <= i < |kept|
      ensures recs'[i] == recs[i] && Answers(data', reqs[kept[i]], recs[i])
    {
      assert recs'[i] == recs'[..|recs|][i];
      AnswersLater(data, data', reqs[kept[i]], recs[i]);
    }
  }

  lemma ReadsMore(data: Bytes, data': Bytes, was: Net, net: Net, reqs: seq<Request>, kept: seq<nat>, recs: seq<Rec>,
      recs': seq<Rec>, k: nat)
    requires ReadsAll(data, was, reqs, kept, recs) && Extends(was, net) && k < |reqs| && SameRecords(data, data')
    requires |recs'| == |recs| + 1 && recs'[..|recs|] == recs && ReadsOne(data', net, reqs[k], recs'[|recs|])
    ensures ReadsAll(data', net, reqs, kept + [k], recs')
  {
    hide ReadsOne, Extends;
    forall i | 0 <= i < |kept|
      ensures recs'[i] == recs[i] && ReadsOne(data', net, reqs[kept[i]], recs[i])
    {
      assert recs'[i] == recs'[..|recs|][i];
      ReadsLater(data, data', was, net, reqs[kept[i]], recs[i]);
    }
  }

  lemma ReadsExpands(data: Bytes, net: Net, p: nat, dn: Bytes)
    requires NetOk(data, net) && ValidText(dn) && Reads(net, p, dn)
    ensures Expands(data, p, dn)
  {
    NodeReads(data, net, p, Labels(dn));
  }

  lemma OneExpands(data: Bytes, net: Net, q: Request, r: Rec)
    requires NetOk(data, net) && ReadsOne(data, net, q, r)
    ensures NamesExpand(data, q, r)
  {
    hide NetOk, Reads, Expands, ValidText, NameAt;
    ReadsExpands(data, net, r.start, q.dn);
    if !q.section.QD? {
      var p := RdAt(r);
      match q.any
      case Host(h) => ReadsExpands(data, net, p, h);
      case Exchange(_, h) => ReadsExpands(data, net, p + 2, h);
      case Authority(m, n, _, _, _, _, _) =>
        ReadsExpands(data, net, p, m);
        var mid :| NameAt(data[..Next(r)], p, mid) && Reads(net, mid, n);
        ReadsExpands(data, net, mid, n);
      case _ =>
    }
  }

  lemma NamesRead(data: Bytes, net: Net, reqs: seq<Request>, kept: seq<nat>, recs: seq<Rec>)
    requires NetOk(data, net) && ReadsAll(data, net, reqs, kept, recs)
    ensures NamesAll(data, reqs, kept, recs)
  {
    hide NetOk, ReadsOne, NamesExpand;
    forall i | 0 <= i < |kept|
      ensures NamesExpand(data, reqs[kept[i]], recs[i])
    {
      OneExpands(data, net, reqs[kept[i]], recs[i]);
    }
  }

  // ---- Names of a whole run ----------------------------------------------------------------

  /** The names of the first `k` requests. */
  ghost function NamesBefore(reqs: seq<Request>, k: nat): set<seq<Label>>
    requires k <= |reqs|
  {
    if k == 0 then {} else NamesBefore(reqs, k - 1) + AllNames(reqs[k - 1].section.QD?, reqs[k - 1].dn, reqs[k - 1].any)
  }

  /** No name is exposed to one in front of it, in its own request or an earlier one. */
  ghost predicate NoneExposedIn(reqs: seq<Request>) {
    forall k: nat {:trigger NamesBefore(reqs, k)} :: k < |reqs| ==>
      Clear(NamesBefore(reqs, k), reqs[k].section.QD?, reqs[k].dn, reqs[k].any)
  }

  lemma FewerExposed(names: set<seq<Label>>, more: set<seq<Label>>, ls: seq<Label>)
    requires names <= more && Unexposed(more, ls)
    ensures Unexposed(names, ls)
  {
  }

  lemma ClearFewer(names: set<seq<Label>>, more: set<seq<Label>>, question: bool, dn: Bytes, any: RData)
    requires names <= more && Clear(more, question, dn, any)
    ensures Clear(names, question, dn, any)
  {
    hide Unexposed, FoldAll, LabelsIn;
    FewerExposed(names, more, LabelsIn(dn));
    if !question {
      var o := {FoldAll(LabelsIn(dn))};
      match any
      case Host(h) => FewerExposed(names + o, more + o, LabelsIn(h));
      case Exchange(_, h) => FewerExposed(names + o, more + o, LabelsIn(h));
      case Authority(m, r, _, _, _, _, _) =>
        var f := {FoldAll(LabelsIn(m))};
        FewerExposed(names + o, more + o, LabelsIn(m));
        FewerExposed(names + o + f, more + o + f, LabelsIn(r));
      case _ =>
    }
  }

  lemma ClearNow(reqs: seq<Request>, k: nat, names: set<seq<Label>>)
    requires NoneExposedIn(reqs) && k < |reqs| && names <= NamesBefore(reqs, k)
    ensures Clear(names, reqs[k].section.QD?, reqs[k].dn, reqs[k].any)
  {
    hide Clear;
    ClearFewer(names, NamesBefore(reqs, k), reqs[k].section.QD?, reqs[k].dn, reqs[k].any);
  }

  lemma NamesNext(reqs: seq<Request>, k: nat)
    requires k < |reqs|
    ensures NamesBefore(reqs, k + 1) == NamesBefore(reqs, k) + AllNames(reqs[k].section.QD?, reqs[k].dn, reqs[k].any)
  {
  }

  lemma BaseNet(data: Bytes, dict: seq<nat>, net: Net)
    requires Base(data, dict, net)
    ensures NetOk(data, net) && Short(net, |data|) && |dict| <= DICT_SIZE
  {
  }

  /** An entry that is a name does not point at the end. */
  lemma SettledInside(data: Bytes, dict: seq<nat>, net: Net)
    requires Base(data, dict, net) && Settled(dict, net)
    ensures |data| !in dict
  {
    hide NetOk;
    NodesInside(data, net);
  }

  /** Names depend on the octets through the net alone. */
  lemma SameNames(data: Bytes, data': Bytes, dict: seq<nat>, net: Net, n: nat)
    requires Base(data, dict, net) && NetOk(data', net) && |data'| == |data|
    ensures Base(data', dict, net) && (Fair(data, dict, net, n) ==> Fair(data', dict, net, n))
  {
    hide Deep, NetOk;
  }

  /** Appending keeps the names. */
  lemma AppendNames(data: Bytes, more: Bytes, dict: seq<nat>, net: Net, n: nat)
    ensures Base(data, dict, net) && Settled(dict, net) ==>
      && Base(data + more, dict, net) && |data| !in dict && |data + more| !in dict
      && (Fair(data, dict, net, n) ==> Fair(data + more, dict, net, n))
  {
    hide Deep, NetOk;
    if Base(data, dict, net) && Settled(dict, net) {
      OctetsBase(data, dict, net, more);
      SettledInside(data, dict, net);
      SettledInside(data + more, dict, net);
    }
  }

  /** Filling in a length keeps the names: no node's octets lie there. */
  lemma NetPatch(pre: Bytes, data: Bytes, data': Bytes, was: Net, net: Net)
    requires NetOk(pre, was) && NetOk(data, net) && Extends(was, net) && NewNodes(was, net, |pre| + 2)
    requires |data'| == |data| >= |pre| + 2 && data[..|pre|] == data'[..|pre|] == pre
      && data'[|pre| + 2..] == data[|pre| + 2..]
    ensures NetOk(data', net)
  {
    assert data' == pre + data'[|pre|..];
    NetExtend(pre, data'[|pre|..], was);
    forall p | p in net
      ensures NodeOk(data', net, p) && Nested(net, p)
    {
      assert NodeOk(data, net, p) && Nested(net, p);
      if p in was {
        assert NodeOk(data', was, p);
      } else {
        NodeMoved(data, data', net, p, |pre| + 2);
      }
    }
  }

  lemma NodeMoved(data: Bytes, data': Bytes, net: Net, p: nat, lo: nat)
    requires p in net && NodeOk(data, net, p) && lo <= p && |data'| == |data| && data'[lo..] == data[lo..]
    ensures NodeOk(data', net, p)
  {
    assert forall i :: lo <= i < |data| ==> data'[i] == data'[lo..][i - lo] == data[lo..][i - lo] == data[i];
    if 0 < data[p] < 0x40 {
      assert data'[p + 1..p + 1 + data[p]] == data[p + 1..p + 1 + data[p]];
    }
  }

  /** Changing the header keeps the names. */
  lemma HeaderNames(data: Bytes, data': Bytes, net: Net)
    requires NetOk(data, net) && (forall p :: p in net ==> p >= HEADER)
    requires |data'| == |data| >= HEADER && data'[HEADER..] == data[HEADER..]
    ensures NetOk(data', net)
  {
    forall p | p in net
      ensures NodeOk(data', net, p) && Nested(net, p)
    {
      assert NodeOk(data, net, p) && Nested(net, p);
      NodeMoved(data, data', net, p, HEADER);
    }
  }

  /** One push in one statement: what dns_d_push relies on and leaves. */
  lemma PushSummary(data: Bytes, dict: seq<nat>, net: Net, n: nat, names: set<seq<Label>>, ls: seq<Label>, lim: nat)
    requires Base(data, dict, net) && ValidName(ls)
    ensures var f := Attempt(data, dict, ls, lim);
      var data' := data + CompWire(data, dict, ls, lim);
      var dict' := DictScan(data', dict, |data|, |data|);
      && Fits(net, ls, f)
      && var net' := Grown(data, net, ls, f);
      && Base(data', dict', net') && Settled(dict', net') && Extends(net, net') && NewNodes(net, net', |data|)
      && |data| in net'
      && |data| < |data'| && NameAt(data', |data|, |data'|)
      && (Fair(data, dict, net, n) && n <= SAFE && Named(dict, net, names) && Unexposed(names, ls) ==>
          && Fair(data', dict', net', Level(n, dict, dict', |data|)) && Named(dict', net', names + {FoldAll(ls)})
          && net'[|data|].whole && Folded(net'[|data|].walk) == FoldAll(ls))
  {
    hide Fair, Named, Unexposed, DictScan, Grown, Attempt, CompWire, NetOk, WireOf, Extends, Settled, FoldAll, Fits,
      Sure, NameAt;
    var f := Attempt(data, dict, ls, lim);
    PushKeeps(data, dict, net, ls, lim);
    AttemptWire(data, dict, ls, lim);
    WireLong(data, dict, ls, lim);
    GrownNew(data, net, ls, f);
    WireShape(data, ls, f);
    if Fair(data, dict, net, n) && n <= SAFE && Named(dict, net, names) && Unexposed(names, ls) {
      PushFair(data, dict, net, n, ls, lim);
      PushNamed(data, dict, net, n, names, ls, lim);
    }
  }

  lemma GrownNew(data: Bytes, net: Net, ls: seq<Label>, f: Found)
    requires NetOk(data, net) && Short(net, |data|) && ValidName(ls) && Fits(net, ls, f)
    ensures NewNodes(net, Grown(data, net, ls, f), |data|)
  {
    GrownOk(data, net, ls, f);
  }

  lemma PrefixWritten(dst: Bytes, ls: seq<Label>, k: nat)
    requires ValidName(ls) && k < |ls| && |Encode(ls)| <= |dst| && dst[..|Encode(ls)|] == Encode(ls)
    ensures Off(ls, k) + 3 <= |Encode(ls)| && dst[..Off(ls, k)] == EncLabels(ls[..k])
  {
    DstLabel(dst, ls, k);
    EncSplit(ls, k);
    var enc, o := Encode(ls), Off(ls, k);
    assert enc[..o] == EncLabels(ls[..k]);
    assert dst[..o] == dst[..|enc|][..o];
  }

  lemma {:induction false} ReplaceFirst(dict: seq<nat>, t: nat, dn: nat, i: nat)
    requires i < |dict| && dict[i] == t && t !in dict[..i]
    ensures Replace(dict, t, dn) == dict[i := dn]
  {
    if dict[0] == t {
      assert i == 0;
      assert [dn] + dict[1..] == dict[0 := dn];
    } else {
      assert dict[1..][..i - 1] == dict[..i][1..];
      ReplaceFirst(dict[1..], t, dn, i - 1);
      assert [dict[0]] + dict[1..][i - 1 := dn] == dict[i := dn];
    }
  }

  ghost predicate NewNodes(net: Net, net': Net, lo: nat) {
    forall p :: p in net' && p !in net ==> p >= lo
  }

  lemma {:induction false} NameLabels(data: Bytes, lp: nat, own: seq<Label>, q: nat)
    requires ValidName(own) && lp + |EncLabels(own)| <= |data| && data[lp..lp + |EncLabels(own)|] == EncLabels(own)
    requires NameAt(data, lp + |EncLabels(own)|, q)
    ensures NameAt(data, lp, q)
    decreases |own|
  {
    if own != [] {
      EncHead(data, lp, own);
      NameLabels(data, lp + 1 + |own[0]|, own[1..], q);
    }
  }

  /** Every encoding is labels closed by a root octet or a pointer. */
  lemma WireShape(data: Bytes, ls: seq<Label>, f: Found)
    requires ValidName(ls)
    ensures NameAt(data + WireOf(ls, f), |data|, |data + WireOf(ls, f)|)
  {
    var wire := WireOf(ls, f);
    var data' := data + wire;
    var own := if f.FoundAt? && f.k <= |ls| && f.tail != [] then ls[..f.k] else ls;
    var enc := EncLabels(own);
    assert wire[..|enc|] == enc;
    assert data'[|data|..|data| + |enc|] == wire[..|enc|];
    assert data'[|data| + |enc|] == wire[|enc|];
    NameLabels(data', |data|, own, |data'|);
  }

  /** The first label of a name, or of an entry that points at the end. */
  lemma FirstLabel(data: Bytes, net: Net, p: nat)
    requires NetOk(data, net) && (p in net || p == |data|)
    ensures var s := LExpand(data, p, 0);
      if s.Stop? then WalkAt(net, p) == []
      else && p in net && net[p].walk != [] && net[p].walk[0] == At(p, s.lab)
           && s.next in net && net[p].walk[1..] == net[s.next].walk
  {
    NodesInside(data, net);
    if p in net {
      Readable(data, net, p);
      LExpandNode(data, net, p, 0);
    }
  }

  lemma NoPieces(pk: Pkt, size: nat)
    ensures Tries(pk, size, []) == pk
  {
  }

  lemma SecondPiece(a: seq<Label>, b: seq<Label>)
    ensures [Piece(2, a)] + [Piece(0, a), Piece(0, b)][1..] == [Piece(2, a), Piece(0, b)]
  {
  }

  lemma OffZero(ls: seq<Label>)
    ensures Off(ls, 0) == 0
  {
  }

  lemma MatchedStart(ls: seq<Label>, k: nat, w: seq<At>, net: Net, cur: Cursor, b: Step)
    requires k < |ls| && b.Go? && w != [] && b.lab == w[0].lab && b.next in net && net[b.next].walk == w[1..]
    ensures Matched(ls, k, w, net, cur, 0, cur, Have(b.lab), Off(ls, k + 1), b.next)
  {
  }

  lemma MatchedBound(ls: seq<Label>, k: nat, w: seq<At>, net: Net, cur: Cursor, t: nat, a: Cursor, b: Cursor, aq: nat,
      bq: nat)
    requires Matched(ls, k, w, net, cur, t, a, b, aq, bq) && b.Have?
    ensures t < |w|
  {
  }

  /** The innermost loop of dns_d_comp, after `t` rounds, from label `k` of `ls` and the walk `w`. */
  ghost predicate Matched(ls: seq<Label>, k: nat, w: seq<At>, net: Net, cur: Cursor, t: nat, a: Cursor, b: Cursor,
      aq: nat, bq: nat) {
    && k < |ls| && t <= |w| && w != [] && k + t <= |ls|
    && b == (if t < |w| then Have(w[t].lab) else Ended)
    && (t < |w| ==> bq in net && net[bq].walk == w[t + 1..])
    && (k + t < |ls| ==> aq == Off(ls, k + t + 1))
    && (if t == 0 then a == cur
        else
          && cur.Have? && Fold(cur.lab) == Fold(w[0].lab)
          && a == (if k + t < |ls| then Have(ls[k + t]) else Ended)
          && forall i :: 1 <= i < t ==> Fold(ls[k + i]) == Fold(w[i].lab))
  }

  /** What the innermost loop leaves behind. */
  ghost predicate MatchResult(rest: seq<Label>, w: seq<At>, cur: Cursor, cur': Cursor, ended: bool)
    requires w != []
  {
    if cur.Have? && Fold(cur.lab) == Fold(w[0].lab) then
      var m := Common(rest, w[1..]);
      cur' == (if m < |rest| then Have(rest[m]) else Ended) && (ended <==> m == |w| - 1)
    else
      cur' == cur && !ended
  }

  lemma MatchedDone(ls: seq<Label>, k: nat, w: seq<At>, net: Net, cur: Cursor, t: nat, a: Cursor, b: Cursor, aq: nat,
      bq: nat)
    requires Matched(ls, k, w, net, cur, t, a, b, aq, bq)
    requires !(a.Have? && b.Have? && Fold(a.lab) == Fold(b.lab))
    ensures MatchResult(ls[k + 1..], w, cur, a, b.Ended?)
  {
    if t > 0 {
      var rest, tail := ls[k + 1..], w[1..];
      assert forall i :: 0 <= i < t - 1 ==> rest[i] == ls[k + 1 + i] && tail[i] == w[i + 1];
      CommonIs(rest, tail, t - 1);
    }
  }

  lemma MatchedNext(ls: seq<Label>, k: nat, w: seq<At>, net: Net, cur: Cursor, t: nat, a: Cursor, b: Cursor,
      aq: nat, bq: nat, P: Bytes, dst: Bytes)
    requires Matched(ls, k, w, net, cur, t, a, b, aq, bq)
    requires a.Have? && b.Have? && Fold(a.lab) == Fold(b.lab)
    requires NetOk(P, net)
    requires ValidName(ls) && |Encode(ls)| <= |dst| && dst[..|Encode(ls)|] == Encode(ls)
    ensures var (a', aq') := Advance(LExpand(dst, aq, 0), aq);
      var (b', bq') := Advance(LExpand(P, bq, 0), bq);
      Matched(ls, k, w, net, cur, t + 1, a', b', aq', bq')
  {
    hide LExpand, NetOk, Encode, Off, Fold;
    assert k + t < |ls| && t < |w|;
    DstLabel(dst, ls, k + t + 1);
    FirstLabel(P, net, bq);
    assert w[t + 1..] != [] ==> w[t + 1..][0] == w[t + 1] && w[t + 1..][1..] == w[t + 2..];
  }

  /** One more call of dns_l_expand on either side. */
  function Advance(s: Step, at: nat): (Cursor, nat) {
    match s
    case Stop => (Ended, at)
    case Go(l, next) => (Have(l), next)
  }

  /** The state of the encoding loop: whole labels, the octet kept free for a length, and part of a label. */
  ghost predicate Pending(dn: Bytes, sp: nat, sx: nat, done: seq<Label>, out: Bytes, dp: nat) {
    && sp <= sx <= |dn| && DOT !in dn[sp..sx]
    && done + Split(dn[sp..]) == Split(dn)
    && dp == |EncLabels(done)| && dp < |out|
    && out == EncLabels(done) + [out[dp]] + dn[sp..sx]
  }

  lemma PendingStart(dn: Bytes)
    ensures Pending(dn, 0, 0, [], [0], 0)
  {
    assert dn[0..] == dn;
  }

  lemma PendingOctet(dn: Bytes, sp: nat, sx: nat, done: seq<Label>, out: Bytes, dp: nat)
    requires Pending(dn, sp, sx, done, out, dp) && sx < |dn| && dn[sx] != DOT
    ensures Pending(dn, sp, sx + 1, done, out + [dn[sx]], dp)
  {
    assert dn[sp..sx + 1] == dn[sp..sx] + [dn[sx]];
  }

  lemma PendingDot(dn: Bytes, sp: nat, sx: nat, done: seq<Label>, out: Bytes, dp: nat)
    requires Pending(dn, sp, sx, done, out, dp) && sx < |dn| && dn[sx] == DOT
    ensures Pending(dn, sx + 1, sx + 1, done + [dn[sp..sx]], out[dp := (sx - sp) % 0x40] + [0], |out|)
  {
    hide Split, EncLabels;
    var l, out' := dn[sp..sx], out[dp := (sx - sp) % 0x40];
    SplitNext(dn, sp, sx, done);
    FillLength(done, l, out, dp);
    assert out' + [0] == EncLabels(done + [l]) + [(out' + [0])[|out|]] + dn[sx + 1..sx + 1];
  }

  lemma SplitNext(dn: Bytes, sp: nat, sx: nat, done: seq<Label>)
    requires sp <= sx < |dn| && dn[sx] == DOT && DOT !in dn[sp..sx] && done + Split(dn[sp..]) == Split(dn)
    ensures done + [dn[sp..sx]] + Split(dn[sx + 1..]) == Split(dn)
  {
    hide Split;
    var l, rest, after := dn[sp..sx], dn[sp..], dn[sx + 1..];
    RestOf(dn, sp, sx);
    SplitDot(rest, sx - sp);
    Assoc(done, [l], Split(after));
  }

  lemma RestOf(s: Bytes, a: nat, b: nat)
    requires a <= b < |s|
    ensures s[a..][..b - a] == s[a..b] && s[a..][b - a] == s[b] && s[a..][b - a + 1..] == s[b + 1..]
  {
  }

  lemma FillLength(done: seq<Label>, l: Label, out: Bytes, dp: nat)
    requires dp == |EncLabels(done)| && dp < |out| && out == EncLabels(done) + [out[dp]] + l
    ensures out[dp := |l| % 0x40] == EncLabels(done + [l])
  {
    EncSnoc(done, l);
  }

  /** At the end of the text, closing the last label and the name gives the plain encoding. */
  lemma PendingEnd(dn: Bytes, sp: nat, done: seq<Label>, out: Bytes, dp: nat)
    requires Pending(dn, sp, |dn|, done, out, dp) && ValidText(dn)
    ensures dp < |out|
    ensures if sp < |dn| then out[dp := (|dn| - sp) % 0x40] + [0] == Encode(Labels(dn)) && |out| > 1
            else && dp + 1 == |out| && dp > 0
                 && if dp > 1 then out[..dp] + [0] == Encode(Labels(dn)) else out[..dp] == Encode(Labels(dn))
  {
    var l := dn[sp..];
    if sp < |dn| {
      SplitLast(l);
      FillLength(done, l, out, dp);
      assert dn != [DOT];
    } else {
      assert done == Split(dn);
      assert out[..dp] == EncLabels(done);
      if dn == [DOT] {
        SplitDot(dn, 0);
        assert EncLabels(done) == [0];
      } else {
        assert ValidLabel(done[0]);
        assert |EncLabels(done)| >= 1 + |done[0]|;
      }
    }
  }

  lemma SplitDot(s: Bytes, i: nat)
    requires i < |s| && s[i] == DOT && DOT !in s[..i]
    ensures Split(s) == [s[..i]] + Split(s[i + 1..])
  {
    FirstDotIs(s, i);
  }

  lemma {:induction false} FirstDotIs(s: Bytes, i: nat)
    requires i < |s| && s[i] == DOT && DOT !in s[..i]
    ensures FirstDot(s) == i
  {
    if s[0] != DOT {
      assert s[1..][..i - 1] == s[..i][1..];
      FirstDotIs(s[1..], i - 1);
    }
  }

  lemma SplitLast(s: Bytes)
    requires s != [] && DOT !in s
    ensures Split(s) == [s]
  {
    var j := FirstDot(s);
    assert j == |s| && s[..j] == s && s[|s|..] == [];
  }

  lemma EncSnoc(ls: seq<Label>, l: Label)
    ensures EncLabels(ls + [l]) == EncLabels(ls) + [|l| % 0x40] + l
  {
    EncSplit(ls + [l], |ls|);
    assert (ls + [l])[..|ls|] == ls && (ls + [l])[|ls|..] == [l] && EncLabels([l]) == [|l| % 0x40] + l;
  }
}
