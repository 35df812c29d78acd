/**
 * Requests on a bus: a 16-bit count of parts, then each part behind its 32-bit length. The server
 * takes a request apart as it arrives, keeping what it has between arrivals.
 */
module BusFraming {
  import opened SocketPad
  import opened Wire

  // ---- The frame ---------------------------------------------------------------------

  function Part(p: Bytes): Bytes {
    Put32(|p|) + p
  }

  function Parts(ps: seq<Bytes>): Bytes {
    if ps == [] then [] else Parts(ps[..|ps| - 1]) + Part(ps[|ps| - 1])
  }

  function Frame(ps: seq<Bytes>): Bytes {
    Put16(|ps|) + Parts(ps)
  }

  /** What a client can send: one request part and attachments, the count in 16 bits, each length in 32. */
  ghost predicate Sendable(ps: seq<Bytes>) {
    0 < |ps| < 0x1_0000 && forall i :: 0 <= i < |ps| ==> |ps[i]| < 0x1_0000_0000
  }

  // ---- Taking it apart -----------------------------------------------------------------

  /** pad.data: the count once it is known, the lengths popped so far, and the parts. */
  datatype Data = Data(count: Option<nat>, lens: seq<nat>, parts: seq<Bytes>)

  const NOTHING := Data(None, [], [])

  ghost predicate Sound(d: Data) {
    && |d.parts| <= |d.lens| <= |d.parts| + 1
    && (d.count.None? ==> d.lens == []) && (d.count.Some? ==> |d.lens| <= d.count.value)
  }

  predicate Complete(d: Data) {
    d.count.Some? && |d.parts| == d.count.value
  }

  /** The next count, length or part that the buffer has room for. */
  function PopOne(d: Data, buffer: Bytes): Option<(Data, Bytes)> {
    if d.count.None? then
      if |buffer| < 2 then None else Some((d.(count := Some(Get16(buffer, 0))), buffer[2..]))
    else if |d.parts| >= d.count.value then None
    else if |d.lens| <= |d.parts| then
      if |buffer| < 4 then None else Some((d.(lens := d.lens + [Get32(buffer, 0)]), buffer[4..]))
    else
      var len := d.lens[|d.parts|];
      if |buffer| < len then None else Some((d.(parts := d.parts + [buffer[..len]]), buffer[len..]))
  }

  /** How much is left to pop. */
  function Left(d: Data): nat {
    if d.count.None? then 0x2_0001
    else
      (if d.count.value < |d.parts| then 0 else d.count.value - |d.parts|)
      + if d.count.value < |d.lens| then 0 else d.count.value - |d.lens|
  }

  lemma PopOneLess(d: Data, buffer: Bytes)
    requires Sound(d) && PopOne(d, buffer).Some?
    ensures Sound(PopOne(d, buffer).value.0) && Left(PopOne(d, buffer).value.0) < Left(d)
  {
  }

  function PopAll(d: Data, buffer: Bytes): (Data, Bytes)
    requires Sound(d)
    decreases Left(d)
  {
    match PopOne(d, buffer)
    case None => (d, buffer)
    case Some(next) =>
      PopOneLess(d, buffer);
      PopAll(next.0, next.1)
  }

  // ---- How the frame is cut does not matter ------------------------------------------------

  lemma PopOneMore(d: Data, buffer: Bytes, more: Bytes)
    requires Sound(d) && PopOne(d, buffer).Some?
    ensures PopOne(d, buffer + more) == Some((PopOne(d, buffer).value.0, PopOne(d, buffer).value.1 + more))
  {
    var whole := buffer + more;
    if d.count.None? {
      assert whole[2..] == buffer[2..] + more;
    } else if |d.lens| <= |d.parts| {
      assert whole[4..] == buffer[4..] + more;
    } else {
      var len := d.lens[|d.parts|];
      assert whole[len..] == buffer[len..] + more && whole[..len] == buffer[..len];
    }
  }

  /** Popping what has arrived and going on later is the same as popping everything at once. */
  lemma {:induction false} PopResumes(d: Data, buffer: Bytes, more: Bytes)
    requires Sound(d)
    ensures Sound(PopAll(d, buffer).0)
    ensures PopAll(d, buffer + more) == PopAll(PopAll(d, buffer).0, PopAll(d, buffer).1 + more)
    decreases Left(d)
  {
    if PopOne(d, buffer).Some? {
      PopOneLess(d, buffer);
      PopOneMore(d, buffer, more);
      PopResumes(PopOne(d, buffer).value.0, PopOne(d, buffer).value.1, more);
    }
  }

  lemma CompleteStays(d: Data, buffer: Bytes)
    requires Sound(d) && Complete(d)
    ensures PopAll(d, buffer) == (d, buffer)
  {
  }

  // ---- Round trip -----------------------------------------------------------------------

  /** The first `k` parts of `ps` have been popped. */
  ghost function Popped(ps: seq<Bytes>, k: nat): Data
    requires k <= |ps|
  {
    Data(Some(|ps|), Lens(ps[..k]), ps[..k])
  }

  ghost function Lens(ps: seq<Bytes>): (r: seq<nat>)
    ensures |r| == |ps|
  {
    seq(|ps|, i requires 0 <= i < |ps| => |ps[i]|)
  }

  /** The rest of a frame behind its first `k` parts. */
  ghost function Tail(ps: seq<Bytes>, k: nat): Bytes
    requires k <= |ps|
    decreases |ps| - k
  {
    if k == |ps| then [] else Part(ps[k]) + Tail(ps, k + 1)
  }

  lemma {:induction false} PartsTail(ps: seq<Bytes>, k: nat)
    requires k <= |ps|
    ensures Parts(ps) == Parts(ps[..k]) + Tail(ps, k)
    decreases |ps| - k
  {
    if k == |ps| {
      assert ps[..k] == ps;
    } else {
      PartsTail(ps, k + 1);
      assert ps[..k + 1][..k] == ps[..k];
      Assoc(Parts(ps[..k]), Part(ps[k]), Tail(ps, k + 1));
    }
  }

  lemma FrameTail(ps: seq<Bytes>)
    ensures Frame(ps) == Put16(|ps|) + Tail(ps, 0)
  {
    PartsTail(ps, 0);
    assert ps[..0] == [];
  }

  lemma PopLength(d: Data, p: Bytes, rest: Bytes)
    requires d.count.Some? && |d.lens| == |d.parts| < d.count.value && |p| < 0x1_0000_0000
    ensures PopOne(d, Part(p) + rest) == Some((d.(lens := d.lens + [|p|]), p + rest))
  {
    var buffer := Part(p) + rest;
    Assoc(Put32(|p|), p, rest);
    assert buffer[..4] == Put32(|p|) && buffer[4..] == p + rest;
    Get32Put32(buffer, 0, |p|);
  }

  lemma PopPart(ps: seq<Bytes>, k: nat, rest: Bytes)
    requires Sendable(ps) && k < |ps|
    ensures Sound(Popped(ps, k)) && Sound(Popped(ps, k + 1))
    ensures PopAll(Popped(ps, k), Part(ps[k]) + rest) == PopAll(Popped(ps, k + 1), rest)
  {
    hide PopAll, Part;
    var d, p := Popped(ps, k), ps[k];
    PopLength(d, p, rest);
    var d1 := d.(lens := d.lens + [|p|]);
    Unfinished(d, Part(p) + rest);
    ConcatParts(p, rest);
    assert Lens(ps[..k + 1]) == Lens(ps[..k]) + [|p|] && ps[..k + 1] == ps[..k] + [p];
    assert PopOne(d1, p + rest) == Some((Popped(ps, k + 1), rest));
    Unfinished(d1, p + rest);
  }

  lemma {:induction false} PopTail(ps: seq<Bytes>, k: nat, rest: Bytes)
    requires Sendable(ps) && k <= |ps|
    ensures Sound(Popped(ps, k)) && PopAll(Popped(ps, k), Tail(ps, k) + rest) == (Popped(ps, |ps|), rest)
    decreases |ps| - k
  {
    hide PopAll, PopOne;
    if k == |ps| {
      assert Tail(ps, k) + rest == rest;
      CompleteStays(Popped(ps, k), rest);
    } else {
      Assoc(Part(ps[k]), Tail(ps, k + 1), rest);
      PopPart(ps, k, Tail(ps, k + 1) + rest);
      PopTail(ps, k + 1, rest);
    }
  }

  /** A whole frame, with anything behind it, pops to exactly the parts sent, and leaves the rest. */
  lemma FramePops(ps: seq<Bytes>, rest: Bytes)
    requires Sendable(ps)
    ensures PopAll(NOTHING, Frame(ps) + rest) == (Popped(ps, |ps|), rest) && Popped(ps, |ps|).parts == ps
  {
    hide PopAll, Parts;
    FrameTail(ps);
    var buffer := Frame(ps) + rest;
    Assoc(Put16(|ps|), Tail(ps, 0), rest);
    assert buffer[..2] == Put16(|ps|) && buffer[2..] == Tail(ps, 0) + rest;
    Get16Put16(buffer, 0, |ps|);
    assert Popped(ps, 0) == Data(Some(|ps|), [], []);
    assert PopOne(NOTHING, buffer) == Some((Popped(ps, 0), Tail(ps, 0) + rest));
    Unfinished(NOTHING, buffer);
    PopTail(ps, 0, rest);
    assert ps[..|ps|] == ps;
  }

  /** Before its last octet nothing is complete. */
  lemma NotBefore(ps: seq<Bytes>, part: Bytes)
    requires Sendable(ps) && part < Frame(ps)
    ensures Sound(PopAll(NOTHING, part).0) && !Complete(PopAll(NOTHING, part).0)
  {
    hide PopAll, Frame;
    var more := Frame(ps)[|part|..];
    assert part + more == Frame(ps) && more != [];
    PopResumes(NOTHING, part, more);
    var (d, buffer) := PopAll(NOTHING, part);
    FramePops(ps, []);
    assert Frame(ps) + [] == Frame(ps);
    if Complete(d) {
      CompleteStays(d, buffer + more);
    }
  }

  /** The server's side of a request that arrives in pieces: nothing until all of it is there, then the parts. */
  lemma Arrives(ps: seq<Bytes>, arrived: Bytes, whole: Bytes, surplus: Bytes)
    requires Sendable(ps) && whole == Frame(ps) + surplus && arrived <= whole
    ensures Sound(PopAll(NOTHING, arrived).0)
    ensures Complete(PopAll(NOTHING, arrived).0) <==> |arrived| >= |Frame(ps)|
    ensures Complete(PopAll(NOTHING, arrived).0) ==>
      PopAll(NOTHING, arrived).0.parts == ps && PopAll(NOTHING, arrived).1 + whole[|arrived|..] == surplus
  {
    hide PopAll, Frame;
    var f := Frame(ps);
    PrefixCovers(arrived, f, surplus);
    if |arrived| < |f| {
      NotBefore(ps, arrived);
    } else {
      FramePops(ps, arrived[|f|..]);
      PopResumes(NOTHING, arrived, []);
    }
  }

  // ---- One arrival after another -------------------------------------------------------------

  /** What comes of a connection: the request, the octets left in the buffer, and the pieces left to read. */
  datatype Served = Served(request: Option<seq<Bytes>>, buffer: Bytes, unread: seq<Bytes>)

  /** Reads piece after piece, popping what it can after each; an empty piece is the end of the stream. */
  ghost function Serve(d: Data, buffer: Bytes, pieces: seq<Bytes>): Served
    requires Sound(d)
    decreases |pieces|
  {
    if pieces == [] || pieces[0] == [] then Served(None, buffer, if pieces == [] then [] else pieces[1..])
    else
      PopResumes(d, buffer + pieces[0], []);
      var (d', buffer') := PopAll(d, buffer + pieces[0]);
      if Complete(d') then Served(Some(d'.parts), buffer', pieces[1..])
      else Serve(d', buffer', pieces[1..])
  }

  /** From what has been seen of a request to the end of it. */
  lemma {:induction false} ServeFrom(ps: seq<Bytes>, surplus: Bytes, seen: Bytes, pieces: seq<Bytes>)
    requires Sendable(ps) && [] !in pieces && |seen| < |Frame(ps)| && seen + Concat(pieces) == Frame(ps) + surplus
    ensures Sound(PopAll(NOTHING, seen).0)
    ensures var r := Serve(PopAll(NOTHING, seen).0, PopAll(NOTHING, seen).1, pieces);
      r.request == Some(ps) && r.buffer + Concat(r.unread) == surplus
    decreases |pieces|
  {
    hide PopAll, Frame;
    var whole := Frame(ps) + surplus;
    Arrives(ps, seen, whole, surplus);
    assert pieces != [];
    var more := pieces[0];
    Assoc(seen, more, Concat(pieces[1..]));
    PopResumes(NOTHING, seen, more);
    Arrives(ps, seen + more, whole, surplus);
    if |seen + more| < |Frame(ps)| {
      ServeFrom(ps, surplus, seen + more, pieces[1..]);
    } else {
      assert whole[|seen + more|..] == Concat(pieces[1..]);
    }
  }

  /**
   * Whatever pieces a request and what follows it arrive in, exactly its parts come out, and what follows is
   * still there.
   */
  lemma ArrivesInPieces(ps: seq<Bytes>, surplus: Bytes, pieces: seq<Bytes>)
    requires Sendable(ps) && [] !in pieces && Concat(pieces) == Frame(ps) + surplus
    ensures var r := Serve(NOTHING, [], pieces); r.request == Some(ps) && r.buffer + Concat(r.unread) == surplus
  {
    hide Frame, Serve;
    PopNothing();
    FrameLong(ps);
    assert [] + Concat(pieces) == Concat(pieces);
    ServeFrom(ps, surplus, [], pieces);
  }

  lemma PopNothing()
    ensures PopAll(NOTHING, []) == (NOTHING, [])
  {
  }

  lemma FrameLong(ps: seq<Bytes>)
    ensures |Frame(ps)| >= 2
  {
  }

  lemma {:induction false} WaitFrom(ps: seq<Bytes>, seen: Bytes, pieces: seq<Bytes>)
    requires Sendable(ps) && [] !in pieces && seen + Concat(pieces) < Frame(ps)
    ensures Sound(PopAll(NOTHING, seen).0)
    ensures var r := Serve(PopAll(NOTHING, seen).0, PopAll(NOTHING, seen).1, pieces);
      r.request == None && r.unread == []
    decreases |pieces|
  {
    hide PopAll, Frame;
    PopResumes(NOTHING, seen, []);
    if pieces != [] {
      var more := pieces[0];
      Assoc(seen, more, Concat(pieces[1..]));
      PopResumes(NOTHING, seen, more);
      assert seen + more < Frame(ps) by {
        PrefixStart(seen + more, Concat(pieces[1..]), Frame(ps));
      }
      NotBefore(ps, seen + more);
      WaitFrom(ps, seen + more, pieces[1..]);
    }
  }

  lemma PrefixStart(a: Bytes, b: Bytes, whole: Bytes)
    requires a + b < whole
    ensures a < whole
  {
    assert a == (a + b)[..|a|];
  }

  /** Pieces that stop short of the last octet yield nothing, however they are cut. */
  lemma WaitsForMore(ps: seq<Bytes>, pieces: seq<Bytes>)
    requires Sendable(ps) && [] !in pieces && Concat(pieces) < Frame(ps)
    ensures Serve(NOTHING, [], pieces).request == None && Serve(NOTHING, [], pieces).unread == []
  {
    hide Frame, Serve;
    PopNothing();
    assert [] + Concat(pieces) == Concat(pieces);
    WaitFrom(ps, [], pieces);
  }

  // ---- The client --------------------------------------------------------------------------

  /** client:send_request, once the request was turned into its parts. */
  method SendRequest(pad: Pad, ps: seq<Bytes>)
    requires pad.Within() && ps != []
    modifies pad`sendBuffer, pad.socket`sent, pad.socket`takes
    ensures pad.Within() && pad.Given() == old(pad.Given()) + Frame(ps) && pad.sendBuffer == []
  {
    pad.Send(Put16(|ps|), true);
    assert Parts(ps[..0]) == [];
    var i := 0;
    while i < |ps|
      invariant i <= |ps| && pad.Within() && (i > 0 ==> pad.sendBuffer == [])
      invariant pad.Given() == old(pad.Given()) + Put16(|ps|) + Parts(ps[..i])
    {
      ghost var before := old(pad.Given()) + Put16(|ps|);
      SendPart(pad, ps[i]);
      assert ps[..i + 1][..i] == ps[..i];
      Assoc(before, Parts(ps[..i]), Part(ps[i]));
      i := i + 1;
    }
    assert ps[..i] == ps;
    Assoc(old(pad.Given()), Put16(|ps|), Parts(ps));
  }

  /** send_part: the length waits in the buffer for the part. */
  method SendPart(pad: Pad, p: Bytes)
    requires pad.Within()
    modifies pad`sendBuffer, pad.socket`sent, pad.socket`takes
    ensures pad.Within() && pad.Given() == old(pad.Given()) + Part(p) && pad.sendBuffer == []
  {
    pad.Send(Put32(|p|), true);
    Assoc(old(pad.Given()), Put32(|p|), p);
    pad.Send(p, false);
  }

  // ---- The server --------------------------------------------------------------------------

  /** A connection to the server, with what was popped from it so far. */
  class Request {
    const pad: Pad
    var count: Option<nat>
    var lens: seq<nat>
    var parts: seq<Bytes>

    ghost function View(): Data
      reads this
    {
      Data(count, lens, parts)
    }

    constructor (pad: Pad)
      ensures this.pad == pad && View() == NOTHING
    {
      this.pad := pad;
      count, lens, parts := None, [], [];
    }

    /** pop_num_parts. */
    method PopCount() returns (ok: bool)
      requires count.None? && Sound(View())
      modifies this`count, pad`recvBuffer, pad.socket`incoming
      ensures pad.socket.incoming == old(pad.socket.incoming)
      ensures if ok then PopOne(old(View()), old(pad.recvBuffer)) == Some((View(), pad.recvBuffer))
              else && PopOne(old(View()), old(pad.recvBuffer)).None?
                   && View() == old(View()) && pad.recvBuffer == old(pad.recvBuffer)
      ensures ok <==> count.Some?
    {
      ok := |pad.recvBuffer| >= 2;
      if ok {
        ghost var before := pad.recvBuffer;
        var data, _ := pad.Recv(2);
        Took(before, data, pad.recvBuffer, Concat(pad.socket.incoming), 2);
        count := Some(Get16(data, 0));
      }
    }

    /** pop_part_len. */
    method PopLen() returns (ok: bool)
      requires count.Some? && Sound(View()) && |lens| == |parts| < count.value
      modifies this`lens, pad`recvBuffer, pad.socket`incoming
      ensures pad.socket.incoming == old(pad.socket.incoming)
      ensures if ok then PopOne(old(View()), old(pad.recvBuffer)) == Some((View(), pad.recvBuffer))
              else && PopOne(old(View()), old(pad.recvBuffer)).None?
                   && View() == old(View()) && pad.recvBuffer == old(pad.recvBuffer)
      ensures ok ==> |lens| == |parts| + 1
    {
      ok := |pad.recvBuffer| >= 4;
      if ok {
        ghost var before := pad.recvBuffer;
        var data, _ := pad.Recv(4);
        Took(before, data, pad.recvBuffer, Concat(pad.socket.incoming), 4);
        lens := lens + [Get32(data, 0)];
      }
    }

    /** pop_part_data. */
    method PopData() returns (ok: bool)
      requires count.Some? && Sound(View()) && |parts| < |lens| && |parts| < count.value
      modifies this`parts, pad`recvBuffer, pad.socket`incoming
      ensures pad.socket.incoming == old(pad.socket.incoming)
      ensures if ok then PopOne(old(View()), old(pad.recvBuffer)) == Some((View(), pad.recvBuffer))
              else && PopOne(old(View()), old(pad.recvBuffer)).None?
                   && View() == old(View()) && pad.recvBuffer == old(pad.recvBuffer)
      ensures ok ==> |parts| == old(|parts|) + 1
    {
      var len := lens[|parts|];
      ok := |pad.recvBuffer| >= len;
      if ok {
        ghost var before := pad.recvBuffer;
        var data, _ := pad.Recv(len);
        Took(before, data, pad.recvBuffer, Concat(pad.socket.incoming), len);
        parts := parts + [data];
      }
    }

    /** pop_full_request. It never waits for the socket. */
    method PopFullRequest() returns (r: Option<seq<Bytes>>)
      requires Sound(View())
      modifies this`count, this`lens, this`parts, pad`recvBuffer, pad.socket`incoming
      ensures pad.socket.incoming == old(pad.socket.incoming)
      ensures Sound(View()) && (View(), pad.recvBuffer) == PopAll(old(View()), old(pad.recvBuffer))
      ensures r == if Complete(View()) then Some(parts) else None
    {
      hide PopOne;
      if count.None? {
        Unfinished(View(), pad.recvBuffer);
        var ok := PopCount();
        if !ok {
          return None;
        }
      }
      var i := 0;
      while i < count.value
        invariant count.Some? && Sound(View()) && i <= |parts| <= count.value
          && pad.socket.incoming == old(pad.socket.incoming)
        invariant PopAll(View(), pad.recvBuffer) == PopAll(old(View()), old(pad.recvBuffer))
        decreases count.value - i
      {
        Unfinished(View(), pad.recvBuffer);
        if |lens| <= i {
          var ok := PopLen();
          if !ok {
            return None;
          }
        }
        Unfinished(View(), pad.recvBuffer);
        if |parts| <= i {
          var ok := PopData();
          if !ok {
            return None;
          }
        }
        i := i + 1;
      }
      CompleteStays(View(), pad.recvBuffer);
      r := Some(parts);
    }

    /** server:recv_request, for one connection: reads what arrives until a request is complete, or the stream ends. */
    method RecvRequest() returns (r: Option<seq<Bytes>>)
      requires Sound(View())
      modifies this`count, this`lens, this`parts, pad`recvBuffer, pad.socket`incoming
      ensures Sound(View())
      ensures Served(r, pad.recvBuffer, pad.socket.incoming)
        == Serve(old(View()), old(pad.recvBuffer), old(pad.socket.incoming))
    {
      r := None;
      while true
        invariant r == None && Sound(View())
        invariant Serve(View(), pad.recvBuffer, pad.socket.incoming)
          == Serve(old(View()), old(pad.recvBuffer), old(pad.socket.incoming))
        decreases |pad.socket.incoming|
      {
        ghost var before, coming := pad.recvBuffer, pad.socket.incoming;
        var data := pad.RecvOnce();
        if data == [] {
          assert pad.recvBuffer == before;
          break;
        }
        r := PopFullRequest();
        if r.Some? {
          break;
        }
      }
    }
  }

  lemma Took(before: Bytes, data: Bytes, after: Bytes, coming: Bytes, n: nat)
    requires data + after + coming == before + coming && |data| == n <= |before|
    ensures data == before[..n] && after == before[n..]
  {
    assert data + after == before by {
      assert data + after == (data + after + coming)[..|before|];
      assert before == (before + coming)[..|before|];
    }
  }

  lemma Unfinished(d: Data, buffer: Bytes)
    requires Sound(d)
    ensures match PopOne(d, buffer)
      case None => PopAll(d, buffer) == (d, buffer)
      case Some(next) => Sound(next.0) && PopAll(d, buffer) == PopAll(next.0, next.1)
  {
    if PopOne(d, buffer).Some? {
      PopOneLess(d, buffer);
    }
  }
}
