/** A socket with a buffer in front of each direction. */
module SocketPad {
  import opened Wire

  /**
   * A connected socket: what it has sent, how much each coming send will take before it returns the
   * rest, and what its coming reads will return. An empty read is the end of the stream.
   */
  class Socket {
    var sent: Bytes
    var takes: seq<nat>
    var incoming: seq<Bytes>

    constructor (takes: seq<nat>, incoming: seq<Bytes>)
      ensures sent == [] && this.takes == takes && this.incoming == incoming
    {
      sent, this.takes, this.incoming := [], takes, incoming;
    }

    /** Sends a prefix, and returns what is left of the data, if anything is. */
    method Send(data: Bytes) returns (left: Option<Bytes>)
      modifies this`sent, this`takes
      ensures sent + (if left.Some? then left.value else []) == old(sent) + data
      ensures |takes| <= |old(takes)| && (left.Some? ==> |takes| < |old(takes)|)
    {
      var n := if takes == [] || takes[0] > |data| then |data| else takes[0];
      sent := sent + data[..n];
      takes := if takes == [] then [] else takes[1..];
      left := if n == |data| then None else Some(data[n..]);
      assert data == data[..n] + data[n..];
    }

    /** Returns what arrived; nothing left to arrive reads as the end of the stream. */
    method Recv() returns (data: Bytes)
      modifies this`incoming
      ensures if old(incoming) == [] then data == [] && incoming == []
        else data == old(incoming)[0] && incoming == old(incoming)[1..]
    {
      data := [];
      if incoming != [] {
        data, incoming := incoming[0], incoming[1..];
      }
    }
  }

  // ---- Lua's string.sub --------------------------------------------------------------

  /** `s:sub(i, j)`: indices from 1, negative ones from the end, clipped to the string. */
  function Sub(s: Bytes, i: int, j: int): Bytes {
    var from := if i < 0 then (if |s| + i + 1 < 1 then 1 else |s| + i + 1) else if i == 0 then 1 else i;
    var to := if j < 0 then |s| + j + 1 else if j > |s| then |s| else j;
    if from > to then [] else s[from - 1..to]
  }

  /** What update_send_buffer takes off the data for now, and what it keeps for later. */
  function ForNow(data: Bytes, extra: int): Bytes {
    Sub(data, 1, extra)
  }

  function ForLater(data: Bytes, extra: int): Bytes {
    Sub(data, extra + 1, -1)
  }

  /** The two pieces make up the data, unless the buffer is one octet over the chunk size. */
  lemma SplitIff(data: Bytes, extra: int)
    requires data != []
    ensures ForNow(data, extra) + ForLater(data, extra) == data <==> extra != -1
    ensures extra == -1 ==> ForNow(data, extra) == data && ForLater(data, extra) == data
  {
    if extra == -1 {
      assert ForNow(data, extra) == data && ForLater(data, extra) == data;
    }
  }

  // ---- What a pad has been given ---------------------------------------------------------------

  /** The first two are what send_behavior sets; AlwaysFlush without an argument switches it on. */
  datatype Op = ChunkSize(size: Option<int>) | AlwaysFlush(how: Option<bool>) | Hand(data: Bytes, more: bool) | Drain

  /** Everything that went out or is buffered, the buffered part of it, and the behaviour. */
  datatype State = State(given: Bytes, buffer: Bytes, chunkSize: Option<int>, alwaysFlush: bool)

  /** The buffer and the data together exceed the chunk size. */
  predicate Exceeds(s: State, data: Bytes) {
    s.chunkSize.Some? && |s.buffer| + |data| > s.chunkSize.value
  }

  /** The buffer is one octet over the chunk size, which was lowered after it was filled. */
  predicate Doubles(s: State, data: Bytes) {
    s.chunkSize.Some? && |s.buffer| == s.chunkSize.value + 1 && data != []
  }

  function Updated(s: State, data: Bytes): State {
    s.(given := s.given + (if Doubles(s, data) then data + data else data),
       buffer := if Exceeds(s, data) && data != [] then [] else s.buffer + data)
  }

  function Apply(s: State, op: Op): State {
    match op
    case ChunkSize(size) => s.(chunkSize := size)
    case AlwaysFlush(how) => s.(alwaysFlush := how.None? || how.value)
    case Drain => s.(buffer := [])
    case Hand(data, more) =>
      if more && data == [] then s.(buffer := [])
      else
        var s' := Updated(s, data);
        if !more || s.alwaysFlush then s'.(buffer := []) else s'
  }

  /** The state after a sequence of operations. */
  function Run(s: State, ops: seq<Op>): State {
    if ops == [] then s else Apply(Run(s, ops[..|ops| - 1]), ops[|ops| - 1])
  }

  function HandedBy(op: Op): Bytes {
    if op.Hand? then op.data else []
  }

  function Handed(ops: seq<Op>): Bytes {
    if ops == [] then [] else Handed(ops[..|ops| - 1]) + HandedBy(ops[|ops| - 1])
  }

  /** Operation `i` of a run has its data sent twice. */
  predicate DoublesAt(s: State, ops: seq<Op>, i: nat) {
    i < |ops| && ops[i].Hand? && Doubles(Run(s, ops[..i]), ops[i].data)
  }

  lemma {:induction false} NeverShort(s: State, ops: seq<Op>)
    ensures |Run(s, ops).given| >= |s.given| + |Handed(ops)|
  {
    if ops != [] {
      NeverShort(s, ops[..|ops| - 1]);
    }
  }

  /** No operation of a run has its data sent twice. */
  ghost predicate NoDoubles(s: State, ops: seq<Op>) {
    forall i: nat :: !DoublesAt(s, ops, i)
  }

  lemma NoDoublesSplit(s: State, ops: seq<Op>)
    requires ops != []
    ensures NoDoubles(s, ops) <==> NoDoubles(s, ops[..|ops| - 1]) && !DoublesAt(s, ops, |ops| - 1)
  {
    hide Run, Doubles;
    var front := ops[..|ops| - 1];
    assert forall i: nat :: i < |front| ==> front[..i] == ops[..i];
    assert forall i: nat :: i < |front| ==> (DoublesAt(s, ops, i) <==> DoublesAt(s, front, i));
  }

  lemma LastGiven(s: State, ops: seq<Op>)
    requires ops != []
    ensures var front, last := ops[..|ops| - 1], |ops| - 1;
      Run(s, ops).given == Run(s, front).given +
        if DoublesAt(s, ops, last) then HandedBy(ops[last]) + HandedBy(ops[last]) else HandedBy(ops[last])
    ensures DoublesAt(s, ops, |ops| - 1) ==> HandedBy(ops[|ops| - 1]) != []
  {
  }

  /** What goes out over a run is what was handed over, if and only if no operation meets such a buffer. */
  lemma {:induction false} ConservedIff(s: State, ops: seq<Op>)
    ensures Run(s, ops).given == s.given + Handed(ops) <==> NoDoubles(s, ops)
  {
    if ops == [] {
    } else {
      var front, last := ops[..|ops| - 1], |ops| - 1;
      ConservedIff(s, front);
      NeverShort(s, front);
      NoDoublesSplit(s, ops);
      LastGiven(s, ops);
      Assoc(s.given, Handed(front), HandedBy(ops[last]));
      hide NoDoubles, DoublesAt, Run;
      if !DoublesAt(s, ops, last) && Run(s, ops).given == s.given + Handed(ops) {
        SameFront(Run(s, front).given, s.given + Handed(front), HandedBy(ops[last]));
      }
    }
  }

  /** Such a run: a new pad is handed three octets, told to send in chunks of two, and handed one more. */
  lemma SentTwice(a: byte, b: byte, c: byte, x: byte)
    ensures Run(State([], [], None, false), [Hand([a, b, c], true), ChunkSize(Some(2)), Hand([x], false)]).given
      == [a, b, c, x, x]
  {
    var ops := [Hand([a, b, c], true), ChunkSize(Some(2)), Hand([x], false)];
    var start := State([], [], None, false);
    assert ops[..2][..1] == [ops[0]] && ops[..2] == [ops[0], ops[1]];
    assert Run(start, [ops[0]]) == Apply(start, ops[0]) by {
      assert [ops[0]][..0] == [];
    }
    assert Run(start, ops[..2]) == State([a, b, c], [a, b, c], Some(2), false);
  }

  lemma SameFront(a: Bytes, b: Bytes, c: Bytes)
    requires a + c == b + c
    ensures a == b
  {
    assert |a| == |b|;
    assert a == (a + c)[..|a|] && b == (b + c)[..|b|];
  }

  // ---- Chunk sizes below one octet --------------------------------------------------------------

  /** What the loop of update_send_buffer has left after `k` rounds; each flushes the buffer. */
  function LeftAfter(data: Bytes, chunk: int, buffered: nat, k: nat): Bytes {
    if k == 0 then data
    else
      var d := LeftAfter(data, chunk, buffered, k - 1);
      if d == [] then [] else ForLater(d, chunk - if k == 1 then buffered else 0)
  }

  lemma {:induction false} NothingLeft(data: Bytes, chunk: int, buffered: nat, k: nat)
    requires chunk >= 1
    ensures k >= 1 ==>
      |LeftAfter(data, chunk, buffered, k)| + k <= |data| + 1 || LeftAfter(data, chunk, buffered, k) == []
  {
    if k > 1 {
      NothingLeft(data, chunk, buffered, k - 1);
    }
  }

  lemma {:induction false} SomethingLeft(data: Bytes, chunk: int, buffered: nat, k: nat)
    requires chunk <= 0 && data != []
    ensures LeftAfter(data, chunk, buffered, k) != []
  {
    if k > 0 {
      SomethingLeft(data, chunk, buffered, k - 1);
    }
  }

  /** The loop comes to an end if and only if the chunk size is at least one octet. */
  lemma LoopEndsIff(data: Bytes, chunk: int, buffered: nat)
    requires data != []
    ensures (exists k: nat :: LeftAfter(data, chunk, buffered, k) == []) <==> chunk >= 1
  {
    if chunk >= 1 {
      NothingLeft(data, chunk, buffered, |data| + 1);
      assert LeftAfter(data, chunk, buffered, |data| + 1) == [];
    } else {
      forall k: nat
        ensures LeftAfter(data, chunk, buffered, k) != []
      {
        SomethingLeft(data, chunk, buffered, k);
      }
    }
  }

  // ---- The pad ---------------------------------------------------------------------

  class Pad {
    const socket: Socket
    var chunkSize: Option<int>
    var alwaysFlush: bool
    var recvBuffer: Bytes
    var sendBuffer: Bytes

    constructor (socket: Socket)
      ensures this.socket == socket && chunkSize.None? && !alwaysFlush && recvBuffer == [] && sendBuffer == []
    {
      this.socket := socket;
      chunkSize, alwaysFlush, recvBuffer, sendBuffer := None, false, [], [];
    }

    /** With other chunk sizes sending does not return. */
    ghost predicate Chunked()
      reads this
    {
      chunkSize.Some? ==> chunkSize.value >= 1
    }

    /** The buffer keeps to the chunk size. */
    ghost predicate Within()
      reads this
    {
      chunkSize.Some? ==> 1 <= chunkSize.value && |sendBuffer| <= chunkSize.value
    }

    /** Everything that was handed to the pad so far. */
    ghost function Given(): Bytes
      reads this, socket
    {
      socket.sent + sendBuffer
    }

    ghost function View(): State
      reads this, socket
    {
      State(Given(), sendBuffer, chunkSize, alwaysFlush)
    }

    /** socketpad:flush: resends what the socket gives back until it takes all of it. */
    method Flush()
      modifies this`sendBuffer, socket`sent, socket`takes
      ensures sendBuffer == [] && Given() == old(Given())
    {
      var rest := Some(sendBuffer);
      sendBuffer := [];
      while rest.Some?
        invariant sendBuffer == [] && socket.sent + (if rest.Some? then rest.value else []) == old(Given())
        decreases |socket.takes|, rest.Some?
      {
        rest := socket.Send(rest.value);
      }
    }

    /** update_send_buffer. */
    method UpdateSendBuffer(given: Bytes)
      requires Chunked()
      modifies this`sendBuffer, socket`sent, socket`takes
      ensures View() == Updated(old(View()), given)
    {
      var data := given;
      if chunkSize.Some? && |sendBuffer| + |data| > chunkSize.value {
        ghost var s := old(View());
        ghost var out := Updated(s, given).given;
        while data != []
          invariant (data == given && View() == s) || (given != [] && sendBuffer == [] && Given() + data == out)
          decreases |data|, |sendBuffer|
        {
          var extra := chunkSize.value - |sendBuffer|;
          SplitIff(data, extra);
          var now := ForNow(data, extra);
          ghost var before := Given();
          Assoc(before, now, ForLater(data, extra));
          Assoc(socket.sent, sendBuffer, now);
          data := ForLater(data, extra);
          sendBuffer := sendBuffer + now;
          Flush();
        }
        assert Given() + [] == Given() && s.given + [] == s.given && s.buffer + [] == s.buffer;
      } else {
        Assoc(socket.sent, sendBuffer, data);
        sendBuffer := sendBuffer + data;
      }
    }

    /** socketpad:send. */
    method Send(data: Bytes, more: bool)
      requires Chunked()
      modifies this`sendBuffer, socket`sent, socket`takes
      ensures View() == Apply(old(View()), Hand(data, more))
      ensures old(Within()) ==> Within() && Given() == old(Given()) + data
      ensures !more || alwaysFlush ==> sendBuffer == []
      ensures more && !alwaysFlush && data != [] && !Exceeds(old(View()), data) ==>
        socket.sent == old(socket.sent) && sendBuffer == old(sendBuffer) + data
    {
      if more && data == [] {
        Flush();
        return;
      }
      UpdateSendBuffer(data);
      if !more || alwaysFlush {
        Flush();
      } else if chunkSize.None? || |old(sendBuffer)| + |data| <= chunkSize.value {
        Assoc(old(socket.sent), old(sendBuffer), data);
        SameFront(socket.sent, old(socket.sent), sendBuffer);
      }
    }

    /** socketpad:send_behavior. */
    method SendBehavior(op: Op)
      requires op.ChunkSize? || op.AlwaysFlush?
      modifies this`chunkSize, this`alwaysFlush
      ensures View() == Apply(old(View()), op)
    {
      if op.ChunkSize? {
        chunkSize := op.size;
      } else if op.how.None? {
        alwaysFlush := true;
      } else {
        alwaysFlush := op.how.value;
      }
    }

    /** Any use of the sending side, as long as no chunk size is below one octet. */
    method Serve(ops: seq<Op>)
      requires Chunked() && forall op :: op in ops && op.ChunkSize? && op.size.Some? ==> op.size.value >= 1
      modifies this`sendBuffer, this`chunkSize, this`alwaysFlush, socket`sent, socket`takes
      ensures View() == Run(old(View()), ops)
      ensures Given() == old(Given()) + Handed(ops) <==> NoDoubles(old(View()), ops)
    {
      for i := 0 to |ops|
        invariant Chunked() && View() == Run(old(View()), ops[..i])
      {
        assert ops[..i + 1][..i] == ops[..i];
        match ops[i] {
          case Hand(data, more) => Send(data, more);
          case Drain => Flush();
          case _ => SendBehavior(ops[i]);
        }
      }
      assert ops[..|ops|] == ops;
      ConservedIff(old(View()), ops);
    }

    /** recv_until_bytes: reads from the socket only while the buffer is too short. */
    method Recv(bytes: nat) returns (data: Bytes, incomplete: bool)
      modifies this`recvBuffer, socket`incoming
      ensures data + recvBuffer + Concat(socket.incoming) == old(recvBuffer + Concat(socket.incoming))
      ensures if incomplete then |data| < bytes && recvBuffer == [] else |data| == bytes
      ensures old(|recvBuffer|) >= bytes ==> !incomplete && socket.incoming == old(socket.incoming)
    {
      incomplete := false;
      while |recvBuffer| < bytes
        invariant recvBuffer + Concat(socket.incoming) == old(recvBuffer + Concat(socket.incoming)) && !incomplete
        invariant old(|recvBuffer|) >= bytes ==>
          socket.incoming == old(socket.incoming) && recvBuffer == old(recvBuffer)
        decreases |socket.incoming|
      {
        ghost var before := recvBuffer;
        ghost var coming := socket.incoming;
        var more := RecvOnce();
        assert coming != [] ==> before + Concat(coming) == recvBuffer + Concat(coming[1..]) by {
          if coming != [] {
            Assoc(before, coming[0], Concat(coming[1..]));
          }
        }
        if more == [] {
          incomplete := true;
          break;
        }
      }
      var n := if |recvBuffer| < bytes then |recvBuffer| else bytes;
      TakeDrop(recvBuffer, n);
      data := recvBuffer[..n];
      recvBuffer := recvBuffer[n..];
    }

    method RecvOnce() returns (data: Bytes)
      modifies this`recvBuffer, socket`incoming
      ensures recvBuffer == old(recvBuffer) + data
      ensures if old(socket.incoming) == [] then data == [] && socket.incoming == []
              else data == old(socket.incoming)[0] && socket.incoming == old(socket.incoming)[1..]
    {
      data := socket.Recv();
      recvBuffer := recvBuffer + data;
    }
  }
}
