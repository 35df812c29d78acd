/** Receiving a length-prefixed DNS reply over TCP (section 4.2.2 of RFC 1035), across any number of suspensions. */
module TcpReassembly {
  import opened Wire

  const MINBUF := 768

  /** What one recv(2) call finds: up to so many octets, nothing for now, or the end of the stream. */
  datatype Arrival = Octets(n: nat) | Unavailable | End

  datatype Result = Done | Suspended | Lost

  function Max(a: nat, b: nat): nat {
    if a < b then b else a
  }

  function Min(a: nat, b: nat): nat {
    if a < b then a else b
  }

  /** The octets a reply of this stream takes up, its length included. */
  function Announced(stream: Bytes): nat
    requires |stream| >= 2
  {
    Get16(stream, 0) + 2
  }

  /** Enough arrivals to complete the reply, each with something in it. */
  ghost predicate Suffices(stream: Bytes, arrivals: seq<Arrival>, apos: nat) {
    && |stream| >= 2 && |stream| >= Announced(stream) && |arrivals| + apos >= Announced(stream)
    && forall i :: 0 <= i < |arrivals| ==> arrivals[i].Octets? && arrivals[i].n > 0
  }

  /**
   * The receive side of struct dns_socket. `buffer` is the packet's data with the two octets in front
   * of it that take the length; `stream` is what the peer sends, of which `apos` octets are read.
   */
  class Receiver {
    var buffer: array<byte>
    var alen: nat
    var apos: nat
    var end: nat
    const stream: Bytes

    ghost predicate Valid()
      reads this, buffer
    {
      && apos <= |stream| && buffer.Length == Max(alen, MINBUF) + 2
      && if apos < 2 then alen == 0 && buffer[..apos] == stream[..apos]
         else alen + 2 == Announced(stream) && apos <= alen + 2 && buffer[2..apos] == stream[2..apos]
    }

    constructor (stream: Bytes)
      ensures Valid() && fresh(buffer) && this.stream == stream && apos == 0
    {
      buffer := new byte[MINBUF + 2](_ => 0);
      alen, apos, end := 0, 0, 0;
      this.stream := stream;
    }

    /** One recv(2) call that hands over octets, never more than asked for. */
    method Take(n: nat, limit: nat) returns (k: nat)
      requires Valid() && apos < limit <= buffer.Length && 0 < n && apos < |stream|
      modifies this`apos, buffer
      ensures k > 0 && apos == old(apos) + k <= Min(limit, |stream|)
      ensures old(apos) < 2 && limit <= 2 ==> buffer[..apos] == stream[..apos]
      ensures old(apos) >= 2 ==> buffer[2..apos] == stream[2..apos]
    {
      assert apos < 2 ==> forall j :: 0 <= j < apos ==> buffer[j] == buffer[..apos][j] == stream[j];
      assert apos >= 2 ==> forall j :: 2 <= j < apos ==>
        buffer[j] == buffer[2..apos][j - 2] == stream[2..apos][j - 2] == stream[j];
      k := Min(n, Min(limit - apos, |stream| - apos));
      var i := 0;
      while i < k
        modifies buffer
        invariant i <= k
        invariant forall j :: 0 <= j < buffer.Length ==>
          buffer[j] == if apos <= j < apos + i then stream[j] else old(buffer[j])
      {
        buffer[apos + i] := stream[apos + i];
        i := i + 1;
      }
      apos := apos + k;
      assert old(apos) >= 2 ==> forall j :: 2 <= j < apos ==> buffer[j] == stream[j];
    }

    /** dns_so_tcp_recv, until it completes or recv(2) has nothing for it. */
    method Recv(arrivals: seq<Arrival>) returns (r: Result)
      requires Valid()
      modifies this`buffer, this`alen, this`apos, this`end, buffer
      ensures Valid() && apos >= old(apos) && (buffer == old(buffer) || fresh(buffer))
      ensures r.Done? <==> |stream| >= 2 && apos == Announced(stream)
      ensures r.Done? ==> end + 2 == Announced(stream) && buffer[2..end + 2] == stream[2..end + 2]
      ensures Suffices(stream, arrivals, old(apos)) ==> r.Done?
    {
      var a := 0;
      while apos < alen + 2
        invariant a <= |arrivals| && Valid() && apos >= old(apos) && (buffer == old(buffer) || fresh(buffer))
        invariant Suffices(stream, arrivals, old(apos)) ==> apos >= old(apos) + a
        decreases |arrivals| - a
      {
        if a == |arrivals| {
          return Suspended;
        }
        match arrivals[a] {
          case Unavailable => return Suspended;
          case End => return Lost;
          case Octets(n) =>
            if n == 0 {
              return Lost;
            }
            if apos == |stream| {
              return Suspended;
            }
            var _ := Take(n, alen + 2);
        }
        a := a + 1;
        if alen == 0 && apos >= 2 {
          var len := Get16(buffer[..2], 0);
          buffer := new byte[Max(len, MINBUF) + 2](_ => 0);
          alen := len;
        }
      }
      end := alen;
      r := Done;
    }
  }
}
