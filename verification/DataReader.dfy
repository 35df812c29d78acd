/**
 * Reading a message body from an SMTP connection (sections 4.1.1.4 and 4.5.2 of RFC 5321): the
 * reader undoes dot-stuffing line by line and stops at the line that is a lone dot.
 */
module DataReader {
  import opened Wire

  const DOT: byte := 46
  const CR: byte := 13
  const LF: byte := 10

  /** The lines gathered so far, the last one unfinished, and the index of the end-of-data line. */
  datatype Lines = Lines(lines: seq<Bytes>, eod: Option<nat>)

  const START := Lines([[]], None)

  ghost predicate Valid(s: Lines) {
    |s.lines| > 0 && (s.eod.Some? ==> s.eod.value < |s.lines| - 1)
  }

  /** A finished line that marks the end of the data. */
  predicate EndsData(line: Bytes) {
    line == [DOT, LF] || line == [DOT, CR, LF]
  }

  function Unstuffed(line: Bytes): Bytes {
    if line != [] && line[0] == DOT then line[1..] else line
  }

  /** A line without its CRLF or LF. */
  function WithoutEnd(line: Bytes): Bytes {
    if |line| >= 2 && line[|line| - 2..] == [CR, LF] then line[..|line| - 2]
    else if line != [] && line[|line| - 1] == LF then line[..|line| - 1]
    else line
  }

  /** data_reader:strip_EOD_endline. */
  function Stripped(lines: seq<Bytes>, eod: nat): (r: seq<Bytes>)
    requires eod <= |lines|
    ensures |r| == |lines|
  {
    if eod == 0 then lines else lines[eod - 1 := WithoutEnd(lines[eod - 1])]
  }

  /** data_reader:handle_finished_line. */
  function Finished(s: Lines): (r: Lines)
    requires |s.lines| > 0
    ensures |r.lines| == |s.lines| + 1
  {
    var i := |s.lines| - 1;
    if s.eod.Some? then s.(lines := s.lines + [[]])
    else if EndsData(s.lines[i]) then Lines(Stripped(s.lines + [[]], i), Some(i))
    else s.(lines := s.lines[i := Unstuffed(s.lines[i])] + [[]])
  }

  /** More octets on the last line. */
  function Lengthened(s: Lines, data: Bytes): (r: Lines)
    requires |s.lines| > 0
    ensures |r.lines| == |s.lines|
  {
    var i := |s.lines| - 1;
    s.(lines := s.lines[..i] + [s.lines[i] + data])
  }

  /** One octet more. */
  function Feed(s: Lines, c: byte): (r: Lines)
    requires |s.lines| > 0
    ensures |r.lines| > 0
  {
    if c == LF then Finished(Lengthened(s, [c])) else Lengthened(s, [c])
  }

  function FeedAll(s: Lines, data: Bytes): (r: Lines)
    requires |s.lines| > 0
    ensures |r.lines| > 0
  {
    if data == [] then s else Feed(FeedAll(s, data[..|data| - 1]), data[|data| - 1])
  }

  function Message(s: Lines): Bytes
    requires Valid(s) && s.eod.Some?
  {
    Concat(s.lines[..s.eod.value])
  }

  function Surplus(s: Lines): Bytes
    requires Valid(s) && s.eod.Some?
  {
    Concat(s.lines[s.eod.value + 1..])
  }

  // ---- How the octets are cut does not matter --------------------------------------------

  lemma {:induction false} FeedConcat(s: Lines, a: Bytes, b: Bytes)
    requires |s.lines| > 0
    ensures FeedAll(s, a + b) == FeedAll(FeedAll(s, a), b)
    decreases |b|
  {
    if b == [] {
      assert a + b == a;
    } else {
      assert (a + b)[..|a + b| - 1] == a + b[..|b| - 1];
      FeedConcat(s, a, b[..|b| - 1]);
    }
  }

  lemma {:induction false} FeedValid(s: Lines, data: Bytes)
    requires Valid(s)
    ensures Valid(FeedAll(s, data)) && (s.eod.Some? ==> FeedAll(s, data).eod == s.eod)
  {
    if data != [] {
      FeedValid(s, data[..|data| - 1]);
    }
  }

  lemma LengthenedTwice(s: Lines, a: Bytes, b: Bytes)
    requires |s.lines| > 0
    ensures Lengthened(Lengthened(s, a), b) == Lengthened(s, a + b)
  {
    var i := |s.lines| - 1;
    Assoc(s.lines[i], a, b);
    assert Lengthened(s, a).lines[..i] == s.lines[..i];
  }

  lemma LengthenedNone(s: Lines)
    requires |s.lines| > 0
    ensures Lengthened(s, []) == s
  {
    var i := |s.lines| - 1;
    assert s.lines[i] + [] == s.lines[i];
    assert s.lines == s.lines[..i] + [s.lines[i]];
  }

  /** Octets without a line feed only lengthen the last line. */
  lemma {:induction false} FeedPlain(s: Lines, data: Bytes)
    requires |s.lines| > 0 && LF !in data
    ensures FeedAll(s, data) == Lengthened(s, data)
  {
    hide Lengthened;
    if data == [] {
      LengthenedNone(s);
    } else {
      var front, c := data[..|data| - 1], data[|data| - 1];
      FeedPlain(s, front);
      LengthenedTwice(s, front, [c]);
      assert data == front + [c];
    }
  }

  lemma FeedLine(s: Lines, data: Bytes)
    requires |s.lines| > 0 && LF !in data
    ensures FeedAll(s, data + [LF]) == Finished(Lengthened(s, data + [LF]))
  {
    hide Lengthened, Finished;
    FeedPlain(s, data);
    assert (data + [LF])[..|data|] == data;
    LengthenedTwice(s, data, [LF]);
  }

  // ---- Dot-stuffing ------------------------------------------------------------------------

  predicate AtLineStart(m: Bytes) {
    m == [] || m[|m| - 1] == LF
  }

  /** The dot-stuffed form of a message: a dot more in front of every line that starts with one. */
  function Stuff(m: Bytes): Bytes {
    if m == [] then []
    else
      var front, c := m[..|m| - 1], m[|m| - 1];
      Stuff(front) + if c == DOT && AtLineStart(front) then [DOT, DOT] else [c]
  }

  /** What ends it on the wire. */
  const TERMINATOR: Bytes := [CR, LF, DOT, CR, LF]

  /** What follows the last line feed. */
  function LastLine(m: Bytes): Bytes {
    if AtLineStart(m) then [] else LastLine(m[..|m| - 1]) + [m[|m| - 1]]
  }

  function StuffedLine(t: Bytes): Bytes {
    if t != [] && t[0] == DOT then [DOT] + t else t
  }

  /** The reader stands inside the data, and its lines hold the message `m` so far. */
  ghost predicate Holds(s: Lines, m: Bytes) {
    && s.eod.None? && |s.lines| > 0
    && s.lines[|s.lines| - 1] == StuffedLine(LastLine(m))
    && Concat(s.lines[..|s.lines| - 1]) + LastLine(m) == m
  }

  /** An octet of the message that is not a line feed. */
  lemma HoldsPlain(s: Lines, m: Bytes, c: byte)
    requires Holds(s, m) && c != LF
    ensures Holds(FeedAll(s, if c == DOT && AtLineStart(m) then [DOT, DOT] else [c]), m + [c])
  {
    var more := if c == DOT && AtLineStart(m) then [DOT, DOT] else [c];
    FeedPlain(s, more);
    var i := |s.lines| - 1;
    var s' := FeedAll(s, more);
    assert s'.lines[..i] == s.lines[..i];
    assert (m + [c])[..|m|] == m;
    assert LastLine(m + [c]) == LastLine(m) + [c];
    assert m + [c] == (Concat(s.lines[..i]) + LastLine(m)) + [c];
  }

  /** A stuffed line is never taken for the end of the data, and loses just what was added. */
  lemma StuffedLineReads(t: Bytes)
    ensures !EndsData(StuffedLine(t) + [LF]) && Unstuffed(StuffedLine(t) + [LF]) == t + [LF]
  {
    var line := StuffedLine(t) + [LF];
    if t != [] && t[0] == DOT {
      assert line[1] == DOT;
      assert line[1..] == t + [LF];
    } else {
      assert line[0] != DOT;
    }
  }

  lemma HoldsFeed(s: Lines, m: Bytes)
    requires Holds(s, m)
    ensures var r := Feed(s, LF);
      && Holds(r, m + [LF]) && |r.lines| >= 2 && r.lines[|r.lines| - 2] == LastLine(m) + [LF]
      && Concat(r.lines[..|r.lines| - 2]) + LastLine(m) == m
  {
    hide Unstuffed, EndsData, Concat;
    var i, t := |s.lines| - 1, LastLine(m);
    var r := Feed(s, LF);
    StuffedLineReads(t);
    assert r.lines == s.lines[..i] + [t + [LF]] + [[]];
    assert r.lines[..i] == s.lines[..i];
    assert r.lines[..i + 1] == s.lines[..i] + [t + [LF]];
    ConcatSnoc(s.lines[..i], t + [LF]);
    Assoc(Concat(s.lines[..i]), t, [LF]);
    LineEnds(m);
    var whole := m + [LF];
    assert Concat(r.lines[..i + 1]) + [] == whole;
  }

  lemma LineEnds(m: Bytes)
    ensures LastLine(m + [LF]) == []
  {
  }

  lemma {:induction false} HoldsStuffed(m: Bytes)
    ensures Holds(FeedAll(START, Stuff(m)), m)
  {
    if m == [] {
      assert START.lines[..0] == [];
    } else {
      var front, c := m[..|m| - 1], m[|m| - 1];
      var s := FeedAll(START, Stuff(front));
      HoldsStuffed(front);
      assert m == front + [c];
      var more := if c == DOT && AtLineStart(front) then [DOT, DOT] else [c];
      FeedConcat(START, Stuff(front), more);
      if c == LF {
        HoldsFeed(s, front);
        FeedOne(s, LF);
      } else {
        HoldsPlain(s, front, c);
      }
    }
  }

  lemma FeedOne(s: Lines, c: byte)
    requires |s.lines| > 0
    ensures FeedAll(s, [c]) == Feed(s, c)
  {
    assert [c][..0] == [];
  }

  // ---- The end of the data ---------------------------------------------------------------

  /** Just before the last octet of the terminator: a lone dot and CR after the message and its CRLF. */
  ghost predicate Ending(s: Lines, m: Bytes) {
    && s.eod.None? && |s.lines| >= 2 && s.lines[|s.lines| - 1] == [DOT, CR]
    && s.lines[|s.lines| - 2] == LastLine(m) + [CR, LF]
    && Concat(s.lines[..|s.lines| - 2]) + LastLine(m) == m
  }

  lemma LastLineCr(m: Bytes)
    ensures LastLine(m + [CR]) == LastLine(m) + [CR]
  {
    assert (m + [CR])[..|m|] == m;
  }

  lemma AfterCrLf(s: Lines, m: Bytes)
    requires Holds(s, m)
    ensures Ending(FeedAll(s, [CR, LF, DOT, CR]), m)
  {
    hide Feed, LastLine, Stuff;
    HoldsPlain(s, m, CR);
    FeedOne(s, CR);
    var s1 := Feed(s, CR);
    HoldsFeed(s1, m + [CR]);
    FeedOne(s1, LF);
    var s2 := Feed(s1, LF);
    FeedPlain(s2, [DOT, CR]);
    FeedConcat(s, [CR], [LF]);
    FeedConcat(s, [CR] + [LF], [DOT, CR]);
    assert [CR] + [LF] + [DOT, CR] == [CR, LF, DOT, CR];
    LastLineCr(m);
    LineEnds(m + [CR]);
    var k, t := |s2.lines| - 2, LastLine(m);
    var c := Concat(s2.lines[..k]);
    Assoc(c, t, [CR]);
    SameFront(c + t, m, CR);
    Assoc(t, [CR], [LF]);
    var s3 := Lengthened(s2, [DOT, CR]);
    assert s3.lines[..k] == s2.lines[..k] && s3.lines[k] == s2.lines[k];
    assert s2.lines[k + 1] == [] && [] + [DOT, CR] == s3.lines[k + 1];
  }

  lemma SameFront(a: Bytes, b: Bytes, c: byte)
    requires a + [c] == b + [c]
    ensures a == b
  {
    assert a == (a + [c])[..|a|] && b == (b + [c])[..|b|];
  }

  lemma LoneDot(s: Lines, m: Bytes)
    requires Ending(s, m)
    ensures var r := Feed(s, LF); Valid(r) && r.eod.Some? && Message(r) == m && Surplus(r) == []
  {
    hide LastLine;
    var i := |s.lines| - 1;
    var r := Feed(s, LF);
    var line := s.lines[i - 1];
    assert line[|line| - 2..] == [CR, LF] && WithoutEnd(line) == LastLine(m);
    assert r.lines[..i] == s.lines[..i - 1] + [LastLine(m)];
    ConcatSnoc(s.lines[..i - 1], LastLine(m));
    assert r.lines[i + 1..] == [[]];
    assert Concat([[]]) == [] + Concat([]);
  }

  /** After the end every octet is kept as it comes. */
  lemma {:induction false} Kept(s: Lines, more: Bytes)
    requires Valid(s) && s.eod.Some?
    ensures var r := FeedAll(s, more);
      Valid(r) && r.eod == s.eod && Message(r) == Message(s) && Surplus(r) == Surplus(s) + more
  {
    if more != [] {
      var front, c := more[..|more| - 1], more[|more| - 1];
      Kept(s, front);
      KeptOne(FeedAll(s, front), c);
      assert more == front + [c];
      Assoc(Surplus(s), front, [c]);
    } else {
      assert Surplus(s) + [] == Surplus(s);
    }
  }

  lemma KeptOne(s: Lines, c: byte)
    requires Valid(s) && s.eod.Some?
    ensures var r := Feed(s, c);
      Valid(r) && r.eod == s.eod && Message(r) == Message(s) && Surplus(r) == Surplus(s) + [c]
  {
    var j, i := s.eod.value, |s.lines| - 1;
    var r := Feed(s, c);
    var mid, last := s.lines[j + 1..i], s.lines[i];
    assert r.lines[..j] == s.lines[..j];
    assert s.lines[j + 1..] == mid + [last];
    ConcatSnoc(mid, last);
    ConcatSnoc(mid, last + [c]);
    Assoc(Concat(mid), last, [c]);
    if c == LF {
      assert r.lines[j + 1..] == (mid + [last + [c]]) + [[]];
      ConcatSnoc(mid + [last + [c]], []);
      assert Concat(mid + [last + [c]]) + [] == Concat(mid + [last + [c]]);
    } else {
      assert r.lines[j + 1..] == mid + [last + [c]];
    }
  }

  /** The wire form of a message. */
  function Wired(m: Bytes): Bytes {
    Stuff(m) + TERMINATOR
  }

  lemma WiredEnding(m: Bytes)
    ensures Wired(m) == (Stuff(m) + [CR, LF, DOT, CR]) + [LF]
    ensures Ending(FeedAll(START, Stuff(m) + [CR, LF, DOT, CR]), m)
  {
    hide Stuff, FeedAll;
    HoldsStuffed(m);
    FeedConcat(START, Stuff(m), [CR, LF, DOT, CR]);
    AfterCrLf(FeedAll(START, Stuff(m)), m);
    assert TERMINATOR == [CR, LF, DOT, CR] + [LF];
    Assoc(Stuff(m), [CR, LF, DOT, CR], [LF]);
  }

  /** Fed the wire form of any message and anything behind it, the reader has the message and the rest. */
  lemma Recovers(m: Bytes, rest: Bytes)
    ensures var s := FeedAll(START, Wired(m) + rest); Valid(s) && s.eod.Some? && Message(s) == m && Surplus(s) == rest
  {
    hide Stuff, FeedAll, Wired;
    WiredEnding(m);
    var w := Stuff(m) + [CR, LF, DOT, CR];
    LoneDot(FeedAll(START, w), m);
    FeedConcat(START, w, [LF]);
    FeedOne(FeedAll(START, w), LF);
    FeedConcat(START, Wired(m), rest);
    Kept(FeedAll(START, Wired(m)), rest);
  }

  /** Before the last octet of the wire form it has found no end. */
  lemma NotBefore(m: Bytes, part: Bytes)
    requires part < Wired(m)
    ensures FeedAll(START, part).eod.None?
  {
    hide Stuff, FeedAll;
    WiredEnding(m);
    var w := Stuff(m) + [CR, LF, DOT, CR];
    assert w == Wired(m)[..|w|];
    assert w == part + w[|part|..];
    FeedConcat(START, part, w[|part|..]);
    FeedValid(START, part);
    FeedValid(FeedAll(START, part), w[|part|..]);
  }

  // ---- Reading from the connection -----------------------------------------------------------

  /** How a read ends; `buffer` is the new recv_buffer and `unread` what the socket has yet to return. */
  datatype Outcome =
    | Received(message: Bytes, buffer: Bytes, unread: seq<Bytes>)
    | TooBig(unread: seq<Bytes>)
    | Closed(unread: seq<Bytes>)
    | Blocked

  /** data_reader:recv_piece until it returns false, given what the socket will return. */
  function Receive(s: Lines, size: nat, limit: Option<nat>, pieces: seq<Bytes>): Outcome
    requires Valid(s)
    decreases |pieces|
  {
    if s.eod.Some? then Received(Message(s), Surplus(s), pieces)
    else if pieces == [] then Blocked
    else if pieces[0] == [] then Closed(pieces[1..])
    else if limit.Some? && size + |pieces[0]| > limit.value then TooBig(pieces[1..])
    else
      FeedValid(s, pieces[0]);
      Receive(FeedAll(s, pieces[0]), size + |pieces[0]|, limit, pieces[1..])
  }

  /** A whole read, of what is buffered and what the socket will return. */
  function Reading(buffered: Bytes, limit: Option<nat>, pieces: seq<Bytes>): Outcome {
    FeedValid(START, buffered);
    Receive(FeedAll(START, buffered), 0, limit, pieces)
  }

  ghost predicate NoneEmpty(pieces: seq<Bytes>) {
    forall i :: 0 <= i < |pieces| ==> pieces[i] != []
  }

  lemma ReaderSplits(part: Bytes, whole: Bytes, m: Bytes, rest: Bytes)
    requires part <= whole && whole == Wired(m) + rest
    ensures if part < Wired(m) then FeedAll(START, part).eod.None?
      else
        && |part| >= |Wired(m)|
        && (var s := FeedAll(START, part);
        Valid(s) && s.eod.Some? && Message(s) == m && Surplus(s) + whole[|part|..] == rest)
  {
    hide FeedAll, Wired;
    var w := Wired(m);
    if part < w {
      NotBefore(m, part);
    } else {
      PrefixCovers(part, w, rest);
      Recovers(m, part[|w|..]);
    }
  }

  /** How many pieces bring `have` octets to at least `end`. */
  function Reads(have: nat, end: nat, pieces: seq<Bytes>): (n: nat)
    ensures n <= |pieces|
    decreases |pieces|
  {
    if have >= end || pieces == [] then 0 else 1 + Reads(have + |pieces[0]|, end, pieces[1..])
  }

  /** The octets of the pieces that are read before the message is complete; whatever follows them is not counted. */
  ghost predicate Fits(have: nat, size: nat, m: Bytes, limit: Option<nat>, pieces: seq<Bytes>) {
    limit.None? || size + |Concat(pieces[..Reads(have, |Wired(m)|, pieces)])| <= limit.value
  }

  lemma ReadsOn(have: nat, end: nat, pieces: seq<Bytes>)
    requires have < end && pieces != []
    ensures var n := Reads(have + |pieces[0]|, end, pieces[1..]);
      Reads(have, end, pieces) == n + 1 && pieces[..n + 1] == [pieces[0]] + pieces[1..][..n]
  {
  }

  /** Reading one piece keeps the condition, and breaches the limit only where it does not hold. */
  lemma FitsOn(have: nat, size: nat, m: Bytes, limit: Option<nat>, pieces: seq<Bytes>)
    requires have < |Wired(m)| && pieces != []
    ensures limit.Some? && size + |pieces[0]| > limit.value ==> !Fits(have, size, m, limit, pieces)
    ensures Fits(have, size, m, limit, pieces) <==> Fits(have + |pieces[0]|, size + |pieces[0]|, m, limit, pieces[1..])
  {
    hide Wired;
    ReadsOn(have, |Wired(m)|, pieces);
  }

  lemma {:induction false} TransparentFrom(m: Bytes, rest: Bytes, read: Bytes, size: nat, limit: Option<nat>,
      pieces: seq<Bytes>)
    requires read + Concat(pieces) == Wired(m) + rest && NoneEmpty(pieces[..Reads(|read|, |Wired(m)|, pieces)])
    requires Valid(FeedAll(START, read)) && (limit.Some? ==> size <= limit.value)
    ensures var r := Receive(FeedAll(START, read), size, limit, pieces);
      if Fits(|read|, size, m, limit, pieces) then r.Received? && r.message == m && r.buffer + Concat(r.unread) == rest
      else r.TooBig?
    decreases |pieces|
  {
    hide FeedAll, Wired, Message, Surplus;
    var whole := Wired(m) + rest;
    assert read == whole[..|read|] && whole[|read|..] == Concat(pieces);
    ReaderSplits(read, whole, m, rest);
    if read < Wired(m) {
      PiecesLeft(read, pieces, Wired(m), rest);
      FeedConcat(START, read, pieces[0]);
      FeedValid(START, read + pieces[0]);
      Assoc(read, pieces[0], Concat(pieces[1..]));
      ReadsOn(|read|, |Wired(m)|, pieces);
      FitsOn(|read|, size, m, limit, pieces);
      hide Fits, Reads;
      assert pieces[0] == pieces[..Reads(|read|, |Wired(m)|, pieces)][0];
      assert NoneEmpty(pieces[1..][..Reads(|read + pieces[0]|, |Wired(m)|, pieces[1..])]);
      if limit.None? || size + |pieces[0]| <= limit.value {
        TransparentFrom(m, rest, read + pieces[0], size + |pieces[0]|, limit, pieces[1..]);
      }
    } else {
      ReadEnough(m, rest, read, pieces);
    }
  }

  lemma ReadEnough(m: Bytes, rest: Bytes, read: Bytes, pieces: seq<Bytes>)
    requires read + Concat(pieces) == Wired(m) + rest && !(read < Wired(m))
    ensures Reads(|read|, |Wired(m)|, pieces) == 0
  {
    hide Wired;
    var whole := Wired(m) + rest;
    assert read == whole[..|read|] && Wired(m) == whole[..|Wired(m)|];
  }

  /**
   * Transparency: whatever the message, whatever follows it, and however the stream is cut into what
   * is already buffered and what further reads return, the reader returns exactly the message; the new
   * buffer and the unread pieces make up what followed. With a limit it does so if and only if the pieces
   * it has to read keep to it.
   */
  lemma Transparent(m: Bytes, rest: Bytes, buffered: Bytes, limit: Option<nat>, pieces: seq<Bytes>)
    requires buffered + Concat(pieces) == Wired(m) + rest && NoneEmpty(pieces[..Reads(|buffered|, |Wired(m)|, pieces)])
    ensures var r := Reading(buffered, limit, pieces);
      if Fits(|buffered|, 0, m, limit, pieces) then r.Received? && r.message == m && r.buffer + Concat(r.unread) == rest
      else r.TooBig?
  {
    hide FeedAll, Wired;
    FeedValid(START, buffered);
    TransparentFrom(m, rest, buffered, 0, limit, pieces);
  }

  lemma PiecesLeft(read: Bytes, pieces: seq<Bytes>, w: Bytes, rest: Bytes)
    requires read + Concat(pieces) == w + rest && read < w
    ensures pieces != []
  {
    assert |read| < |w|;
  }

  // ---- The reader as it runs -------------------------------------------------------------

  /** The connection's receive side: what was read ahead, and what the socket returns next. */
  class Connection {
    var recvBuffer: Bytes
    var incoming: seq<Bytes>

    constructor (buffered: Bytes, incoming: seq<Bytes>)
      ensures recvBuffer == buffered && this.incoming == incoming
    {
      recvBuffer, this.incoming := buffered, incoming;
    }
  }

  class Reader {
    const io: Connection
    const limit: Option<nat>
    var size: nat
    var lines: seq<Bytes>
    var eod: Option<nat>

    ghost function View(): Lines
      reads this
    {
      Lines(lines, eod)
    }

    constructor (io: Connection, limit: Option<nat>)
      ensures this.io == io && this.limit == limit && View() == START && size == 0
    {
      this.io, this.limit := io, limit;
      size, lines, eod := 0, [[]], None;
    }

    /** data_reader:handle_finished_line. */
    method FinishLine()
      requires |lines| > 0
      modifies this`lines, this`eod
      ensures View() == Finished(old(View()))
    {
      var i := |lines| - 1;
      var line := lines[i];
      lines := lines + [[]];
      if eod.None? {
        if EndsData(line) {
          eod := Some(i);
          lines := Stripped(lines, i);
        } else if line != [] && line[0] == DOT {
          lines := lines[i := line[1..]];
        }
      }
    }

    /** data_reader:add_lines: whole lines first, then what is left without a line feed. */
    method AddLines(piece: Bytes)
      requires |lines| > 0
      modifies this`lines, this`eod
      ensures View() == FeedAll(old(View()), piece)
    {
      hide FeedAll, Finished;
      var p := 0;
      assert piece[..0] == [];
      FeedNothing(View());
      while true
        invariant 0 <= p <= |piece| && |lines| > 0 && View() == FeedAll(old(View()), piece[..p])
        decreases |piece| - p
      {
        var q := NextFeed(piece, p);
        if q == |piece| {
          break;
        }
        var line := piece[p..q + 1];
        assert line == piece[p..q] + [LF] && piece[..q + 1] == piece[..p] + line;
        FeedConcat(old(View()), piece[..p], line);
        FeedLine(View(), piece[p..q]);
        lines := lines[..|lines| - 1] + [lines[|lines| - 1] + line];
        FinishLine();
        p := q + 1;
      }
      assert piece == piece[..p] + piece[p..];
      FeedConcat(old(View()), piece[..p], piece[p..]);
      FeedPlain(View(), piece[p..]);
      lines := lines[..|lines| - 1] + [lines[|lines| - 1] + piece[p..]];
    }

    /** data_reader:recv. */
    method Recv() returns (r: Outcome)
      requires View() == START && size == 0
      modifies this`lines, this`eod, this`size, io
      ensures r == Reading(old(io.recvBuffer), limit, old(io.incoming))
      ensures !r.Blocked? ==> io.incoming == r.unread
      ensures io.recvBuffer == if r.Received? then r.buffer else []
    {
      hide FeedAll;
      FeedValid(START, io.recvBuffer);
      AddLines(io.recvBuffer);
      io.recvBuffer := [];
      while eod.None?
        invariant Valid(View()) && io.recvBuffer == []
        invariant Receive(View(), size, limit, io.incoming) == Reading(old(io.recvBuffer), limit, old(io.incoming))
        decreases |io.incoming|, eod.None?
      {
        hide Reading, Message, Surplus;
        if io.incoming == [] {
          return Blocked;
        }
        var piece := io.incoming[0];
        io.incoming := io.incoming[1..];
        if piece == [] {
          return Closed(io.incoming);
        }
        size := size + |piece|;
        if limit.Some? && size > limit.value {
          return TooBig(io.incoming);
        }
        FeedValid(View(), piece);
        AddLines(piece);
      }
      io.recvBuffer := Joined(lines[eod.value + 1..]);
      var message := Joined(lines[..eod.value]);
      r := Received(message, io.recvBuffer, io.incoming);
    }
  }

  lemma FeedNothing(s: Lines)
    requires |s.lines| > 0
    ensures FeedAll(s, []) == s
  {
  }

  /** The next line feed from `p` on. */
  method NextFeed(piece: Bytes, p: nat) returns (q: nat)
    requires p <= |piece|
    ensures p <= q <= |piece| && LF !in piece[p..q] && (q < |piece| ==> piece[q] == LF)
  {
    q := p;
    while q < |piece| && piece[q] != LF
      invariant p <= q <= |piece| && LF !in piece[p..q]
    {
      q := q + 1;
    }
  }

  /** table.concat. */
  method Joined(ls: seq<Bytes>) returns (r: Bytes)
    ensures r == Concat(ls)
  {
    r := [];
    var i := 0;
    while i < |ls|
      invariant i <= |ls| && r == Concat(ls[..i])
    {
      assert ls[..i + 1] == ls[..i] + [ls[i]];
      ConcatSnoc(ls[..i], ls[i]);
      r := r + ls[i];
      i := i + 1;
    }
    assert ls[..i] == ls;
  }
}
