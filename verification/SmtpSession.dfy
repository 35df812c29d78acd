/**
 * The order of commands in an SMTP session (section 4.1.4 of RFC 5321): what the server remembers,
 * and what that says about the commands it has accepted. Address syntax, parameters and the replies
 * the handlers choose come with each command.
 */
module SmtpSession {

  /** A command with all that decides how the server answers it: `ok` is the handler's success code. */
  datatype Command =
    | Ehlo(ok: bool)
    | Helo(ok: bool)
    | StartTls(ok: bool)
    | Mail(syntax: bool, sizeGiven: bool, sizeFits: bool, ok: bool)
    | Rcpt(syntax: bool, ok: bool)
    | Data(bare: bool, ok: bool)
    | Rset(bare: bool, ok: bool)
    | Other

  /** What was accepted, in order; Body stands for a message body read to its end. */
  datatype Event = Hello | Tls | Sender | Recipient | Body | Reset

  /** Events after which no mail transaction is open. */
  predicate Closes(e: Event) {
    e.Hello? || e.Body? || e.Reset?
  }

  // ---- What the log says -----------------------------------------------------------------

  /** A sender was accepted since the last event that closes a transaction. */
  predicate SenderSince(log: seq<Event>) {
    log != [] && (var e := log[|log| - 1]; !Closes(e) && (e.Sender? || SenderSince(log[..|log| - 1])))
  }

  /** A recipient was. */
  predicate RecipientSince(log: seq<Event>) {
    log != [] && (var e := log[|log| - 1]; !Closes(e) && (e.Recipient? || RecipientSince(log[..|log| - 1])))
  }

  /** A greeting was accepted since the last STARTTLS. */
  predicate GreetedSince(log: seq<Event>) {
    log != [] && (var e := log[|log| - 1]; !e.Tls? && (e.Hello? || GreetedSince(log[..|log| - 1])))
  }

  /** Event `e` at position `i`, and nothing that closes a transaction from there on. */
  ghost predicate OpenAt(log: seq<Event>, e: Event, i: nat) {
    i < |log| && log[i] == e && forall k :: i <= k < |log| ==> !Closes(log[k])
  }

  lemma {:induction false} SenderSinceIff(log: seq<Event>)
    ensures SenderSince(log) <==> exists i: nat :: OpenAt(log, Sender, i)
  {
    if log != [] {
      var front := log[..|log| - 1];
      SenderSinceIff(front);
      if SenderSince(log) {
        if log[|log| - 1].Sender? {
          assert OpenAt(log, Sender, |log| - 1);
        } else {
          var i: nat :| OpenAt(front, Sender, i);
          assert OpenAt(log, Sender, i);
        }
      }
      if i: nat :| OpenAt(log, Sender, i) {
        assert i < |log| - 1 ==> OpenAt(front, Sender, i);
      }
    }
  }

  lemma {:induction false} RecipientSinceIff(log: seq<Event>)
    ensures RecipientSince(log) <==> exists i: nat :: OpenAt(log, Recipient, i)
  {
    if log != [] {
      var front := log[..|log| - 1];
      RecipientSinceIff(front);
      if RecipientSince(log) {
        if log[|log| - 1].Recipient? {
          assert OpenAt(log, Recipient, |log| - 1);
        } else {
          var i: nat :| OpenAt(front, Recipient, i);
          assert OpenAt(log, Recipient, i);
        }
      }
      if i: nat :| OpenAt(log, Recipient, i) {
        assert i < |log| - 1 ==> OpenAt(front, Recipient, i);
      }
    }
  }

  /** A greeting at position `g`, and no STARTTLS from there on. */
  ghost predicate GreetedAt(log: seq<Event>, g: nat) {
    g < |log| && log[g] == Hello && forall k :: g <= k < |log| ==> log[k] != Tls
  }

  lemma {:induction false} GreetedSinceIff(log: seq<Event>)
    ensures GreetedSince(log) <==> exists g: nat :: GreetedAt(log, g)
  {
    if log != [] {
      var front := log[..|log| - 1];
      GreetedSinceIff(front);
      if GreetedSince(log) {
        if log[|log| - 1].Hello? {
          assert GreetedAt(log, |log| - 1);
        } else {
          var g: nat :| GreetedAt(front, g);
          assert GreetedAt(log, g);
        }
      }
      if g: nat :| GreetedAt(log, g) {
        assert g < |log| - 1 ==> GreetedAt(front, g);
      }
    }
  }

  /** In a log where recipients come only after a sender: the sender came first. */
  lemma {:induction false} RecipientAfterSender(log: seq<Event>) returns (i: nat, j: nat)
    requires RecipientSince(log) && Sensible(log)
    ensures i < j < |log| && OpenAt(log, Sender, i) && OpenAt(log, Recipient, j)
  {
    var front := log[..|log| - 1];
    if log[|log| - 1].Recipient? {
      SenderSinceIff(front);
      i :| OpenAt(front, Sender, i);
      j := |log| - 1;
    } else {
      i, j := RecipientAfterSender(front);
    }
  }

  /** Each event of a log was possible when it came. */
  ghost predicate Sensible(log: seq<Event>) {
    log == [] || (var front := log[..|log| - 1];
      Sensible(front) && Permitted(front, log[|log| - 1]))
  }

  /** The order the protocol asks for. */
  ghost predicate Permitted(log: seq<Event>, e: Event) {
    match e
    case Sender => GreetedSince(log) && !SenderSince(log)
    case Recipient => SenderSince(log)
    case Body => SenderSince(log) && RecipientSince(log)
    case Tls => GreetedSince(log)
    case _ => true
  }

  /** The same by the events of the log: what must stand there, and what must not. */
  lemma PermittedIff(log: seq<Event>, e: Event)
    ensures Permitted(log, e) <==>
      match e
      case Sender => (exists g: nat :: GreetedAt(log, g)) && forall i: nat :: !OpenAt(log, Sender, i)
      case Recipient => exists i: nat :: OpenAt(log, Sender, i)
      case Body => (exists i: nat :: OpenAt(log, Sender, i)) && exists j: nat :: OpenAt(log, Recipient, j)
      case Tls => exists g: nat :: GreetedAt(log, g)
      case Hello => true
      case Reset => true
  {
    hide OpenAt, GreetedAt, SenderSince, RecipientSince, GreetedSince;
    SenderSinceIff(log);
    RecipientSinceIff(log);
    GreetedSinceIff(log);
  }

  /** What one more event changes. */
  lemma Grow(log: seq<Event>, e: Event)
    ensures GreetedSince(log + [e]) <==> !e.Tls? && (e.Hello? || GreetedSince(log))
    ensures SenderSince(log + [e]) <==> !Closes(e) && (e.Sender? || SenderSince(log))
    ensures RecipientSince(log + [e]) <==> !Closes(e) && (e.Recipient? || RecipientSince(log))
    ensures Sensible(log + [e]) <==> Sensible(log) && Permitted(log, e)
  {
    assert (log + [e])[..|log + [e]| - 1] == log;
  }

  // ---- The session ----------------------------------------------------------------------------

  /** The fields of the server that decide, and a log of what it accepted. */
  class Session {
    var greeted: bool
    var haveMailfrom: bool
    var haveRcptto: bool
    var offersTls: bool
    var offersSize: bool
    ghost var log: seq<Event>

    /** The fields say exactly what the log says. */
    ghost predicate Valid()
      reads this
    {
      && Sensible(log)
      && greeted == GreetedSince(log)
      && haveMailfrom == SenderSince(log)
      && haveRcptto == RecipientSince(log)
    }

    constructor (offersTls: bool, offersSize: bool)
      ensures Valid() && log == []
    {
      greeted, haveMailfrom, haveRcptto := false, false, false;
      this.offersTls, this.offersSize, log := offersTls, offersSize, [];
    }

    ghost method Note(e: Event)
      modifies this`log
      ensures log == old(log) + [e]
      ensures GreetedSince(log) <==> !e.Tls? && (e.Hello? || GreetedSince(old(log)))
      ensures SenderSince(log) <==> !Closes(e) && (e.Sender? || SenderSince(old(log)))
      ensures RecipientSince(log) <==> !Closes(e) && (e.Recipient? || RecipientSince(old(log)))
      ensures Sensible(log) <==> Sensible(old(log)) && Permitted(old(log), e)
    {
      hide GreetedSince, SenderSince, RecipientSince, Sensible, Permitted;
      Grow(log, e);
      log := log + [e];
    }

    /** All that ever counted for an answer: what was accepted, and what is still offered. */
    ghost function Past(): History
      reads this
    {
      History(log, offersTls, offersSize)
    }

    /** One command. The reply tells whether it was accepted; the three flags decide as the whole past would. */
    method Handle(c: Command) returns (accepted: bool)
      requires Valid()
      modifies this
      ensures Valid()
      ensures accepted <==> Takes(old(Past()), c)
      ensures Past() == Answer(old(Past()), c)
    {
      hide GreetedSince, SenderSince, RecipientSince, Sensible;
      accepted := false;
      match c {
        case Ehlo(ok) =>
          if ok {
            accepted := Greet();
          }
        case Helo(ok) =>
          if ok {
            accepted := Greet();
            offersTls, offersSize := false, false;
          }
        case StartTls(ok) =>
          if offersTls && greeted && ok {
            Note(Tls);
            greeted, offersTls, accepted := false, false, true;
          }
        case Mail(syntax, sizeGiven, sizeFits, ok) =>
          if syntax && greeted && !haveMailfrom && (!sizeGiven || (offersSize && sizeFits)) && ok {
            Note(Sender);
            haveMailfrom, accepted := true, true;
          }
        case Rcpt(syntax, ok) =>
          if syntax && haveMailfrom && ok {
            Note(Recipient);
            haveRcptto, accepted := true, true;
          }
        case Data(bare, ok) =>
          if bare && haveMailfrom && haveRcptto && ok {
            Note(Body);
            haveMailfrom, haveRcptto, accepted := false, false, true;
          }
        case Rset(bare, ok) =>
          if bare && ok {
            Note(Reset);
            haveMailfrom, haveRcptto, accepted := false, false, true;
          }
        case Other =>
      }
    }

    method Greet() returns (accepted: bool)
      requires Valid()
      modifies this`log, this`greeted, this`haveMailfrom, this`haveRcptto
      ensures Valid() && log == old(log) + [Hello] && accepted
    {
      hide GreetedSince, SenderSince, RecipientSince, Sensible;
      Note(Hello);
      greeted, haveMailfrom, haveRcptto, accepted := true, false, false, true;
    }

    /** A whole session. */
    method Serve(cs: seq<Command>) returns (accepted: seq<bool>)
      requires Valid()
      modifies this
      ensures Valid()
      ensures Past() == Replay(old(Past()), cs)
      ensures |accepted| == |cs|
      ensures forall i :: 0 <= i < |cs| ==> (accepted[i] <==> Takes(Replay(old(Past()), cs[..i]), cs[i]))
    {
      hide GreetedSince, SenderSince, RecipientSince, Sensible, Takes, Answer;
      accepted := [];
      for i := 0 to |cs|
        invariant Valid()
        invariant Past() == Replay(old(Past()), cs[..i])
        invariant |accepted| == i
        invariant forall k :: 0 <= k < i ==> (accepted[k] <==> Takes(Replay(old(Past()), cs[..k]), cs[k]))
      {
        var taken := Handle(cs[i]);
        accepted := accepted + [taken];
        assert cs[..i + 1][..i] == cs[..i];
      }
      assert cs[..|cs|] == cs;
    }
  }

  // ---- The answers the past calls for --------------------------------------------------------

  /** Everything accepted so far and the extensions still offered. */
  datatype History = History(log: seq<Event>, tls: bool, size: bool)

  ghost predicate Takes(h: History, c: Command) {
    !c.Other? && Willing(c, h.tls, h.size) && Permitted(h.log, EventOf(c))
  }

  /** HELO withdraws every extension, STARTTLS itself. */
  ghost function Answer(h: History, c: Command): History {
    if Takes(h, c)
    then History(h.log + [EventOf(c)], h.tls && !c.Helo? && !c.StartTls?, h.size && !c.Helo?)
    else h
  }

  ghost function Replay(h: History, cs: seq<Command>): History {
    if cs == [] then h else Answer(Replay(h, cs[..|cs| - 1]), cs[|cs| - 1])
  }

  /** At most one STARTTLS was accepted, and none while it is still offered. */
  ghost predicate OneTls(h: History) {
    && (h.tls ==> Tls !in h.log)
    && forall i, j :: 0 <= i < j < |h.log| ==> !(h.log[i] == Tls && h.log[j] == Tls)
  }

  /** Whatever commands come, a session accepts STARTTLS at most once. */
  lemma {:induction false} TlsOnce(h: History, cs: seq<Command>)
    requires OneTls(h)
    ensures OneTls(Replay(h, cs))
  {
    if cs != [] {
      var before := Replay(h, cs[..|cs| - 1]);
      var c := cs[|cs| - 1];
      TlsOnce(h, cs[..|cs| - 1]);
      if Takes(before, c) && EventOf(c) == Tls {
        assert Tls !in before.log;
      }
    }
  }

  /** No extension is offered that was not offered before. */
  lemma {:induction false} Withdrawn(h: History, cs: seq<Command>)
    ensures (Replay(h, cs).tls ==> h.tls) && (Replay(h, cs).size ==> h.size)
  {
    if cs != [] {
      Withdrawn(h, cs[..|cs| - 1]);
    }
  }

  /** After an accepted HELO no STARTTLS is accepted any more, and no sender that announces a size. */
  lemma HeloWithdraws(h: History, cs: seq<Command>, c: Command)
    requires Takes(h, Helo(true)) && (c.StartTls? || (c.Mail? && c.sizeGiven))
    ensures !Takes(Replay(Answer(h, Helo(true)), cs), c)
  {
    Withdrawn(Answer(h, Helo(true)), cs);
  }

  function EventOf(c: Command): Event {
    match c
    case Ehlo(_) => Hello
    case Helo(_) => Hello
    case StartTls(_) => Tls
    case Mail(_, _, _, _) => Sender
    case Rcpt(_, _) => Recipient
    case Data(_, _) => Body
    case Rset(_, _) => Reset
    case Other => Reset
  }

  /** Everything but the order of commands speaks for accepting it. */
  predicate Willing(c: Command, offersTls: bool, offersSize: bool) {
    match c
    case Ehlo(ok) => ok
    case Helo(ok) => ok
    case StartTls(ok) => offersTls && ok
    case Mail(syntax, sizeGiven, sizeFits, ok) => syntax && (!sizeGiven || (offersSize && sizeFits)) && ok
    case Rcpt(syntax, ok) => syntax && ok
    case Data(bare, ok) => bare && ok
    case Rset(bare, ok) => bare && ok
    case Other => false
  }

  /**
   * Session safety: wherever a body was read, a sender and after it a recipient had been accepted, and
   * between the sender and the body nothing had closed the transaction.
   */
  lemma BodyAfterRecipient(log: seq<Event>, b: nat) returns (i: nat, j: nat)
    requires Sensible(log) && b < |log| && log[b] == Body
    ensures i < j < b && log[i] == Sender && log[j] == Recipient && forall k :: i <= k < b ==> !Closes(log[k])
  {
    SensiblePrefix(log, b + 1);
    var part := log[..b + 1];
    assert part[..b] == log[..b];
    SensiblePrefix(log, b);
    i, j := RecipientAfterSender(log[..b]);
    assert forall k :: i <= k < b ==> log[..b][k] == log[k];
  }

  lemma {:induction false} SensiblePrefix(log: seq<Event>, n: nat)
    requires Sensible(log) && n <= |log|
    ensures Sensible(log[..n])
    decreases |log|
  {
    if n < |log| {
      SensiblePrefix(log[..|log| - 1], n);
      assert log[..|log| - 1][..n] == log[..n];
    } else {
      assert log[..n] == log;
    }
  }

  /** Between two senders a greeting, a body or a reset was accepted, which closed the first transaction. */
  lemma OneSender(log: seq<Event>, i: nat, j: nat) returns (k: nat)
    requires Sensible(log) && i < j < |log| && log[i] == log[j] == Sender
    ensures i < k < j && (log[k] == Hello || log[k] == Body || log[k] == Reset)
  {
    SensiblePrefix(log, j + 1);
    var part := log[..j];
    assert log[..j + 1][..j] == part;
    SenderSinceIff(part);
    assert !OpenAt(part, Sender, i);
    assert part[i] == Sender;
    k :| i <= k < |part| && Closes(part[k]);
  }

  /** Wherever a sender was accepted, a greeting had been accepted since the last STARTTLS. */
  lemma SenderAfterGreeting(log: seq<Event>, s: nat) returns (g: nat)
    requires Sensible(log) && s < |log| && log[s] == Sender
    ensures g < s && log[g] == Hello && forall k :: g <= k < s ==> log[k] != Tls
  {
    SensiblePrefix(log, s + 1);
    var part := log[..s + 1];
    assert part[..s] == log[..s];
    GreetedSinceIff(log[..s]);
    g :| GreetedAt(log[..s], g);
    assert forall k :: g <= k < s ==> log[..s][k] == log[k];
  }
}
