/**
 * The resolver's stack machine, dns_res_exec, one transition at a time. Answers of the network,
 * the hosts file, the hint servers, the cache and the allocator come from an oracle. A transition
 * that would fail an assert, follow a null or dangling pointer, free a packet twice or leave the
 * stack ends in `Crash`.
 */
module Resolver {

  const DEPTH := 8

  datatype RState =
    | Init | Glue | Switch
    | File | FileLoop              // FileLoop: the head of the search loop inside DNS_R_FILE
    | Cache | Submit | Check | Fetch
    | Bind | Search | Hints | Iterate | ForeachNs | Resolv0Ns | Resolv1Ns | ForeachA | QueryA | Cname0A | Cname1A
    | Finish | Smart0A | Smart1A | Done | Servfail

  /** Places that own a packet. */
  datatype Slot = Query(i: nat) | Answer(i: nat) | HintsOf(i: nat) | SoAnswer

  /**
   * A stack frame without its packets. `glue[k]` is the number of A records its hints hold for the
   * host of NS record `k`; `nsLeft` and `aLeft` say how many records its two iterators still yield.
   */
  datatype Frame = Frame(state: RState, which: nat, attempts: nat, glue: seq<nat>, ns: nat, nsLeft: nat, aLeft: nat,
    aSeen: nat)

  const ZERO := Frame(Init, 0, 0, [], 0, 0, 0, 0)

  /** `long`: the name asked for does not fit the buffer it is compared in. */
  datatype Socket = Idle | Busy(query: nat, long: bool) | Fetched

  /** The state of dns_resconf_search: its phase, and the next entry of the search list. */
  datatype SearchState = SearchState(phase: nat, srchi: nat)

  datatype Machine = Machine(sp: nat, frames: seq<Frame>, ptrs: map<Slot, nat>, live: set<nat>, serial: nat,
                             so: Socket, search: SearchState, smartCount: nat, smartLeft: nat)

  /** The type asked for: MX, another whose records name hosts (NS, SRV, all), or one whose records do not. */
  datatype Kind = MailExchange | NamesHost | Plain

  /** `absolute`: the name has at least `ndots` dots; `entries`: non-empty search list entries. */
  datatype Conf = Conf(lookup: seq<char>, attempts: nat, recurse: bool, smart: bool, cache: bool,
                       kind: Kind, emptyName: bool, absolute: bool, entries: nat)

  datatype Expansion = Fine | Failed | TooLong
  datatype Found = Direct | Alias | Neither
  datatype Reply = Ready | NotYet | Broken

  /** Everything a transition may depend on that the resolver does not control. */
  datatype Oracle = Oracle(
    alloc: bool,           // the allocation succeeds
    push: bool,            // dns_p_push succeeds
    parse: bool,           // parsing or copying rdata succeeds
    address: bool,         // an A record parses
    expand: Expansion,     // dns_d_expand into a 256 octet buffer
    packet: bool,          // a lookup returns a packet
    failed: bool,          // if it does not, or a reply is rejected: with an error
    records: bool,         // that packet has answer records
    found: Found,          // what the answer holds for the name asked
    referral: bool,        // it has NS records in the authority section
    authoritative: bool,
    timeout: bool,
    reply: Reply,          // what dns_so_check or the cache says
    moved: bool,           // a packet was reallocated
    answers: nat,          // the records the smart iterator will yield
    more: bool,            // it yields a record to follow
    skipped: nat,          // and has passed over this many others
    glue: seq<nat>,        // the hints of a new packet
    ns: nat,               // the NS record the iterator picks
    copied: nat,           // A records copied as glue
    same: set<nat>,        // NS records of the same host
    nsLeft: nat)           // what a rewound iterator still yields

  datatype Fault = AssertFailed | NullDeref | UseAfterFree | DoubleFree | OffStack

  datatype M<T> = Go(value: T) | Crash(fault: Fault) {
    predicate IsFailure() { Crash? }
    function PropagateFailure<U>(): M<U> requires Crash? { Crash(fault) }
    function Extract(): T requires Go? { value }
  }

  datatype Outcome = Next(m: Machine) | Return(m: Machine, error: Error)
  datatype Error = None | Again | Hard

  // ---- Pointers ----------------------------------------------------------------

  /** The packet in a slot is about to be read. */
  function Use(m: Machine, s: Slot): M<()> {
    if s !in m.ptrs then Crash(NullDeref)
    else if m.ptrs[s] !in m.live then Crash(UseAfterFree)
    else Go(())
  }

  /** free(3) on a slot that is then overwritten. */
  function Free(m: Machine, s: Slot): (r: M<Machine>)
    ensures r.Go? ==> r.value == m.(ptrs := r.value.ptrs, live := r.value.live)
  {
    if s !in m.ptrs then Go(m)
    else if m.ptrs[s] !in m.live then Crash(DoubleFree)
    else Go(m.(ptrs := m.ptrs - {s}, live := m.live - {m.ptrs[s]}))
  }

  /** A slot receives a new packet; whatever it pointed to is forgotten. */
  function New(m: Machine, s: Slot): Machine {
    m.(ptrs := m.ptrs[s := m.serial], live := m.live + {m.serial}, serial := m.serial + 1)
  }

  function Forget(m: Machine, s: Slot): Machine {
    m.(ptrs := m.ptrs - {s})
  }

  function Move(m: Machine, from: Slot, to: Slot): Machine {
    if from in m.ptrs then m.(ptrs := m.ptrs[to := m.ptrs[from]] - (if from == to then {} else {from}))
    else m.(ptrs := m.ptrs - {to})
  }

  function Assert(c: bool): M<()> {
    if c then Go(()) else Crash(AssertFailed)
  }

  // ---- Frames ------------------------------------------------------------------

  ghost predicate Shaped(m: Machine) {
    |m.frames| == DEPTH && m.sp < DEPTH
  }

  function Top(m: Machine): Frame
    requires m.sp < |m.frames|
  {
    m.frames[m.sp]
  }

  function Put(m: Machine, f: Frame): Machine
    requires m.sp < |m.frames|
  {
    m.(frames := m.frames[m.sp := f])
  }

  function Goto(m: Machine, s: RState): M<Outcome>
    requires m.sp < |m.frames|
  {
    Go(Next(Put(m, Top(m).(state := s))))
  }

  function Fail(m: Machine): M<Outcome> {
    Go(Return(m, Hard))
  }

  /** dns_res_reset_frame on the frame above the current one. */
  function ResetAbove(m: Machine): (r: M<Machine>)
    requires m.sp < |m.frames|
    ensures r.Go? ==>
      m.sp + 1 < |m.frames|
      && r.value == m.(ptrs := r.value.ptrs, live := r.value.live, frames := m.frames[m.sp + 1 := ZERO])
  {
    if m.sp + 1 >= |m.frames| then Crash(OffStack)
    else
      var m1 :- Free(m, Query(m.sp + 1));
      var m2 :- Free(m1, Answer(m.sp + 1));
      var m3 :- Free(m2, HintsOf(m.sp + 1));
      Go(m3.(frames := m3.frames[m.sp + 1 := ZERO]))
  }

  /** Suspend the current frame in `s` and start the one above it. */
  function Call(m: Machine, s: RState): M<Outcome>
    requires m.sp < |m.frames|
  {
    if m.sp + 1 >= |m.frames| then Crash(OffStack)
    else
      var m' := Put(m, Top(m).(state := s));
      Go(Next(m'.(sp := m.sp + 1, frames := m'.frames[m.sp + 1 := m'.frames[m.sp + 1].(state := Init)])))
  }

  // ---- dns_resconf_search ----------------------------------------------------------

  /** Whether another name comes out, and the state behind it. */
  function SearchNext(conf: Conf, s: SearchState): (bool, SearchState) {
    if s.phase == 0 && conf.absolute then (!conf.emptyName, SearchState(1, s.srchi))
    else if s.phase <= 1 && s.srchi < conf.entries then (true, SearchState(1, s.srchi + 1))
    else if s.phase <= 2 then (!conf.absolute && !conf.emptyName, SearchState(3, s.srchi))
    else (false, s)
  }

  // ---- The transitions --------------------------------------------------------------

  function AnswersBelow(m: Machine, i: nat): M<()>
    decreases m.sp - i
  {
    if i > m.sp then Go(())
    else if Answer(i) !in m.ptrs then AnswersBelow(m, i + 1)
    else
      var _ :- Use(m, Answer(i));
      AnswersBelow(m, i + 1)
  }

  function StepGlue(m: Machine, o: Oracle): M<Outcome>
    requires m.sp < |m.frames|
  {
    if m.sp == 0 then Goto(m, Switch)
    else
      var _ :- Assert(Query(m.sp) in m.ptrs);
      var _ :- Use(m, Query(m.sp));
      var _ :- AnswersBelow(m, 0);
      if !o.packet then Goto(Forget(m, Answer(m.sp)), Switch)
      else
        var m1 := New(m, Answer(m.sp));
        if o.expand != Fine then Fail(m1)
        else match o.found
          case Direct => Goto(m1, Finish)
          case Alias => Goto(m1, Cname0A)
          case Neither => Goto(m1, Switch)
  }

  function StepSwitch(conf: Conf, m: Machine): M<Outcome>
    requires m.sp < |m.frames|
  {
    var f := Top(m);
    if f.which >= |conf.lookup| then Goto(m, Servfail)
    else
      var c := conf.lookup[f.which];
      var m1 := Put(m, f.(which := f.which + 1));
      if c == 'b' || c == 'B' then Goto(m1, Bind)
      else if c == 'f' || c == 'F' then Goto(m1, File)
      else if (c == 'c' || c == 'C') && conf.cache then Goto(m1, Cache)
      else Go(Next(m1))
  }

  /** What FILE, CACHE and FETCH do with the packet they got: keep it if it answers, else go on. */
  function KeepOrDrop(m: Machine, o: Oracle, next: RState): M<Outcome>
    requires m.sp < |m.frames|
  {
    if o.records then Goto(m, Finish)
    else
      var m1 :- Free(m, Answer(m.sp));
      Goto(m1, next)
  }

  function StepFile(m: Machine, o: Oracle): M<Outcome>
    requires m.sp < |m.frames|
  {
    if m.sp == 0 then Goto(m.(search := SearchState(0, 0)), FileLoop)
    else
      var m1 :- Free(m, Answer(m.sp));
      var _ :- Use(m1, Query(m.sp));
      if !o.packet then Fail(m1)
      else
        var m2 := New(m1, Answer(m.sp));
        KeepOrDrop(m2, o, Switch)
  }

  function StepFileLoop(conf: Conf, m: Machine, o: Oracle): M<Outcome>
    requires m.sp < |m.frames|
  {
    var (another, search') := SearchNext(conf, m.search);
    var m0 := m.(search := search');
    if !another then Goto(m0, Switch)
    else if !o.push then Fail(Put(m0, Top(m0).(state := File)))
    else
      var m1 :- Free(m0, Answer(m.sp));
      if !o.packet then Fail(Put(m1, Top(m1).(state := File)))
      else
        var m2 := New(m1, Answer(m.sp));
        KeepOrDrop(m2, o, FileLoop)
  }

  function StepCache(m: Machine, o: Oracle): M<Outcome>
    requires m.sp < |m.frames|
  {
    if Query(m.sp) !in m.ptrs && !(o.alloc && o.push) then Fail(m)
    else
      var m1 := if Query(m.sp) in m.ptrs then m else New(m, Query(m.sp));
      var m2 :- Free(m1, Answer(m.sp));
      var _ :- Use(m2, Query(m.sp));
      if o.packet then
        var m3 := New(m2, Answer(m.sp));
        KeepOrDrop(m3, o, Switch)
      else if o.failed then Fail(m2)
      else Goto(m2, Submit)
  }

  /** The error of a call into the cache: EAGAIN or another one. */
  function CacheWait(m: Machine, o: Oracle, next: RState): M<Outcome>
    requires m.sp < |m.frames|
  {
    match o.reply
    case Ready => Goto(m, next)
    case NotYet => Go(Return(m, Again))
    case Broken => Fail(m)
  }

  function StepFetch(m: Machine, o: Oracle): M<Outcome>
    requires m.sp < |m.frames|
  {
    var m1 :- Free(m, Answer(m.sp));
    if o.packet then
      var m2 := New(m1, Answer(m.sp));
      KeepOrDrop(m2, o, Switch)
    else if o.failed then Fail(m1)
    else Goto(m1, Switch)
  }

  function StepBind(m: Machine): M<Outcome>
    requires m.sp < |m.frames|
  {
    if m.sp > 0 then
      var _ :- Assert(Query(m.sp) in m.ptrs);
      Goto(m, Hints)
    else Goto(m.(search := SearchState(0, 0)), Search)
  }

  function StepSearch(conf: Conf, m: Machine, o: Oracle): M<Outcome>
    requires m.sp < |m.frames|
  {
    var (another, search') := SearchNext(conf, m.search);
    var m0 := m.(search := search');
    if !another then Goto(m0, Switch)
    else if !o.alloc then Fail(m0)
    else
      var m1 :- Free(m0, Query(m.sp));
      var m2 := New(m1, Query(m.sp));
      if !o.push then Fail(m2)
      else Goto(m2, Hints)
  }

  function StepHints(m: Machine, o: Oracle): M<Outcome>
    requires m.sp < |m.frames|
  {
    var _ :- Use(m, Query(m.sp));
    if !o.packet then Fail(Forget(m, HintsOf(m.sp)))
    else
      var m1 := New(m, HintsOf(m.sp));
      Go(Next(Put(m1, Top(m1).(glue := o.glue, state := Iterate))))
  }

  function StepIterate(m: Machine): M<Outcome>
    requires m.sp < |m.frames|
  {
    var _ :- Use(m, HintsOf(m.sp));
    Go(Next(Put(m, Top(m).(nsLeft := |Top(m).glue|, state := ForeachNs))))
  }

  function StepForeachNs(conf: Conf, m: Machine, o: Oracle): M<Outcome>
    requires m.sp < |m.frames|
  {
    var f := Top(m);
    var _ :- Use(m, HintsOf(m.sp));
    if f.nsLeft == 0 || |f.glue| == 0 then
      var m1 := Put(m, f.(attempts := f.attempts + 1));
      Goto(m1, if f.attempts + 1 < conf.attempts then Iterate else Switch)
    else
      var k := o.ns % |f.glue|;
      Go(Next(Put(m, f.(ns := k, nsLeft := f.nsLeft - 1, aLeft := f.glue[k], aSeen := 0, state := ForeachA))))
  }

  function StepResolv0Ns(m: Machine, o: Oracle): M<Outcome>
    requires m.sp < |m.frames|
  {
    if m.sp + 1 >= |m.frames| then Goto(m, ForeachNs)
    else
      var m1 :- ResetAbove(m);
      if !o.alloc then Fail(m1)
      else
        var m2 := New(m1, Query(m.sp + 1));
        var _ :- Use(m2, HintsOf(m.sp));
        if !o.parse || !o.push then Fail(m2) else Call(m2, Resolv1Ns)
  }

  /** The hints after `k` A records were added for the host of record `ns` and of its namesakes. */
  function Glued(glue: seq<nat>, ns: nat, same: set<nat>, k: nat): (r: seq<nat>)
    ensures |r| == |glue|
  {
    seq(|glue|, i requires 0 <= i < |glue| => if i == ns || i in same then glue[i] + k else glue[i])
  }

  function StepResolv1Ns(m: Machine, o: Oracle): M<Outcome>
    requires m.sp < |m.frames|
  {
    if m.sp + 1 >= |m.frames| then Crash(OffStack)
    else
      var f := Top(m);
      var _ :- Use(m, Query(m.sp + 1));
      if o.expand != Fine then Fail(m)
      else
        var _ :- Use(m, Answer(m.sp + 1));
        var _ :- if o.copied > 0 || !o.parse then Use(m, HintsOf(m.sp)) else Go(());
        var f1 := if o.copied == 0 then f
                  else f.(glue := Glued(f.glue, f.ns, o.same, o.copied),
                          nsLeft := if o.nsLeft <= |f.glue| then o.nsLeft else |f.glue|);
        if !o.parse then Fail(Put(m, f1)) else Goto(Put(m, f1), ForeachNs)
  }

  function StepForeachA(m: Machine, o: Oracle): M<Outcome>
    requires m.sp < |m.frames|
  {
    var f := Top(m);
    var _ :- Use(m, HintsOf(m.sp));
    if !o.parse then Fail(m)
    else if f.aLeft == 0 then Goto(m, if f.aSeen == 0 then Resolv0Ns else ForeachNs)
    else
      var m1 := Put(m, f.(aLeft := f.aLeft - 1, aSeen := f.aSeen + 1));
      if !o.address then Fail(m1)
      else SoSubmit(m1, o)
  }

  /** dns_so_submit: drops the old answer buffer, and takes a new one; a name too long to be verified is let through. */
  function SoSubmit(m1: Machine, o: Oracle): M<Outcome>
    requires m1.sp < |m1.frames|
  {
    var m2 :- Free(m1, SoAnswer);
    var m3 := m2.(so := Idle);
    var _ :- Use(m3, Query(m3.sp));
    if o.expand == Failed || !o.alloc then Fail(m3)
    else Goto(New(m3, SoAnswer).(so := Busy(m3.ptrs[Query(m3.sp)], o.expand == TooLong)), QueryA)
  }

  /** dns_so_check: reads the query and the answer buffer, which it may reallocate. */
  function SoCheck(m: Machine, o: Oracle): (r: M<Machine>)
    ensures r.Go? ==> r.value == m.(ptrs := r.value.ptrs, live := r.value.live, serial := r.value.serial)
  {
    match m.so
    case Idle => Go(m)
    case Fetched =>
      var _ :- Use(m, SoAnswer);
      Go(m)
    case Busy(q, _) =>
      var _ :- Use(m, SoAnswer);
      if q !in m.live then Crash(UseAfterFree)
      else if !o.moved then Go(m)
      else
        var m1 :- Free(m, SoAnswer);
        Go(New(m1, SoAnswer))
  }

  /**
   * What is left of a reply after dns_so_verify: its question must fit the buffer and be as long as the
   * one asked. Over UDP a rejected reply is thrown away, over TCP it is an error.
   */
  function Verified(so: Socket, o: Oracle): Reply {
    if o.reply.Ready? && so.Busy? && (so.long || o.expand != Fine) then (if o.failed then Broken else NotYet)
      else o.reply
  }

  function StepQueryA(conf: Conf, m: Machine, o: Oracle): M<Outcome>
    requires m.sp < |m.frames|
  {
    if o.timeout then Goto(m, ForeachA)
    else
      var m1 :- SoCheck(m, o);
      if m1.so.Idle? || Verified(m1.so, o).Broken? then Fail(m1)
      else if Verified(m1.so, o).NotYet? then Go(Return(m1, Again))
      else
        TakeAnswer(conf, m1, o)
  }

  /** dns_so_fetch, and what the answer leads to. The name that was submitted is expanded once more. */
  function TakeAnswer(conf: Conf, m1: Machine, o: Oracle): M<Outcome>
    requires m1.sp < |m1.frames|
  {
    var m2 :- Free(m1, Answer(m1.sp));
    var m3 := Move(m2, SoAnswer, Answer(m2.sp)).(so := Fetched);
    var _ :- Use(m3, Query(m3.sp));
    if m1.so.Busy? && m1.so.long then Fail(m3)
    else
      var _ :- Use(m3, Answer(m3.sp));
      match o.found
      case Direct => Goto(m3, Finish)
      case Alias => Goto(m3, Cname0A)
      case Neither =>
        if !conf.recurse then Goto(m3, Switch)
        else if o.referral then Refer(m3, o)
        else Goto(m3, if o.authoritative then Finish else ForeachA)
  }

  /** The answer becomes the new hints. */
  function Refer(m3: Machine, o: Oracle): M<Outcome>
    requires m3.sp < |m3.frames|
  {
    var m4 :- Free(m3, HintsOf(m3.sp));
    var m5 := Move(m4, Answer(m4.sp), HintsOf(m4.sp));
    Go(Next(Put(m5, Top(m5).(glue := o.glue, state := Iterate))))
  }

  function StepCname0A(m: Machine, o: Oracle): M<Outcome>
    requires m.sp < |m.frames|
  {
    if m.sp + 1 >= |m.frames| then Goto(m, Finish)
    else
      var _ :- Use(m, Answer(m.sp));
      if !o.parse then Fail(m)
      else
        var m1 :- ResetAbove(m);
        if !o.alloc then Fail(m1)
        else
          var m2 := New(m1, Query(m.sp + 1));
          var _ :- Use(m2, Query(m.sp));
          if !o.push then Fail(m2) else Call(m2, Cname1A)
  }

  function StepCname1A(m: Machine, o: Oracle): M<Outcome>
    requires m.sp < |m.frames|
  {
    if m.sp + 1 >= |m.frames| then Crash(OffStack)
    else
      var _ :- Use(m, Answer(m.sp));
      var _ :- Use(m, Answer(m.sp + 1));
      if !o.packet then Fail(m)
      else
        var m1 :- Free(m, Answer(m.sp));
        var m2 := New(m1, Answer(m.sp));
        Goto(m2, Finish)
  }

  function StepFinish(conf: Conf, m: Machine, o: Oracle): M<Outcome>
    requires m.sp < |m.frames|
  {
    var _ :- Assert(Answer(m.sp) in m.ptrs);
    if !conf.smart || m.sp > 0 then Goto(m, Done)
    else
      var _ :- Use(m, Answer(m.sp));
      Goto(m.(smartCount := 0, smartLeft := o.answers), Smart0A)
  }

  /** Whether the smart iterator yields a record to follow, and the machine with the iterator moved on. */
  function SmartNext(conf: Conf, m: Machine, o: Oracle): (r: (bool, Machine))
    ensures r.1 == m.(smartCount := r.1.smartCount, smartLeft := r.1.smartLeft)
  {
    var k := if o.skipped <= m.smartLeft then o.skipped else m.smartLeft;
    if o.more && !conf.kind.Plain? && k < m.smartLeft then
      (true, m.(smartCount := m.smartCount + k + 1, smartLeft := m.smartLeft - k - 1))
    else
      (false, m.(smartCount := m.smartCount + k, smartLeft := m.smartLeft - k))
  }

  function StepSmart0A(conf: Conf, m: Machine, o: Oracle): M<Outcome>
    requires m.sp < |m.frames|
  {
    if m.sp + 1 >= |m.frames| then Goto(m, Done)
    else
      var _ :- Use(m, Answer(m.sp));
      var (more, m0) := SmartNext(conf, m, o);
      if more && !o.parse then Fail(m0)
      else if more || (conf.kind.MailExchange? && m0.smartCount == 0) then
        var m1 :- ResetAbove(m0);
        if !o.alloc || !o.push then Fail(m1)
        else Call(New(m1, Query(m.sp + 1)).(smartCount := if more then m0.smartCount else m0.smartCount + 1), Smart1A)
      else Goto(m0, Done)
  }

  function StepSmart1A(m: Machine, o: Oracle): M<Outcome>
    requires m.sp < |m.frames|
  {
    if m.sp + 1 >= |m.frames| then Crash(OffStack)
    else
      var _ :- Assert(Answer(m.sp + 1) in m.ptrs);
      var _ :- Use(m, Answer(m.sp + 1));
      var _ :- Use(m, Answer(m.sp));
      var m1 :- if o.moved then Free(m, Answer(m.sp)) else Go(m);
      var m2 := if o.moved then New(m1, Answer(m.sp)) else m1;
      if !o.parse then Fail(m2)
      else Goto(m2, Smart0A)
  }

  function StepDone(m: Machine): M<Outcome>
    requires m.sp < |m.frames|
  {
    var _ :- Assert(Answer(m.sp) in m.ptrs);
    if m.sp > 0 then Go(Next(m.(sp := m.sp - 1))) else Go(Return(m, None))
  }

  function StepServfail(m: Machine, o: Oracle): M<Outcome>
    requires m.sp < |m.frames|
  {
    var m1 :- Free(m, Answer(m.sp));
    if !o.alloc then Fail(m1)
    else
      var m2 := New(m1, Answer(m.sp));
      if !o.push then Fail(m2)
      else Goto(m2, Done)
  }

  /** One case of the switch in dns_res_exec. */
  function Step(conf: Conf, m: Machine, o: Oracle): M<Outcome> {
    if m.sp >= |m.frames| then Crash(OffStack)
    else match Top(m).state
      case Init => Goto(m, Glue)
      case Glue => StepGlue(m, o)
      case Switch => StepSwitch(conf, m)
      case File => StepFile(m, o)
      case FileLoop => StepFileLoop(conf, m, o)
      case Cache => StepCache(m, o)
      case Submit => var _ :- Use(m, Query(m.sp)); CacheWait(m, o, Check)
      case Check => CacheWait(m, o, Fetch)
      case Fetch => StepFetch(m, o)
      case Bind => StepBind(m)
      case Search => StepSearch(conf, m, o)
      case Hints => StepHints(m, o)
      case Iterate => StepIterate(m)
      case ForeachNs => StepForeachNs(conf, m, o)
      case Resolv0Ns => StepResolv0Ns(m, o)
      case Resolv1Ns => StepResolv1Ns(m, o)
      case ForeachA => StepForeachA(m, o)
      case QueryA => StepQueryA(conf, m, o)
      case Cname0A => StepCname0A(m, o)
      case Cname1A => StepCname1A(m, o)
      case Finish => StepFinish(conf, m, o)
      case Smart0A => StepSmart0A(conf, m, o)
      case Smart1A => StepSmart1A(m, o)
      case Done => StepDone(m)
      case Servfail => StepServfail(m, o)
  }

  /** The machine as dns_res_submit leaves it. */
  const SUBMITTED :=
    Machine(0, [ZERO, ZERO, ZERO, ZERO, ZERO, ZERO, ZERO, ZERO], map[], {}, 0, Idle, SearchState(0, 0), 0, 0)
}
