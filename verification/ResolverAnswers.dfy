/**
 * What the resolver answers with. Each packet that comes to be an answer is followed from the lookup it came
 * from to the result of the run.
 */
module ResolverAnswers {
  import opened Resolver
  import opened ResolverSafety
  import opened ResolverRuns
  import Wire

  /** Who a packet came from: answers found further down, the hosts file, the cache, name servers, or nobody. */
  datatype Source = ByGlue | ByHosts | ByCache | ByServers | ByNobody

  /**
   * What it holds for the name asked: a record of the type asked, only an alias, an authoritative denial,
   * nothing of use, a refusal made up by the resolver, or an alias together with the answer for its target.
   */
  datatype Holding = Answered | AliasOnly | Denied | Nothing | Refused | Merged(target: Content)

  datatype Content = Content(from: Source, holds: Holding)

  type Contents = map<nat, Content>

  // ---- Where contents come from ---------------------------------------------------------------

  function Looked(found: Found, denied: bool): Holding {
    match found
    case Direct => Answered
    case Alias => AliasOnly
    case Neither => if denied then Denied else Nothing
  }

  function At(m: Machine, known: Contents, i: nat): Content {
    if Answer(i) in m.ptrs && m.ptrs[Answer(i)] in known then known[m.ptrs[Answer(i)]] else Content(ByNobody, Nothing)
  }

  /** What a packet holds that becomes the answer of the current frame. */
  function Obtained(m: Machine, o: Oracle, known: Contents): Content
    requires m.sp < |m.frames|
  {
    match Top(m).state
    case Glue => Content(ByGlue, if o.expand == Fine then Looked(o.found, false) else Nothing)
    case File => Content(ByHosts, if o.records then Answered else Nothing)
    case FileLoop => Content(ByHosts, if o.records then Answered else Nothing)
    case Cache => Content(ByCache, if o.records then Answered else Nothing)
    case Fetch => Content(ByCache, if o.records then Answered else Nothing)
    case QueryA => Content(ByServers, Looked(o.found, o.authoritative && !o.referral))
    case Cname1A => Content(At(m, known, m.sp).from, Merged(At(m, known, m.sp + 1)))
    case Smart1A => At(m, known, m.sp)
    case Servfail => Content(ByNobody, if o.push then Refused else Nothing)
    case _ => Content(ByNobody, Nothing)
  }

  /** The contents known after a transition to `m'`. */
  function Learn(m: Machine, o: Oracle, m': Machine, known: Contents): Contents
    requires m.sp < |m.frames|
  {
    var a := Answer(m.sp);
    if a in m'.ptrs && (a !in m.ptrs || m.ptrs[a] != m'.ptrs[a]) then known[m'.ptrs[a] := Obtained(m, o, known)]
    else known
  }

  function Learned(conf: Conf, os: nat -> Oracle, k: nat): Contents {
    if k == 0 then map[]
    else
      var r, r' := Checked(conf, os, k - 1), Checked(conf, os, k);
      var known := Learned(conf, os, k - 1);
      if r.Go? && r'.Go? && r.value.sp < |r.value.frames| then Learn(r.value, os(k - 1), r'.value, known) else known
  }

  // ---- What makes a result --------------------------------------------------------------------

  /** The lookup order lists the hosts file. */
  predicate FilesIn(conf: Conf) {
    exists i :: 0 <= i < |conf.lookup| && (conf.lookup[i] == 'f' || conf.lookup[i] == 'F')
  }

  /** A source is used only if the configuration names it. */
  predicate SourceOk(conf: Conf, i: nat, from: Source) {
    match from
    case ByGlue => i > 0
    case ByHosts => FilesIn(conf)
    case ByCache => CacheFrom(conf, 0)
    case ByServers => ServersFrom(conf, 0)
    case ByNobody => true
  }

  /** An alias that can be followed. */
  predicate Followable(conf: Conf, i: nat, c: Content) {
    SourceOk(conf, i, c.from) && (c.from.ByGlue? || c.from.ByServers?) && c.holds.AliasOnly?
  }

  /**
   * What frame `i` may end with: an answer, a denial if referrals are followed, a refusal, an alias with the
   * result of the frame above; and a bare alias only in the last frame.
   */
  predicate Resolved(conf: Conf, i: nat, c: Content)
    decreases c
  {
    && SourceOk(conf, i, c.from)
    && match c.holds
       case Answered => !c.from.ByNobody?
       case AliasOnly => i == DEPTH - 1 && Followable(conf, i, c)
       case Denied => c.from.ByServers? && conf.recurse
       case Nothing => false
       case Refused => c.from.ByNobody?
       case Merged(t) => (c.from.ByGlue? || c.from.ByServers?) && i + 1 < DEPTH && Resolved(conf, i + 1, t)
  }

  /** What a frame does not go on looking after. */
  predicate Settles(conf: Conf, c: Content) {
    !c.holds.Nothing? && (c.holds.Denied? ==> conf.recurse)
  }

  // ---- What holds between transitions ----------------------------------------------------------

  predicate CacheState(s: RState) {
    s.Cache? || s.Submit? || s.Check? || s.Fetch?
  }

  ghost predicate StateTold(conf: Conf, f: Frame) {
    && (f.state.File? || f.state.FileLoop? ==> FilesIn(conf))
    && (CacheState(f.state) ==> CacheFrom(conf, 0))
    && (Asking(f.state) ==> ServersFrom(conf, 0))
    && (f.state.Servfail? ==> f.which >= |conf.lookup|)
  }

  ghost predicate ContentTold(conf: Conf, f: Frame, i: nat, c: Content) {
    && (Settles(conf, c) ==> NeedsAnswer(f.state))
    && (f.state.Cname0A? || f.state.Cname1A? ==> Followable(conf, i, c))
    && (f.state.Cname1A? ==> i + 1 < DEPTH)
    && (NeedsAnswer(f.state) && !f.state.Cname0A? && !f.state.Cname1A? ==>
        Resolved(conf, i, c) && (c.holds.Refused? ==> f.which >= |conf.lookup|))
  }

  ghost predicate FrameTold(conf: Conf, m: Machine, known: Contents, i: nat)
    requires i < |m.frames|
  {
    StateTold(conf, m.frames[i]) && ContentTold(conf, m.frames[i], i, At(m, known, i))
  }

  ghost predicate Told(conf: Conf, m: Machine, known: Contents) {
    && m.sp < |m.frames|
    && (forall i: nat {:trigger FrameTold(conf, m, known, i)} :: i <= m.sp ==> FrameTold(conf, m, known, i))
    && (Suspended(Top(m).state) ==>
        m.sp + 1 < |m.frames| && m.frames[m.sp + 1].state.Done? && FrameTold(conf, m, known, m.sp + 1))
  }

  /** The answer in slot `i` is the same packet, or there is none. */
  ghost predicate SameAnswer(m: Machine, m': Machine, i: nat) {
    && (Answer(i) in m'.ptrs <==> Answer(i) in m.ptrs)
    && (Answer(i) in m.ptrs ==> m'.ptrs[Answer(i)] == m.ptrs[Answer(i)])
  }

  /** Nothing changed but the current frame, its answer, and packets that are no answers. */
  ghost predicate Others(m: Machine, m': Machine) {
    && m'.sp == m.sp < |m.frames| == |m'.frames| && m'.frames == m.frames[m.sp := m'.frames[m.sp]]
    && forall i: nat {:trigger SameAnswer(m, m', i)} :: i != m.sp ==> SameAnswer(m, m', i)
  }

  /** What the answer of the current frame holds after a transition to `m'`. */
  function Now(m: Machine, o: Oracle, m': Machine, known: Contents): Content
    requires m.sp < |m.frames|
  {
    var a := Answer(m.sp);
    if a !in m'.ptrs then Content(ByNobody, Nothing)
    else if a in m.ptrs && m.ptrs[a] == m'.ptrs[a] then At(m, known, m.sp)
    else Obtained(m, o, known)
  }

  /** A transition within a frame that tells the truth. */
  ghost predicate Turn(conf: Conf, m: Machine, o: Oracle, r: M<Outcome>, known: Contents)
    requires m.sp < |m.frames|
  {
    r.Go? ==>
      var m' := r.value.m;
      && m'.sp == m.sp < |m'.frames|
      && StateTold(conf, Top(m')) && ContentTold(conf, Top(m'), m.sp, Now(m, o, m', known))
      && (Suspended(Top(m').state) ==> Suspended(Top(m).state))
  }

  lemma SameTold(conf: Conf, m: Machine, o: Oracle, m': Machine, known: Contents, i: nat)
    requires m.sp < |m.frames| && i < |m.frames| && i < |m'.frames| && m'.frames[i] == m.frames[i]
    requires i != m.sp && SameAnswer(m, m', i) && HeapOk(m') && FrameTold(conf, m, known, i)
    ensures FrameTold(conf, m', Learn(m, o, m', known), i)
  {
    hide StateTold, ContentTold, Obtained;
    assert At(m', Learn(m, o, m', known), i) == At(m, known, i);
  }

  lemma Carry(conf: Conf, m: Machine, o: Oracle, r: M<Outcome>, known: Contents)
    requires Told(conf, m, known) && r.Go? && Others(m, r.value.m) && Turn(conf, m, o, r, known) && HeapOk(r.value.m)
    ensures Told(conf, r.value.m, Learn(m, o, r.value.m, known))
  {
    hide StateTold, ContentTold, Owned, SameAnswer, Obtained;
    var m' := r.value.m;
    assert At(m', Learn(m, o, m', known), m.sp) == Now(m, o, m', known);
    hide At, Learn, Now;
    forall i: nat | i <= m'.sp
      ensures FrameTold(conf, m', Learn(m, o, m', known), i)
    {
      if i < m.sp {
        assert SameAnswer(m, m', i) && FrameTold(conf, m, known, i);
        SameTold(conf, m, o, m', known, i);
      }
    }
    if Suspended(Top(m').state) {
      assert SameAnswer(m, m', m.sp + 1) && FrameTold(conf, m, known, m.sp + 1);
      SameTold(conf, m, o, m', known, m.sp + 1);
    }
  }

  lemma TopIs(conf: Conf, m: Machine, known: Contents)
    requires Told(conf, m, known)
    ensures m.sp < |m.frames| && StateTold(conf, Top(m)) && ContentTold(conf, Top(m), m.sp, At(m, known, m.sp))
  {
    assert FrameTold(conf, m, known, m.sp);
  }

  // ---- Ways to turn ------------------------------------------------------------------------------

  const NONE := Content(ByNobody, Nothing)

  /** How the answer of the current frame changed. */
  lemma NowIs(m: Machine, o: Oracle, m': Machine, known: Contents)
    requires m.sp < |m.frames|
    ensures Answer(m.sp) !in m'.ptrs ==> Now(m, o, m', known) == NONE
    ensures SameAnswer(m, m', m.sp) ==> Now(m, o, m', known) == At(m, known, m.sp)
    ensures NewAnswer(m, m') ==> Now(m, o, m', known) == Obtained(m, o, known)
  {
  }

  /** The current frame has got an answer. */
  ghost predicate NewAnswer(m: Machine, m': Machine) {
    var a := Answer(m.sp);
    a in m'.ptrs && (a in m.ptrs ==> m.ptrs[a] != m'.ptrs[a])
  }

  lemma SeeksNone(conf: Conf, f: Frame, i: nat)
    requires !NeedsAnswer(f.state)
    ensures ContentTold(conf, f, i, NONE)
  {
  }

  /** What is not settled before stays so. */
  lemma StillSeeks(conf: Conf, f: Frame, f': Frame, i: nat, c: Content)
    requires ContentTold(conf, f, i, c) && !NeedsAnswer(f.state) && !NeedsAnswer(f'.state)
    ensures ContentTold(conf, f', i, c)
  {
  }

  /** From one state without an answer to another, with the answer slot left alone or emptied. */
  lemma SeekOn(conf: Conf, m: Machine, o: Oracle, r: M<Outcome>, known: Contents)
    requires Told(conf, m, known) && r.Go? && r.value.m.sp == m.sp < |r.value.m.frames|
    requires StateTold(conf, Top(r.value.m)) && !NeedsAnswer(Top(m).state) && !NeedsAnswer(Top(r.value.m).state)
    requires Suspended(Top(r.value.m).state) ==> Suspended(Top(m).state)
    requires SameAnswer(m, r.value.m, m.sp) || Answer(m.sp) !in r.value.m.ptrs
    ensures Turn(conf, m, o, r, known)
  {
    hide Told, StateTold, ContentTold, Now, SameAnswer, NeedsAnswer;
    TopIs(conf, m, known);
    var m' := r.value.m;
    NowIs(m, o, m', known);
    StillSeeks(conf, Top(m), Top(m'), m.sp, At(m, known, m.sp));
    SeeksNone(conf, Top(m'), m.sp);
  }

  /** The same among states that have their answer. */
  lemma HoldOn(conf: Conf, m: Machine, o: Oracle, r: M<Outcome>, known: Contents)
    requires Told(conf, m, known) && r.Go? && r.value.m.sp == m.sp < |r.value.m.frames|
    requires Settled(Top(m).state) && Settled(Top(r.value.m).state) && Top(r.value.m).which == Top(m).which
    requires Suspended(Top(r.value.m).state) ==> Suspended(Top(m).state)
    requires Now(m, o, r.value.m, known) == At(m, known, m.sp)
    ensures Turn(conf, m, o, r, known)
  {
    hide Told, Now, At, Resolved;
    TopIs(conf, m, known);
  }

  predicate Settled(s: RState) {
    s.Finish? || s.Smart0A? || s.Smart1A? || s.Done?
  }

  /** FILE, CACHE and FETCH have got a packet. */
  lemma KeepTurn(conf: Conf, m: Machine, o: Oracle, m2: Machine, next: RState, known: Contents)
    requires m2.sp == m.sp < |m.frames| == |m2.frames| && HeapOk(m2) && NewAnswer(m, m2)
    requires var c := Obtained(m, o, known);
      SourceOk(conf, m.sp, c.from) && !c.from.ByNobody? && c.holds == if o.records then Answered else Nothing
    requires (next.Switch? || next.FileLoop?) && StateTold(conf, Top(m2).(state := next))
    ensures Turn(conf, m, o, KeepOrDrop(m2, o, next), known)
  {
    hide Obtained, Now, Free, Owned, SourceOk, StateTold;
    FreeOk(m2, Answer(m.sp));
    var r := KeepOrDrop(m2, o, next);
    NowIs(m, o, r.value.m, known);
    if o.records {
      FreeTold(conf, Top(m2).(state := Finish));
    } else {
      SeeksNone(conf, Top(r.value.m), m.sp);
    }
  }

  // ---- States and what they claim ------------------------------------------------------------------

  lemma FilesTold(conf: Conf, f: Frame)
    requires FilesIn(conf) && (f.state.File? || f.state.FileLoop?)
    ensures StateTold(conf, f)
  {
    hide FilesIn;
  }

  lemma CachesTold(conf: Conf, f: Frame)
    requires CacheFrom(conf, 0) && CacheState(f.state)
    ensures StateTold(conf, f) && !NeedsAnswer(f.state) && !Suspended(f.state)
  {
    hide CacheFrom;
  }

  lemma AskingTold(conf: Conf, f: Frame)
    requires ServersFrom(conf, 0) && Asking(f.state)
    ensures StateTold(conf, f) && !NeedsAnswer(f.state)
  {
    hide ServersFrom;
  }

  lemma FreeTold(conf: Conf, f: Frame)
    requires f.state.Init? || f.state.Glue? || f.state.Switch? || NeedsAnswer(f.state)
    ensures StateTold(conf, f)
  {
  }

  lemma ToldFiles(conf: Conf, m: Machine, known: Contents)
    requires Told(conf, m, known)
    ensures m.sp < |m.frames|
    ensures Top(m).state.File? || Top(m).state.FileLoop? ==> FilesIn(conf)
    ensures CacheState(Top(m).state) ==> CacheFrom(conf, 0)
    ensures Asking(Top(m).state) ==> ServersFrom(conf, 0)
    ensures Top(m).state.Servfail? ==> Top(m).which >= |conf.lookup|
  {
    hide ServersFrom, CacheFrom, FilesIn, ContentTold;
    TopIs(conf, m, known);
  }

  // ---- The transitions -------------------------------------------------------------------------

  lemma SwitchTold(conf: Conf, m: Machine, o: Oracle, known: Contents)
    requires Told(conf, m, known) && Top(m).state.Switch?
    ensures Turn(conf, m, o, StepSwitch(conf, m), known)
  {
    hide Told, StateTold, ServersFrom, CacheFrom, FilesIn, Turn;
    ToldFiles(conf, m, known);
    var f, r := Top(m), StepSwitch(conf, m);
    var f' := Top(r.value.m);
    if f.which >= |conf.lookup| {
      GivenUp(conf, f');
    } else {
      Listed(conf, f.which);
      SwitchTarget(conf, f');
    }
    SeekOn(conf, m, o, r, known);
  }

  lemma GivenUp(conf: Conf, f: Frame)
    requires f.state.Servfail? && f.which >= |conf.lookup|
    ensures StateTold(conf, f)
  {
  }

  lemma SwitchTarget(conf: Conf, f: Frame)
    requires f.state.Switch? || (f.state.Bind? && ServersFrom(conf, 0)) || (f.state.File? && FilesIn(conf))
      || (f.state.Cache? && CacheFrom(conf, 0))
    ensures StateTold(conf, f)
  {
    hide ServersFrom, CacheFrom, FilesIn;
  }

  lemma Listed(conf: Conf, i: nat)
    requires i < |conf.lookup|
    ensures AsksServers(conf.lookup[i]) ==> ServersFrom(conf, 0)
    ensures conf.cache && AsksCache(conf.lookup[i]) ==> CacheFrom(conf, 0)
    ensures conf.lookup[i] == 'f' || conf.lookup[i] == 'F' ==> FilesIn(conf)
  {
  }

  lemma InitTold(conf: Conf, m: Machine, o: Oracle, known: Contents)
    requires Told(conf, m, known) && Top(m).state.Init?
    ensures Turn(conf, m, o, Goto(m, Glue), known)
  {
    hide Told, StateTold, Turn;
    ToldFiles(conf, m, known);
    FreeTold(conf, Top(Goto(m, Glue).value.m));
    SeekOn(conf, m, o, Goto(m, Glue), known);
  }

  lemma GlueTold(conf: Conf, m: Machine, o: Oracle, known: Contents)
    requires Told(conf, m, known) && HeapOk(m) && Top(m).state.Glue? && StepGlue(m, o).Go?
    ensures Turn(conf, m, o, StepGlue(m, o), known)
  {
    hide AnswersBelow, Told, StateTold, Turn, Use;
    ToldFiles(conf, m, known);
    var r := StepGlue(m, o);
    FreeTold(conf, Top(r.value.m));
    if m.sp == 0 || !o.packet {
      SeekOn(conf, m, o, r, known);
    } else {
      assert r.value.m.ptrs == New(m, Answer(m.sp)).ptrs;
      NewDiffers(m, m, Answer(m.sp));
      GlueFound(conf, m, o, r, known);
    }
  }

  lemma GlueFound(conf: Conf, m: Machine, o: Oracle, r: M<Outcome>, known: Contents)
    requires m.sp < |m.frames| && Top(m).state.Glue? && m.sp > 0
    requires r.Go? && r.value.m.sp == m.sp < |r.value.m.frames| && NewAnswer(m, r.value.m)
    requires StateTold(conf, Top(r.value.m))
    requires Top(r.value.m).state == if o.expand != Fine then Glue
      else match o.found case Direct => Finish case Alias => Cname0A case Neither => Switch
    ensures Turn(conf, m, o, r, known)
  {
    hide Now, StateTold;
    NowIs(m, o, r.value.m, known);
  }

  lemma FileTold(conf: Conf, m: Machine, o: Oracle, known: Contents)
    requires Told(conf, m, known) && HeapOk(m) && Top(m).state.File? && StepFile(m, o).Go?
    ensures Turn(conf, m, o, StepFile(m, o), known)
  {
    hide Told, StateTold, Turn, KeepOrDrop, Owned, FilesIn;
    ToldFiles(conf, m, known);
    FreeOk(m, Answer(m.sp));
    var m1 := Free(m, Answer(m.sp)).value;
    NewOk(m1, Answer(m.sp));
    var r := StepFile(m, o);
    if m.sp > 0 && o.packet {
      NewDiffers(m, m1, Answer(m.sp));
      FreeTold(conf, Top(m1).(state := Switch));
      KeepTurn(conf, m, o, New(m1, Answer(m.sp)), Switch, known);
    } else {
      FilesTold(conf, Top(r.value.m));
      SeekOn(conf, m, o, r, known);
    }
  }

  /** A new packet is none of the old ones. */
  lemma NewDiffers(m: Machine, m1: Machine, s: Slot)
    requires HeapOk(m) && m1.serial >= m.serial
    ensures s in New(m1, s).ptrs && (s in m.ptrs ==> New(m1, s).ptrs[s] != m.ptrs[s])
  {
  }

  lemma FileLoopTold(conf: Conf, m: Machine, o: Oracle, known: Contents)
    requires Told(conf, m, known) && HeapOk(m) && Top(m).state.FileLoop? && StepFileLoop(conf, m, o).Go?
    ensures Turn(conf, m, o, StepFileLoop(conf, m, o), known)
  {
    hide SearchNext, Told, StateTold, Turn, KeepOrDrop, Owned, FilesIn;
    ToldFiles(conf, m, known);
    var m0 := m.(search := SearchNext(conf, m.search).1);
    FreeOk(m0, Answer(m.sp));
    var m1 := Free(m0, Answer(m.sp)).value;
    NewOk(m1, Answer(m.sp));
    var r := StepFileLoop(conf, m, o);
    if SearchNext(conf, m.search).0 && o.push && o.packet {
      NewDiffers(m, m1, Answer(m.sp));
      FilesTold(conf, Top(m1).(state := FileLoop));
      KeepTurn(conf, m, o, New(m1, Answer(m.sp)), FileLoop, known);
    } else {
      if SearchNext(conf, m.search).0 {
        FilesTold(conf, Top(r.value.m));
      } else {
        FreeTold(conf, Top(r.value.m));
      }
      SeekOn(conf, m, o, r, known);
    }
  }

  lemma CacheTold(conf: Conf, m: Machine, o: Oracle, known: Contents)
    requires Told(conf, m, known) && HeapOk(m) && Top(m).state.Cache? && StepCache(m, o).Go?
    ensures Turn(conf, m, o, StepCache(m, o), known)
  {
    hide Told, StateTold, Turn, KeepOrDrop, Owned, CacheFrom, New, Use;
    ToldFiles(conf, m, known);
    var m1 := if Query(m.sp) in m.ptrs then m else New(m, Query(m.sp));
    QueryMade(m);
    FreeOk(m1, Answer(m.sp));
    var m2 := Free(m1, Answer(m.sp)).value;
    NewOk(m2, Answer(m.sp));
    var r := StepCache(m, o);
    if (Query(m.sp) in m.ptrs || (o.alloc && o.push)) && o.packet {
      NewDiffers(m, m2, Answer(m.sp));
      NewTop(m2, Answer(m.sp));
      FreeTold(conf, Top(m2).(state := Switch));
      KeepTurn(conf, m, o, New(m2, Answer(m.sp)), Switch, known);
    } else {
      CachesTold(conf, Top(r.value.m));
      SeekOn(conf, m, o, r, known);
    }
  }

  lemma NewTop(m: Machine, s: Slot)
    ensures SameButHeap(m, New(m, s)) && New(m, s).serial == m.serial + 1
  {
  }

  lemma QueryMade(m: Machine)
    requires HeapOk(m)
    ensures var m1 := if Query(m.sp) in m.ptrs then m else New(m, Query(m.sp));
      HeapOk(m1) && SameButHeap(m, m1) && m1.serial >= m.serial && SameAnswer(m, m1, m.sp)
  {
  }

  lemma WaitTold(conf: Conf, m: Machine, o: Oracle, next: RState, known: Contents)
    requires Told(conf, m, known) && CacheState(Top(m).state) && CacheState(next)
    ensures Turn(conf, m, o, CacheWait(m, o, next), known)
  {
    hide Told, StateTold, Turn, CacheFrom, CacheState, NeedsAnswer, Suspended;
    ToldFiles(conf, m, known);
    CachesTold(conf, Top(m));
    var r := CacheWait(m, o, next);
    CachesTold(conf, Top(r.value.m));
    SeekOn(conf, m, o, r, known);
  }

  lemma FetchTold(conf: Conf, m: Machine, o: Oracle, known: Contents)
    requires Told(conf, m, known) && HeapOk(m) && Top(m).state.Fetch? && StepFetch(m, o).Go?
    ensures Turn(conf, m, o, StepFetch(m, o), known)
  {
    hide Told, StateTold, Turn, KeepOrDrop, Owned, CacheFrom;
    ToldFiles(conf, m, known);
    FreeOk(m, Answer(m.sp));
    var m1 := Free(m, Answer(m.sp)).value;
    NewOk(m1, Answer(m.sp));
    var r := StepFetch(m, o);
    FreeTold(conf, Top(m1).(state := Switch));
    if o.packet {
      NewDiffers(m, m1, Answer(m.sp));
      KeepTurn(conf, m, o, New(m1, Answer(m.sp)), Switch, known);
    } else {
      if o.failed {
        CachesTold(conf, Top(r.value.m));
      }
      SeekOn(conf, m, o, r, known);
    }
  }

  /** From one asking state to another, the answer slot left alone or emptied. */
  lemma AskOn(conf: Conf, m: Machine, o: Oracle, r: M<Outcome>, known: Contents)
    requires Told(conf, m, known) && r.Go? && r.value.m.sp == m.sp < |r.value.m.frames|
    requires Asking(Top(m).state) && (Asking(Top(r.value.m).state) || Top(r.value.m).state.Switch?)
    requires Suspended(Top(r.value.m).state) ==> Suspended(Top(m).state)
    requires SameAnswer(m, r.value.m, m.sp) || Answer(m.sp) !in r.value.m.ptrs
    ensures Turn(conf, m, o, r, known)
  {
    hide Told, StateTold, Turn, SameAnswer, Suspended, ServersFrom, Asking;
    ToldFiles(conf, m, known);
    AskingTold(conf, Top(m));
    if Top(r.value.m).state.Switch? {
      FreeTold(conf, Top(r.value.m));
    } else {
      AskingTold(conf, Top(r.value.m));
    }
    SeekOn(conf, m, o, r, known);
  }

  lemma BindTold(conf: Conf, m: Machine, o: Oracle, known: Contents)
    requires Told(conf, m, known) && Top(m).state.Bind? && StepBind(m).Go?
    ensures Turn(conf, m, o, StepBind(m), known)
  {
    hide Told, Turn;
    ToldFiles(conf, m, known);
    AskOn(conf, m, o, StepBind(m), known);
  }

  lemma SearchTold(conf: Conf, m: Machine, o: Oracle, known: Contents)
    requires Told(conf, m, known) && HeapOk(m) && Top(m).state.Search? && StepSearch(conf, m, o).Go?
    ensures Turn(conf, m, o, StepSearch(conf, m, o), known)
  {
    hide Told, Turn, SearchNext, Owned;
    ToldFiles(conf, m, known);
    FreeOk(m.(search := SearchNext(conf, m.search).1), Query(m.sp));
    AskOn(conf, m, o, StepSearch(conf, m, o), known);
  }

  lemma HintsTold(conf: Conf, m: Machine, o: Oracle, known: Contents)
    requires Told(conf, m, known) && Top(m).state.Hints? && StepHints(m, o).Go?
    ensures Turn(conf, m, o, StepHints(m, o), known)
  {
    hide Told, Turn;
    ToldFiles(conf, m, known);
    AskOn(conf, m, o, StepHints(m, o), known);
  }

  lemma IterateTold(conf: Conf, m: Machine, o: Oracle, known: Contents)
    requires Told(conf, m, known)
    ensures Top(m).state.Iterate? && StepIterate(m).Go? ==> Turn(conf, m, o, StepIterate(m), known)
    ensures Top(m).state.ForeachNs? && StepForeachNs(conf, m, o).Go? ==>
      Turn(conf, m, o, StepForeachNs(conf, m, o), known)
  {
    hide Told, Turn, Use;
    ToldFiles(conf, m, known);
    if Top(m).state.Iterate? && StepIterate(m).Go? {
      AskOn(conf, m, o, StepIterate(m), known);
    } else if Top(m).state.ForeachNs? && StepForeachNs(conf, m, o).Go? {
      AskOn(conf, m, o, StepForeachNs(conf, m, o), known);
    }
  }

  lemma Resolv1NsTold(conf: Conf, m: Machine, o: Oracle, known: Contents)
    requires Told(conf, m, known) && Top(m).state.Resolv1Ns? && StepResolv1Ns(m, o).Go?
    ensures Turn(conf, m, o, StepResolv1Ns(m, o), known)
  {
    hide Told, Turn, Use;
    ToldFiles(conf, m, known);
    AskOn(conf, m, o, StepResolv1Ns(m, o), known);
  }

  lemma ForeachATold(conf: Conf, m: Machine, o: Oracle, known: Contents)
    requires Told(conf, m, known) && HeapOk(m) && Top(m).state.ForeachA? && StepForeachA(m, o).Go?
    ensures Turn(conf, m, o, StepForeachA(m, o), known)
  {
    hide Told, Turn, Use, Owned, SoSubmit;
    ToldFiles(conf, m, known);
    if o.parse && Top(m).aLeft > 0 && o.address {
      SubmitKeeps(Put(m, Top(m).(aLeft := Top(m).aLeft - 1, aSeen := Top(m).aSeen + 1)), o);
    }
    AskOn(conf, m, o, StepForeachA(m, o), known);
  }

  lemma SubmitKeeps(m: Machine, o: Oracle)
    requires m.sp < |m.frames| && Top(m).state.ForeachA? && HeapOk(m) && SoSubmit(m, o).Go?
    ensures var m' := SoSubmit(m, o).value.m;
      Others(m, m') && SameAnswer(m, m', m.sp) && (Top(m').state.ForeachA? || Top(m').state.QueryA?)
  {
    hide Use, Owned;
    FreeOk(m, SoAnswer);
  }

  // QUERY_A

  lemma QueryATold(conf: Conf, m: Machine, o: Oracle, known: Contents)
    requires Told(conf, m, known) && Inv(m) && Top(m).state.QueryA? && StepQueryA(conf, m, o).Go?
    ensures Turn(conf, m, o, StepQueryA(conf, m, o), known)
  {
    hide Told, Turn, Use, Inv, TakeAnswer, SoCheck;
    ToldFiles(conf, m, known);
    Unpack(m);
    if o.timeout {
      AskOn(conf, m, o, StepQueryA(conf, m, o), known);
    } else {
      CheckKeeps(m, o);
      var m1 := SoCheck(m, o).value;
      if Verified(m1.so, o).Ready? {
        TakeTold(conf, m, m1, o, known);
      } else {
        AskOn(conf, m, o, StepQueryA(conf, m, o), known);
      }
    }
  }

  /** dns_so_check touches no answer of a frame, and keeps the one it is to hand out apart from them. */
  lemma CheckKeeps(m: Machine, o: Oracle)
    requires m.sp < |m.frames| && Top(m).state.QueryA? && HeapOk(m) && SocketOk(m) && SoCheck(m, o).Go?
    ensures var m1 := SoCheck(m, o).value;
      && m1.sp == m.sp && m1.frames == m.frames && m1.so == m.so && m1.so.Busy? && HeapOk(m1) && SoAnswer in m1.ptrs
      && m1.ptrs - {SoAnswer} == m.ptrs - {SoAnswer} && Others(m, m1) && SameAnswer(m, m1, m.sp)
      && (Answer(m.sp) in m.ptrs ==> m.ptrs[Answer(m.sp)] != m1.ptrs[SoAnswer])
  {
    hide Use;
    FreeOk(m, SoAnswer);
    NewOk(Free(m, SoAnswer).value, SoAnswer);
  }

  lemma TakeTold(conf: Conf, m: Machine, m1: Machine, o: Oracle, known: Contents)
    requires Told(conf, m, known) && Top(m).state.QueryA? && m1.sp == m.sp && m1.frames == m.frames
    requires HeapOk(m1) && SoAnswer in m1.ptrs && m1.ptrs - {SoAnswer} == m.ptrs - {SoAnswer}
    requires Answer(m.sp) in m.ptrs ==> m.ptrs[Answer(m.sp)] != m1.ptrs[SoAnswer]
    requires m1.so.Busy? && Verified(m1.so, o).Ready? && TakeAnswer(conf, m1, o).Go?
    ensures Turn(conf, m, o, TakeAnswer(conf, m1, o), known)
  {
    hide Told, Turn, Use, Owned, Refer;
    ToldFiles(conf, m, known);
    FreeOk(m1, Answer(m.sp));
    var m2 := Free(m1, Answer(m.sp)).value;
    var m3 := Move(m2, SoAnswer, Answer(m.sp)).(so := Fetched);
    assert Answer(m.sp) in m3.ptrs && m3.ptrs[Answer(m.sp)] == m1.ptrs[SoAnswer];
    var r := TakeAnswer(conf, m1, o);
    if o.found.Neither? && conf.recurse && o.referral {
      MoveOk(m2, SoAnswer, Answer(m.sp));
      ReferKeeps(m3, o);
      AskOn(conf, m, o, r, known);
    } else {
      TakenTold(conf, m, o, r, known);
    }
  }

  lemma ReferKeeps(m: Machine, o: Oracle)
    requires m.sp < |m.frames| && HeapOk(m) && Refer(m, o).Go?
    ensures var m' := Refer(m, o).value.m;
      Others(m, m') && Answer(m.sp) !in m'.ptrs && Top(m').state.Iterate?
  {
    hide Owned;
    FreeOk(m, HintsOf(m.sp));
  }

  lemma TakenTold(conf: Conf, m: Machine, o: Oracle, r: M<Outcome>, known: Contents)
    requires m.sp < |m.frames| && Top(m).state.QueryA? && ServersFrom(conf, 0)
    requires r.Go? && r.value.m.sp == m.sp < |r.value.m.frames| && NewAnswer(m, r.value.m)
    requires Top(r.value.m).state == match o.found
      case Direct => Finish
      case Alias => Cname0A
      case Neither => if !conf.recurse then Switch else if o.authoritative then Finish else ForeachA
    requires o.found.Neither? && conf.recurse ==> !o.referral
    ensures Turn(conf, m, o, r, known)
  {
    hide Now, StateTold, ServersFrom;
    NowIs(m, o, r.value.m, known);
    if Top(r.value.m).state.ForeachA? {
      AskingTold(conf, Top(r.value.m));
    } else {
      FreeTold(conf, Top(r.value.m));
    }
  }

  // States that have an answer

  lemma Cname1ATold(conf: Conf, m: Machine, o: Oracle, known: Contents)
    requires Told(conf, m, known) && HeapOk(m) && Top(m).state.Cname1A? && StepCname1A(m, o).Go?
    ensures Turn(conf, m, o, StepCname1A(m, o), known)
  {
    hide Told, StateTold, Owned, Use, Turn;
    ToldFiles(conf, m, known);
    FreeOk(m, Answer(m.sp));
    var r := StepCname1A(m, o);
    FreeTold(conf, Top(r.value.m));
    if o.packet {
      var m1 := Free(m, Answer(m.sp)).value;
      NewDiffers(m, m1, Answer(m.sp));
      MergedTold(conf, m, o, r, known);
    } else {
      StaysTold(conf, m, o, r, known);
    }
  }

  lemma StaysTold(conf: Conf, m: Machine, o: Oracle, r: M<Outcome>, known: Contents)
    requires Told(conf, m, known) && r.Go? && r.value.m.sp == m.sp < |r.value.m.frames|
    requires Top(r.value.m) == Top(m) && SameAnswer(m, r.value.m, m.sp)
    ensures Turn(conf, m, o, r, known)
  {
    hide Told, StateTold, ContentTold, Now;
    TopIs(conf, m, known);
    NowIs(m, o, r.value.m, known);
  }

  lemma MergedTold(conf: Conf, m: Machine, o: Oracle, r: M<Outcome>, known: Contents)
    requires Told(conf, m, known) && Top(m).state.Cname1A?
    requires r.Go? && r.value.m.sp == m.sp < |r.value.m.frames| && NewAnswer(m, r.value.m)
    requires Top(r.value.m).state.Finish? && StateTold(conf, Top(r.value.m))
    ensures Turn(conf, m, o, r, known)
  {
    AboveTold(conf, m, known);
    TopIs(conf, m, known);
    hide Told, StateTold, Now, At;
    NowIs(m, o, r.value.m, known);
  }

  /** The frame that has just returned is resolved. */
  lemma AboveTold(conf: Conf, m: Machine, known: Contents)
    requires Told(conf, m, known) && Suspended(Top(m).state)
    ensures Resolved(conf, m.sp + 1, At(m, known, m.sp + 1))
  {
    hide Resolved, StateTold;
    assert FrameTold(conf, m, known, m.sp + 1);
  }

  lemma FinishTold(conf: Conf, m: Machine, o: Oracle, known: Contents)
    requires Told(conf, m, known) && Top(m).state.Finish? && StepFinish(conf, m, o).Go?
    ensures Turn(conf, m, o, StepFinish(conf, m, o), known)
  {
    hide Told, Turn, Use, Now;
    ToldFiles(conf, m, known);
    var r := StepFinish(conf, m, o);
    NowIs(m, o, r.value.m, known);
    HoldOn(conf, m, o, r, known);
  }

  lemma Smart1ATold(conf: Conf, m: Machine, o: Oracle, known: Contents)
    requires Told(conf, m, known) && HeapOk(m) && Top(m).state.Smart1A? && StepSmart1A(m, o).Go?
    ensures Turn(conf, m, o, StepSmart1A(m, o), known)
  {
    hide Told, Turn, Use, Now, Owned;
    ToldFiles(conf, m, known);
    FreeOk(m, Answer(m.sp));
    var r := StepSmart1A(m, o);
    NowIs(m, o, r.value.m, known);
    if o.moved {
      var m1 := Free(m, Answer(m.sp)).value;
      NewDiffers(m, m1, Answer(m.sp));
    }
    HoldOn(conf, m, o, r, known);
  }

  lemma ServfailTold(conf: Conf, m: Machine, o: Oracle, known: Contents)
    requires Told(conf, m, known) && HeapOk(m) && Top(m).state.Servfail? && StepServfail(m, o).Go?
    ensures Turn(conf, m, o, StepServfail(m, o), known)
  {
    hide Told, StateTold, Turn, Owned;
    ToldFiles(conf, m, known);
    FreeOk(m, Answer(m.sp));
    var m1 := Free(m, Answer(m.sp)).value;
    var r := StepServfail(m, o);
    if !o.alloc {
      GivenUp(conf, Top(r.value.m));
      SeekOn(conf, m, o, r, known);
    } else {
      NewDiffers(m, m1, Answer(m.sp));
      RefusedTold(conf, m, o, r, known);
    }
  }

  lemma RefusedTold(conf: Conf, m: Machine, o: Oracle, r: M<Outcome>, known: Contents)
    requires m.sp < |m.frames| && Top(m).state.Servfail? && Top(m).which >= |conf.lookup|
    requires r.Go? && r.value.m.sp == m.sp < |r.value.m.frames| && NewAnswer(m, r.value.m)
    requires Top(r.value.m) == Top(m).(state := if o.push then Done else Servfail)
    ensures Turn(conf, m, o, r, known)
  {
    hide Now;
    NowIs(m, o, r.value.m, known);
  }

  // ---- What else a transition changes ------------------------------------------------------------

  lemma LookupOthers(conf: Conf, m: Machine, o: Oracle)
    requires m.sp < |m.frames| && HeapOk(m)
    ensures StepGlue(m, o).Go? ==> Others(m, StepGlue(m, o).value.m)
    ensures Others(m, StepSwitch(conf, m).value.m) && Others(m, Goto(m, Glue).value.m)
  {
    hide AnswersBelow, Use, Owned;
  }

  lemma KeepOthers(m: Machine, m2: Machine, o: Oracle, next: RState)
    requires Others(m, m2) && HeapOk(m2)
    ensures KeepOrDrop(m2, o, next).Go? && Others(m, KeepOrDrop(m2, o, next).value.m)
  {
    hide Free, Owned;
    FreeOk(m2, Answer(m2.sp));
    var m3 := Free(m2, Answer(m2.sp)).value;
    OthersMinus(m, m2, m3);
    forall i: nat | i != m.sp
      ensures SameAnswer(m, KeepOrDrop(m2, o, next).value.m, i)
    {
      assert SameAnswer(m, m2, i) && SameAnswer(m, m3, i);
    }
  }

  lemma OthersMinus(m: Machine, m2: Machine, m3: Machine)
    requires Others(m, m2) && SameButHeap(m2, m3) && m3.ptrs == m2.ptrs - {Answer(m.sp)}
    ensures Others(m, m3)
  {
    forall i: nat | i != m.sp
      ensures SameAnswer(m, m3, i)
    {
      assert SameAnswer(m, m2, i);
    }
  }

  lemma FilesOthers(conf: Conf, m: Machine, o: Oracle)
    requires m.sp < |m.frames| && HeapOk(m)
    ensures StepFile(m, o).Go? ==> Others(m, StepFile(m, o).value.m)
    ensures StepFileLoop(conf, m, o).Go? ==> Others(m, StepFileLoop(conf, m, o).value.m)
  {
    hide KeepOrDrop, SearchNext, Use, Free, Owned;
    var a := Answer(m.sp);
    var m0 := m.(search := SearchNext(conf, m.search).1);
    FreeOk(m, a);
    FreeOk(m0, a);
    var m1, n1 := Free(m, a).value, Free(m0, a).value;
    NewOk(m1, a);
    NewOk(n1, a);
    KeepOthers(m, New(m1, a), o, Switch);
    KeepOthers(m, New(n1, a), o, FileLoop);
  }

  lemma CacheOthers(conf: Conf, m: Machine, o: Oracle, next: RState)
    requires m.sp < |m.frames| && HeapOk(m)
    ensures StepCache(m, o).Go? ==> Others(m, StepCache(m, o).value.m)
    ensures Others(m, CacheWait(m, o, next).value.m)
  {
    hide KeepOrDrop, Use, Free, Owned;
    var a := Answer(m.sp);
    var m1 := if Query(m.sp) in m.ptrs then m else New(m, Query(m.sp));
    QueryMade(m);
    FreeOk(m1, a);
    var m2 := Free(m1, a).value;
    NewOk(m2, a);
    KeepOthers(m, New(m2, a), o, Switch);
  }

  lemma FetchOthers(conf: Conf, m: Machine, o: Oracle)
    requires m.sp < |m.frames| && HeapOk(m)
    ensures StepFetch(m, o).Go? ==> Others(m, StepFetch(m, o).value.m)
    ensures StepServfail(m, o).Go? ==> Others(m, StepServfail(m, o).value.m)
  {
    hide KeepOrDrop, Use, Free, Owned;
    var a := Answer(m.sp);
    FreeOk(m, a);
    var m1 := Free(m, a).value;
    NewOk(m1, a);
    KeepOthers(m, New(m1, a), o, Switch);
  }

  lemma AskOthers(conf: Conf, m: Machine, o: Oracle)
    requires m.sp < |m.frames| && HeapOk(m)
    ensures StepBind(m).Go? ==> Others(m, StepBind(m).value.m)
    ensures StepSearch(conf, m, o).Go? ==> Others(m, StepSearch(conf, m, o).value.m)
    ensures StepHints(m, o).Go? ==> Others(m, StepHints(m, o).value.m)
  {
    hide SearchNext, Use, Free, Owned;
    FreeOk(m.(search := SearchNext(conf, m.search).1), Query(m.sp));
  }

  lemma ServeOthers(conf: Conf, m: Machine, o: Oracle)
    requires m.sp < |m.frames| && HeapOk(m)
    ensures StepIterate(m).Go? ==> Others(m, StepIterate(m).value.m)
    ensures StepForeachNs(conf, m, o).Go? ==> Others(m, StepForeachNs(conf, m, o).value.m)
    ensures StepResolv1Ns(m, o).Go? ==> Others(m, StepResolv1Ns(m, o).value.m)
    ensures StepFinish(conf, m, o).Go? ==> Others(m, StepFinish(conf, m, o).value.m)
  {
    hide Use, Owned;
  }

  lemma ForeachAOthers(m: Machine, o: Oracle)
    requires m.sp < |m.frames| && HeapOk(m) && Top(m).state.ForeachA? && StepForeachA(m, o).Go?
    ensures Others(m, StepForeachA(m, o).value.m)
  {
    hide Use, Owned, SoSubmit;
    if o.parse && Top(m).aLeft > 0 && o.address {
      var m1 := Put(m, Top(m).(aLeft := Top(m).aLeft - 1, aSeen := Top(m).aSeen + 1));
      SubmitKeeps(m1, o);
      OthersTrans(m, m1, SoSubmit(m1, o).value.m);
    }
  }

  lemma OthersTrans(a: Machine, b: Machine, c: Machine)
    requires Others(a, b) && Others(b, c)
    ensures Others(a, c)
  {
    forall i: nat | i != a.sp
      ensures SameAnswer(a, c, i)
    {
      assert SameAnswer(a, b, i) && SameAnswer(b, c, i);
    }
  }

  lemma QueryAOthers(conf: Conf, m: Machine, o: Oracle)
    requires m.sp < |m.frames| && HeapOk(m) && SocketOk(m) && Top(m).state.QueryA? && StepQueryA(conf, m, o).Go?
    ensures Others(m, StepQueryA(conf, m, o).value.m)
  {
    hide Use, Owned, SoCheck, TakeAnswer, SocketOk;
    if !o.timeout {
      CheckKeeps(m, o);
      var m1 := SoCheck(m, o).value;
      if Verified(m1.so, o).Ready? {
        TakeOthers(conf, m1, o);
        OthersTrans(m, m1, TakeAnswer(conf, m1, o).value.m);
      }
    }
  }

  lemma TakeOthers(conf: Conf, m1: Machine, o: Oracle)
    requires m1.sp < |m1.frames| && HeapOk(m1) && SoAnswer in m1.ptrs && TakeAnswer(conf, m1, o).Go?
    ensures Others(m1, TakeAnswer(conf, m1, o).value.m)
  {
    hide Use, Owned, Refer, Free;
    FreeOk(m1, Answer(m1.sp));
    var m2 := Free(m1, Answer(m1.sp)).value;
    MoveOk(m2, SoAnswer, Answer(m1.sp));
    var m3 := Move(m2, SoAnswer, Answer(m1.sp)).(so := Fetched);
    assert Others(m1, m3);
    if Refer(m3, o).Go? {
      ReferKeeps(m3, o);
      OthersTrans(m1, m3, Refer(m3, o).value.m);
    }
  }

  lemma MergeOthers(m: Machine, o: Oracle)
    requires m.sp < |m.frames| && HeapOk(m)
    ensures StepCname1A(m, o).Go? ==> Others(m, StepCname1A(m, o).value.m)
    ensures StepSmart1A(m, o).Go? ==> Others(m, StepSmart1A(m, o).value.m)
  {
    hide Use, Owned, Free;
    FreeOk(m, Answer(m.sp));
    NewOk(Free(m, Answer(m.sp)).value, Answer(m.sp));
  }

  // ---- Starting the frame above, and going back to the one below ----------------------------------

  /** The frames below are untouched, and so is the answer of the current one. */
  ghost predicate Lower(m: Machine, m': Machine) {
    && m.sp < |m.frames| == |m'.frames| && (forall i: nat :: i < m.sp ==> m'.frames[i] == m.frames[i])
    && forall i: nat {:trigger SameAnswer(m, m', i)} :: i <= m.sp ==> SameAnswer(m, m', i)
  }

  /** The frame above was started afresh. */
  ghost predicate Started(m: Machine, m': Machine) {
    && m'.sp == m.sp + 1 < |m'.frames| && Top(m').state.Init? && Answer(m'.sp) !in m'.ptrs
  }

  ghost predicate Remained(m: Machine, m': Machine) {
    m'.sp == m.sp < |m'.frames| && !Suspended(Top(m').state)
  }

  lemma LowerTold(conf: Conf, m: Machine, o: Oracle, m': Machine, known: Contents)
    requires Told(conf, m, known) && Lower(m, m')
    requires StateTold(conf, m'.frames[m.sp]) && ContentTold(conf, m'.frames[m.sp], m.sp, At(m, known, m.sp))
    ensures Learn(m, o, m', known) == known
    ensures forall i: nat {:trigger FrameTold(conf, m', known, i)} :: i <= m.sp ==> FrameTold(conf, m', known, i)
  {
    hide StateTold, ContentTold, Obtained;
    assert SameAnswer(m, m', m.sp);
    forall i: nat | i <= m.sp
      ensures FrameTold(conf, m', known, i)
    {
      assert SameAnswer(m, m', i) && FrameTold(conf, m, known, i);
    }
  }

  lemma CallCarry(conf: Conf, m: Machine, o: Oracle, m': Machine, known: Contents)
    requires Told(conf, m, known) && Lower(m, m') && (Started(m, m') || Remained(m, m'))
    requires StateTold(conf, m'.frames[m.sp]) && ContentTold(conf, m'.frames[m.sp], m.sp, At(m, known, m.sp))
    ensures Told(conf, m', Learn(m, o, m', known))
  {
    LowerTold(conf, m, o, m', known);
    if Started(m, m') {
      StartTold(conf, m', known);
    }
    hide StateTold, ContentTold, Learn, FrameTold, Lower;
  }

  lemma StartTold(conf: Conf, m: Machine, known: Contents)
    requires m.sp < |m.frames| && Top(m).state.Init? && Answer(m.sp) !in m.ptrs
    ensures FrameTold(conf, m, known, m.sp) && !Suspended(Top(m).state)
  {
    hide StateTold, ContentTold;
    FreeTold(conf, Top(m));
    SeeksNone(conf, Top(m), m.sp);
  }

  /** dns_res_reset_frame on the frame above, a query for it, and perhaps its start. */
  lemma CallLower(m: Machine, s: RState)
    requires m.sp + 1 < |m.frames| && HeapOk(m)
    ensures ResetAbove(m).Go?
    ensures var m1 := ResetAbove(m).value;
      var m2 := New(m1, Query(m.sp + 1));
      && Lower(m, m1) && Lower(m, m2) && m1.sp == m2.sp == m.sp && |m1.frames| == |m2.frames| == |m.frames|
      && Top(m1) == Top(m2) == Top(m)
      && Call(m2, s).Go? && var m3 := Call(m2, s).value.m;
      && Lower(m, m3) && Started(m, m3) && |m3.frames| == |m.frames| && m3.frames[m.sp] == Top(m).(state := s)
  {
    hide Owned, ResetAbove, Lower, New, Call, Started;
    ResetLower(m);
    var m1 := ResetAbove(m).value;
    QueryLower(m, m1);
    CallStarts(m, New(m1, Query(m.sp + 1)), s);
  }

  lemma ResetLower(m: Machine)
    requires m.sp + 1 < |m.frames| && HeapOk(m)
    ensures ResetAbove(m).Go?
    ensures var m1 := ResetAbove(m).value;
      && Lower(m, m1) && m1.sp == m.sp && m1.frames == m.frames[m.sp + 1 := ZERO] && Answer(m.sp + 1) !in m1.ptrs
  {
    hide Owned, ResetAbove;
    ResetAboveOk(m);
  }

  lemma QueryLower(m: Machine, m1: Machine)
    requires Lower(m, m1) && m1.sp == m.sp && Answer(m.sp + 1) !in m1.ptrs
    ensures var m2 := New(m1, Query(m.sp + 1));
      Lower(m, m2) && m2.sp == m.sp && m2.frames == m1.frames && Answer(m.sp + 1) !in m2.ptrs
  {
    var m2 := New(m1, Query(m.sp + 1));
    forall i: nat | i <= m.sp
      ensures SameAnswer(m, m2, i)
    {
      assert SameAnswer(m, m1, i);
    }
  }

  lemma CallStarts(m: Machine, m2: Machine, s: RState)
    requires Lower(m, m2) && m2.sp == m.sp && m.sp + 1 < |m.frames| && Answer(m.sp + 1) !in m2.ptrs && Top(m2) == Top(m)
    ensures Call(m2, s).Go?
    ensures var m3 := Call(m2, s).value.m;
      Lower(m, m3) && Started(m, m3) && |m3.frames| == |m.frames| && m3.frames[m.sp] == Top(m).(state := s)
  {
    var m3 := Call(m2, s).value.m;
    forall i: nat | i <= m.sp
      ensures SameAnswer(m, m3, i)
    {
      assert SameAnswer(m, m2, i);
    }
  }

  lemma Resolv0NsTold(conf: Conf, m: Machine, o: Oracle, known: Contents)
    requires Told(conf, m, known) && HeapOk(m) && Top(m).state.Resolv0Ns? && StepResolv0Ns(m, o).Go?
    ensures var m' := StepResolv0Ns(m, o).value.m; Told(conf, m', Learn(m, o, m', known))
  {
    hide Told, StateTold, ContentTold, Owned, Use, ResetAbove, New, Call, Lower, Learn, ServersFrom;
    ToldFiles(conf, m, known);
    TopIs(conf, m, known);
    var m' := StepResolv0Ns(m, o).value.m;
    if m.sp + 1 < |m.frames| {
      CallLower(m, Resolv1Ns);
    } else {
      SameLower(m, m');
    }
    AskingTold(conf, m'.frames[m.sp]);
    StillSeeks(conf, Top(m), m'.frames[m.sp], m.sp, At(m, known, m.sp));
    CallCarry(conf, m, o, m', known);
  }

  lemma SameLower(m: Machine, m': Machine)
    requires m'.sp == m.sp < |m.frames| == |m'.frames| && m'.ptrs == m.ptrs
    requires m'.frames == m.frames[m.sp := m'.frames[m.sp]]
    ensures Lower(m, m')
  {
  }

  lemma Cname0ATold(conf: Conf, m: Machine, o: Oracle, known: Contents)
    requires Told(conf, m, known) && HeapOk(m) && Top(m).state.Cname0A? && StepCname0A(m, o).Go? && Shaped(m)
    ensures var m' := StepCname0A(m, o).value.m; Told(conf, m', Learn(m, o, m', known))
  {
    hide Told, StateTold, ContentTold, Owned, Use, ResetAbove, New, Call, Lower, Learn;
    TopIs(conf, m, known);
    var m' := StepCname0A(m, o).value.m;
    if m.sp + 1 < |m.frames| && o.parse {
      CallLower(m, Cname1A);
    } else {
      SameLower(m, m');
    }
    FreeTold(conf, m'.frames[m.sp]);
    FollowTold(conf, Top(m), m'.frames[m.sp], m.sp, At(m, known, m.sp));
    CallCarry(conf, m, o, m', known);
  }

  /** An alias is followed, or kept in the last frame. */
  lemma FollowTold(conf: Conf, f: Frame, f': Frame, i: nat, c: Content)
    requires ContentTold(conf, f, i, c) && f.state.Cname0A?
    requires f'.state.Cname0A? || (f'.state.Cname1A? && i + 1 < DEPTH) || (f'.state.Finish? && i + 1 == DEPTH)
    ensures ContentTold(conf, f', i, c)
  {
  }

  lemma Smart0ATold(conf: Conf, m: Machine, o: Oracle, known: Contents)
    requires Told(conf, m, known) && HeapOk(m) && Top(m).state.Smart0A? && StepSmart0A(conf, m, o).Go?
    ensures var m' := StepSmart0A(conf, m, o).value.m; Told(conf, m', Learn(m, o, m', known))
  {
    hide Told, StateTold, ContentTold, Owned, Use, Learn, StepSmart0A, Lower;
    TopIs(conf, m, known);
    var m' := StepSmart0A(conf, m, o).value.m;
    SmartLower(conf, m, o);
    FreeTold(conf, m'.frames[m.sp]);
    HeldTold(conf, Top(m), m'.frames[m.sp], m.sp, At(m, known, m.sp));
    CallCarry(conf, m, o, m', known);
  }

  lemma SmartLower(conf: Conf, m: Machine, o: Oracle)
    requires m.sp < |m.frames| && HeapOk(m) && Top(m).state.Smart0A? && StepSmart0A(conf, m, o).Go?
    ensures var m' := StepSmart0A(conf, m, o).value.m;
      Lower(m, m') && (Started(m, m') || Remained(m, m')) && m'.frames[m.sp].which == Top(m).which
      && Settled(m'.frames[m.sp].state)
  {
    hide Owned, Use, ResetAbove, SmartNext;
    var m' := StepSmart0A(conf, m, o).value.m;
    var m0 := SmartNext(conf, m, o).1;
    if m.sp + 1 < |m.frames| {
      ResetAboveOk(m0);
    }
  }

  lemma HeldTold(conf: Conf, f: Frame, f': Frame, i: nat, c: Content)
    requires ContentTold(conf, f, i, c) && Settled(f.state) && Settled(f'.state) && f'.which == f.which
    ensures ContentTold(conf, f', i, c)
  {
    hide Resolved;
  }

  lemma DoneTold(conf: Conf, m: Machine, o: Oracle, known: Contents)
    requires Told(conf, m, known) && Inv(m) && Top(m).state.Done? && StepDone(m).Go?
    ensures var m' := StepDone(m).value.m; Told(conf, m', Learn(m, o, m', known))
  {
    hide StateTold, ContentTold, Inv;
    var m' := StepDone(m).value.m;
    assert m'.ptrs == m.ptrs && m'.frames == m.frames;
    assert Learn(m, o, m', known) == known;
    forall i: nat | i <= m.sp
      ensures FrameTold(conf, m', known, i)
    {
      assert FrameTold(conf, m, known, i);
    }
  }

  // ---- The bottom frame keeps what it has found ---------------------------------------------------

  /** If the bottom frame has its answer, it still has it afterwards, and no refusal in its place. */
  ghost predicate Persists(m: Machine, known: Contents, m': Machine, known': Contents) {
    && |m.frames| > 0 && |m'.frames| > 0
    && (NeedsAnswer(m.frames[0].state) ==>
        && NeedsAnswer(m'.frames[0].state)
        && (At(m', known', 0).holds.Refused? ==> At(m, known, 0).holds.Refused?))
  }

  lemma BelowPersists(m: Machine, o: Oracle, m': Machine, known: Contents)
    requires 0 < m.sp < |m.frames| == |m'.frames| && m'.frames[0] == m.frames[0] && SameAnswer(m, m', 0) && HeapOk(m')
    ensures Persists(m, known, m', Learn(m, o, m', known))
  {
    hide Obtained;
  }

  lemma OthersPersist(m: Machine, o: Oracle, m': Machine, known: Contents)
    requires Others(m, m') && HeapOk(m')
    requires m.sp == 0 ==> Persists(m, known, m', Learn(m, o, m', known))
    ensures Persists(m, known, m', Learn(m, o, m', known))
  {
    hide Persists, Learn, Owned;
    if m.sp > 0 {
      assert SameAnswer(m, m', 0);
      BelowPersists(m, o, m', known);
    }
  }

  lemma LowerPersists(m: Machine, o: Oracle, m': Machine, known: Contents)
    requires Lower(m, m') && HeapOk(m')
    requires NeedsAnswer(m.frames[m.sp].state) ==> NeedsAnswer(m'.frames[m.sp].state)
    ensures Persists(m, known, m', Learn(m, o, m', known))
  {
    hide Owned, Obtained;
    assert SameAnswer(m, m', 0);
    if m.sp > 0 {
      BelowPersists(m, o, m', known);
    }
  }

  /** A frame without an answer has nothing to keep. */
  lemma NothingPersists(m: Machine, m': Machine, known: Contents, known': Contents)
    requires |m.frames| > 0 && |m'.frames| > 0 && !NeedsAnswer(m.frames[0].state)
    ensures Persists(m, known, m', known')
  {
  }

  lemma SeekingPersists(conf: Conf, m: Machine, o: Oracle, known: Contents)
    requires Inv(m) && Step(conf, m, o).Go? && Inv(Step(conf, m, o).value.m)
    requires var s := Top(m).state; s.Init? || s.Glue? || s.Switch? || s.File? || s.FileLoop? || CacheState(s)
    ensures var m' := Step(conf, m, o).value.m; Persists(m, known, m', Learn(m, o, m', known))
  {
    hide Others, Inv, Owned, Use, Learn, StepGlue, StepSwitch, StepFile, StepFileLoop, StepCache, CacheWait,
      StepFetch, Goto, Persists;
    Unpack(m);
    var m' := Step(conf, m, o).value.m;
    Unpack(m');
    LookupOthers(conf, m, o);
    FilesOthers(conf, m, o);
    FetchOthers(conf, m, o);
    CacheOthers(conf, m, o, if Top(m).state.Check? then RState.Fetch else Check);
    if m.sp == 0 {
      NothingPersists(m, m', known, Learn(m, o, m', known));
    }
    OthersPersist(m, o, m', known);
  }

  lemma AskingPersists(conf: Conf, m: Machine, o: Oracle, known: Contents)
    requires Inv(m) && Step(conf, m, o).Go? && Inv(Step(conf, m, o).value.m)
    requires Asking(Top(m).state) && !Top(m).state.Resolv0Ns?
    ensures var m' := Step(conf, m, o).value.m; Persists(m, known, m', Learn(m, o, m', known))
  {
    hide Others, Inv, Owned, Use, Learn, StepBind, StepSearch, StepHints, StepIterate, StepForeachNs,
      StepResolv1Ns, StepForeachA, StepQueryA, SocketOk, Persists;
    Unpack(m);
    var m' := Step(conf, m, o).value.m;
    Unpack(m');
    AskOthers(conf, m, o);
    ServeOthers(conf, m, o);
    if Top(m).state.ForeachA? {
      ForeachAOthers(m, o);
    } else if Top(m).state.QueryA? {
      QueryAOthers(conf, m, o);
    }
    if m.sp == 0 {
      NothingPersists(m, m', known, Learn(m, o, m', known));
    }
    OthersPersist(m, o, m', known);
  }

  lemma HoldingPersists(conf: Conf, m: Machine, o: Oracle, known: Contents)
    requires Inv(m) && Step(conf, m, o).Go? && Inv(Step(conf, m, o).value.m)
    requires var s := Top(m).state; s.Cname1A? || s.Finish? || s.Smart1A? || s.Servfail?
    ensures var m' := Step(conf, m, o).value.m; Persists(m, known, m', Learn(m, o, m', known))
  {
    hide Others, Inv, Owned, Use, Learn, StepCname1A, StepFinish, StepSmart1A, StepServfail, Persists;
    Unpack(m);
    var m' := Step(conf, m, o).value.m;
    Unpack(m');
    MergeOthers(m, o);
    ServeOthers(conf, m, o);
    FetchOthers(conf, m, o);
    if m.sp == 0 {
      if Top(m).state.Servfail? {
        NothingPersists(m, m', known, Learn(m, o, m', known));
      } else {
        RootHolds(conf, m, o, known);
      }
    }
    OthersPersist(m, o, m', known);
  }

  lemma RootHolds(conf: Conf, m: Machine, o: Oracle, known: Contents)
    requires m.sp == 0 < |m.frames| && HeapOk(m) && Step(conf, m, o).Go?
    requires Top(m).state.Cname1A? || Top(m).state.Finish? || Top(m).state.Smart1A?
    ensures var m' := Step(conf, m, o).value.m; Persists(m, known, m', Learn(m, o, m', known))
  {
    hide Owned, Use, Free, StepGlue, StepSwitch, StepFile, StepFileLoop, StepCache, CacheWait, StepFetch, StepBind,
      StepSearch, StepHints, StepIterate, StepForeachNs, StepResolv0Ns, StepResolv1Ns, StepForeachA, StepQueryA,
      StepCname0A, StepSmart0A, StepDone, StepServfail;
    FreeOk(m, Answer(m.sp));
    NewDiffers(m, Free(m, Answer(m.sp)).value, Answer(m.sp));
  }

  lemma CallingPersists(conf: Conf, m: Machine, o: Oracle, known: Contents)
    requires Inv(m) && Step(conf, m, o).Go? && Inv(Step(conf, m, o).value.m)
    requires var s := Top(m).state; s.Resolv0Ns? || s.Cname0A? || s.Smart0A? || s.Done?
    ensures var m' := Step(conf, m, o).value.m; Persists(m, known, m', Learn(m, o, m', known))
  {
    hide Inv, Owned, Use, Learn, StepResolv0Ns, StepCname0A, StepSmart0A, Persists, Lower;
    Unpack(m);
    var m' := Step(conf, m, o).value.m;
    Unpack(m');
    if Top(m).state.Smart0A? {
      SmartLower(conf, m, o);
    } else if Top(m).state.Done? {
      DoneLower(m, m');
    } else {
      CallsLower(conf, m, o);
    }
    LowerPersists(m, o, m', known);
  }

  lemma DoneLower(m: Machine, m': Machine)
    requires m.sp < |m.frames| && m'.frames == m.frames && m'.ptrs == m.ptrs
    ensures Lower(m, m')
  {
  }

  lemma CallsLower(conf: Conf, m: Machine, o: Oracle)
    requires Shaped(m) && HeapOk(m) && (Top(m).state.Resolv0Ns? || Top(m).state.Cname0A?) && Step(conf, m, o).Go?
    ensures var m' := Step(conf, m, o).value.m;
      && Lower(m, m') && |m'.frames| == |m.frames|
      && (Top(m).state.Cname0A? ==> NeedsAnswer(m'.frames[m.sp].state))
  {
    hide Owned, Use, ResetAbove, New, Call, Lower, StepGlue, StepSwitch, StepFile, StepFileLoop, StepCache, CacheWait,
      StepFetch, StepBind, StepSearch, StepHints, StepIterate, StepForeachNs, StepResolv1Ns, StepForeachA, StepQueryA,
      StepCname1A, StepFinish, StepSmart0A, StepSmart1A, StepDone, StepServfail;
    var m' := Step(conf, m, o).value.m;
    if m.sp + 1 < |m.frames| && (Top(m).state.Resolv0Ns? || o.parse) {
      CallLower(m, if Top(m).state.Resolv0Ns? then Resolv1Ns else Cname1A);
    } else {
      SameLower(m, m');
    }
  }

  lemma StepPersists(conf: Conf, m: Machine, o: Oracle, known: Contents)
    requires Inv(m) && Step(conf, m, o).Go? && Inv(Step(conf, m, o).value.m)
    ensures var m' := Step(conf, m, o).value.m; Persists(m, known, m', Learn(m, o, m', known))
  {
    hide Inv, Learn, Step, Persists;
    Unpack(m);
    var s := Top(m).state;
    if s.Resolv0Ns? || s.Cname0A? || s.Smart0A? || s.Done? {
      CallingPersists(conf, m, o, known);
    } else if s.Cname1A? || s.Finish? || s.Smart1A? || s.Servfail? {
      HoldingPersists(conf, m, o, known);
    } else if Asking(s) {
      AskingPersists(conf, m, o, known);
    } else {
      SeekingPersists(conf, m, o, known);
    }
  }

  // ---- Over runs ---------------------------------------------------------------------------------

  lemma SeekingTold(conf: Conf, m: Machine, o: Oracle, known: Contents)
    requires Told(conf, m, known) && Inv(m) && Step(conf, m, o).Go? && Inv(Step(conf, m, o).value.m)
    requires var s := Top(m).state; s.Init? || s.Glue? || s.Switch? || s.File? || s.FileLoop? || CacheState(s)
    ensures var m' := Step(conf, m, o).value.m; Told(conf, m', Learn(m, o, m', known))
  {
    hide Told, Turn, Others, Inv, Owned, Use, Learn, StepGlue, StepSwitch, StepFile, StepFileLoop, StepCache,
      CacheWait, StepFetch, Goto;
    Unpack(m);
    Unpack(Step(conf, m, o).value.m);
    LookupOthers(conf, m, o);
    FilesOthers(conf, m, o);
    FetchOthers(conf, m, o);
    match Top(m).state {
      case Init => InitTold(conf, m, o, known);
      case Glue => GlueTold(conf, m, o, known);
      case Switch => SwitchTold(conf, m, o, known);
      case File => FileTold(conf, m, o, known);
      case FileLoop => FileLoopTold(conf, m, o, known);
      case Cache =>
        CacheOthers(conf, m, o, Check);
        CacheTold(conf, m, o, known);
      case Submit =>
        CacheOthers(conf, m, o, Check);
        WaitTold(conf, m, o, Check, known);
      case Check =>
        CacheOthers(conf, m, o, RState.Fetch);
        WaitTold(conf, m, o, RState.Fetch, known);
      case Fetch => FetchTold(conf, m, o, known);
    }
    Carry(conf, m, o, Step(conf, m, o), known);
  }

  lemma AskingStepTold(conf: Conf, m: Machine, o: Oracle, known: Contents)
    requires Told(conf, m, known) && Inv(m) && Step(conf, m, o).Go? && Inv(Step(conf, m, o).value.m)
    requires Asking(Top(m).state) && !Top(m).state.Resolv0Ns?
    ensures var m' := Step(conf, m, o).value.m; Told(conf, m', Learn(m, o, m', known))
  {
    hide Told, Turn, Others, Inv, Owned, Use, Learn, StepBind, StepSearch, StepHints, StepIterate, StepForeachNs,
      StepResolv1Ns, StepForeachA, StepQueryA, SocketOk;
    Unpack(m);
    Unpack(Step(conf, m, o).value.m);
    AskOthers(conf, m, o);
    ServeOthers(conf, m, o);
    IterateTold(conf, m, o, known);
    match Top(m).state {
      case Bind => BindTold(conf, m, o, known);
      case Search => SearchTold(conf, m, o, known);
      case Hints => HintsTold(conf, m, o, known);
      case Iterate =>
      case ForeachNs =>
      case Resolv1Ns => Resolv1NsTold(conf, m, o, known);
      case ForeachA =>
        ForeachAOthers(m, o);
        ForeachATold(conf, m, o, known);
      case QueryA =>
        QueryAOthers(conf, m, o);
        QueryATold(conf, m, o, known);
    }
    Carry(conf, m, o, Step(conf, m, o), known);
  }

  lemma HoldingTold(conf: Conf, m: Machine, o: Oracle, known: Contents)
    requires Told(conf, m, known) && Inv(m) && Step(conf, m, o).Go? && Inv(Step(conf, m, o).value.m)
    requires var s := Top(m).state; s.Cname1A? || s.Finish? || s.Smart1A? || s.Servfail?
    ensures var m' := Step(conf, m, o).value.m; Told(conf, m', Learn(m, o, m', known))
  {
    hide Told, Turn, Others, Inv, Owned, Use, Learn, StepCname1A, StepFinish, StepSmart1A, StepServfail;
    Unpack(m);
    Unpack(Step(conf, m, o).value.m);
    MergeOthers(m, o);
    ServeOthers(conf, m, o);
    FetchOthers(conf, m, o);
    match Top(m).state {
      case Cname1A => Cname1ATold(conf, m, o, known);
      case Finish => FinishTold(conf, m, o, known);
      case Smart1A => Smart1ATold(conf, m, o, known);
      case Servfail => ServfailTold(conf, m, o, known);
    }
    Carry(conf, m, o, Step(conf, m, o), known);
  }

  lemma CallingTold(conf: Conf, m: Machine, o: Oracle, known: Contents)
    requires Told(conf, m, known) && Inv(m) && Step(conf, m, o).Go?
    requires var s := Top(m).state; s.Resolv0Ns? || s.Cname0A? || s.Smart0A? || s.Done?
    ensures var m' := Step(conf, m, o).value.m; Told(conf, m', Learn(m, o, m', known))
  {
    hide Told, Inv, Owned, Use, Learn, StepResolv0Ns, StepCname0A, StepSmart0A, StepDone;
    Unpack(m);
    match Top(m).state
    case Resolv0Ns => Resolv0NsTold(conf, m, o, known);
    case Cname0A => Cname0ATold(conf, m, o, known);
    case Smart0A => Smart0ATold(conf, m, o, known);
    case Done => DoneTold(conf, m, o, known);
  }

  lemma StepTold(conf: Conf, m: Machine, o: Oracle, known: Contents)
    requires Told(conf, m, known) && Inv(m) && Step(conf, m, o).Go? && Inv(Step(conf, m, o).value.m)
    ensures var m' := Step(conf, m, o).value.m; Told(conf, m', Learn(m, o, m', known))
  {
    hide Told, Inv, Learn, Step;
    Unpack(m);
    var s := Top(m).state;
    if s.Resolv0Ns? || s.Cname0A? || s.Smart0A? || s.Done? {
      CallingTold(conf, m, o, known);
    } else if s.Cname1A? || s.Finish? || s.Smart1A? || s.Servfail? {
      HoldingTold(conf, m, o, known);
    } else if Asking(s) {
      AskingStepTold(conf, m, o, known);
    } else {
      SeekingTold(conf, m, o, known);
    }
  }

  lemma {:induction false} RunTold(conf: Conf, os: nat -> Oracle, k: nat)
    ensures Checked(conf, os, k).Go? && Inv(Checked(conf, os, k).value)
    ensures Told(conf, Checked(conf, os, k).value, Learned(conf, os, k))
  {
    hide Told, Inv, Learn, Step;
    CheckedSafe(conf, os, k);
    if k == 0 {
      SubmittedTold(conf);
    } else {
      RunTold(conf, os, k - 1);
      var m := Checked(conf, os, k - 1).value;
      Unpack(m);
      StepTold(conf, m, os(k - 1), Learned(conf, os, k - 1));
    }
  }

  lemma SubmittedTold(conf: Conf)
    ensures Told(conf, SUBMITTED, map[])
  {
    StartTold(conf, SUBMITTED, map[]);
  }

  /**
   * What a successful check hands out: an answer from a source the configuration names, a denial by a server
   * whose referrals were followed, an alias together with what the frame above found for it, or a refusal once
   * all lookups were tried; never an alias nobody followed.
   */
  lemma SuccessResolved(conf: Conf, os: nat -> Oracle, k: nat)
    requires Checked(conf, os, k).Go? && !GoesOn(Step(conf, Checked(conf, os, k).value, os(k)))
    ensures var m, known := Checked(conf, os, k).value, Learned(conf, os, k);
      && Answer(0) in m.ptrs && m.ptrs[Answer(0)] in known && m.sp == 0 < |m.frames|
      && var c := known[m.ptrs[Answer(0)]];
      && Resolved(conf, 0, c) && !c.holds.AliasOnly?
      && (c.holds.Refused? ==> m.frames[0].which >= |conf.lookup|)
  {
    hide Step, Told, Resolved, StateTold;
    RunTold(conf, os, k);
    SuccessHasAnswer(conf, os, k);
    var m, known := Checked(conf, os, k).value, Learned(conf, os, k);
    TopIs(conf, m, known);
    ResolvedKnown(conf, m, known);
  }

  lemma ResolvedKnown(conf: Conf, m: Machine, known: Contents)
    requires Answer(0) in m.ptrs && Resolved(conf, 0, At(m, known, 0))
    ensures m.ptrs[Answer(0)] in known && !At(m, known, 0).holds.AliasOnly?
  {
  }

  // ---- An answer that was found is not given up ----------------------------------------------------

  /** A packet comes in for the current frame. */
  ghost predicate Obtains(conf: Conf, m: Machine, o: Oracle)
    requires m.sp < |m.frames|
  {
    match Top(m).state
    case Glue => m.sp > 0 && o.packet
    case File => m.sp > 0 && o.packet
    case FileLoop => SearchNext(conf, m.search).0 && o.push && o.packet
    case Cache => (Query(m.sp) in m.ptrs || (o.alloc && o.push)) && o.packet
    case Fetch => o.packet
    case QueryA => !o.timeout && Verified(m.so, o).Ready?
    case _ => false
  }

  /** It becomes the answer of the frame, if it settles the matter. */
  ghost predicate Taken(conf: Conf, m: Machine, o: Oracle, r: M<Outcome>) {
    r.Go? && r.value.m.sp == m.sp && NewAnswer(m, r.value.m)
  }

  lemma KeepTaken(conf: Conf, m: Machine, m2: Machine, o: Oracle, next: RState)
    requires m2.sp == m.sp < |m2.frames| && NewAnswer(m, m2) && o.records
    ensures Taken(conf, m, o, KeepOrDrop(m2, o, next))
  {
  }

  lemma LookupTaken(conf: Conf, m: Machine, o: Oracle)
    requires Inv(m) && Obtains(conf, m, o) && Step(conf, m, o).Go? && o.records
    requires Top(m).state.File? || Top(m).state.FileLoop?
    ensures Taken(conf, m, o, Step(conf, m, o))
  {
    hide Inv, Owned, Use, Free, KeepOrDrop, SearchNext, StepGlue, StepSwitch, StepCache, CacheWait, StepFetch,
      StepBind, StepSearch, StepHints, StepIterate, StepForeachNs, StepResolv0Ns, StepResolv1Ns, StepForeachA,
      StepQueryA, StepCname0A, StepCname1A, StepFinish, StepSmart0A, StepSmart1A, StepDone, StepServfail;
    Unpack(m);
    var a, m0 := Answer(m.sp), m.(search := SearchNext(conf, m.search).1);
    FreeOk(m, a);
    FreeOk(m0, a);
    var m1, n1 := Free(m, a).value, Free(m0, a).value;
    NewDiffers(m, m1, a);
    NewDiffers(m, n1, a);
    KeepTaken(conf, m, New(m1, a), o, Switch);
    KeepTaken(conf, m, New(n1, a), o, FileLoop);
  }

  lemma CacheTaken(conf: Conf, m: Machine, o: Oracle)
    requires Inv(m) && Obtains(conf, m, o) && Step(conf, m, o).Go? && o.records
    requires Top(m).state.Cache? || Top(m).state.Fetch?
    ensures Taken(conf, m, o, Step(conf, m, o))
  {
    hide Inv, Owned, Use, Free, KeepOrDrop, SearchNext, StepGlue, StepSwitch, StepFile, StepFileLoop, CacheWait,
      StepBind, StepSearch, StepHints, StepIterate, StepForeachNs, StepResolv0Ns, StepResolv1Ns, StepForeachA,
      StepQueryA, StepCname0A, StepCname1A, StepFinish, StepSmart0A, StepSmart1A, StepDone, StepServfail;
    Unpack(m);
    var a := Answer(m.sp);
    var m1 := if Query(m.sp) in m.ptrs then m else New(m, Query(m.sp));
    QueryMade(m);
    FreeOk(m1, a);
    FreeOk(m, a);
    var m2, n1 := Free(m1, a).value, Free(m, a).value;
    NewDiffers(m, m2, a);
    NewDiffers(m, n1, a);
    KeepTaken(conf, m, New(m2, a), o, Switch);
    KeepTaken(conf, m, New(n1, a), o, Switch);
  }

  lemma GlueTaken(conf: Conf, m: Machine, o: Oracle)
    requires Inv(m) && m.sp > 0 && o.packet && Top(m).state.Glue? && StepGlue(m, o).Go?
    ensures Taken(conf, m, o, StepGlue(m, o))
  {
    hide Inv, Owned, Use, AnswersBelow;
    Unpack(m);
    NewDiffers(m, m, Answer(m.sp));
  }

  lemma ReplyTaken(conf: Conf, m: Machine, o: Oracle)
    requires Inv(m) && Top(m).state.QueryA? && !o.timeout && Verified(m.so, o).Ready? && StepQueryA(conf, m, o).Go?
    requires o.found.Neither? ==> !o.referral
    ensures Taken(conf, m, o, StepQueryA(conf, m, o))
  {
    hide Inv, Owned, Use, SoCheck, Free, Refer, SocketOk;
    Unpack(m);
    CheckKeeps(m, o);
    var m1 := SoCheck(m, o).value;
    FreeOk(m1, Answer(m.sp));
    var m2 := Free(m1, Answer(m.sp)).value;
    MoveOk(m2, SoAnswer, Answer(m.sp));
    assert Move(m2, SoAnswer, Answer(m.sp)).ptrs[Answer(m.sp)] == m1.ptrs[SoAnswer];
  }

  lemma ObtainedTaken(conf: Conf, m: Machine, o: Oracle, known: Contents)
    requires Inv(m) && Obtains(conf, m, o) && Settles(conf, Obtained(m, o, known)) && Step(conf, m, o).Go?
    ensures Taken(conf, m, o, Step(conf, m, o))
  {
    hide Inv, StepGlue, StepSwitch, StepFile, StepFileLoop, StepCache, CacheWait, StepFetch, StepBind, StepSearch,
      StepHints, StepIterate, StepForeachNs, StepResolv0Ns, StepResolv1Ns, StepForeachA, StepQueryA, StepCname0A,
      StepCname1A, StepFinish, StepSmart0A, StepSmart1A, StepDone, StepServfail, Taken, At;
    match Top(m).state
    case Glue => GlueTaken(conf, m, o);
    case QueryA => ReplyTaken(conf, m, o);
    case File => LookupTaken(conf, m, o);
    case FileLoop => LookupTaken(conf, m, o);
    case Cache => CacheTaken(conf, m, o);
    case Fetch => CacheTaken(conf, m, o);
  }

  /** The bottom frame has an answer, and not a refusal. */
  ghost predicate Holds(conf: Conf, os: nat -> Oracle, k: nat) {
    && Checked(conf, os, k).Go? && |Checked(conf, os, k).value.frames| > 0
    && NeedsAnswer(Checked(conf, os, k).value.frames[0].state)
    && !At(Checked(conf, os, k).value, Learned(conf, os, k), 0).holds.Refused?
  }

  lemma {:induction false} HoldsOn(conf: Conf, os: nat -> Oracle, j: nat, k: nat)
    requires j <= k && Holds(conf, os, j)
    ensures Holds(conf, os, k)
    decreases k - j
  {
    hide Inv, Learn, Step, At;
    if j < k {
      HoldsOn(conf, os, j, k - 1);
      CheckedSafe(conf, os, k - 1);
      CheckedSafe(conf, os, k);
      var m := Checked(conf, os, k - 1).value;
      Unpack(m);
      StepPersists(conf, m, os(k - 1), Learned(conf, os, k - 1));
    }
  }

  /**
   * Once a lookup for the name asked yields something that settles the matter, the run does not end in a
   * refusal: whatever happens afterwards, a check that succeeds hands out that answer, or one merged from it.
   */
  lemma FoundIsKept(conf: Conf, os: nat -> Oracle, j: nat, k: nat)
    requires j < k && Checked(conf, os, j).Go? && Checked(conf, os, j).value.sp == 0
    requires var m := Checked(conf, os, j).value;
      && m.sp < |m.frames| && Obtains(conf, m, os(j)) && Settles(conf, Obtained(m, os(j), Learned(conf, os, j)))
    ensures Holds(conf, os, k)
  {
    hide Inv, Step, Told, Obtains, StateTold;
    RunTold(conf, os, j);
    RunTold(conf, os, j + 1);
    var m, m', known := Checked(conf, os, j).value, Checked(conf, os, j + 1).value, Learned(conf, os, j);
    ObtainedTaken(conf, m, os(j), known);
    TopIs(conf, m', Learned(conf, os, j + 1));
    ObtainedHeld(conf, m, os(j), m', known);
    HoldsOn(conf, os, j + 1, k);
  }

  lemma ObtainedHeld(conf: Conf, m: Machine, o: Oracle, m': Machine, known: Contents)
    requires m.sp == m'.sp < |m.frames| && m'.sp < |m'.frames| && NewAnswer(m, m') && Obtains(conf, m, o)
    requires Settles(conf, Obtained(m, o, known))
    ensures At(m', Learn(m, o, m', known), m.sp) == Obtained(m, o, known) && !Obtained(m, o, known).holds.Refused?
  {
    hide SearchNext;
  }

  // ---- A refusal comes last ------------------------------------------------------------------------

  /** The transition does not touch the place of the current frame in the lookup order. */
  ghost predicate SamePlace(m: Machine, r: M<Outcome>) {
    r.Go? && m.sp < |m.frames| ==>
      m.sp < |r.value.m.frames| && r.value.m.frames[m.sp].which == m.frames[m.sp].which
  }

  lemma LookupPlace(conf: Conf, m: Machine, o: Oracle)
    requires m.sp < |m.frames|
    requires var s := Top(m).state; s.Init? || s.Glue? || s.File? || s.FileLoop? || CacheState(s)
    ensures SamePlace(m, Step(conf, m, o))
  {
    hide Free, Use, ResetAbove, SoCheck, AnswersBelow, SearchNext, SmartNext, StepBind, StepSearch, StepHints,
      StepIterate, StepForeachNs, StepResolv0Ns, StepResolv1Ns, StepForeachA, StepQueryA, StepCname0A, StepCname1A,
      StepFinish, StepSmart0A, StepSmart1A, StepServfail, StepSwitch;
  }

  lemma AskingPlace(conf: Conf, m: Machine, o: Oracle)
    requires m.sp < |m.frames| && Asking(Top(m).state) && !Top(m).state.QueryA?
    ensures SamePlace(m, Step(conf, m, o))
  {
    hide Free, Use, ResetAbove, SoCheck, AnswersBelow, SearchNext, SmartNext, StepGlue, StepSwitch, StepFile,
      StepFileLoop, StepCache, CacheWait, StepFetch, StepQueryA, StepCname0A, StepCname1A, StepFinish, StepSmart0A,
      StepSmart1A, StepServfail;
  }

  lemma TakePlace(conf: Conf, m: Machine, o: Oracle)
    requires m.sp < |m.frames|
    ensures SamePlace(m, TakeAnswer(conf, m, o))
  {
    hide Free, Use;
  }

  lemma QueryPlace(conf: Conf, m: Machine, o: Oracle)
    requires m.sp < |m.frames| && Top(m).state.QueryA?
    ensures SamePlace(m, Step(conf, m, o))
  {
    hide Free, Use, ResetAbove, SoCheck, AnswersBelow, SearchNext, SmartNext, StepGlue, StepSwitch, StepFile,
      StepFileLoop, StepCache, CacheWait, StepFetch, StepBind, StepSearch, StepHints, StepIterate, StepForeachNs,
      StepResolv0Ns, StepResolv1Ns, StepForeachA, StepCname0A, StepCname1A, StepFinish, StepSmart0A, StepSmart1A,
      StepServfail, TakeAnswer;
    if SoCheck(m, o).Go? {
      TakePlace(conf, SoCheck(m, o).value, o);
    }
  }

  lemma CallingPlace(conf: Conf, m: Machine, o: Oracle)
    requires m.sp < |m.frames| && (Top(m).state.Cname0A? || Top(m).state.Smart0A?)
    ensures SamePlace(m, Step(conf, m, o))
  {
    hide Free, Use, ResetAbove, SoCheck, AnswersBelow, SearchNext, SmartNext, StepGlue, StepSwitch, StepFile,
      StepFileLoop, StepCache, CacheWait, StepFetch, StepBind, StepSearch, StepHints, StepIterate, StepForeachNs,
      StepResolv0Ns, StepResolv1Ns, StepForeachA, StepQueryA, StepCname1A,
      StepFinish, StepSmart1A, StepDone, StepServfail;
  }

  lemma HoldingPlace(conf: Conf, m: Machine, o: Oracle)
    requires m.sp < |m.frames|
    requires var s := Top(m).state; s.Cname1A? || s.Finish? || s.Smart1A? || s.Done? || s.Servfail?
    ensures SamePlace(m, Step(conf, m, o))
  {
    hide Free, Use, ResetAbove, SoCheck, AnswersBelow, SearchNext, SmartNext, StepGlue, StepSwitch, StepFile,
      StepFileLoop, StepCache, CacheWait, StepFetch, StepBind, StepSearch, StepHints, StepIterate, StepForeachNs,
      StepResolv0Ns, StepResolv1Ns, StepForeachA, StepQueryA, StepCname0A,
      StepSmart0A;
  }

  /** Where an entry of the lookup order leads. */
  function Target(conf: Conf, c: char): Wire.Option<RState> {
    if AsksServers(c) then Wire.Some(Bind)
    else if c == 'f' || c == 'F' then Wire.Some(File)
    else if conf.cache && AsksCache(c) then Wire.Some(Cache)
    else Wire.None
  }

  /** The bottom frame moved on in the lookup order by one entry, and went where that leads. */
  ghost predicate Moves(conf: Conf, m: Machine, m': Machine) {
    && m.sp == m'.sp == 0 < |m.frames| && |m'.frames| > 0
    && var i := m.frames[0].which;
    && i < |conf.lookup| && m'.frames[0].which == i + 1
    && (Target(conf, conf.lookup[i]).Some? ==> m'.frames[0].state == Target(conf, conf.lookup[i]).value)
  }

  lemma BottomPlace(conf: Conf, m: Machine, o: Oracle)
    requires Inv(m) && Step(conf, m, o).Go? && Inv(Step(conf, m, o).value.m)
    ensures var m' := Step(conf, m, o).value.m;
      && |m.frames| > 0 && |m'.frames| > 0 && (m'.frames[0].which == m.frames[0].which || Moves(conf, m, m'))
  {
    hide Inv, Step, SamePlace, Asking;
    Unpack(m);
    Unpack(Step(conf, m, o).value.m);
    if m.sp > 0 {
      BelowPlace(conf, m, o);
    } else if Top(m).state.Switch? {
      SwitchMoves(conf, m, o);
    } else {
      RootPlace(conf, m, o);
    }
  }

  lemma RootPlace(conf: Conf, m: Machine, o: Oracle)
    requires m.sp == 0 < |m.frames| && Step(conf, m, o).Go? && !Top(m).state.Switch?
    ensures var m' := Step(conf, m, o).value.m; |m'.frames| > 0 && m'.frames[0].which == m.frames[0].which
  {
    hide Step;
    var s := Top(m).state;
    if s.Cname0A? || s.Smart0A? {
      CallingPlace(conf, m, o);
    } else if NeedsAnswer(s) || s.Servfail? {
      HoldingPlace(conf, m, o);
    } else if s.QueryA? {
      QueryPlace(conf, m, o);
    } else if Asking(s) {
      AskingPlace(conf, m, o);
    } else {
      LookupPlace(conf, m, o);
    }
  }

  lemma SwitchMoves(conf: Conf, m: Machine, o: Oracle)
    requires m.sp == 0 < |m.frames| && Top(m).state.Switch? && Step(conf, m, o).Go?
    ensures var m' := Step(conf, m, o).value.m;
      |m'.frames| > 0 && (m'.frames[0].which == m.frames[0].which || Moves(conf, m, m'))
  {
    hide Free, Use, StepGlue, StepFile, StepFileLoop, StepCache, CacheWait, StepFetch, StepBind, StepSearch,
      StepHints, StepIterate, StepForeachNs, StepResolv0Ns, StepResolv1Ns, StepForeachA, StepQueryA, StepCname0A,
      StepCname1A, StepFinish, StepSmart0A, StepSmart1A, StepDone, StepServfail;
  }

  /** The frames below the current one are not touched. */
  lemma BelowPlace(conf: Conf, m: Machine, o: Oracle)
    requires Inv(m) && Step(conf, m, o).Go? && Inv(Step(conf, m, o).value.m) && m.sp > 0
    ensures var m' := Step(conf, m, o).value.m; |m.frames| == |m'.frames| > 0 && m'.frames[0] == m.frames[0]
  {
    hide Inv, Owned, Use, SocketOk, SameAnswer, StepGlue, StepSwitch, StepFile, StepFileLoop, StepCache, CacheWait,
      StepFetch, Goto, StepBind, StepSearch, StepHints, StepIterate, StepForeachNs, StepResolv0Ns, StepResolv1Ns,
      StepForeachA, StepQueryA, StepCname0A, StepCname1A, StepFinish, StepSmart0A, StepSmart1A, StepServfail;
    Unpack(m);
    match Top(m).state
    case Init => LookupOthers(conf, m, o);
    case Glue => LookupOthers(conf, m, o);
    case Switch => LookupOthers(conf, m, o);
    case File => FilesOthers(conf, m, o);
    case FileLoop => FilesOthers(conf, m, o);
    case Cache => CacheOthers(conf, m, o, Check);
    case Submit => CacheOthers(conf, m, o, Check);
    case Check => CacheOthers(conf, m, o, RState.Fetch);
    case Fetch => FetchOthers(conf, m, o);
    case Servfail => FetchOthers(conf, m, o);
    case Bind => AskOthers(conf, m, o);
    case Search => AskOthers(conf, m, o);
    case Hints => AskOthers(conf, m, o);
    case Iterate => ServeOthers(conf, m, o);
    case ForeachNs => ServeOthers(conf, m, o);
    case Resolv1Ns => ServeOthers(conf, m, o);
    case Finish => ServeOthers(conf, m, o);
    case ForeachA => ForeachAOthers(m, o);
    case QueryA => QueryAOthers(conf, m, o);
    case Cname1A => MergeOthers(m, o);
    case Smart1A => MergeOthers(m, o);
    case Smart0A => SmartLower(conf, m, o);
    case Resolv0Ns => CallsLower(conf, m, o);
    case Cname0A => CallsLower(conf, m, o);
    case Done =>
  }

  /** At moment `j` the bottom frame turned to the source that entry `i` names. */
  ghost predicate TriedAt(conf: Conf, os: nat -> Oracle, i: nat, j: nat) {
    && i < |conf.lookup| && Target(conf, conf.lookup[i]).Some?
    && Checked(conf, os, j).Go? && |Checked(conf, os, j).value.frames| > 0
    && Checked(conf, os, j).value.frames[0].state == Target(conf, conf.lookup[i]).value
  }

  ghost predicate TriedBy(conf: Conf, os: nat -> Oracle, i: nat, k: nat) {
    exists j: nat :: j <= k && TriedAt(conf, os, i, j)
  }

  lemma {:induction false} PlaceTried(conf: Conf, os: nat -> Oracle, i: nat, k: nat)
    requires i < |conf.lookup| && Target(conf, conf.lookup[i]).Some?
    requires Checked(conf, os, k).Go? && |Checked(conf, os, k).value.frames| > 0
    requires i < Checked(conf, os, k).value.frames[0].which
    ensures TriedBy(conf, os, i, k)
  {
    hide Inv, Step, Target;
    if k > 0 {
      CheckedSafe(conf, os, k - 1);
      CheckedSafe(conf, os, k);
      var m, m' := Checked(conf, os, k - 1).value, Checked(conf, os, k).value;
      BottomPlace(conf, m, os(k - 1));
      if i < m.frames[0].which {
        PlaceTried(conf, os, i, k - 1);
        var j: nat :| j <= k - 1 && TriedAt(conf, os, i, j);
      } else {
        assert TriedAt(conf, os, i, k);
      }
    }
  }

  /** A run that ends in a refusal has turned to every source the lookup order names. */
  lemma RefusedLast(conf: Conf, os: nat -> Oracle, k: nat)
    requires Checked(conf, os, k).Go? && !GoesOn(Step(conf, Checked(conf, os, k).value, os(k)))
    requires At(Checked(conf, os, k).value, Learned(conf, os, k), 0).holds.Refused?
    ensures forall i: nat :: i < |conf.lookup| && Target(conf, conf.lookup[i]).Some? ==> TriedBy(conf, os, i, k)
  {
    hide Step, TriedBy, Target;
    SuccessResolved(conf, os, k);
    forall i: nat | i < |conf.lookup| && Target(conf, conf.lookup[i]).Some?
      ensures TriedBy(conf, os, i, k)
    {
      PlaceTried(conf, os, i, k);
    }
  }
}
