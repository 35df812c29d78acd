/** Why a resolver without recursion always comes to an end, waits aside. */
module ResolverTermination {
  import opened Descent
  import opened Resolver
  import opened ResolverSafety

  // ---- The measure -----------------------------------------------------------------

  function Stage(s: RState): nat {
    match s
    case Done => 1
    case Smart0A => 2
    case Smart1A => 2
    case Servfail => 3
    case Finish => 3
    case Cname0A => 4
    case Cname1A => 4
    case _ => 5
  }

  /** The order in which a frame works through one character of the lookup string. */
  function Mid(s: RState): nat {
    match s
    case Init => 12
    case Glue => 11
    case File => 10
    case FileLoop => 9
    case Cache => 8
    case Submit => 7
    case Check => 6
    case Fetch => 5
    case Bind => 4
    case Search => 3
    case Hints => 2
    case Iterate => 1
    case ForeachNs => 1
    case ForeachA => 1
    case QueryA => 1
    case Resolv0Ns => 1
    case Resolv1Ns => 1
    case Cname0A => 1
    case _ => 0
  }

  /** The order of the states that serve one name server. */
  function Fine(s: RState): nat {
    match s
    case QueryA => 6
    case ForeachA => 5
    case Resolv0Ns => 4
    case Resolv1Ns => 3
    case ForeachNs => 2
    case _ => 0
  }

  function Minus(a: nat, b: nat): nat {
    if a <= b then 0 else a - b
  }

  function SearchLeft(conf: Conf, s: SearchState): nat {
    Minus(3, s.phase) + Minus(conf.entries, s.srchi)
  }

  /** Name servers without a known address. */
  function Unglued(glue: seq<nat>): nat {
    if glue == [] then 0 else (if glue[0] == 0 then 1 else 0) + Unglued(glue[1..])
  }

  /** The lookups left, or the records left to the smart iterator. */
  function Lookups(conf: Conf, f: Frame, m: Machine): nat {
    match f.state
    case Smart0A => 2 * (m.smartLeft + if m.smartCount == 0 then 1 else 0) + 1
    case Smart1A => 2 * (m.smartLeft + if m.smartCount == 0 then 1 else 0) + 2
    case _ => if Stage(f.state) == 5 then Minus(|conf.lookup|, f.which) else 0
  }

  function FrameRank(conf: Conf, f: Frame, m: Machine): seq<nat> {
    [Stage(f.state), Lookups(conf, f, m), Mid(f.state), if f.state.FileLoop? then SearchLeft(conf, m.search) else 0,
     Minus(conf.attempts, f.attempts), if f.state.Iterate? then 1 else 0, Unglued(f.glue), f.nsLeft, f.aLeft,
     Fine(f.state)]
  }

  const NOTHING: seq<nat> := [0, 0, 0, 0, 0, 0, 0, 0, 0, 0]

  function Rank(conf: Conf, m: Machine, i: nat): (r: seq<nat>)
    ensures |r| == 10
  {
    if i > m.sp || i >= |m.frames| then NOTHING else FrameRank(conf, m.frames[i], m)
  }

  /** The ranks of all frames from the `i`th, the root's first. */
  function StackRank(conf: Conf, m: Machine, i: nat): (r: seq<nat>)
    requires i <= DEPTH
    ensures |r| == 10 * (DEPTH - i)
    decreases DEPTH - i
  {
    if i == DEPTH then [] else Rank(conf, m, i) + StackRank(conf, m, i + 1)
  }

  // ---- What a transition does to it ----------------------------------------------------

  /** The current frame falls, and the ones below it stay. */
  ghost predicate Drops(conf: Conf, m: Machine, m': Machine) {
    && (forall i: nat {:trigger Rank(conf, m, i)} :: i < m.sp ==> Rank(conf, m', i) == Rank(conf, m, i))
    && Lex(Rank(conf, m', m.sp), Rank(conf, m, m.sp))
  }

  lemma {:induction false} StackFalls(conf: Conf, m: Machine, m': Machine, i: nat)
    requires Drops(conf, m, m') && i <= m.sp < DEPTH
    ensures Lex(StackRank(conf, m', i), StackRank(conf, m, i))
    decreases DEPTH - i
  {
    hide Lex, Rank;
    if i == m.sp {
      LexLeft(Rank(conf, m', i), Rank(conf, m, i), StackRank(conf, m', i + 1), StackRank(conf, m, i + 1));
    } else {
      StackFalls(conf, m, m', i + 1);
      LexRight(Rank(conf, m, i), StackRank(conf, m', i + 1), StackRank(conf, m, i + 1));
    }
  }

  /** While a frame serves a name server: the addresses seen and left are the ones there are. */
  predicate Counted(f: Frame) {
    && (f.state.Resolv0Ns? || f.state.Resolv1Ns? ==> f.ns < |f.glue| && f.glue[f.ns] == 0)
    && (f.state.ForeachA? || f.state.QueryA? ==> f.ns < |f.glue| && f.aLeft + f.aSeen == f.glue[f.ns])
  }

  ghost predicate AllCounted(m: Machine) {
    forall i: nat {:trigger m.frames[i]} :: i <= m.sp && i < |m.frames| ==> Counted(m.frames[i])
  }

  /** The machine waits: only memory and the socket may have changed. */
  ghost predicate Waits(m: Machine, m': Machine) {
    m' == m.(ptrs := m'.ptrs, live := m'.live, serial := m'.serial)
  }

  /** What every transition that ends without an error achieves. */
  ghost predicate Progress(conf: Conf, m: Machine, r: M<Outcome>) {
    r.Go? ==>
      match r.value
      case Next(m') => Drops(conf, m, m') && AllCounted(m')
      case Return(m', e) => e.Hard? || Waits(m, m')
  }

  /** A change to the current frame alone. */
  ghost predicate OnTop(m: Machine, m': Machine) {
    && m.sp < |m.frames| == |m'.frames|
    && (forall i: nat {:trigger m.frames[i]} {:trigger m'.frames[i]} :: i < m.sp ==> m'.frames[i] == m.frames[i])
    && (m.sp > 0 ==> m'.smartLeft == m.smartLeft && m'.smartCount == m.smartCount)
  }

  lemma RanksBelow(conf: Conf, m: Machine, m': Machine, i: nat)
    requires Inv(m) && OnTop(m, m') && i < m.sp && m.sp <= m'.sp + 1
    ensures Rank(conf, m', i) == Rank(conf, m, i)
  {
    hide Owned, SocketOk, FrameOk;
    assert Suspended(m.frames[i].state);
  }

  /** The current frame moved on to `f`. */
  lemma Moved(conf: Conf, m: Machine, m': Machine, k: nat)
    requires Inv(m) && AllCounted(m) && OnTop(m, m') && m'.sp == m.sp
    requires Falls(FrameRank(conf, Top(m'), m'), FrameRank(conf, Top(m), m), k)
    requires Counted(Top(m'))
    ensures Progress(conf, m, Go(Next(m')))
  {
    hide Inv, FrameRank, Counted;
    forall i: nat | i < m.sp
      ensures Rank(conf, m', i) == Rank(conf, m, i)
    {
      RanksBelow(conf, m, m', i);
    }
    assert Lex(Rank(conf, m', m.sp), Rank(conf, m, m.sp));
    forall i: nat | i <= m'.sp && i < |m'.frames|
      ensures Counted(m'.frames[i])
    {
      if i < m.sp {
        assert m'.frames[i] == m.frames[i];
      }
    }
  }

  /** A new frame was put on top. */
  lemma Called(conf: Conf, m: Machine, m': Machine, k: nat)
    requires Inv(m) && AllCounted(m) && OnTop(m, m') && m'.sp == m.sp + 1 < |m'.frames| && Top(m').state.Init?
    requires Falls(FrameRank(conf, m'.frames[m.sp], m'), FrameRank(conf, Top(m), m), k)
    requires Counted(m'.frames[m.sp])
    ensures Progress(conf, m, Go(Next(m')))
  {
    hide Inv, FrameRank;
    forall i: nat | i < m.sp
      ensures Rank(conf, m', i) == Rank(conf, m, i)
    {
      RanksBelow(conf, m, m', i);
    }
    assert Lex(Rank(conf, m', m.sp), Rank(conf, m, m.sp));
    forall i: nat | i <= m'.sp && i < |m'.frames|
      ensures Counted(m'.frames[i])
    {
      if i < m.sp {
        assert m'.frames[i] == m.frames[i];
      }
    }
  }

  /** States with nothing to count, outside QUERY_A. */
  predicate Plain(s: RState) {
    !s.Resolv0Ns? && !s.Resolv1Ns? && !s.ForeachA? && !s.QueryA?
  }

  predicate Earlier(s: RState, s': RState) {
    Stage(s') < Stage(s) || (Stage(s) == 5 == Stage(s') && Mid(s') < Mid(s))
  }

  /** The frame goes on to a later part of the lookup. */
  lemma Advanced(conf: Conf, m: Machine, m': Machine)
    requires Inv(m) && AllCounted(m) && OnTop(m, m') && m'.sp == m.sp
    requires Top(m').which == Top(m).which && Plain(Top(m').state) && Earlier(Top(m).state, Top(m').state)
    ensures Progress(conf, m, Go(Next(m')))
  {
    hide Inv, Progress, Mid;
    Moved(conf, m, m', if Stage(Top(m').state) < Stage(Top(m).state) then 0 else 2);
  }

  lemma GotoDrops(conf: Conf, m: Machine, m1: Machine, s: RState)
    requires Inv(m) && AllCounted(m) && m1.sp == m.sp < |m.frames| && m1.frames == m.frames
    requires m.sp > 0 ==> m1.smartLeft == m.smartLeft && m1.smartCount == m.smartCount
    requires Plain(s) && Earlier(Top(m).state, s)
    ensures Progress(conf, m, Goto(m1, s))
  {
    hide Inv, Progress, Mid, Stage;
    Advanced(conf, m, Goto(m1, s).value.m);
  }

  // ---- The transitions, one by one ---------------------------------------------------------

  lemma Basics(m: Machine)
    requires Inv(m) && AllCounted(m)
    ensures Shaped(m) && Counted(Top(m)) && (RootOnly(Top(m).state) ==> m.sp == 0)
  {
    hide Owned, SocketOk;
    assert FrameOk(m, m.sp);
  }

  lemma GlueDrops(conf: Conf, m: Machine, o: Oracle)
    requires Inv(m) && AllCounted(m) && Top(m).state.Glue?
    ensures Progress(conf, m, StepGlue(m, o))
  {
    hide Inv, AllCounted, Use, Assert, AnswersBelow, Drops;
    Basics(m);
    var r := StepGlue(m, o);
    if r.Go? && r.value.Next? {
      Advanced(conf, m, r.value.m);
    }
  }

  lemma SwitchDrops(conf: Conf, m: Machine)
    requires Inv(m) && AllCounted(m) && Top(m).state.Switch?
    ensures Progress(conf, m, StepSwitch(conf, m))
  {
    hide Inv, AllCounted, Drops;
    Basics(m);
    var m' := StepSwitch(conf, m).value.m;
    if Top(m').state.Servfail? {
      Advanced(conf, m, m');
    } else {
      Moved(conf, m, m', 1);
    }
  }

  lemma FileDrops(conf: Conf, m: Machine, o: Oracle)
    requires Inv(m) && AllCounted(m) && Top(m).state.File?
    ensures Progress(conf, m, StepFile(m, o))
  {
    hide Inv, AllCounted, Use, Free, Drops;
    Basics(m);
    var r := StepFile(m, o);
    if r.Go? && r.value.Next? {
      Advanced(conf, m, r.value.m);
    }
  }

  lemma SearchFalls(conf: Conf, s: SearchState)
    requires SearchNext(conf, s).0
    ensures SearchLeft(conf, SearchNext(conf, s).1) < SearchLeft(conf, s)
  {
  }

  lemma FileLoopDrops(conf: Conf, m: Machine, o: Oracle)
    requires Inv(m) && AllCounted(m) && Top(m).state.FileLoop?
    ensures Progress(conf, m, StepFileLoop(conf, m, o))
  {
    hide Inv, AllCounted, Free, Drops, SearchNext, SearchLeft;
    Basics(m);
    var r := StepFileLoop(conf, m, o);
    if r.Go? && r.value.Next? {
      var m' := r.value.m;
      if Top(m').state.FileLoop? {
        SearchFalls(conf, m.search);
        Moved(conf, m, m', 3);
      } else {
        Advanced(conf, m, m');
      }
    }
  }

  lemma KeepDrops(conf: Conf, m: Machine, m1: Machine, o: Oracle)
    requires Inv(m) && AllCounted(m) && m1.sp == m.sp < |m.frames| && m1.frames == m.frames
    requires m.sp > 0 ==> m1.smartLeft == m.smartLeft && m1.smartCount == m.smartCount
    requires Earlier(Top(m).state, Switch) && Earlier(Top(m).state, Finish)
    ensures Progress(conf, m, KeepOrDrop(m1, o, Switch))
  {
    hide Inv, AllCounted, Free, Drops, Goto, Earlier;
    GotoDrops(conf, m, m1, Finish);
    if Free(m1, Answer(m.sp)).Go? {
      GotoDrops(conf, m, Free(m1, Answer(m.sp)).value, Switch);
    }
  }

  lemma CacheDrops(conf: Conf, m: Machine, o: Oracle)
    requires Inv(m) && AllCounted(m) && Top(m).state.Cache?
    ensures Progress(conf, m, StepCache(m, o))
  {
    hide Inv, AllCounted, Use, Free, Drops, KeepOrDrop, Goto;
    Basics(m);
    var m1 := if Query(m.sp) in m.ptrs then m else New(m, Query(m.sp));
    var m2 := Free(m1, Answer(m.sp));
    if m2.Go? {
      KeepDrops(conf, m, New(m2.value, Answer(m.sp)), o);
      GotoDrops(conf, m, m2.value, Submit);
    }
  }

  lemma WaitDrops(conf: Conf, m: Machine, o: Oracle, next: RState)
    requires Inv(m) && AllCounted(m)
      && (if Top(m).state.Submit? then next == Check else Top(m).state.Check? && next == RState.Fetch)
    ensures Progress(conf, m, CacheWait(m, o, next))
  {
    hide Inv, AllCounted, Drops;
    Basics(m);
    var r := CacheWait(m, o, next);
    if r.Go? && r.value.Next? {
      Advanced(conf, m, r.value.m);
    }
  }

  lemma FetchDrops(conf: Conf, m: Machine, o: Oracle)
    requires Inv(m) && AllCounted(m) && Top(m).state.Fetch?
    ensures Progress(conf, m, StepFetch(m, o))
  {
    hide Inv, AllCounted, Free, Drops;
    Basics(m);
    var r := StepFetch(m, o);
    if r.Go? && r.value.Next? {
      Advanced(conf, m, r.value.m);
    }
  }

  lemma BindDrops(conf: Conf, m: Machine)
    requires Inv(m) && AllCounted(m) && Top(m).state.Bind?
    ensures Progress(conf, m, StepBind(m))
  {
    hide Inv, AllCounted, Drops;
    Basics(m);
    var r := StepBind(m);
    if r.Go? && r.value.Next? {
      Advanced(conf, m, r.value.m);
    }
  }

  lemma SearchDrops(conf: Conf, m: Machine, o: Oracle)
    requires Inv(m) && AllCounted(m) && Top(m).state.Search?
    ensures Progress(conf, m, StepSearch(conf, m, o))
  {
    hide Inv, AllCounted, Free, Drops, SearchNext;
    Basics(m);
    var r := StepSearch(conf, m, o);
    if r.Go? && r.value.Next? {
      Advanced(conf, m, r.value.m);
    }
  }

  lemma HintsDrops(conf: Conf, m: Machine, o: Oracle)
    requires Inv(m) && AllCounted(m) && Top(m).state.Hints?
    ensures Progress(conf, m, StepHints(m, o))
  {
    hide Inv, AllCounted, Use, Drops;
    Basics(m);
    var r := StepHints(m, o);
    if r.Go? && r.value.Next? {
      Advanced(conf, m, r.value.m);
    }
  }

  lemma IterateDrops(conf: Conf, m: Machine)
    requires Inv(m) && AllCounted(m) && Top(m).state.Iterate?
    ensures Progress(conf, m, StepIterate(m))
  {
    hide Inv, AllCounted, Use, Drops;
    Basics(m);
    var r := StepIterate(m);
    if r.Go? && r.value.Next? {
      Moved(conf, m, r.value.m, 5);
    }
  }

  /** The attempt is over. */
  lemma AttemptDrops(conf: Conf, m: Machine)
    requires Inv(m) && AllCounted(m) && Top(m).state.ForeachNs?
    ensures var m1 := Put(m, Top(m).(attempts := Top(m).attempts + 1));
      Progress(conf, m, Goto(m1, if Top(m).attempts + 1 < conf.attempts then Iterate else Switch))
  {
    hide Inv, AllCounted, Drops, Progress;
    Basics(m);
    var m1 := Put(m, Top(m).(attempts := Top(m).attempts + 1));
    if Top(m).attempts + 1 < conf.attempts {
      Moved(conf, m, Goto(m1, Iterate).value.m, 4);
    } else {
      Advanced(conf, m, Goto(m1, Switch).value.m);
    }
  }

  lemma ForeachNsDrops(conf: Conf, m: Machine, o: Oracle)
    requires Inv(m) && AllCounted(m) && Top(m).state.ForeachNs?
    ensures Progress(conf, m, StepForeachNs(conf, m, o))
  {
    hide Inv, AllCounted, Use, Drops;
    Basics(m);
    AttemptDrops(conf, m);
    var r := StepForeachNs(conf, m, o);
    if r.Go? && Top(m).nsLeft > 0 && |Top(m).glue| > 0 {
      Moved(conf, m, r.value.m, 7);
    }
  }

  /** The current frame is suspended in `s` for a cleared one. */
  lemma CallDrops(conf: Conf, m: Machine, m2: Machine, s: RState, k: nat)
    requires Inv(m) && AllCounted(m) && m2.sp == m.sp && m.sp + 1 < |m.frames|
      && m2.frames == m.frames[m.sp + 1 := ZERO]
    requires m.sp > 0 ==> m2.smartLeft == m.smartLeft && m2.smartCount == m.smartCount
    requires Falls(FrameRank(conf, Top(m).(state := s), m2), FrameRank(conf, Top(m), m), k)
      && Counted(Top(m).(state := s))
    ensures Progress(conf, m, Call(m2, s))
  {
    hide Inv, AllCounted, Drops, FrameRank, Progress, Counted;
    var m' := Call(m2, s).value.m;
    assert m'.frames[m.sp] == Top(m).(state := s);
    SameRank(conf, m'.frames[m.sp], m', m2);
    Called(conf, m, m', k);
  }

  lemma SameRank(conf: Conf, f: Frame, m: Machine, m': Machine)
    requires m.search == m'.search && m.smartLeft == m'.smartLeft && m.smartCount == m'.smartCount
    ensures FrameRank(conf, f, m) == FrameRank(conf, f, m')
  {
  }

  lemma Resolv0NsDrops(conf: Conf, m: Machine, o: Oracle)
    requires Inv(m) && AllCounted(m) && Top(m).state.Resolv0Ns?
    ensures Progress(conf, m, StepResolv0Ns(m, o))
  {
    hide Inv, AllCounted, Use, Drops, ResetAbove, Call;
    Basics(m);
    if m.sp + 1 >= |m.frames| {
      Moved(conf, m, Goto(m, ForeachNs).value.m, 9);
    } else if ResetAbove(m).Go? {
      CallDrops(conf, m, New(ResetAbove(m).value, Query(m.sp + 1)), Resolv1Ns, 9);
    }
  }

  /** More glue leaves fewer servers without. */
  lemma {:induction false} UngluedFalls(glue: seq<nat>, glue': seq<nat>, ns: nat)
    requires |glue'| == |glue| && ns < |glue| && glue[ns] == 0 && glue'[ns] > 0
    requires forall i: nat :: i < |glue| && glue[i] > 0 ==> glue'[i] > 0
    ensures Unglued(glue') < Unglued(glue)
  {
    if ns == 0 {
      UngluedAtMost(glue[1..], glue'[1..]);
    } else {
      UngluedFalls(glue[1..], glue'[1..], ns - 1);
    }
  }

  lemma {:induction false} UngluedAtMost(glue: seq<nat>, glue': seq<nat>)
    requires |glue'| == |glue| && forall i: nat :: i < |glue| && glue[i] > 0 ==> glue'[i] > 0
    ensures Unglued(glue') <= Unglued(glue)
  {
    if glue != [] {
      UngluedAtMost(glue[1..], glue'[1..]);
    }
  }

  lemma Resolv1NsDrops(conf: Conf, m: Machine, o: Oracle)
    requires Inv(m) && AllCounted(m) && Top(m).state.Resolv1Ns?
    ensures Progress(conf, m, StepResolv1Ns(m, o))
  {
    hide Inv, AllCounted, Use, Drops, Unglued;
    Basics(m);
    var r := StepResolv1Ns(m, o);
    if r.Go? && r.value.Next? {
      var m' := r.value.m;
      if o.copied > 0 {
        UngluedFalls(Top(m).glue, Top(m').glue, Top(m).ns);
        Moved(conf, m, m', 6);
      } else {
        Moved(conf, m, m', 9);
      }
    }
  }

  lemma ForeachADrops(conf: Conf, m: Machine, o: Oracle)
    requires Inv(m) && AllCounted(m) && Top(m).state.ForeachA?
    ensures Progress(conf, m, StepForeachA(m, o))
  {
    hide Inv, AllCounted, Use, Free, Drops;
    Basics(m);
    var r := StepForeachA(m, o);
    if r.Go? && r.value.Next? {
      Moved(conf, m, r.value.m, if Top(r.value.m).state.QueryA? then 8 else 9);
    }
  }

  lemma TakeDrops(conf: Conf, m: Machine, m1: Machine, o: Oracle)
    requires Inv(m) && AllCounted(m) && Top(m).state.QueryA? && !conf.recurse && Waits(m, m1)
    ensures Progress(conf, m, TakeAnswer(conf, m1, o))
  {
    hide Inv, AllCounted, Drops, Use, Free, Goto;
    Basics(m);
    var m2 := Free(m1, Answer(m1.sp));
    if m2.Go? {
      var m3 := Move(m2.value, SoAnswer, Answer(m1.sp)).(so := Fetched);
      GotoDrops(conf, m, m3, Finish);
      GotoDrops(conf, m, m3, Cname0A);
      GotoDrops(conf, m, m3, Switch);
    }
  }

  lemma QueryADrops(conf: Conf, m: Machine, o: Oracle)
    requires Inv(m) && AllCounted(m) && Top(m).state.QueryA? && !conf.recurse
    ensures Progress(conf, m, StepQueryA(conf, m, o))
  {
    hide Inv, AllCounted, Drops, SoCheck, TakeAnswer;
    Basics(m);
    if o.timeout {
      Moved(conf, m, Goto(m, ForeachA).value.m, 9);
    } else if SoCheck(m, o).Go? {
      TakeDrops(conf, m, SoCheck(m, o).value, o);
    }
  }

  lemma Cname0ADrops(conf: Conf, m: Machine, o: Oracle)
    requires Inv(m) && AllCounted(m) && Top(m).state.Cname0A?
    ensures Progress(conf, m, StepCname0A(m, o))
  {
    hide Inv, AllCounted, Use, Drops, ResetAbove, Call;
    Basics(m);
    if m.sp + 1 >= |m.frames| {
      Advanced(conf, m, Goto(m, Finish).value.m);
    } else if ResetAbove(m).Go? {
      CallDrops(conf, m, New(ResetAbove(m).value, Query(m.sp + 1)), Cname1A, 2);
    }
  }

  lemma Cname1ADrops(conf: Conf, m: Machine, o: Oracle)
    requires Inv(m) && AllCounted(m) && Top(m).state.Cname1A?
    ensures Progress(conf, m, StepCname1A(m, o))
  {
    hide Inv, AllCounted, Use, Free, Drops;
    Basics(m);
    var r := StepCname1A(m, o);
    if r.Go? && r.value.Next? {
      Advanced(conf, m, r.value.m);
    }
  }

  lemma FinishDrops(conf: Conf, m: Machine, o: Oracle)
    requires Inv(m) && AllCounted(m) && Top(m).state.Finish?
    ensures Progress(conf, m, StepFinish(conf, m, o))
  {
    hide Inv, AllCounted, Use, Drops;
    Basics(m);
    var r := StepFinish(conf, m, o);
    if r.Go? && r.value.Next? {
      Advanced(conf, m, r.value.m);
    }
  }

  lemma SmartFalls(conf: Conf, m: Machine, o: Oracle)
    ensures var (more, m0) := SmartNext(conf, m, o);
      && m0.smartLeft <= m.smartLeft && m0.smartCount >= m.smartCount
      && (more ==> m0.smartLeft < m.smartLeft && m0.smartCount > 0)
  {
  }

  lemma FinishSmart(conf: Conf, m: Machine, m0: Machine)
    requires Inv(m) && AllCounted(m) && Top(m).state.Smart0A? && m.sp == 0 && m0.sp == 0 && m0.frames == m.frames
    ensures Progress(conf, m, Goto(m0, Done))
  {
    hide Inv, AllCounted, Goto;
    Basics(m);
    GotoDrops(conf, m, m0, Done);
  }

  lemma Smart0ADrops(conf: Conf, m: Machine, o: Oracle)
    requires Inv(m) && AllCounted(m) && Top(m).state.Smart0A?
    ensures Progress(conf, m, StepSmart0A(conf, m, o))
  {
    hide Inv, AllCounted, Use, Drops, ResetAbove, SmartNext, Call, Goto, Fine;
    Basics(m);
    SmartFalls(conf, m, o);
    FinishSmart(conf, m, m);
    var (more, m0) := SmartNext(conf, m, o);
    FinishSmart(conf, m, m0);
    if m.sp + 1 < |m.frames| && ResetAbove(m0).Go? && (more || (conf.kind.MailExchange? && m0.smartCount == 0)) {
      var count := if more then m0.smartCount else m0.smartCount + 1;
      CallDrops(conf, m, New(ResetAbove(m0).value, Query(m.sp + 1)).(smartCount := count), Smart1A, 1);
    }
  }

  lemma Smart1ADrops(conf: Conf, m: Machine, o: Oracle)
    requires Inv(m) && AllCounted(m) && Top(m).state.Smart1A?
    ensures Progress(conf, m, StepSmart1A(m, o))
  {
    hide Inv, AllCounted, Use, Free, Drops;
    Basics(m);
    var r := StepSmart1A(m, o);
    if r.Go? && r.value.Next? {
      Moved(conf, m, r.value.m, 1);
    }
  }

  lemma DoneDrops(conf: Conf, m: Machine)
    requires Inv(m) && AllCounted(m) && Top(m).state.Done?
    ensures Progress(conf, m, StepDone(m))
  {
    hide Inv, FrameRank;
    Basics(m);
    if m.sp > 0 {
      var m' := m.(sp := m.sp - 1);
      Nothing(conf, m);
      forall i: nat | i < m.sp
        ensures Rank(conf, m', i) == Rank(conf, m, i)
      {
        RanksBelow(conf, m, m', i);
      }
    }
  }

  lemma Nothing(conf: Conf, m: Machine)
    requires 0 < m.sp < |m.frames|
    ensures Lex(Rank(conf, m.(sp := m.sp - 1), m.sp), Rank(conf, m, m.sp))
  {
    assert Falls(Rank(conf, m.(sp := m.sp - 1), m.sp), Rank(conf, m, m.sp), 0);
  }

  lemma ServfailDrops(conf: Conf, m: Machine, o: Oracle)
    requires Inv(m) && AllCounted(m) && Top(m).state.Servfail?
    ensures Progress(conf, m, StepServfail(m, o))
  {
    hide Inv, AllCounted, Free, Drops;
    Basics(m);
    var r := StepServfail(m, o);
    if r.Go? && r.value.Next? {
      Advanced(conf, m, r.value.m);
    }
  }

  lemma InitDrops(conf: Conf, m: Machine)
    requires Inv(m) && AllCounted(m) && Top(m).state.Init?
    ensures Progress(conf, m, Goto(m, Glue))
  {
    hide Inv, AllCounted, Drops;
    Basics(m);
    Advanced(conf, m, Goto(m, Glue).value.m);
  }

  /** Without recursion every transition makes progress. */
  lemma StepDrops(conf: Conf, m: Machine, o: Oracle)
    requires Inv(m) && AllCounted(m) && (conf.recurse ==> !Top(m).state.QueryA?)
    ensures Progress(conf, m, Step(conf, m, o))
  {
    hide Inv, AllCounted, Progress, Counted, Goto, CacheWait, StepGlue, StepSwitch, StepFile, StepFileLoop, StepCache,
      StepFetch, StepBind, StepSearch, StepHints, StepIterate, StepForeachNs, StepResolv0Ns, StepResolv1Ns,
      StepForeachA, StepQueryA, StepCname0A, StepCname1A, StepFinish, StepSmart0A, StepSmart1A, StepDone,
      StepServfail;
    Basics(m);
    match Top(m).state
    case Init => InitDrops(conf, m);
    case Glue => GlueDrops(conf, m, o);
    case Switch => SwitchDrops(conf, m);
    case File => FileDrops(conf, m, o);
    case FileLoop => FileLoopDrops(conf, m, o);
    case Cache => CacheDrops(conf, m, o);
    case Submit => SubmitOk(conf, m, o, Check); WaitDrops(conf, m, o, Check);
    case Check => WaitDrops(conf, m, o, RState.Fetch);
    case Fetch => FetchDrops(conf, m, o);
    case Bind => BindDrops(conf, m);
    case Search => SearchDrops(conf, m, o);
    case Hints => HintsDrops(conf, m, o);
    case Iterate => IterateDrops(conf, m);
    case ForeachNs => ForeachNsDrops(conf, m, o);
    case Resolv0Ns => Resolv0NsDrops(conf, m, o);
    case Resolv1Ns => Resolv1NsDrops(conf, m, o);
    case ForeachA => ForeachADrops(conf, m, o);
    case QueryA => QueryADrops(conf, m, o);
    case Cname0A => Cname0ADrops(conf, m, o);
    case Cname1A => Cname1ADrops(conf, m, o);
    case Finish => FinishDrops(conf, m, o);
    case Smart0A => Smart0ADrops(conf, m, o);
    case Smart1A => Smart1ADrops(conf, m, o);
    case Done => DoneDrops(conf, m);
    case Servfail => ServfailDrops(conf, m, o);
  }
}
