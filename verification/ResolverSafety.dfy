/** Stack and memory safety of the resolver, over every run. */
module ResolverSafety {
  import opened Resolver

  // ---- The heap ------------------------------------------------------------------

  /** Every slot owns its packet alone, and the packet has not been freed. */
  ghost predicate Owned(ptrs: map<Slot, nat>, live: set<nat>, serial: nat) {
    && (forall s :: s in ptrs ==> ptrs[s] in live)
    && (forall s, t :: s in ptrs && t in ptrs && s != t ==> ptrs[s] != ptrs[t])
    && (forall x :: x in live ==> x < serial)
  }

  ghost predicate HeapOk(m: Machine) {
    Owned(m.ptrs, m.live, m.serial)
  }

  lemma UseOk(m: Machine, s: Slot)
    requires HeapOk(m) && s in m.ptrs
    ensures Use(m, s) == Go(())
  {
  }

  lemma FreeOk(m: Machine, s: Slot)
    requires HeapOk(m)
    ensures Free(m, s).Go? && HeapOk(Free(m, s).value)
    ensures var r := Free(m, s).value; r == m.(ptrs := m.ptrs - {s}, live := r.live)
  {
    if s !in m.ptrs {
      assert m.ptrs - {s} == m.ptrs;
    }
  }

  lemma NewOk(m: Machine, s: Slot)
    requires HeapOk(m)
    ensures HeapOk(New(m, s)) && New(m, s).ptrs.Keys == m.ptrs.Keys + {s}
    ensures forall t :: t in m.ptrs && t != s ==> New(m, s).ptrs[t] == m.ptrs[t]
  {
  }

  lemma ForgetOk(m: Machine, s: Slot)
    requires HeapOk(m)
    ensures HeapOk(Forget(m, s))
  {
  }

  lemma MoveOk(m: Machine, from: Slot, to: Slot)
    requires HeapOk(m) && from != to && to !in m.ptrs
    ensures HeapOk(Move(m, from, to))
    ensures Move(m, from, to).ptrs.Keys == (m.ptrs.Keys - {from}) + if from in m.ptrs then {to} else {}
    ensures forall t :: t in m.ptrs && t != from && t != to ==>
      t in Move(m, from, to).ptrs && Move(m, from, to).ptrs[t] == m.ptrs[t]
  {
  }

  lemma ResetAboveOk(m: Machine)
    requires HeapOk(m) && m.sp + 1 < |m.frames|
    ensures ResetAbove(m).Go? && HeapOk(ResetAbove(m).value)
    ensures var r := ResetAbove(m).value;
      && r.ptrs == m.ptrs - {Query(m.sp + 1), Answer(m.sp + 1), HintsOf(m.sp + 1)}
      && r == m.(ptrs := r.ptrs, live := r.live, frames := m.frames[m.sp + 1 := ZERO])
  {
    hide Owned, Free;
    var q, a, h := Query(m.sp + 1), Answer(m.sp + 1), HintsOf(m.sp + 1);
    FreeOk(m, q);
    var m1 := Free(m, q).value;
    FreeOk(m1, a);
    var m2 := Free(m1, a).value;
    FreeOk(m2, h);
    assert m.ptrs - {q} - {a} - {h} == m.ptrs - {q, a, h};
  }

  lemma {:induction false} AnswersBelowOk(m: Machine, i: nat)
    requires HeapOk(m)
    ensures AnswersBelow(m, i).Go?
    decreases m.sp - i
  {
    if i <= m.sp {
      AnswersBelowOk(m, i + 1);
    }
  }

  // ---- What holds between transitions -------------------------------------------------

  /** The iterator over name servers stays within the hints. */
  ghost predicate Iterating(f: Frame) {
    && (Serving(f.state) && !f.state.Iterate? ==> f.nsLeft <= |f.glue|)
    && (f.state.Resolv0Ns? || f.state.Resolv1Ns? || f.state.ForeachA? || f.state.QueryA? ==> f.ns < |f.glue|)
  }

  /** The states that work through the hints. */
  predicate Serving(s: RState) {
    s.Iterate? || s.ForeachNs? || s.Resolv0Ns? || s.Resolv1Ns? || s.ForeachA? || s.QueryA?
  }

  predicate NeedsQuery(s: RState) {
    Serving(s) || s.Submit? || s.Check? || s.Fetch? || s.Hints? || s.Cname0A?
  }

  predicate NeedsAnswer(s: RState) {
    s.Cname0A? || s.Cname1A? || s.Finish? || s.Smart0A? || s.Smart1A? || s.Done?
  }

  /** States in which a frame waits for the one above it. */
  predicate Suspended(s: RState) {
    s.Resolv1Ns? || s.Cname1A? || s.Smart1A?
  }

  predicate RootOnly(s: RState) {
    s.FileLoop? || s.Search? || s.Smart0A? || s.Smart1A?
  }

  ghost predicate FrameOk(m: Machine, i: nat)
    requires i < |m.frames|
  {
    var s := m.frames[i].state;
    && (i > 0 || NeedsQuery(s) ==> Query(i) in m.ptrs)
    && (NeedsAnswer(s) ==> Answer(i) in m.ptrs)
    && (Serving(s) ==> HintsOf(i) in m.ptrs)
    && (RootOnly(s) ==> i == 0)
    && Iterating(m.frames[i])
  }

  /** In QUERY_A the socket holds the frame's own query, and its answer was not taken yet. */
  ghost predicate SocketOk(m: Machine)
    requires m.sp < |m.frames|
  {
    match m.so
    case Idle => !Top(m).state.QueryA?
    case Busy(q, _) => SoAnswer in m.ptrs
      && (Top(m).state.QueryA? ==> Query(m.sp) in m.ptrs && m.ptrs[Query(m.sp)] == q)
    case Fetched => SoAnswer !in m.ptrs && !Top(m).state.QueryA?
  }

  ghost predicate Inv(m: Machine) {
    && Shaped(m) && HeapOk(m) && SocketOk(m)
    && (forall i: nat {:trigger FrameOk(m, i)} :: i <= m.sp ==> FrameOk(m, i))
    && (forall i: nat {:trigger m.frames[i].state} :: i < m.sp ==> Suspended(m.frames[i].state))
    && (Suspended(Top(m).state) ==> m.sp + 1 < DEPTH && Query(m.sp + 1) in m.ptrs && Answer(m.sp + 1) in m.ptrs)
  }

  /** A transition that ends well. */
  ghost predicate Fine(r: M<Outcome>) {
    r.Go? && Inv(r.value.m)
  }

  // ---- From one transition to the next ----------------------------------------------------

  predicate Below(s: Slot, sp: nat) {
    !s.SoAnswer? && s.i < sp
  }

  /** A change that leaves the suspended frames and their packets alone. */
  ghost predicate KeepsBelow(m: Machine, m': Machine) {
    && m'.sp == m.sp < |m.frames| == |m'.frames|
    && (forall i: nat :: i < m.sp ==> m'.frames[i] == m.frames[i])
    && (forall s :: s in m.ptrs && Below(s, m.sp) ==> s in m'.ptrs)
  }

  lemma BelowKept(m: Machine, m': Machine, i: nat)
    requires Inv(m) && KeepsBelow(m, m') && i < m.sp
    ensures FrameOk(m', i) && Suspended(m'.frames[i].state)
  {
    hide Owned, Iterating;
    assert FrameOk(m, i);
    assert Below(Query(i), m.sp) && Below(Answer(i), m.sp) && Below(HintsOf(i), m.sp);
  }

  /** The current frame moved on; nothing below it changed. */
  lemma InvAfter(m: Machine, m': Machine)
    requires Inv(m) && KeepsBelow(m, m') && HeapOk(m') && SocketOk(m') && FrameOk(m', m.sp)
    requires Suspended(Top(m').state) ==> m.sp + 1 < DEPTH && Query(m.sp + 1) in m'.ptrs && Answer(m.sp + 1) in m'.ptrs
    ensures Inv(m')
  {
    hide Owned, SocketOk, FrameOk, KeepsBelow, Suspended;
    KeepsShape(m, m');
    forall i: nat | i <= m'.sp
      ensures FrameOk(m', i)
    {
      if i < m.sp {
        BelowKept(m, m', i);
      }
    }
    forall i: nat | i < m'.sp
      ensures Suspended(m'.frames[i].state)
    {
      BelowKept(m, m', i);
    }
  }

  lemma KeepsShape(m: Machine, m': Machine)
    requires KeepsBelow(m, m')
    ensures m'.sp == m.sp && |m'.frames| == |m.frames|
  {
  }

  /** What the proof of a transition starts from. */
  lemma Unpack(m: Machine)
    requires Inv(m)
    ensures Shaped(m) && HeapOk(m) && SocketOk(m) && FrameOk(m, m.sp)
    ensures Suspended(Top(m).state) ==> m.sp + 1 < DEPTH && Query(m.sp + 1) in m.ptrs && Answer(m.sp + 1) in m.ptrs
  {
    assert FrameOk(m, m.sp);
  }

  // ---- Pieces that transitions are made of -----------------------------------------------

  /** What the current frame must have to go on in state `s`. */
  ghost predicate CanGo(m: Machine, s: RState)
    requires m.sp < |m.frames|
  {
    && (NeedsQuery(s) ==> Query(m.sp) in m.ptrs)
    && (NeedsAnswer(s) ==> Answer(m.sp) in m.ptrs)
    && (Serving(s) ==> HintsOf(m.sp) in m.ptrs)
    && (RootOnly(s) ==> m.sp == 0)
    && Iterating(Top(m).(state := s))
    && !Suspended(s) && !s.QueryA?
  }

  lemma GotoInv(m: Machine, s: RState)
    requires Inv(m) && CanGo(m, s)
    ensures Fine(Goto(m, s))
  {
    hide Inv, Owned, Iterating, Serving, NeedsQuery, NeedsAnswer;
    Unpack(m);
    InvAfter(m, Goto(m, s).value.m);
  }

  /** What a change of one slot of the current frame leaves alone. */
  ghost predicate SameButHeap(m: Machine, m': Machine) {
    m' == m.(ptrs := m'.ptrs, live := m'.live, serial := m'.serial)
  }

  lemma FreeAnswerInv(m: Machine)
    requires Inv(m) && !NeedsAnswer(Top(m).state)
    ensures Free(m, Answer(m.sp)).Go?
    ensures var r := Free(m, Answer(m.sp)).value; Inv(r) && SameButHeap(m, r) && r.ptrs == m.ptrs - {Answer(m.sp)}
  {
    hide Inv, Owned, Iterating, Free;
    Unpack(m);
    FreeOk(m, Answer(m.sp));
    InvAfter(m, Free(m, Answer(m.sp)).value);
  }

  lemma NewInv(m: Machine, s: Slot)
    requires Inv(m) && (s == Answer(m.sp) || s == HintsOf(m.sp) || (s == Query(m.sp) && !Top(m).state.QueryA?))
    ensures var r := New(m, s); Inv(r) && SameButHeap(m, r) && r.ptrs.Keys == m.ptrs.Keys + {s}
  {
    hide Inv, Owned, Iterating, NeedsQuery, NeedsAnswer, Serving;
    Unpack(m);
    NewOk(m, s);
    InvAfter(m, New(m, s));
  }

  lemma SearchInv(m: Machine, st: SearchState)
    requires Inv(m)
    ensures Inv(m.(search := st))
  {
    hide Inv, Owned, Iterating, NeedsQuery, NeedsAnswer, Serving;
    Unpack(m);
    InvAfter(m, m.(search := st));
  }

  lemma KeepOrDropInv(m: Machine, o: Oracle, next: RState)
    requires Inv(m) && Answer(m.sp) in m.ptrs && !NeedsAnswer(Top(m).state)
    requires next.Switch? || (next.FileLoop? && m.sp == 0)
    ensures Fine(KeepOrDrop(m, o, next))
  {
    hide Inv, Owned, Goto, Free;
    if o.records {
      GotoInv(m, Finish);
    } else {
      FreeAnswerInv(m);
      GotoInv(Free(m, Answer(m.sp)).value, next);
    }
  }

  // ---- The transitions, one by one ----------------------------------------------------------

  lemma InitOk(conf: Conf, m: Machine, o: Oracle)
    requires Inv(m) && Top(m).state.Init?
    ensures Fine(Goto(m, Glue))
  {
    hide Inv, Owned, Goto;
    GotoInv(m, Glue);
  }

  lemma GlueOk(conf: Conf, m: Machine, o: Oracle)
    requires Inv(m) && Top(m).state.Glue?
    ensures Fine(StepGlue(m, o))
  {
    hide Inv, Owned, AnswersBelow, Goto, New, Forget;
    Unpack(m);
    if m.sp == 0 {
      GotoInv(m, Switch);
    } else {
      UseOk(m, Query(m.sp));
      AnswersBelowOk(m, 0);
      if !o.packet {
        ForgetInv(m, Answer(m.sp));
        GotoInv(Forget(m, Answer(m.sp)), Switch);
      } else {
        NewInv(m, Answer(m.sp));
        var m1 := New(m, Answer(m.sp));
        GotoInv(m1, Finish);
        GotoInv(m1, Cname0A);
        GotoInv(m1, Switch);
      }
    }
  }

  lemma ForgetInv(m: Machine, s: Slot)
    requires Inv(m)
      && ((s == Answer(m.sp) && !NeedsAnswer(Top(m).state)) || (s == HintsOf(m.sp) && !Serving(Top(m).state)))
    ensures Inv(Forget(m, s)) && SameButHeap(m, Forget(m, s)) && Forget(m, s).ptrs == m.ptrs - {s}
  {
    hide Inv, Owned, Iterating;
    Unpack(m);
    ForgetOk(m, s);
    InvAfter(m, Forget(m, s));
  }

  lemma CountInv(m: Machine, which: nat)
    requires Inv(m) && Top(m).state.Switch?
    ensures Inv(Put(m, Top(m).(which := which)))
  {
    hide Inv, Owned;
    Unpack(m);
    InvAfter(m, Put(m, Top(m).(which := which)));
  }

  /** States that ask for nothing. */
  lemma EasyGoto(m: Machine, s: RState)
    requires Inv(m) && (s.Bind? || s.File? || s.Cache? || s.Servfail?)
    ensures Fine(Goto(m, s))
  {
    hide Inv, Owned, Goto;
    GotoInv(m, s);
  }

  lemma SwitchOk(conf: Conf, m: Machine, o: Oracle)
    requires Inv(m) && Top(m).state.Switch?
    ensures Fine(StepSwitch(conf, m))
  {
    hide Inv, Owned, Goto, NeedsQuery;
    Unpack(m);
    EasyGoto(m, Servfail);
    CountInv(m, Top(m).which + 1);
    var m1 := Put(m, Top(m).(which := Top(m).which + 1));
    EasyGoto(m1, Bind);
    EasyGoto(m1, File);
    EasyGoto(m1, Cache);
  }

  lemma FileOk(conf: Conf, m: Machine, o: Oracle)
    requires Inv(m) && Top(m).state.File?
    ensures Fine(StepFile(m, o))
  {
    hide Inv, Owned, Free, New, Goto, KeepOrDrop;
    Unpack(m);
    if m.sp == 0 {
      SearchInv(m, SearchState(0, 0));
      GotoInv(m.(search := SearchState(0, 0)), FileLoop);
    } else {
      FreeAnswerInv(m);
      var m1 := Free(m, Answer(m.sp)).value;
      Unpack(m1);
      UseOk(m1, Query(m.sp));
      NewInv(m1, Answer(m.sp));
      KeepOrDropInv(New(m1, Answer(m.sp)), o, Switch);
    }
  }

  lemma FileLoopOk(conf: Conf, m: Machine, o: Oracle)
    requires Inv(m) && Top(m).state.FileLoop?
    ensures Fine(StepFileLoop(conf, m, o))
  {
    hide Inv, Owned, Free, New, Goto, KeepOrDrop, SearchNext;
    Unpack(m);
    var m0 := m.(search := SearchNext(conf, m.search).1);
    SearchInv(m, m0.search);
    GotoInv(m0, Switch);
    FileInv(m0);
    FreeAnswerInv(m0);
    var m1 := Free(m0, Answer(m.sp)).value;
    FileInv(m1);
    NewInv(m1, Answer(m.sp));
    KeepOrDropInv(New(m1, Answer(m.sp)), o, FileLoop);
  }

  lemma FileInv(m: Machine)
    requires Inv(m)
    ensures Inv(Put(m, Top(m).(state := File)))
  {
    hide Inv, Owned;
    GotoInv(m, File);
  }

  lemma CacheOk(conf: Conf, m: Machine, o: Oracle)
    requires Inv(m) && Top(m).state.Cache?
    ensures Fine(StepCache(m, o))
  {
    hide Inv, Owned, Free, New, Goto, KeepOrDrop;
    Unpack(m);
    NewInv(m, Query(m.sp));
    var m1 := if Query(m.sp) in m.ptrs then m else New(m, Query(m.sp));
    FreeAnswerInv(m1);
    var m2 := Free(m1, Answer(m.sp)).value;
    Unpack(m2);
    UseOk(m2, Query(m.sp));
    NewInv(m2, Answer(m.sp));
    KeepOrDropInv(New(m2, Answer(m.sp)), o, Switch);
    GotoInv(m2, Submit);
  }

  lemma FetchOk(conf: Conf, m: Machine, o: Oracle)
    requires Inv(m) && Top(m).state.Fetch?
    ensures Fine(StepFetch(m, o))
  {
    hide Inv, Owned, Free, New, Goto, KeepOrDrop;
    Unpack(m);
    FreeAnswerInv(m);
    var m1 := Free(m, Answer(m.sp)).value;
    NewInv(m1, Answer(m.sp));
    KeepOrDropInv(New(m1, Answer(m.sp)), o, Switch);
    GotoInv(m1, Switch);
  }

  lemma BindOk(conf: Conf, m: Machine, o: Oracle)
    requires Inv(m) && Top(m).state.Bind?
    ensures Fine(StepBind(m))
  {
    hide Inv, Owned, Goto;
    Unpack(m);
    if m.sp > 0 {
      GotoInv(m, Hints);
    } else {
      SearchInv(m, SearchState(0, 0));
      GotoInv(m.(search := SearchState(0, 0)), Search);
    }
  }

  lemma FreeQueryHeap(m: Machine)
    requires Inv(m) && Top(m).state.Search?
    ensures Free(m, Query(m.sp)).Go?
    ensures var r := Free(m, Query(m.sp)).value; Inv(r) && SameButHeap(m, r)
  {
    hide Inv, Owned, Iterating, Free;
    Unpack(m);
    FreeOk(m, Query(m.sp));
    InvAfter(m, Free(m, Query(m.sp)).value);
  }

  lemma SearchOk(conf: Conf, m: Machine, o: Oracle)
    requires Inv(m) && Top(m).state.Search?
    ensures Fine(StepSearch(conf, m, o))
  {
    hide Inv, Owned, Free, New, Goto, SearchNext;
    Unpack(m);
    var m0 := m.(search := SearchNext(conf, m.search).1);
    SearchInv(m, m0.search);
    GotoInv(m0, Switch);
    FreeQueryHeap(m0);
    var m1 := Free(m0, Query(m.sp)).value;
    NewInv(m1, Query(m.sp));
    GotoInv(New(m1, Query(m.sp)), Hints);
  }

  lemma IterateInv(m: Machine, glue: seq<nat>)
    requires Inv(m) && Query(m.sp) in m.ptrs && HintsOf(m.sp) in m.ptrs
    ensures Inv(Put(m, Top(m).(glue := glue, state := Iterate)))
  {
    hide Inv, Owned;
    Unpack(m);
    InvAfter(m, Put(m, Top(m).(glue := glue, state := Iterate)));
  }

  lemma HintsOk(conf: Conf, m: Machine, o: Oracle)
    requires Inv(m) && Top(m).state.Hints?
    ensures Fine(StepHints(m, o))
  {
    hide Inv, Owned, Forget, New;
    Unpack(m);
    UseOk(m, Query(m.sp));
    ForgetInv(m, HintsOf(m.sp));
    NewInv(m, HintsOf(m.sp));
    IterateInv(New(m, HintsOf(m.sp)), o.glue);
  }

  lemma IterateOk(conf: Conf, m: Machine, o: Oracle)
    requires Inv(m) && Top(m).state.Iterate?
    ensures Fine(StepIterate(m))
  {
    hide Inv, Owned;
    Unpack(m);
    UseOk(m, HintsOf(m.sp));
    InvAfter(m, StepIterate(m).value.m);
  }

  lemma ForeachNsOk(conf: Conf, m: Machine, o: Oracle)
    requires Inv(m) && Top(m).state.ForeachNs?
    ensures Fine(StepForeachNs(conf, m, o))
  {
    hide Inv, Owned;
    Unpack(m);
    UseOk(m, HintsOf(m.sp));
    InvAfter(m, StepForeachNs(conf, m, o).value.m);
  }

  lemma Resolv1NsOk(conf: Conf, m: Machine, o: Oracle)
    requires Inv(m) && Top(m).state.Resolv1Ns?
    ensures Fine(StepResolv1Ns(m, o))
  {
    hide Inv, Owned;
    Unpack(m);
    UseOk(m, Query(m.sp + 1));
    UseOk(m, Answer(m.sp + 1));
    UseOk(m, HintsOf(m.sp));
    InvAfter(m, StepResolv1Ns(m, o).value.m);
  }

  lemma Cname1AOk(conf: Conf, m: Machine, o: Oracle)
    requires Inv(m) && Top(m).state.Cname1A?
    ensures Fine(StepCname1A(m, o))
  {
    hide Inv, Owned, Free;
    Unpack(m);
    UseOk(m, Answer(m.sp));
    UseOk(m, Answer(m.sp + 1));
    FreeOk(m, Answer(m.sp));
    NewOk(Free(m, Answer(m.sp)).value, Answer(m.sp));
    InvAfter(m, StepCname1A(m, o).value.m);
  }

  lemma FinishOk(conf: Conf, m: Machine, o: Oracle)
    requires Inv(m) && Top(m).state.Finish?
    ensures Fine(StepFinish(conf, m, o))
  {
    hide Inv, Owned;
    Unpack(m);
    UseOk(m, Answer(m.sp));
    InvAfter(m, StepFinish(conf, m, o).value.m);
  }

  lemma Smart1AOk(conf: Conf, m: Machine, o: Oracle)
    requires Inv(m) && Top(m).state.Smart1A?
    ensures Fine(StepSmart1A(m, o))
  {
    hide Inv, Owned, Free;
    Unpack(m);
    UseOk(m, Answer(m.sp));
    UseOk(m, Answer(m.sp + 1));
    FreeOk(m, Answer(m.sp));
    NewOk(Free(m, Answer(m.sp)).value, Answer(m.sp));
    InvAfter(m, StepSmart1A(m, o).value.m);
  }

  lemma ServfailOk(conf: Conf, m: Machine, o: Oracle)
    requires Inv(m) && Top(m).state.Servfail?
    ensures Fine(StepServfail(m, o))
  {
    hide Inv, Owned, Free, New, Goto;
    Unpack(m);
    FreeAnswerInv(m);
    var m1 := Free(m, Answer(m.sp)).value;
    NewInv(m1, Answer(m.sp));
    GotoInv(New(m1, Answer(m.sp)), Done);
  }

  lemma IdleInv(m1: Machine)
    requires Inv(m1) && Top(m1).state.ForeachA?
    ensures Free(m1, SoAnswer).Go?
    ensures var r := Free(m1, SoAnswer).value.(so := Idle);
      Inv(r) && SameButHeap(m1.(so := Idle), r) && r.ptrs == m1.ptrs - {SoAnswer}
  {
    hide Inv, Owned, Iterating, Free;
    Unpack(m1);
    FreeOk(m1, SoAnswer);
    InvAfter(m1, Free(m1, SoAnswer).value.(so := Idle));
  }

  lemma SubmitInv(m3: Machine, long: bool)
    requires Inv(m3) && Top(m3).state.ForeachA? && Query(m3.sp) in m3.ptrs
    ensures Fine(Goto(New(m3, SoAnswer).(so := Busy(m3.ptrs[Query(m3.sp)], long)), QueryA))
  {
    hide Inv, Owned;
    Unpack(m3);
    NewOk(m3, SoAnswer);
    InvAfter(m3, Goto(New(m3, SoAnswer).(so := Busy(m3.ptrs[Query(m3.sp)], long)), QueryA).value.m);
  }

  lemma SoSubmitOk(m1: Machine, o: Oracle)
    requires Inv(m1) && Top(m1).state.ForeachA?
    ensures Fine(SoSubmit(m1, o))
  {
    hide Inv, Owned, Free, New, Goto;
    Unpack(m1);
    IdleInv(m1);
    var m3 := Free(m1, SoAnswer).value.(so := Idle);
    Unpack(m3);
    UseOk(m3, Query(m3.sp));
    SubmitInv(m3, o.expand == TooLong);
  }

  lemma SeenInv(m: Machine)
    requires Inv(m) && Top(m).state.ForeachA? && Top(m).aLeft > 0
    ensures Inv(Put(m, Top(m).(aLeft := Top(m).aLeft - 1, aSeen := Top(m).aSeen + 1)))
  {
    hide Inv, Owned;
    Unpack(m);
    InvAfter(m, Put(m, Top(m).(aLeft := Top(m).aLeft - 1, aSeen := Top(m).aSeen + 1)));
  }

  lemma ForeachAOk(conf: Conf, m: Machine, o: Oracle)
    requires Inv(m) && Top(m).state.ForeachA?
    ensures Fine(StepForeachA(m, o))
  {
    hide Inv, Owned, Goto, SoSubmit;
    Unpack(m);
    UseOk(m, HintsOf(m.sp));
    GotoInv(m, if Top(m).aSeen == 0 then Resolv0Ns else ForeachNs);
    if Top(m).aLeft > 0 {
      SeenInv(m);
      SoSubmitOk(Put(m, Top(m).(aLeft := Top(m).aLeft - 1, aSeen := Top(m).aSeen + 1)), o);
    }
  }

  lemma SubmitOk(conf: Conf, m: Machine, o: Oracle, next: RState)
    requires Inv(m) && (if Top(m).state.Submit? then next == Check else Top(m).state.Check? && next == Fetch)
    ensures Use(m, Query(m.sp)).Go? && Fine(CacheWait(m, o, next))
  {
    hide Inv, Owned;
    Unpack(m);
    UseOk(m, Query(m.sp));
    InvAfter(m, CacheWait(m, o, next).value.m);
  }

  lemma SoCheckOk(m: Machine, o: Oracle)
    requires Inv(m) && Top(m).state.QueryA?
    ensures SoCheck(m, o).Go? && Inv(SoCheck(m, o).value)
    ensures var m1 := SoCheck(m, o).value; m1.so == m.so && m1.so.Busy? && m1.sp == m.sp && Top(m1).state.QueryA?
  {
    hide Inv, Owned, Free;
    Unpack(m);
    UseOk(m, SoAnswer);
    UseOk(m, Query(m.sp));
    FreeOk(m, SoAnswer);
    NewOk(Free(m, SoAnswer).value, SoAnswer);
    InvAfter(m, SoCheck(m, o).value);
  }

  /** The machine once the answer was taken from the socket. */
  function Taken(m1: Machine): Machine {
    var m2 := Free(m1, Answer(m1.sp));
    if m2.Crash? then m1 else Move(m2.value, SoAnswer, Answer(m1.sp)).(so := Fetched)
  }

  /** The answer now belongs to the frame, which cannot stay in QUERY_A. */
  lemma TakenOk(m1: Machine)
    requires Inv(m1) && Top(m1).state.QueryA? && m1.so.Busy?
    ensures Free(m1, Answer(m1.sp)).Go?
    ensures var m3 := Taken(m1);
      && HeapOk(m3) && m3.ptrs.Keys == (m1.ptrs.Keys - {SoAnswer}) + {Answer(m1.sp)}
      && m3 == m1.(ptrs := m3.ptrs, live := m3.live, so := Fetched)
  {
    hide Inv, Owned, Free, Move;
    Unpack(m1);
    FreeOk(m1, Answer(m1.sp));
    var m2 := Free(m1, Answer(m1.sp)).value;
    MoveOk(m2, SoAnswer, Answer(m1.sp));
    MoveFrame(m2, SoAnswer, Answer(m1.sp));
  }

  lemma MoveFrame(m: Machine, from: Slot, to: Slot)
    ensures Move(m, from, to) == m.(ptrs := Move(m, from, to).ptrs)
  {
  }

  lemma TakenGoto(m1: Machine, s: RState)
    requires Inv(m1) && Top(m1).state.QueryA? && m1.so.Busy?
    requires s.Finish? || s.Cname0A? || s.Switch? || s.ForeachA?
    ensures Fine(Goto(Taken(m1), s))
  {
    hide Inv, Owned, Free, Move, Taken;
    Unpack(m1);
    TakenOk(m1);
    InvAfter(m1, Goto(Taken(m1), s).value.m);
  }

  lemma ReferOk(m1: Machine, o: Oracle)
    requires Inv(m1) && Top(m1).state.QueryA? && m1.so.Busy?
    ensures Fine(Refer(Taken(m1), o))
  {
    hide Inv, Owned, Free, Move, Taken;
    Unpack(m1);
    TakenOk(m1);
    var m3 := Taken(m1);
    FreeOk(m3, HintsOf(m3.sp));
    var m4 := Free(m3, HintsOf(m3.sp)).value;
    MoveOk(m4, Answer(m3.sp), HintsOf(m3.sp));
    MoveFrame(m4, Answer(m3.sp), HintsOf(m3.sp));
    InvAfter(m1, Refer(m3, o).value.m);
  }

  lemma TakeAnswerOk(conf: Conf, m1: Machine, o: Oracle)
    requires Inv(m1) && Top(m1).state.QueryA? && m1.so.Busy? && !m1.so.long
    ensures Fine(TakeAnswer(conf, m1, o))
  {
    hide Inv, Owned, Free, Move, Goto, Refer;
    TakenOk(m1);
    Unpack(m1);
    var m3 := Taken(m1);
    UseOk(m3, Query(m3.sp));
    UseOk(m3, Answer(m3.sp));
    match o.found
    case Direct => TakenGoto(m1, Finish);
    case Alias => TakenGoto(m1, Cname0A);
    case Neither =>
      if !conf.recurse {
        TakenGoto(m1, Switch);
      } else if o.referral {
        ReferOk(m1, o);
      } else {
        TakenGoto(m1, if o.authoritative then Finish else ForeachA);
      }
  }

  /** An answer is taken for a verified name only, so that the name fits when it is expanded again. */
  lemma QueryAOk(conf: Conf, m: Machine, o: Oracle)
    requires Inv(m) && Top(m).state.QueryA?
    ensures Fine(StepQueryA(conf, m, o))
  {
    hide Inv, Owned, Free, Move, Goto, TakeAnswer;
    Unpack(m);
    if o.timeout {
      GotoInv(m, ForeachA);
    } else {
      SoCheckOk(m, o);
      var m1 := SoCheck(m, o).value;
      if Verified(m1.so, o).Ready? {
        TakeAnswerOk(conf, m1, o);
      }
    }
  }

  /** A name that was let through too long is never answered: its frame waits, fails or moves on to the next address. */
  lemma LongUnanswered(conf: Conf, m: Machine, o: Oracle)
    requires Inv(m) && Top(m).state.QueryA? && m.so.Busy? && m.so.long
    ensures var r := StepQueryA(conf, m, o); r.Go? && r.value.m.so == m.so
    ensures var r := StepQueryA(conf, m, o).value; if o.timeout then r.Next? && Top(r.m).state.ForeachA? else r.Return?
  {
    hide Inv, Owned, Free, TakeAnswer;
    Unpack(m);
    SoCheckOk(m, o);
  }

  /** A frame is suspended and a new one starts above it. */
  lemma CallOk(m: Machine, m': Machine, s: RState)
    requires Inv(m) && KeepsBelow(m, m') && HeapOk(m') && m'.sp + 1 < DEPTH && Suspended(s)
    requires Query(m.sp + 1) in m'.ptrs && m'.frames[m.sp + 1] == ZERO
    requires FrameOk(Put(m', Top(m').(state := s)), m.sp)
    requires m'.so.Busy? ==> SoAnswer in m'.ptrs
    requires m'.so.Fetched? ==> SoAnswer !in m'.ptrs
    ensures Fine(Call(m', s))
  {
    hide Owned, Iterating;
    var r := Call(m', s).value.m;
    assert r.frames[m.sp + 1].state == Init;
    forall i: nat | i <= r.sp
      ensures FrameOk(r, i)
    {
      if i < m.sp {
        BelowKept(m, m', i);
        assert r.frames[i] == m'.frames[i];
      } else if i == m.sp {
        assert r.frames[i] == Put(m', Top(m').(state := s)).frames[i];
      } else {
        ZeroIterates();
      }
    }
    forall i: nat | i < r.sp
      ensures Suspended(r.frames[i].state)
    {
      if i < m.sp {
        BelowKept(m, m', i);
        assert r.frames[i] == m'.frames[i];
      }
    }
  }

  lemma ZeroIterates()
    ensures Iterating(ZERO)
  {
  }

  /** The frame above is cleared and given a query of its own. */
  function Prepared(m: Machine): Machine
    requires m.sp < |m.frames|
  {
    var m1 := ResetAbove(m);
    if m1.Crash? then m else New(m1.value, Query(m.sp + 1))
  }

  lemma ClearedInv(m: Machine)
    requires Inv(m) && m.sp + 1 < DEPTH && !Suspended(Top(m).state)
    ensures ResetAbove(m).Go? && Inv(ResetAbove(m).value)
    ensures KeepsBelow(m, ResetAbove(m).value)
    ensures var r := ResetAbove(m).value;
      && r.ptrs == m.ptrs - {Query(m.sp + 1), Answer(m.sp + 1), HintsOf(m.sp + 1)}
      && r == m.(ptrs := r.ptrs, live := r.live, frames := m.frames[m.sp + 1 := ZERO])
  {
    hide Inv, Owned, Iterating, ResetAbove;
    Unpack(m);
    ResetAboveOk(m);
    InvAfter(m, ResetAbove(m).value);
  }

  lemma PreparedInv(m: Machine)
    requires Inv(m) && m.sp + 1 < DEPTH && !Suspended(Top(m).state)
    ensures var r := Prepared(m);
      && Inv(r) && KeepsBelow(m, r) && r.frames == m.frames[m.sp + 1 := ZERO]
      && r.ptrs.Keys == m.ptrs.Keys - {Answer(m.sp + 1), HintsOf(m.sp + 1)} + {Query(m.sp + 1)}
  {
    hide Inv, Owned, Iterating, ResetAbove;
    ClearedInv(m);
    var m1 := ResetAbove(m).value;
    Unpack(m1);
    NewOk(m1, Query(m.sp + 1));
    InvAfter(m1, New(m1, Query(m.sp + 1)));
  }

  lemma CalledInv(m: Machine, s: RState, count: nat)
    requires Inv(m) && m.sp + 1 < DEPTH && Suspended(s) && !Suspended(Top(m).state)
    requires (s.Resolv1Ns? && Top(m).state.Resolv0Ns?) || (s.Cname1A? && Top(m).state.Cname0A?)
      || (s.Smart1A? && Top(m).state.Smart0A?)
    ensures Fine(Call(Prepared(m).(smartCount := count), s))
  {
    hide Inv, Owned, Call, Prepared;
    PreparedInv(m);
    Unpack(m);
    var r := Prepared(m);
    Unpack(r);
    CallOk(m, r.(smartCount := count), s);
  }

  lemma Resolv0NsOk(conf: Conf, m: Machine, o: Oracle)
    requires Inv(m) && Top(m).state.Resolv0Ns?
    ensures Fine(StepResolv0Ns(m, o))
  {
    hide Inv, Owned, Call, ResetAbove, Goto, New;
    Unpack(m);
    if m.sp + 1 >= |m.frames| {
      GotoInv(m, ForeachNs);
    } else {
      ClearedInv(m);
      PreparedInv(m);
      var m2 := Prepared(m);
      Unpack(m2);
      UseOk(m2, HintsOf(m.sp));
      CalledInv(m, Resolv1Ns, m2.smartCount);
    }
  }

  lemma Cname0AOk(conf: Conf, m: Machine, o: Oracle)
    requires Inv(m) && Top(m).state.Cname0A?
    ensures Fine(StepCname0A(m, o))
  {
    hide Inv, Owned, Call, ResetAbove, Goto, New;
    Unpack(m);
    UseOk(m, Answer(m.sp));
    if m.sp + 1 >= |m.frames| {
      GotoInv(m, Finish);
    } else {
      ClearedInv(m);
      PreparedInv(m);
      var m2 := Prepared(m);
      Unpack(m2);
      UseOk(m2, Query(m.sp));
      CalledInv(m, Cname1A, m2.smartCount);
    }
  }

  lemma SmartInv(m: Machine, count: nat, left: nat)
    requires Inv(m)
    ensures Inv(m.(smartCount := count, smartLeft := left))
  {
    hide Inv, Owned, Iterating, NeedsQuery, NeedsAnswer, Serving;
    Unpack(m);
    InvAfter(m, m.(smartCount := count, smartLeft := left));
  }

  lemma Smart0AOk(conf: Conf, m: Machine, o: Oracle)
    requires Inv(m) && Top(m).state.Smart0A?
    ensures Fine(StepSmart0A(conf, m, o))
  {
    hide Inv, Owned, Call, ResetAbove, Goto, New, SmartNext;
    Unpack(m);
    UseOk(m, Answer(m.sp));
    GotoInv(m, Done);
    var (more, m0) := SmartNext(conf, m, o);
    SmartInv(m, m0.smartCount, m0.smartLeft);
    GotoInv(m0, Done);
    if m.sp + 1 < |m.frames| {
      ClearedInv(m0);
      PreparedInv(m0);
      CalledInv(m0, Smart1A, if more then m0.smartCount else m0.smartCount + 1);
    }
  }

  lemma DoneOk(conf: Conf, m: Machine, o: Oracle)
    requires Inv(m) && Top(m).state.Done?
    ensures Fine(StepDone(m))
  {
    hide Owned, Iterating;
    Unpack(m);
    if m.sp > 0 {
      var r := m.(sp := m.sp - 1);
      assert FrameOk(m, r.sp) && Suspended(m.frames[r.sp].state);
      forall i: nat | i <= r.sp
        ensures FrameOk(r, i)
      {
        assert FrameOk(m, i);
      }
    }
  }

  // ---- Every transition, every run ------------------------------------------------------------

  /** No transition of a machine that satisfies the invariant crashes, and each keeps the invariant. */
  lemma StepSafe(conf: Conf, m: Machine, o: Oracle)
    requires Inv(m)
    ensures Fine(Step(conf, m, o))
  {
    hide Inv, Owned, Fine, FrameOk, SocketOk, Goto, CacheWait, StepGlue, StepSwitch, StepFile, StepFileLoop,
      StepCache, StepFetch, StepBind, StepSearch, StepHints, StepIterate, StepForeachNs, StepResolv0Ns, StepResolv1Ns,
      StepForeachA, StepQueryA, StepCname0A, StepCname1A, StepFinish, StepSmart0A, StepSmart1A, StepDone,
      StepServfail;
    Unpack(m);
    match Top(m).state
    case Init => InitOk(conf, m, o);
    case Glue => GlueOk(conf, m, o);
    case Switch => SwitchOk(conf, m, o);
    case File => FileOk(conf, m, o);
    case FileLoop => FileLoopOk(conf, m, o);
    case Cache => CacheOk(conf, m, o);
    case Submit => SubmitOk(conf, m, o, Check);
    case Check => SubmitOk(conf, m, o, RState.Fetch);
    case Fetch => FetchOk(conf, m, o);
    case Bind => BindOk(conf, m, o);
    case Search => SearchOk(conf, m, o);
    case Hints => HintsOk(conf, m, o);
    case Iterate => IterateOk(conf, m, o);
    case ForeachNs => ForeachNsOk(conf, m, o);
    case Resolv0Ns => Resolv0NsOk(conf, m, o);
    case Resolv1Ns => Resolv1NsOk(conf, m, o);
    case ForeachA => ForeachAOk(conf, m, o);
    case QueryA => QueryAOk(conf, m, o);
    case Cname0A => Cname0AOk(conf, m, o);
    case Cname1A => Cname1AOk(conf, m, o);
    case Finish => FinishOk(conf, m, o);
    case Smart0A => Smart0AOk(conf, m, o);
    case Smart1A => Smart1AOk(conf, m, o);
    case Done => DoneOk(conf, m, o);
    case Servfail => ServfailOk(conf, m, o);
  }

  lemma SoCheckKeeps(m: Machine, o: Oracle)
    requires SoCheck(m, o).Go?
    ensures SoCheck(m, o).value.so == m.so && SoCheck(m, o).value.frames == m.frames && SoCheck(m, o).value.sp == m.sp
  {
  }
}
