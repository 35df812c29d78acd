/** The resolver over whole runs: what holds at every moment, and when a run ends. */
module ResolverRuns {
  import opened Descent
  import opened Resolver
  import opened ResolverSafety
  import opened ResolverTermination

  // ---- Any number of dns_res_check calls, whatever they return ------------------------------

  /** The machine after `k` transitions, if none of them crashed. */
  function Checked(conf: Conf, os: nat -> Oracle, k: nat): M<Machine> {
    if k == 0 then Go(SUBMITTED)
    else
      var m :- Checked(conf, os, k - 1);
      var r :- Step(conf, m, os(k - 1));
      Go(r.m)
  }

  lemma SubmittedOk()
    ensures Inv(SUBMITTED) && AllCounted(SUBMITTED)
  {
    assert FrameOk(SUBMITTED, 0);
  }

  /**
   * At every moment of every run, through any number of dns_res_check calls and whatever they return: nothing
   * crashed, the stack pointer is in 0..7, suspended frames are in RESOLV1_NS, CNAME1_A or SMART1_A, and every
   * packet has one owner.
   */
  lemma {:induction false} CheckedSafe(conf: Conf, os: nat -> Oracle, k: nat)
    ensures Checked(conf, os, k).Go? && Inv(Checked(conf, os, k).value)
  {
    hide Inv, Step;
    if k == 0 {
      SubmittedOk();
    } else {
      CheckedSafe(conf, os, k - 1);
      StepSafe(conf, Checked(conf, os, k - 1).value, os(k - 1));
    }
  }

  /** The step does not return success. */
  predicate GoesOn(r: M<Outcome>) {
    r.Go? && r.value.Return? ==> !r.value.error.None?
  }

  lemma LookupGoesOn(conf: Conf, m: Machine, o: Oracle)
    requires m.sp < |m.frames|
    requires var s := Top(m).state;
      s.Init? || s.Glue? || s.Switch? || s.File? || s.FileLoop? || s.Cache? || s.Submit? || s.Check? || s.Fetch?
        || s.Bind?
    ensures GoesOn(Step(conf, m, o))
  {
    hide Free, Use, Move, ResetAbove, SoCheck, AnswersBelow, SearchNext, SmartNext, StepSearch, StepHints,
      StepIterate, StepForeachNs, StepResolv0Ns, StepResolv1Ns, StepForeachA, StepQueryA, StepCname0A, StepCname1A,
      StepFinish, StepSmart0A, StepSmart1A, StepServfail;
  }

  lemma ServingGoesOn(conf: Conf, m: Machine, o: Oracle)
    requires m.sp < |m.frames|
    requires var s := Top(m).state;
      s.Search? || s.Hints? || s.Iterate? || s.ForeachNs? || s.Resolv0Ns? || s.Resolv1Ns? || s.ForeachA?
    ensures GoesOn(Step(conf, m, o))
  {
    hide Free, Use, Move, ResetAbove, SoCheck, AnswersBelow, SearchNext, SmartNext,
      StepGlue, StepSwitch, StepFile, StepFileLoop, StepCache, CacheWait, StepFetch, StepBind, StepQueryA,
      StepCname0A, StepCname1A, StepFinish, StepSmart0A, StepSmart1A, StepServfail;
  }

  lemma QueryGoesOn(conf: Conf, m: Machine, o: Oracle)
    requires m.sp < |m.frames| && (var s := Top(m).state; s.QueryA? || s.Cname0A? || s.Cname1A?)
    ensures GoesOn(Step(conf, m, o))
  {
    hide Free, Use, Move, ResetAbove, SoCheck, AnswersBelow, SearchNext, SmartNext, StepGlue, StepSwitch, StepFile,
      StepFileLoop, StepCache, CacheWait, StepFetch, StepBind, StepSearch, StepHints, StepIterate, StepForeachNs,
      StepResolv0Ns, StepResolv1Ns, StepForeachA, StepFinish, StepSmart0A, StepSmart1A, StepServfail;
  }

  lemma FinishGoesOn(conf: Conf, m: Machine, o: Oracle)
    requires m.sp < |m.frames| && (var s := Top(m).state; s.Finish? || s.Smart0A? || s.Smart1A? || s.Servfail?)
    ensures GoesOn(Step(conf, m, o))
  {
    hide Free, Use, Move, ResetAbove, SoCheck, AnswersBelow, SearchNext, SmartNext, StepGlue, StepSwitch, StepFile,
      StepFileLoop, StepCache, CacheWait, StepFetch, StepBind, StepSearch, StepHints, StepIterate, StepForeachNs,
      StepResolv0Ns, StepResolv1Ns, StepForeachA, StepQueryA, StepCname0A, StepCname1A;
  }

  /** Only DONE at the bottom of the stack returns success. */
  lemma SucceedsFromDone(conf: Conf, m: Machine, o: Oracle)
    requires m.sp < |m.frames| && !GoesOn(Step(conf, m, o))
    ensures Top(m).state.Done? && m.sp == 0
  {
    var s := Top(m).state;
    if s.Done? {
    } else if s.Search? || s.Hints? || s.Iterate? || s.ForeachNs? || s.Resolv0Ns? || s.Resolv1Ns? || s.ForeachA? {
      hide Step;
      ServingGoesOn(conf, m, o);
    } else if s.QueryA? || s.Cname0A? || s.Cname1A? {
      hide Step;
      QueryGoesOn(conf, m, o);
    } else if s.Finish? || s.Smart0A? || s.Smart1A? || s.Servfail? {
      hide Step;
      FinishGoesOn(conf, m, o);
    } else {
      hide Step;
      LookupGoesOn(conf, m, o);
    }
  }

  /** A check that succeeds leaves the answer at the bottom of the stack, where dns_res_fetch takes it. */
  lemma SuccessHasAnswer(conf: Conf, os: nat -> Oracle, k: nat)
    requires Checked(conf, os, k).Go? && !GoesOn(Step(conf, Checked(conf, os, k).value, os(k)))
    ensures var m := Checked(conf, os, k).value;
      m.sp == 0 && Top(m).state.Done? && Answer(0) in m.ptrs && m.ptrs[Answer(0)] in m.live
  {
    hide Step;
    CheckedSafe(conf, os, k);
    var m := Checked(conf, os, k).value;
    Unpack(m);
    SucceedsFromDone(conf, m, os(k));
  }

  // ---- Up to the first result that is not EAGAIN ------------------------------------------------

  datatype Phase = Running(m: Machine) | Ended(error: Error) | Crashed

  function After(conf: Conf, os: nat -> Oracle, k: nat): Phase {
    if k == 0 then Running(SUBMITTED)
    else match After(conf, os, k - 1)
      case Running(m) => Onward(Step(conf, m, os(k - 1)))
      case p => p
  }

  function Onward(r: M<Outcome>): Phase {
    if r.Crash? then Crashed
    else if r.value.Next? || r.value.error.Again? then Running(r.value.m)
    else Ended(r.value.error)
  }

  /** What holds while such a run goes on. */
  ghost predicate Going(m: Machine) {
    Inv(m) && AllCounted(m)
  }

  lemma WaitsCounted(m: Machine, m': Machine)
    requires AllCounted(m) && Waits(m, m')
    ensures AllCounted(m')
  {
  }

  /** The current frame alone changed, and counts right. */
  ghost predicate TopCounted(m: Machine, m': Machine) {
    && m'.sp == m.sp < |m.frames| && Counted(TopFrame(m')) && m'.frames == m.frames[m.sp := TopFrame(m')]
  }

  /** The current frame of a machine that may lack one. */
  function TopFrame(m: Machine): Frame {
    if m.sp < |m.frames| then Top(m) else ZERO
  }

  lemma TopCountedAll(m: Machine, m': Machine)
    requires AllCounted(m) && TopCounted(m, m')
    ensures AllCounted(m')
  {
    hide Counted;
  }

  lemma ReferCounted(m3: Machine, o: Oracle)
    requires m3.sp < |m3.frames| && Refer(m3, o).Go?
    ensures Refer(m3, o).value.Next? && TopCounted(m3, Refer(m3, o).value.m)
  {
    hide Free;
  }

  lemma TakeCounted(conf: Conf, m1: Machine, o: Oracle)
    requires m1.sp < |m1.frames| && Top(m1).state.QueryA? && Counted(Top(m1)) && TakeAnswer(conf, m1, o).Go?
      && TakeAnswer(conf, m1, o).value.Next?
    ensures TopCounted(m1, TakeAnswer(conf, m1, o).value.m)
  {
    hide Free, Use, Refer;
    var m3 := Move(Free(m1, Answer(m1.sp)).value, SoAnswer, Answer(m1.sp)).(so := Fetched);
    if Refer(m3, o).Go? {
      ReferCounted(m3, o);
    }
  }

  lemma QueryACounted(conf: Conf, m: Machine, o: Oracle)
    requires Inv(m) && AllCounted(m) && Top(m).state.QueryA? && StepQueryA(conf, m, o).Go?
      && StepQueryA(conf, m, o).value.Next?
    ensures AllCounted(StepQueryA(conf, m, o).value.m)
  {
    hide Inv, AllCounted, SoCheck, TakeAnswer;
    Basics(m);
    if o.timeout {
      TopCountedAll(m, StepQueryA(conf, m, o).value.m);
    } else {
      var m1 := SoCheck(m, o).value;
      TakeCounted(conf, m1, o);
      TopCountedAll(m, StepQueryA(conf, m, o).value.m);
    }
  }

  /** A wait changes nothing but memory. */
  lemma AgainWaits(conf: Conf, m: Machine, o: Oracle)
    requires Inv(m) && AllCounted(m) && Step(conf, m, o).Go? && Step(conf, m, o).value.Return?
      && !Step(conf, m, o).value.error.Hard?
    ensures Waits(m, Step(conf, m, o).value.m)
  {
    hide Inv, AllCounted, Drops, Step;
    Basics(m);
    if Top(m).state.QueryA? {
      StepQueryAIs(conf, m, o);
      QueryAWaits(conf, m, o);
    } else {
      StepDrops(conf, m, o);
    }
  }

  lemma QueryAWaits(conf: Conf, m: Machine, o: Oracle)
    requires m.sp < |m.frames| && StepQueryA(conf, m, o).Go? && StepQueryA(conf, m, o).value.Return?
      && !StepQueryA(conf, m, o).value.error.Hard?
    ensures Waits(m, StepQueryA(conf, m, o).value.m)
  {
    hide Use, Free, SoCheck;
  }

  lemma StepGoing(conf: Conf, m: Machine, o: Oracle)
    requires Going(m)
    ensures !Onward(Step(conf, m, o)).Crashed?
    ensures Onward(Step(conf, m, o)).Running? ==> Going(Onward(Step(conf, m, o)).m)
  {
    hide Inv, AllCounted, Step, Drops;
    Basics(m);
    StepSafe(conf, m, o);
    var r := Step(conf, m, o).value;
    if r.Return? && r.error.Again? {
      AgainWaits(conf, m, o);
      WaitsCounted(m, r.m);
    } else if r.Next? {
      if Top(m).state.QueryA? {
        StepQueryAIs(conf, m, o);
        QueryACounted(conf, m, o);
      } else {
        StepDrops(conf, m, o);
      }
    }
  }

  lemma StepQueryAIs(conf: Conf, m: Machine, o: Oracle)
    requires Inv(m) && Top(m).state.QueryA?
    ensures Step(conf, m, o) == StepQueryA(conf, m, o)
  {
    hide StepQueryA;
  }

  /** Until it has its first result, a run never crashes. */
  lemma {:induction false} AfterSafe(conf: Conf, os: nat -> Oracle, k: nat)
    ensures !After(conf, os, k).Crashed?
    ensures After(conf, os, k).Running? ==> Going(After(conf, os, k).m)
  {
    hide Going, Step;
    if k == 0 {
      SubmittedGoing();
    } else {
      AfterSafe(conf, os, k - 1);
      if After(conf, os, k - 1).Running? {
        StepGoing(conf, After(conf, os, k - 1).m, os(k - 1));
      }
    }
  }

  lemma SubmittedGoing()
    ensures Going(SUBMITTED)
  {
    SubmittedOk();
  }

  // ---- Termination ---------------------------------------------------------------------------

  ghost function PhaseRank(conf: Conf, p: Phase): (r: seq<nat>)
    ensures |r| == 10 * DEPTH + 1
  {
    if p.Running? then [1] + StackRank(conf, p.m, 0) else seq(10 * DEPTH + 1, _ => 0)
  }

  ghost function RankOf(conf: Conf, os: nat -> Oracle): nat -> seq<nat> {
    (k: nat) => PhaseRank(conf, After(conf, os, k))
  }

  /** From `n` on the run has ended, or does nothing but wait. */
  ghost predicate Over(conf: Conf, os: nat -> Oracle, n: nat) {
    || After(conf, os, n).Ended?
    || (forall k: nat {:trigger WaitsAt(conf, os, k)} :: k >= n ==> WaitsAt(conf, os, k))
  }

  ghost predicate WaitsAt(conf: Conf, os: nat -> Oracle, k: nat) {
    var p := After(conf, os, k);
    && p.Running?
    && var r := Step(conf, p.m, os(k)); r.Go? && r.value.Return? && r.value.error.Again?
  }

  lemma WaitsRank(conf: Conf, m: Machine, m': Machine, i: nat)
    requires Waits(m, m')
    ensures Rank(conf, m', i) == Rank(conf, m, i)
  {
    hide FrameRank;
    if i < |m.frames| {
      SameRank(conf, m.frames[i], m, m');
    }
  }

  lemma {:induction false} WaitsSameRank(conf: Conf, m: Machine, m': Machine, i: nat)
    requires Waits(m, m') && i <= DEPTH
    ensures StackRank(conf, m', i) == StackRank(conf, m, i)
    decreases DEPTH - i
  {
    hide Rank;
    if i < DEPTH {
      WaitsSameRank(conf, m, m', i + 1);
      WaitsRank(conf, m, m', i);
    }
  }

  // ---- Configurations in which nothing goes round -------------------------------------------

  predicate AsksServers(c: char) {
    c == 'b' || c == 'B'
  }

  predicate AsksCache(c: char) {
    c == 'c' || c == 'C'
  }

  /** From entry `n` on the lookup order names the servers. */
  predicate ServersFrom(conf: Conf, n: nat) {
    exists i :: n <= i < |conf.lookup| && AsksServers(conf.lookup[i])
  }

  predicate CacheFrom(conf: Conf, n: nat) {
    conf.cache && exists i :: n <= i < |conf.lookup| && AsksCache(conf.lookup[i])
  }

  /** The search list yields a name at all. */
  predicate Searches(conf: Conf) {
    SearchNext(conf, SearchState(0, 0)).0
  }

  /** A record from the cache can name a host, whose address is then looked up. */
  predicate Harvests(conf: Conf) {
    conf.smart && !conf.kind.Plain? && CacheFrom(conf, 0)
  }

  /**
   * Referrals are followed, servers are asked, and there is a question for them: one from the search list,
   * or the host named in a record of the cache.
   */
  predicate Circular(conf: Conf) {
    && conf.recurse && ServersFrom(conf, 0)
    && (Searches(conf) || Harvests(conf))
  }

  /** The states in which servers are asked. */
  predicate Asking(s: RState) {
    s.Bind? || s.Search? || s.Hints? || Serving(s)
  }

  /** Where the bottom frame stays when no name comes out of the search list. */
  predicate Nameless(conf: Conf, m: Machine)
    requires m.sp < |m.frames|
  {
    var s := Top(m).state;
    && m.sp == 0
    && (s.FileLoop? || s.Search? ==> m.search == SearchState(0, 0))
    && (s.Cache? || s.Submit? || s.Check? || s.Fetch? || s.Finish? || s.Smart0A? ==> CacheFrom(conf, 0))
    && (s.Smart0A? ==> conf.smart)
    && !s.Hints? && !Serving(s) && !s.Cname0A? && !s.Cname1A? && !s.Smart1A?
  }

  /** No frame asks a server, or there is no name to ask for. */
  ghost predicate Unasked(m: Machine) {
    forall i: nat {:trigger m.frames[i]} :: i <= m.sp && i < |m.frames| ==> !Asking(m.frames[i].state)
  }

  ghost predicate Calm(conf: Conf, m: Machine) {
    m.sp < |m.frames| && (conf.recurse ==> if ServersFrom(conf, 0) then Nameless(conf, m) else Unasked(m))
  }

  lemma CalmTop(conf: Conf, m: Machine)
    requires Calm(conf, m)
    ensures conf.recurse ==> !Top(m).state.QueryA?
  {
    assert Top(m) == m.frames[m.sp];
  }

  /** Frames that changed ask no server. */
  ghost predicate QuietTo(m: Machine, m': Machine) {
    && m'.sp < |m'.frames| == |m.frames|
    && forall i: nat {:trigger m'.frames[i]} :: i <= m'.sp && i < |m.frames| ==>
        (i <= m.sp && m'.frames[i] == m.frames[i]) || !Asking(m'.frames[i].state)
  }

  ghost predicate Quiet(m: Machine, r: M<Outcome>) {
    r.Go? && r.value.Next? ==> QuietTo(m, r.value.m)
  }

  lemma QuietUnasked(m: Machine, r: M<Outcome>)
    requires Unasked(m) && Quiet(m, r) && r.Go? && r.value.Next?
    ensures Unasked(r.value.m)
  {
    hide Asking;
  }

  lemma QuietSwitch(conf: Conf, m: Machine, o: Oracle)
    requires m.sp < |m.frames| && !ServersFrom(conf, 0)
    requires Top(m).state.Init? || Top(m).state.Glue? || Top(m).state.Switch?
    ensures Quiet(m, Step(conf, m, o))
  {
    hide Free, Use, AnswersBelow, SearchNext, StepFile, StepFileLoop, StepCache, CacheWait, StepFetch, StepBind,
      StepSearch, StepHints, StepIterate, StepForeachNs, StepResolv0Ns, StepResolv1Ns, StepForeachA, StepQueryA,
      StepCname0A, StepCname1A, StepFinish, StepSmart0A, StepSmart1A, StepServfail;
  }

  lemma QuietLookup(conf: Conf, m: Machine, o: Oracle)
    requires m.sp < |m.frames| && (Top(m).state.File? || Top(m).state.FileLoop?)
    ensures Quiet(m, Step(conf, m, o))
  {
    hide Free, Use, SearchNext, StepGlue, StepSwitch, StepCache, CacheWait, StepFetch, StepBind, StepSearch,
      StepHints, StepIterate, StepForeachNs, StepResolv0Ns, StepResolv1Ns, StepForeachA, StepQueryA,
      StepCname0A, StepCname1A, StepFinish, StepSmart0A, StepSmart1A, StepServfail;
  }

  lemma QuietCache(conf: Conf, m: Machine, o: Oracle)
    requires m.sp < |m.frames|
    requires var s := Top(m).state; s.Cache? || s.Submit? || s.Check? || s.Fetch?
    ensures Quiet(m, Step(conf, m, o))
  {
    hide Free, Use, SearchNext, StepGlue, StepSwitch, StepFile, StepFileLoop, StepBind, StepSearch,
      StepHints, StepIterate, StepForeachNs, StepResolv0Ns, StepResolv1Ns, StepForeachA, StepQueryA,
      StepCname0A, StepCname1A, StepFinish, StepSmart0A, StepSmart1A, StepServfail;
  }

  lemma QuietCall(conf: Conf, m: Machine, o: Oracle)
    requires m.sp < |m.frames| && (Top(m).state.Cname0A? || Top(m).state.Smart0A?)
    ensures Quiet(m, Step(conf, m, o))
  {
    hide Free, Use, ResetAbove, SmartNext, StepCname1A, StepFinish, StepSmart1A, StepDone, StepServfail,
      StepGlue, StepSwitch, StepFile, StepFileLoop, StepCache, CacheWait, StepFetch, StepBind, StepSearch,
      StepHints, StepIterate, StepForeachNs, StepResolv0Ns, StepResolv1Ns, StepForeachA, StepQueryA;
  }

  lemma QuietFinish(conf: Conf, m: Machine, o: Oracle)
    requires m.sp < |m.frames|
    requires var s := Top(m).state; s.Cname1A? || s.Finish? || s.Smart1A? || s.Done? || s.Servfail?
    ensures Quiet(m, Step(conf, m, o))
  {
    hide Free, Use, ResetAbove, SmartNext, StepCname0A, StepSmart0A,
      StepGlue, StepSwitch, StepFile, StepFileLoop, StepCache, CacheWait, StepFetch, StepBind, StepSearch,
      StepHints, StepIterate, StepForeachNs, StepResolv0Ns, StepResolv1Ns, StepForeachA, StepQueryA;
  }

  /** Goes on nameless. */
  ghost predicate StillNameless(conf: Conf, r: M<Outcome>) {
    r.Go? && r.value.Next? ==> r.value.m.sp < |r.value.m.frames| && Nameless(conf, r.value.m)
  }

  lemma NamelessLookup(conf: Conf, m: Machine, o: Oracle)
    requires m.sp < |m.frames| && Nameless(conf, m) && !Searches(conf)
    requires var s := Top(m).state;
      s.Init? || s.Glue? || s.Switch? || s.File? || s.FileLoop? || s.Bind? || s.Search?
    ensures StillNameless(conf, Step(conf, m, o))
  {
    hide Free, Use, AnswersBelow, KeepOrDrop, StepCache, CacheWait, StepFetch,
      StepHints, StepIterate, StepForeachNs, StepResolv0Ns, StepResolv1Ns, StepForeachA, StepQueryA,
      StepCname0A, StepCname1A, StepFinish, StepSmart0A, StepSmart1A, StepServfail;
    if Top(m).state.Switch? {
      hide SearchNext;
    }
  }

  lemma NamelessRest(conf: Conf, m: Machine, o: Oracle)
    requires m.sp < |m.frames| && Nameless(conf, m) && !Harvests(conf)
    requires var s := Top(m).state;
      s.Cache? || s.Submit? || s.Check? || s.Fetch? || s.Finish? || s.Smart0A? || s.Done? || s.Servfail?
    ensures StillNameless(conf, Step(conf, m, o))
  {
    hide Free, Use, CacheFrom, StepGlue, StepSwitch, StepFile, StepFileLoop, StepBind, StepSearch, StepHints,
      StepIterate, StepForeachNs, StepResolv0Ns, StepResolv1Ns, StepForeachA, StepQueryA, StepCname0A, StepCname1A,
      StepSmart1A;
  }

  lemma StepCalm(conf: Conf, m: Machine, o: Oracle)
    requires !Circular(conf) && Calm(conf, m) && Onward(Step(conf, m, o)).Running? && Going(m)
    ensures Calm(conf, Onward(Step(conf, m, o)).m)
  {
    hide Going, Step, Searches;
    var r := Step(conf, m, o);
    StepGoing(conf, m, o);
    GoingShaped(r.value.m);
    if r.value.Return? {
      GoingAgain(conf, m, o);
    } else if conf.recurse {
      if ServersFrom(conf, 0) {
        var s := Top(m).state;
        if s.Cache? || s.Submit? || s.Check? || s.Fetch? || s.Finish? || s.Smart0A? || s.Done? || s.Servfail? {
          NamelessRest(conf, m, o);
        } else {
          NamelessLookup(conf, m, o);
        }
      } else {
        var s := Top(m).state;
        assert !Asking(s) by {
          assert s == m.frames[m.sp].state;
        }
        if s.Cname0A? || s.Smart0A? {
          QuietCall(conf, m, o);
        } else if s.Cname1A? || s.Finish? || s.Smart1A? || s.Done? || s.Servfail? {
          QuietFinish(conf, m, o);
        } else if s.Init? || s.Glue? || s.Switch? {
          QuietSwitch(conf, m, o);
        } else if s.File? || s.FileLoop? {
          QuietLookup(conf, m, o);
        } else {
          QuietCache(conf, m, o);
        }
        QuietUnasked(m, r);
      }
    }
  }

  lemma GoingShaped(m: Machine)
    requires Going(m)
    ensures m.sp < |m.frames|
  {
    hide AllCounted;
    Basics(m);
  }

  lemma GoingAgain(conf: Conf, m: Machine, o: Oracle)
    requires Going(m) && Step(conf, m, o).Go? && Step(conf, m, o).value.Return? && Step(conf, m, o).value.error.Again?
    ensures Waits(m, Step(conf, m, o).value.m)
  {
    hide Inv, AllCounted, Step;
    AgainWaits(conf, m, o);
  }

  lemma {:induction false} AfterCalm(conf: Conf, os: nat -> Oracle, k: nat)
    requires !Circular(conf)
    ensures After(conf, os, k).Running? ==> Calm(conf, After(conf, os, k).m)
  {
    hide Going, Step, Circular;
    if k > 0 {
      AfterCalm(conf, os, k - 1);
      AfterSafe(conf, os, k - 1);
      if After(conf, os, k).Running? {
        StepCalm(conf, After(conf, os, k - 1).m, os(k - 1));
      }
    }
  }

  /** A run's measure never rises, and only a wait keeps it. */
  lemma RankFalls(conf: Conf, os: nat -> Oracle, k: nat)
    requires !Circular(conf)
    ensures NoRise(RankOf(conf, os), k)
    ensures After(conf, os, k).Running? && !WaitsAt(conf, os, k) ==> Lex(RankOf(conf, os)(k + 1), RankOf(conf, os)(k))
  {
    hide Going, Calm, Step, StackRank, Inv, AllCounted, Drops;
    AfterSafe(conf, os, k);
    AfterCalm(conf, os, k);
    var p := After(conf, os, k);
    var q := After(conf, os, k + 1);
    var v := RankOf(conf, os);
    assert v(k + 1) == PhaseRank(conf, q) && v(k) == PhaseRank(conf, p);
    if p.Running? {
      StepGoing(conf, p.m, os(k));
      RunFalls(conf, p.m, os(k));
    }
  }

  lemma RunFalls(conf: Conf, m: Machine, o: Oracle)
    requires Calm(conf, m) && Going(m)
    ensures var r, q := Step(conf, m, o), Onward(Step(conf, m, o));
      if r.Go? && r.value.Return? && r.value.error.Again? then PhaseRank(conf, q) == PhaseRank(conf, Running(m))
      else Lex(PhaseRank(conf, q), PhaseRank(conf, Running(m)))
  {
    hide Step, StackRank, Inv, AllCounted, Drops;
    StepGoing(conf, m, o);
    Basics(m);
    CalmTop(conf, m);
    hide Calm;
    var q := Onward(Step(conf, m, o));
    if q.Running? {
      if Step(conf, m, o).value.Return? {
        AgainWaits(conf, m, o);
        WaitsSameRank(conf, m, q.m, 0);
      } else {
        StepDrops(conf, m, o);
        StackFalls(conf, m, q.m, 0);
        LexRight([1], StackRank(conf, q.m, 0), StackRank(conf, m, 0));
      }
    } else {
      assert Falls(PhaseRank(conf, q), PhaseRank(conf, Running(m)), 0);
    }
  }

  /**
   * Unless the configuration lets referrals go round, whatever the network, the hosts file, the hints, the
   * cache and the allocator do, a run reaches its result after finitely many transitions, or from some point on
   * only waits.
   */
  lemma Terminates(conf: Conf, os: nat -> Oracle) returns (n: nat)
    requires !Circular(conf)
    ensures Over(conf, os, n)
  {
    hide Going, Step, PhaseRank;
    var v := RankOf(conf, os);
    forall k: nat
      ensures NoRise(v, k)
    {
      RankFalls(conf, os, k);
    }
    n := Settles(v, 10 * DEPTH + 1);
    AfterSafe(conf, os, n);
    if !After(conf, os, n).Ended? {
      forall k: nat | k >= n
        ensures WaitsAt(conf, os, k)
      {
        SettledWaits(conf, os, n, k);
      }
    }
  }

  lemma {:induction false} SettledWaits(conf: Conf, os: nat -> Oracle, n: nat, k: nat)
    requires !Circular(conf) && ConstantFrom(RankOf(conf, os), n) && After(conf, os, n).Running? && k >= n
    ensures WaitsAt(conf, os, k)
    decreases k
  {
    hide Going, Step, PhaseRank, Lex;
    var v := RankOf(conf, os);
    if k > n {
      SettledWaits(conf, os, n, k - 1);
    }
    assert After(conf, os, k).Running?;
    RankFalls(conf, os, k);
    assert v(k + 1) == v(n) && v(k) == v(n);
    LexIrreflexive(v(n));
  }

  // ---- In all other configurations a run can go on for ever -------------------------------------

  /** A server that answers every question with a referral to itself, and nothing useful anywhere else. */
  const REFERRAL := Oracle(
    true, true, true, true, Expansion.Fine, true, false, false, Neither, true, false, false, Ready, false, 1, true,
    0, [1], 0, 0, {}, 0)

  /** If the search list is empty the cache knows a record. */
  function Host(conf: Conf, m: Machine): Oracle {
    REFERRAL.(records := m.sp == 0 && !Searches(conf))
  }

  /** On the way to the servers, or being sent round by them. */
  ghost predicate Looping(conf: Conf, m: Machine)
    requires m.sp < |m.frames|
  {
    var f := Top(m);
    match f.state
    case Init => ServersFrom(conf, f.which)
    case Glue => ServersFrom(conf, f.which)
    case Switch => ServersFrom(conf, f.which)
    case File => ServersFrom(conf, f.which)
    case FileLoop => ServersFrom(conf, f.which)
    case Cache => ServersFrom(conf, f.which)
    case Search => m.search == SearchState(0, 0)
    case Iterate => f.glue == [1]
    case ForeachNs => f.glue == [1] && f.nsLeft == 1
    case ForeachA => f.glue == [1] && f.aLeft == 1
    case QueryA => m.so.Busy? && !m.so.long
    case _ => f.state.Bind? || f.state.Hints?
  }

  /** The bottom frame on its way to the cache, and to the record it finds there. */
  ghost predicate Seeking(conf: Conf, m: Machine)
    requires m.sp < |m.frames|
  {
    var f := Top(m);
    match f.state
    case Init => CacheFrom(conf, f.which)
    case Glue => CacheFrom(conf, f.which)
    case Switch => CacheFrom(conf, f.which)
    case File => CacheFrom(conf, f.which)
    case Bind => CacheFrom(conf, f.which)
    case FileLoop => CacheFrom(conf, f.which) && m.search == SearchState(0, 0)
    case Search => CacheFrom(conf, f.which) && m.search == SearchState(0, 0)
    case Smart0A => m.smartLeft == 1
    case _ => f.state.Cache? || f.state.Finish?
  }

  /** The states such a run passes through. */
  ghost predicate Passing(conf: Conf, m: Machine) {
    && m.sp < |m.frames|
    && if Searches(conf) then m.sp == 0 && Looping(conf, m)
       else if m.sp == 0 then Seeking(conf, m)
       else m.sp == 1 && Looping(conf, m)
  }

  /** The run goes on, without a wait, and stays among those states. */
  ghost predicate RoundAgain(conf: Conf, r: M<Outcome>) {
    r.Go? && r.value.Next? && Passing(conf, r.value.m)
  }

  lemma LoopsQuery(conf: Conf, m: Machine)
    requires Circular(conf) && Going(m) && Passing(conf, m) && Top(m).state.QueryA?
    ensures RoundAgain(conf, Step(conf, m, Host(conf, m)))
  {
    hide Inv, AllCounted, Use, Free, Searches;
    var o := Host(conf, m);
    Unpack(m);
    StepSafe(conf, m, o);
    StepQueryAIs(conf, m, o);
    hide Step;
    SoCheckOk(m, o);
    SoCheckKeeps(m, o);
    hide SoCheck;
  }

  lemma LoopsServing(conf: Conf, m: Machine)
    requires Circular(conf) && Going(m) && Passing(conf, m)
    requires var s := Top(m).state; s.Hints? || s.Iterate? || s.ForeachNs? || s.ForeachA?
    ensures RoundAgain(conf, Step(conf, m, Host(conf, m)))
  {
    hide Inv, AllCounted, Use, Free, Searches, ServersFrom, CacheFrom;
    Basics(m);
    StepSafe(conf, m, Host(conf, m));
  }

  lemma LoopsSwitch(conf: Conf, m: Machine)
    requires Circular(conf) && Going(m) && Passing(conf, m) && (Searches(conf) || m.sp > 0)
    requires var s := Top(m).state; s.Init? || s.Glue? || s.Switch? || s.Bind? || s.Search?
    ensures RoundAgain(conf, Step(conf, m, Host(conf, m)))
  {
    hide Inv, AllCounted, Use, Free, AnswersBelow, Seeking, StepFile, StepFileLoop, StepCache, CacheWait, StepFetch,
      StepHints, StepIterate, StepForeachNs, StepResolv0Ns, StepResolv1Ns, StepForeachA, StepQueryA,
      StepCname0A, StepCname1A, StepFinish, StepSmart0A, StepSmart1A, StepServfail;
    Basics(m);
    StepSafe(conf, m, Host(conf, m));
  }

  lemma LoopsLookup(conf: Conf, m: Machine)
    requires Circular(conf) && Going(m) && Passing(conf, m) && (Searches(conf) || m.sp > 0)
    requires Top(m).state.File? || Top(m).state.FileLoop? || Top(m).state.Cache?
    ensures RoundAgain(conf, Step(conf, m, Host(conf, m)))
  {
    hide Inv, AllCounted, Use, Free, Seeking, Searches, SearchNext, ServersFrom, CacheFrom,
      StepGlue, StepSwitch, CacheWait, StepFetch, StepBind, StepSearch,
      StepHints, StepIterate, StepForeachNs, StepResolv0Ns, StepResolv1Ns, StepForeachA, StepQueryA,
      StepCname0A, StepCname1A, StepFinish, StepSmart0A, StepSmart1A, StepServfail;
    Basics(m);
    StepSafe(conf, m, Host(conf, m));
  }

  lemma SeeksLookup(conf: Conf, m: Machine)
    requires Circular(conf) && Going(m) && Passing(conf, m) && !Searches(conf) && m.sp == 0
    requires !Top(m).state.Cache? && !Top(m).state.Finish? && !Top(m).state.Smart0A?
    ensures RoundAgain(conf, Step(conf, m, Host(conf, m)))
  {
    hide Inv, AllCounted, Use, Free, AnswersBelow, Looping, StepCache, CacheWait, StepFetch,
      StepHints, StepIterate, StepForeachNs, StepResolv0Ns, StepResolv1Ns, StepForeachA, StepQueryA,
      StepCname0A, StepCname1A, StepFinish, StepSmart0A, StepSmart1A, StepServfail;
    Basics(m);
    StepSafe(conf, m, Host(conf, m));
  }

  lemma SeeksRecord(conf: Conf, m: Machine)
    requires Circular(conf) && Going(m) && Passing(conf, m) && !Searches(conf) && m.sp == 0
    requires Top(m).state.Cache? || Top(m).state.Finish?
    ensures RoundAgain(conf, Step(conf, m, Host(conf, m)))
  {
    hide Inv, AllCounted, Use, Free, AnswersBelow, Looping, Searches, ServersFrom, CacheFrom, SearchNext, StepGlue,
      StepSwitch, StepFile, StepFileLoop, StepBind, StepSearch, StepHints, StepIterate, StepForeachNs, StepResolv0Ns,
      StepResolv1Ns, StepForeachA, StepQueryA, StepCname0A, StepCname1A, StepSmart0A, StepSmart1A, StepServfail;
    Basics(m);
    StepSafe(conf, m, Host(conf, m));
  }

  lemma FollowsRecord(conf: Conf, m: Machine)
    requires Circular(conf) && Going(m) && Passing(conf, m) && !Searches(conf) && m.sp == 0 && Top(m).state.Smart0A?
    ensures RoundAgain(conf, Step(conf, m, Host(conf, m)))
  {
    hide Inv, AllCounted, Use, Free, ResetAbove, Searches, ServersFrom, CacheFrom, SearchNext,
      StepGlue, StepSwitch, StepFile, StepFileLoop, StepBind, StepSearch, StepHints, StepIterate, StepForeachNs,
      StepResolv0Ns, StepResolv1Ns, StepForeachA, StepQueryA, StepCname0A, StepCname1A, StepSmart1A, StepServfail;
    Basics(m);
    StepSafe(conf, m, Host(conf, m));
  }

  lemma GoesRound(conf: Conf, m: Machine)
    requires Circular(conf) && Going(m) && Passing(conf, m)
    ensures RoundAgain(conf, Step(conf, m, Host(conf, m)))
  {
    hide Step, Going, Searches;
    var s := Top(m).state;
    if !Searches(conf) && m.sp == 0 {
      if s.Smart0A? {
        FollowsRecord(conf, m);
      } else if s.Cache? || s.Finish? {
        SeeksRecord(conf, m);
      } else {
        SeeksLookup(conf, m);
      }
    } else if s.QueryA? {
      LoopsQuery(conf, m);
    } else if s.Hints? || Serving(s) {
      LoopsServing(conf, m);
    } else if s.File? || s.FileLoop? || s.Cache? {
      LoopsLookup(conf, m);
    } else {
      LoopsSwitch(conf, m);
    }
  }

  lemma RoundGoing(conf: Conf, m: Machine)
    requires Circular(conf) && Going(m) && Passing(conf, m)
    ensures var p := Onward(Step(conf, m, Host(conf, m))); p.Running? && Going(p.m) && Passing(conf, p.m)
  {
    hide Step, Going, Passing, Circular, Host;
    GoesRound(conf, m);
    StepGoing(conf, m, Host(conf, m));
  }

  /** The run in such a world. */
  function Led(conf: Conf, k: nat): Phase {
    if k == 0 then Running(SUBMITTED)
    else match Led(conf, k - 1)
      case Running(m) => Onward(Step(conf, m, Host(conf, m)))
      case p => p
  }

  /** What that world answers, moment by moment. */
  function Course(conf: Conf): nat -> Oracle {
    (k: nat) => if Led(conf, k).Running? then Host(conf, Led(conf, k).m) else REFERRAL
  }

  lemma {:induction false} LedPasses(conf: Conf, k: nat)
    requires Circular(conf)
    ensures After(conf, Course(conf), k) == Led(conf, k)
    ensures Led(conf, k).Running? && Going(Led(conf, k).m) && Passing(conf, Led(conf, k).m)
  {
    hide Step, Going, Passing, Circular, Host, Onward;
    if k == 0 {
      SubmittedGoing();
      StartsPassing(conf);
    } else {
      LedPasses(conf, k - 1);
      var m := Led(conf, k - 1).m;
      RoundGoing(conf, m);
      assert Course(conf)(k - 1) == Host(conf, m);
    }
  }

  lemma StartsPassing(conf: Conf)
    requires Circular(conf)
    ensures Passing(conf, SUBMITTED)
  {
  }

  /** Then a run can go on for ever without a single wait. */
  lemma ReferralsForever(conf: Conf, n: nat)
    requires Circular(conf)
    ensures !Over(conf, Course(conf), n)
  {
    hide Step, Going, Passing, Circular;
    LedPasses(conf, n);
    var m := Led(conf, n).m;
    GoesRound(conf, m);
    assert Course(conf)(n) == Host(conf, m);
    assert !WaitsAt(conf, Course(conf), n);
  }

  /** Some point of the run is its end, or the start of an endless wait. */
  ghost predicate Ends(conf: Conf, os: nat -> Oracle) {
    exists n: nat :: Over(conf, os, n)
  }

  /** The exact boundary: every run of a configuration ends if and only if it is not circular. */
  lemma EndsIff(conf: Conf)
    ensures (forall os: nat -> Oracle :: Ends(conf, os)) <==> !Circular(conf)
  {
    hide Over, Circular;
    if Circular(conf) {
      forall n: nat
        ensures !Over(conf, Course(conf), n)
      {
        ReferralsForever(conf, n);
      }
      assert !Ends(conf, Course(conf));
    } else {
      forall os: nat -> Oracle
        ensures Ends(conf, os)
      {
        var n := Terminates(conf, os);
      }
    }
  }
}
