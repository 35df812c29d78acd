/** No name server is passed over: each is asked, or has its address looked up first. */
module ResolverServers {
  import opened Resolver
  import opened ResolverSafety
  import opened ResolverRuns

  /** Frame `i` of a run that goes on. */
  ghost predicate InState(conf: Conf, os: nat -> Oracle, k: nat, i: nat, s: RState) {
    var p := After(conf, os, k);
    p.Running? && i < |p.m.frames| && p.m.frames[i].state == s
  }

  /** The server is being asked, or a frame above looks for its address. */
  ghost predicate Attended(conf: Conf, os: nat -> Oracle, k: nat, i: nat) {
    InState(conf, os, k, i, QueryA) || InState(conf, os, k, i, Resolv1Ns)
  }

  ghost predicate AttendedBetween(conf: Conf, os: nat -> Oracle, j: nat, k: nat, i: nat) {
    exists h: nat :: j <= h <= k && Attended(conf, os, h, i)
  }

  /** Nothing has been done for the server yet. */
  ghost predicate Untouched(m: Machine, i: nat) {
    && m.sp == i < |m.frames|
    && ((Top(m).state.ForeachA? && Top(m).aSeen == 0) || Top(m).state.Resolv0Ns?)
  }

  lemma UntouchedStep(conf: Conf, m: Machine, o: Oracle, i: nat)
    requires Shaped(m) && Untouched(m, i) && Onward(Step(conf, m, o)).Running?
    ensures var m' := Onward(Step(conf, m, o)).m;
      && i < |m'.frames|
      && (Untouched(m', i) || m'.frames[i].state.QueryA? || m'.frames[i].state.Resolv1Ns? || i == DEPTH - 1)
  {
    hide Free, Use, ResetAbove, StepGlue, StepSwitch, StepFile, StepFileLoop, StepCache, CacheWait, StepFetch,
      StepBind, StepSearch, StepHints, StepIterate, StepForeachNs, StepResolv1Ns, StepQueryA, StepCname0A,
      StepCname1A, StepFinish, StepSmart0A, StepSmart1A, StepDone, StepServfail;
  }

  lemma {:induction false} UntilAttended(conf: Conf, os: nat -> Oracle, j: nat, k: nat, i: nat)
    requires j <= k && i < DEPTH - 1
    requires After(conf, os, j).Running? && Untouched(After(conf, os, j).m, i) && After(conf, os, k).Running?
    ensures AttendedBetween(conf, os, j, k, i) || Untouched(After(conf, os, k).m, i)
    decreases k - j
  {
    hide Step, Inv, Untouched;
    if j < k {
      UntilAttended(conf, os, j, k - 1, i);
      if AttendedBetween(conf, os, j, k - 1, i) {
        var h: nat :| j <= h <= k - 1 && Attended(conf, os, h, i);
      } else {
        AfterSafe(conf, os, k - 1);
        var m := After(conf, os, k - 1).m;
        Unpack(m);
        UntouchedStep(conf, m, os(k - 1), i);
        if !Untouched(After(conf, os, k).m, i) {
          assert Attended(conf, os, k, i);
        }
      }
    }
  }

  /** What a picked server starts with. */
  lemma PickedUntouched(conf: Conf, m: Machine, o: Oracle)
    requires Shaped(m) && Top(m).state.ForeachNs? && Onward(Step(conf, m, o)).Running?
    ensures var m' := Onward(Step(conf, m, o)).m;
      m'.sp == m.sp < |m'.frames| && (Top(m').state.ForeachA? ==> Untouched(m', m.sp))
  {
    hide Free, Use, StepGlue, StepSwitch, StepFile, StepFileLoop, StepCache, CacheWait, StepFetch, StepBind,
      StepSearch, StepHints, StepIterate, StepResolv0Ns, StepResolv1Ns, StepForeachA, StepQueryA, StepCname0A,
      StepCname1A, StepFinish, StepSmart0A, StepSmart1A, StepDone, StepServfail;
  }

  /**
   * Between a server being picked and its frame coming back for another, the server was asked, or its address
   * was looked up in the frame above. Only the last frame, which has none above it, may pass over a server.
   */
  lemma NotPassedOver(conf: Conf, os: nat -> Oracle, j: nat, k: nat, i: nat)
    requires j + 1 < k && i < DEPTH - 1
    requires InState(conf, os, j, i, ForeachNs) && After(conf, os, j).m.sp == i
    requires InState(conf, os, j + 1, i, ForeachA) && InState(conf, os, k, i, ForeachNs)
    ensures AttendedBetween(conf, os, j + 1, k, i)
  {
    hide Step, Inv;
    AfterSafe(conf, os, j);
    Unpack(After(conf, os, j).m);
    PickedUntouched(conf, After(conf, os, j).m, os(j));
    UntilAttended(conf, os, j + 1, k, i);
  }
}
