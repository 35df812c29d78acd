/** When the loop reports a deadlock, and what that says about the threads. */
module Deadlock {
  import opened Wire
  import opened Scheduler

  // ---- Whatever a thread waits for is still to come ---------------------------------------

  /** The events of a thread's park are all pending, and are its own. */
  ghost predicate ParkArmed(s: State, t: Tid) {
    t in s.status && s.status[t].Parked? ==>
      forall e :: e in s.status[t].park.Events() ==> e in s.pending && s.pending[e] == Note(t, false)
  }

  ghost predicate Armed(s: State) {
    && (forall t {:trigger ParkArmed(s, t)} :: ParkArmed(s, t))
    && (forall t :: t in s.threads && t in s.status && (s.status[t].Fresh? || s.status[t].Unpaused?) ==> t in s.ready)
    && (forall t :: t in s.alarms && s.alarms[t] in s.pending ==> s.pending[s.alarms[t]].alarm)
  }

  lemma EndEventsArmed(s: State, u: Tid, t: Tid)
    requires Inv(s) && Armed(s) && u in s.status && t != u
    ensures ParkArmed(EndEvents(s, u), t)
  {
    assert ParkArmed(s, t) && ParkArmed(s, u);
  }

  /** Ending a thread: its park events go first, then its alarm. */
  lemma EndArmed(s: State, u: Tid)
    requires Inv(s) && Armed(s) && u in s.status && u !in s.ready && s.current != Some(u)
    ensures Armed(EndPersist(EndEvents(s, u), u))
  {
    var s' := EndPersist(EndEvents(s, u), u);
    forall t
      ensures ParkArmed(s', t)
    {
      if t != u {
        EndEventsArmed(s, u, t);
      }
    }
  }

  lemma DropArmed(s: State, e: Eid)
    requires Inv(s) && Armed(s) && e in s.pending && s.pending[e].alarm
    ensures Inv(s.(pending := s.pending - {e})) && Armed(s.(pending := s.pending - {e}))
  {
    DropOk(s, e);
    var s' := s.(pending := s.pending - {e});
    forall t
      ensures ParkArmed(s', t)
    {
      assert ParkArmed(s, t);
    }
  }

  lemma FireArmed(s: State, e: Eid)
    requires Inv(s) && Armed(s) && Enabled(s, Fire(e))
    ensures Armed(Apply(s, Fire(e)))
  {
    assert Belongs(s, e);
    var u := s.pending[e].owner;
    if s.pending[e].alarm {
      DropArmed(s, e);
      EndArmed(s.(pending := s.pending - {e}), u);
    } else {
      var s' := Apply(s, Fire(e));
      forall t
        ensures ParkArmed(s', t)
      {
        assert ParkArmed(s, t) && ParkArmed(s, u);
      }
    }
  }

  /** Ways the running thread changes its own fate. */
  predicate OnItself(op: Op) {
    op.Return? || op.Throw? || op.WaitAll? || op.Pause? || op.Block? || op.Alarm?
  }

  lemma EventKept(s: State, op: Op, e: Eid)
    requires Inv(s) && Armed(s) && Enabled(s, op) && OnItself(op) && e in s.pending && !s.pending[e].alarm
    ensures e in Apply(s, op).pending && Apply(s, op).pending[e] == s.pending[e]
  {
    hide Numbered, Scheduled, ParkArmed;
    assert Belongs(s, e);
  }

  lemma OthersKept(s: State, op: Op, t: Tid)
    requires Inv(s) && Enabled(s, op) && OnItself(op) && s.current != Some(t)
    ensures if t in s.status then t in Apply(s, op).status && Apply(s, op).status[t] == s.status[t]
      else t !in Apply(s, op).status
  {
  }

  /** Nothing of that touches the park of another. */
  lemma ItselfKeeps(s: State, op: Op, t: Tid)
    requires Inv(s) && Armed(s) && Enabled(s, op) && OnItself(op) && s.current != Some(t)
    ensures ParkArmed(Apply(s, op), t)
  {
    hide Inv, Apply;
    assert ParkArmed(s, t);
    OthersKept(s, op, t);
    if t in s.status && s.status[t].Parked? {
      forall e | e in s.status[t].park.Events()
        ensures e in Apply(s, op).pending && Apply(s, op).pending[e] == Note(t, false)
      {
        EventKept(s, op, e);
      }
    }
  }

  lemma ItselfArmed(s: State, op: Op)
    requires Inv(s) && Armed(s) && Enabled(s, op) && OnItself(op)
    ensures Armed(Apply(s, op))
  {
    var s' := Apply(s, op);
    forall t: Tid
      ensures ParkArmed(s', t)
    {
      if s.current != Some(t) {
        ItselfKeeps(s, op, t);
      }
    }
  }

  lemma BlockManyArmed(s: State, n: nat)
    requires Inv(s) && Armed(s) && Enabled(s, BlockMany(n))
    ensures Armed(Apply(s, BlockMany(n)))
  {
    EventsFromRange(s.serial, n);
    var s' := Apply(s, BlockMany(n));
    forall t
      ensures ParkArmed(s', t)
    {
      assert ParkArmed(s, t);
      if t in s.status && s.status[t].Parked? && t != s.current.value {
        forall e | e in s.status[t].park.Events()
          ensures e in s'.pending && s'.pending[e] == Note(t, false)
        {
          assert Belongs(s, e);
        }
      }
    }
  }

  lemma OthersArmed(s: State, op: Op)
    requires Inv(s) && Armed(s) && Enabled(s, op) && (op.Attach? || op.Unpause? || op.RunReady? || op.RunDone?)
    ensures Armed(Apply(s, op))
  {
    var s' := Apply(s, op);
    forall t
      ensures ParkArmed(s', t)
    {
      assert ParkArmed(s, t);
    }
  }

  lemma StepArmed(s: State, op: Op)
    requires Inv(s) && Armed(s) && Enabled(s, op)
    ensures Armed(Apply(s, op))
  {
    hide Inv, Armed, Apply;
    match op
    case Kill(t) => KillArmed(s, t);
    case Fire(e) => FireArmed(s, e);
    case BlockMany(n) => BlockManyArmed(s, n);
    case Attach => OthersArmed(s, op);
    case Unpause(_) => OthersArmed(s, op);
    case RunReady(_) => OthersArmed(s, op);
    case RunDone(_) => OthersArmed(s, op);
    case _ => ItselfArmed(s, op);
  }

  lemma KillArmed(s: State, u: Tid)
    requires Inv(s) && Armed(s) && Enabled(s, Kill(u))
    ensures Armed(Apply(s, Kill(u)))
  {
    hide Inv, Armed, EndPersist, EndEvents;
    EndArmed(s, u);
  }

  /** In every run: the events a parked thread waits for are pending, and a thread that can run is in `ready`. */
  lemma {:induction false} RunArmed(ops: seq<Op>)
    requires Possible(ops)
    ensures Inv(Run(ops)) && Armed(Run(ops))
  {
    hide Inv, Armed, Apply, Enabled;
    RunOk(ops);
    if ops == [] {
      StartArmed();
    } else {
      RunArmed(ops[..|ops| - 1]);
      StepArmed(Run(ops[..|ops| - 1]), ops[|ops| - 1]);
    }
  }

  lemma StartArmed()
    ensures Armed(START)
  {
  }

  // ---- The verdict of the loop ---------------------------------------------------------------

  /** Nothing runs, nothing is ready, and no list waited for has run empty. */
  ghost predicate Idle(s: State) {
    s.current.None? && s.ready == {} && forall t :: t in s.waitingOn ==> s.waitingOn[t] != {}
  }

  /** What loop_once reports as a deadlock: threads are left, and no event will ever come. */
  ghost predicate Deadlocked(s: State) {
    Idle(s) && s.threads != {} && s.pending == map[]
  }

  /** The thread is paused, or waits for a thread that has not ended, or for an event out of none. */
  ghost predicate Stuck(s: State, t: Tid) {
    t in s.status && s.status[t].Parked? &&
      match s.status[t].park
      case ByPause => true
      case ByWaitAll => t in s.waitingOn && s.waitingOn[t] != {}
      case ByEvent(_) => false
      case ByEvents(es) => es == {}
  }

  lemma IdleStuck(s: State, t: Tid)
    requires Inv(s) && Armed(s) && Idle(s) && t in s.threads
    requires forall e :: e in s.pending ==> s.pending[e].owner != t
    ensures Stuck(s, t)
  {
    assert Alive(s.status[t]);
    assert ParkArmed(s, t) && Joins(s, t);
    var p := s.status[t].park;
    if p.ByEvent? {
      assert p.e in p.Events();
    } else if p.ByEvents? {
      assert forall e :: e in p.es ==> e in p.Events();
    }
  }

  /** In every run: a reported deadlock is one, every thread that is left waits for something that cannot happen. */
  lemma DeadlockStuck(ops: seq<Op>, t: Tid)
    requires Possible(ops) && Deadlocked(Run(ops)) && t in Run(ops).threads
    ensures Stuck(Run(ops), t)
  {
    hide Run;
    RunArmed(ops);
    IdleStuck(Run(ops), t);
  }

  /**
   * In every sparing run between resumes a deadlock is reported if and only if threads are left, all of them
   * stuck, and none with an alarm to come.
   */
  lemma DeadlockIff(ops: seq<Op>)
    requires Possible(ops) && Sparing(ops) && Run(ops).current.None?
    ensures var s := Run(ops);
      Deadlocked(s) <==>
        && s.threads != {}
        && forall t :: t in s.threads ==> Stuck(s, t) && forall e :: e in s.pending ==> s.pending[e].owner != t
  {
    hide Run;
    var s := Run(ops);
    RunArmed(ops);
    OwnershipOverRuns(ops);
    if Deadlocked(s) {
      forall t | t in s.threads
        ensures Stuck(s, t)
      {
        IdleStuck(s, t);
      }
    } else if forall t :: t in s.threads ==> Stuck(s, t) && forall e :: e in s.pending ==> s.pending[e].owner != t {
      AllStuck(s);
    }
  }

  lemma AllStuck(s: State)
    requires Inv(s) && Live(s) && s.current.None?
    requires forall t :: t in s.threads ==> Stuck(s, t) && forall e :: e in s.pending ==> s.pending[e].owner != t
    ensures Idle(s) && s.pending == map[]
  {
    forall t | t in s.waitingOn
      ensures s.waitingOn[t] != {}
    {
      assert Stuck(s, t);
    }
    forall t | t in s.threads
      ensures t !in s.ready
    {
      assert Stuck(s, t);
    }
    assert s.pending.Keys == {};
  }
}
