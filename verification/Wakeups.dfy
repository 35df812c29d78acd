/** What is bound to happen: threads that were made ready, threads whose list has ended, and alarms. */
module Wakeups {
  import opened Deadlock
  import opened Scheduler
  import opened Wire

  // ---- Ready threads ------------------------------------------------------------------------------

  lemma {:induction false} RunSplit(ops: seq<Op>, later: seq<Op>)
    requires Possible(ops + later)
    ensures Possible(ops)
    decreases |later|
  {
    if later == [] {
      assert ops + later == ops;
    } else {
      var front := later[..|later| - 1];
      assert (ops + later)[..|ops + later| - 1] == ops + front;
      RunSplit(ops, front);
    }
  }

  /** The last operation of a run. */
  lemma RunLast(ops: seq<Op>, later: seq<Op>)
    requires Possible(ops + later) && later != []
    ensures var front, op := later[..|later| - 1], later[|later| - 1];
      && Possible(ops + front) && Enabled(Run(ops + front), op) && Run(ops + later) == Apply(Run(ops + front), op)
  {
    assert (ops + later)[..|ops + later| - 1] == ops + later[..|later| - 1];
  }

  lemma ReadyStays(s: State, op: Op, t: Tid)
    requires t in s.ready && op != RunReady(t)
    ensures t in Apply(s, op).ready
  {
  }

  /** A thread that is ready stays so until it is resumed. */
  lemma {:induction false} StaysReady(ops: seq<Op>, later: seq<Op>, t: Tid)
    requires Possible(ops + later) && t in Run(ops).ready && RunReady(t) !in later
    ensures t in Run(ops + later).ready
    decreases |later|
  {
    hide Run, Possible, Apply, Enabled;
    if later == [] {
      assert ops + later == ops;
    } else {
      RunLast(ops, later);
      var front := later[..|later| - 1];
      assert forall op :: op in front ==> op in later;
      StaysReady(ops, front, t);
      ReadyStays(Run(ops + front), later[|later| - 1], t);
    }
  }

  /**
   * Nothing gets lost: a thread that was paused and then unpaused, and a thread that was attached, is ready from
   * then on until it is resumed; and whenever no thread runs, it can be.
   */
  lemma Woken(ops: seq<Op>, op: Op, later: seq<Op>)
    requires Possible(ops + [op] + later) && (op.Unpause? || op.Attach?)
    ensures var t := if op.Unpause? then op.t else Run(ops).serial;
      var s := Run(ops + [op] + later);
      RunReady(t) !in later ==>
        && t in s.ready && (s.current.None? ==> Enabled(s, RunReady(t)))
        && t in s.status && s.status[t] == if op.Unpause? then Unpaused else Fresh
  {
    RunSplit(ops + [op], later);
    assert (ops + [op])[..|ops|] == ops;
    var t := if op.Unpause? then op.t else Run(ops).serial;
    if RunReady(t) !in later {
      StaysReady(ops + [op], later, t);
      StaysAsIs(ops + [op], later, t);
    }
  }

  /** A ready thread cannot be killed, and its alarm does not fire. */
  lemma ReadyAsIs(s: State, op: Op, t: Tid)
    requires Inv(s) && Enabled(s, op) && t in s.ready && op != RunReady(t)
    ensures t in s.status && t in Apply(s, op).status && Apply(s, op).status[t] == s.status[t]
  {
    if op.Fire? {
      assert Belongs(s, op.e);
    }
  }

  lemma {:induction false} StaysAsIs(ops: seq<Op>, later: seq<Op>, t: Tid)
    requires Possible(ops + later) && t in Run(ops).ready && RunReady(t) !in later
    ensures t in Run(ops).status && t in Run(ops + later).status
    ensures Run(ops + later).status[t] == Run(ops).status[t]
    decreases |later|
  {
    hide Run, Possible, Apply, Enabled, Inv;
    RunSplit(ops, later);
    RunOk(ops);
    ReadyKnown(Run(ops), t);
    if later == [] {
      assert ops + later == ops;
    } else {
      RunLast(ops, later);
      var front := later[..|later| - 1];
      assert forall op :: op in front ==> op in later;
      StaysReady(ops, front, t);
      StaysAsIs(ops, front, t);
      RunOk(ops + front);
      ReadyAsIs(Run(ops + front), later[|later| - 1], t);
    }
  }

  lemma ReadyKnown(s: State, t: Tid)
    requires Inv(s) && t in s.ready
    ensures t in s.status
  {
  }

  // ---- Threads in wait_all ----------------------------------------------------------------------------

  /** Of the threads it was to wait for, a thread in wait_all waits for none that has ended. */
  ghost predicate Struck(s: State, t: Tid) {
    t in s.status && s.status[t] == Parked(ByWaitAll) && t in s.owes && t in s.waitingOn ==>
      s.owes[t] * s.waitingOn[t] <= s.threads
  }

  ghost predicate AllStruck(s: State) {
    forall t {:trigger Struck(s, t)} :: Struck(s, t)
  }

  lemma EndStruck(s: State, u: Tid, t: Tid)
    requires u in s.status && Struck(s, t)
    ensures Struck(EndPersist(s, u), t)
  {
  }

  lemma EventsStruck(s: State, u: Tid, t: Tid)
    requires u in s.status && Struck(s, t)
    ensures Struck(EndEvents(s, u), t)
  {
  }

  lemma StepStruck(s: State, op: Op, t: Tid)
    requires Inv(s) && Enabled(s, op) && Struck(s, t)
    ensures Struck(Apply(s, op), t)
  {
    match op
    case Kill(u) =>
      EventsStruck(s, u, t);
      EndStruck(EndEvents(s, u), u, t);
    case Return => EndStruck(Stop(s, s.current.value, Finished), s.current.value, t);
    case Throw => EndStruck(Stop(s, s.current.value, Failed), s.current.value, t);
    case Fire(e) =>
      assert Belongs(s, e);
      var s1, u := s.(pending := s.pending - {e}), s.pending[e].owner;
      assert Struck(s1, t);
      EventsStruck(s1, u, t);
      EndStruck(EndEvents(s1, u), u, t);
    case _ =>
  }

  lemma {:induction false} RunStruck(ops: seq<Op>)
    requires Possible(ops)
    ensures AllStruck(Run(ops))
  {
    hide Apply, Enabled, Inv, Struck;
    if ops == [] {
      StartStruck();
    } else {
      var front := ops[..|ops| - 1];
      RunOk(front);
      RunStruck(front);
      forall t
        ensures Struck(Run(ops), t)
      {
        assert Struck(Run(front), t);
        StepStruck(Run(front), ops[|ops| - 1], t);
      }
    }
  }

  lemma StartStruck()
    ensures AllStruck(START)
  {
  }

  lemma NoneLeft(on: set<Tid>, owed: set<Tid>, threads: set<Tid>)
    requires on <= owed && owed !! threads && forall u :: u in owed && u in on ==> u in threads
    ensures on == {}
  {
  }

  /**
   * In every run, a thread in wait_all waits for exactly those of the threads that were live at the call that
   * have not ended yet; so once all of them have, and it listed none that had been killed before, it is due.
   */
  lemma JoinIff(ops: seq<Op>, t: Tid)
    requires Possible(ops) && t in Run(ops).status && Run(ops).status[t] == Parked(ByWaitAll)
    ensures var s := Run(ops);
      && t in s.owes && t in s.waitingOn
      && (forall u :: u in s.owes[t] ==> (u in s.waitingOn[t] <==> u in s.threads))
      && (s.owes[t] !! s.threads && s.waitingOn[t] <= s.owes[t] && s.current.None? ==> Enabled(s, RunDone(t)))
  {
    hide Run, Possible, Apply;
    RunOk(ops);
    RunStruck(ops);
    var s := Run(ops);
    assert Joins(s, t) && Struck(s, t);
    forall u | u in s.owes[t]
      ensures u in s.waitingOn[t] <==> u in s.threads
    {
      if u in s.waitingOn[t] {
        assert u in s.owes[t] * s.waitingOn[t];
      }
    }
    if s.owes[t] !! s.threads && s.waitingOn[t] <= s.owes[t] {
      NoneLeft(s.waitingOn[t], s.owes[t], s.threads);
    }
  }

  // ---- Alarms -------------------------------------------------------------------------------------------

  /** The alarm of `t` is event `e`, and it is pending. */
  ghost predicate Set(s: State, t: Tid, e: Eid) {
    t in s.alarms && s.alarms[t] == e && e in s.pending && s.pending[e] == Note(t, true)
  }

  predicate Replaces(s: State, op: Op, t: Tid) {
    op.Alarm? && s.current == Some(t)
  }

  /** A thread that has ended is not started again. */
  lemma NotAgain(s: State, op: Op, t: Tid)
    requires t in Apply(s, op).threads && t < s.serial
    ensures t in s.threads && s.serial <= Apply(s, op).serial
  {
  }

  /** No two threads ever had the same alarm event. */
  ghost predicate Apart(s: State) {
    forall t, u :: t in s.alarms && u in s.alarms && t != u ==> s.alarms[t] != s.alarms[u]
  }

  lemma StepApart(s: State, op: Op)
    requires Inv(s) && Apart(s)
    ensures Apart(Apply(s, op))
  {
  }

  lemma {:induction false} RunApart(ops: seq<Op>)
    requires Possible(ops)
    ensures Apart(Run(ops))
  {
    hide Apply, Enabled, Inv;
    if ops != [] {
      var front := ops[..|ops| - 1];
      RunOk(front);
      RunApart(front);
      StepApart(Run(front), ops[|ops| - 1]);
    }
  }

  lemma EndEventsSet(s: State, u: Tid, t: Tid, e: Eid)
    requires u in s.status && ParkArmed(s, u) && Set(s, t, e)
    ensures Set(EndEvents(s, u), t, e)
  {
  }

  lemma EndPersistSet(s: State, u: Tid, t: Tid, e: Eid)
    requires u in s.status && Set(s, t, e) && Apart(s) && u != t
    ensures Set(EndPersist(s, u), t, e)
  {
  }

  lemma EndSet(s: State, u: Tid, t: Tid, e: Eid)
    requires u in s.status && ParkArmed(s, u) && Set(s, t, e) && Apart(s)
    requires t in EndPersist(EndEvents(s, u), u).threads
    ensures Set(EndPersist(EndEvents(s, u), u), t, e)
  {
    EndEventsSet(s, u, t, e);
    EndPersistSet(EndEvents(s, u), u, t, e);
  }

  lemma FireSet(s: State, x: Eid, t: Tid, e: Eid)
    requires Inv(s) && Armed(s) && Apart(s) && Enabled(s, Fire(x)) && Set(s, t, e) && x != e
    requires t in Apply(s, Fire(x)).threads
    ensures Set(Apply(s, Fire(x)), t, e)
  {
    assert Belongs(s, x);
    var s1, u := s.(pending := s.pending - {x}), s.pending[x].owner;
    assert ParkArmed(s, u);
    if s.pending[x].alarm {
      assert ParkArmed(s1, u);
      hide EndEvents, EndPersist;
      EndSet(s1, u, t, e);
    }
  }

  lemma OthersSet(s: State, op: Op, t: Tid, e: Eid)
    requires Inv(s) && Apart(s) && Enabled(s, op) && Set(s, t, e) && !op.Fire? && !op.Kill? && !op.Return? && !op.Throw?
    requires !Replaces(s, op, t)
    ensures Set(Apply(s, op), t, e)
  {
    assert Belongs(s, e);
    if op.BlockMany? {
      EventsFromRange(s.serial, op.n);
    }
  }

  lemma StepSet(s: State, op: Op, t: Tid, e: Eid)
    requires Inv(s) && Armed(s) && Apart(s) && Enabled(s, op) && Set(s, t, e)
    requires op != Fire(e) && !Replaces(s, op, t) && t in Apply(s, op).threads
    ensures Set(Apply(s, op), t, e)
  {
    hide Inv, Set, Apart;
    match op
    case Fire(x) => FireSet(s, x, t, e);
    case Kill(u) =>
      assert ParkArmed(s, u);
      EndSet(s, u, t, e);
    case Return => StopSet(s, Finished, t, e);
    case Throw => StopSet(s, Failed, t, e);
    case _ => OthersSet(s, op, t, e);
  }

  lemma StopSet(s: State, st: Status, t: Tid, e: Eid)
    requires s.current.Some? && Set(s, t, e) && Apart(s)
    requires t in EndPersist(Stop(s, s.current.value, st), s.current.value).threads
    ensures Set(EndPersist(Stop(s, s.current.value, st), s.current.value), t, e)
  {
    EndPersistSet(Stop(s, s.current.value, st), s.current.value, t, e);
  }

  /** Whether the thread sets another alarm in the course of `later`. */
  ghost predicate Reset(ops: seq<Op>, later: seq<Op>, t: Tid) {
    exists k :: 0 <= k < |later| && Replaces(Run(ops + later[..k]), later[k], t)
  }

  lemma ResetFront(ops: seq<Op>, later: seq<Op>, t: Tid)
    requires later != [] && !Reset(ops, later, t)
    ensures !Reset(ops, later[..|later| - 1], t)
    ensures !Replaces(Run(ops + later[..|later| - 1]), later[|later| - 1], t)
  {
    hide Run, Replaces;
    var front := later[..|later| - 1];
    forall k | 0 <= k < |front|
      ensures !Replaces(Run(ops + front[..k]), front[k], t)
    {
      assert front[..k] == later[..k] && front[k] == later[k];
      assert !Replaces(Run(ops + later[..k]), later[k], t);
    }
  }

  lemma {:induction false} StaysSet(ops: seq<Op>, later: seq<Op>, t: Tid, e: Eid)
    requires Possible(ops + later) && Set(Run(ops), t, e) && t < Run(ops).serial
    requires Fire(e) !in later && !Reset(ops, later, t) && t in Run(ops + later).threads
    ensures Set(Run(ops + later), t, e) && t < Run(ops + later).serial
    decreases |later|
  {
    hide Run, Possible, Apply, Enabled, Inv, Set, Apart, Reset, Replaces;
    if later == [] {
      assert ops + later == ops;
    } else {
      RunLast(ops, later);
      var front, op := later[..|later| - 1], later[|later| - 1];
      var s := Run(ops + front);
      assert forall x :: x in front ==> x in later;
      RunArmed(ops + front);
      RunApart(ops + front);
      ResetFront(ops, later, t);
      Numbers(ops, front);
      NotAgain(s, op, t);
      StaysSet(ops, front, t, e);
      StepSet(s, op, t, e);
    }
  }

  lemma {:induction false} Numbers(ops: seq<Op>, later: seq<Op>)
    requires Possible(ops + later)
    ensures Run(ops).serial <= Run(ops + later).serial
    decreases |later|
  {
    hide Run, Possible, Apply, Enabled;
    if later == [] {
      assert ops + later == ops;
    } else {
      RunLast(ops, later);
      Numbers(ops, later[..|later| - 1]);
      Rises(Run(ops + later[..|later| - 1]), later[|later| - 1]);
    }
  }

  lemma Rises(s: State, op: Op)
    ensures s.serial <= Apply(s, op).serial
  {
  }

  /**
   * An alarm a thread has set is pending, until it fires, the thread sets another one, or the thread ends. When
   * it fires, the thread ends.
   */
  lemma AlarmHolds(ops: seq<Op>, later: seq<Op>)
    requires Possible(ops + [Alarm] + later)
    ensures Run(ops).current.Some?
    ensures var t, e, s := Run(ops).current.value, Run(ops).serial, Run(ops + [Alarm] + later);
      Fire(e) !in later && !Reset(ops + [Alarm], later, t) && t in s.threads ==>
        && Set(s, t, e) && (s.current.None? && t !in s.ready ==> Enabled(s, Fire(e)))
        && t !in Apply(s, Fire(e)).threads
  {
    hide Run, Apply, Inv, Set;
    RunSplit(ops + [Alarm], later);
    RunLast(ops, [Alarm]);
    assert ops + [] == ops;
    RunOk(ops);
    AlarmSet(Run(ops));
    var t, e, s := Run(ops).current.value, Run(ops).serial, Run(ops + [Alarm] + later);
    if Fire(e) !in later && !Reset(ops + [Alarm], later, t) && t in s.threads {
      StaysSet(ops + [Alarm], later, t, e);
      RunOk(ops + [Alarm] + later);
      AlarmEnds(s, t, e);
    }
  }

  lemma AlarmSet(s: State)
    requires Inv(s) && Enabled(s, Alarm)
    ensures Set(Apply(s, Alarm), s.current.value, s.serial) && s.current.value < Apply(s, Alarm).serial
  {
  }

  lemma AlarmEnds(s: State, t: Tid, e: Eid)
    requires Inv(s) && Set(s, t, e)
    ensures s.current.None? && t !in s.ready ==> Enabled(s, Fire(e))
    ensures t !in Apply(s, Fire(e)).threads
  {
    assert Belongs(s, e);
  }
}
