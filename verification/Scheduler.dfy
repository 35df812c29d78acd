/**
 * The scheduler: what its tables hold, what every operation does to them, and what holds in
 * every run. Coroutine bodies are the choices of which operation comes next. Weak tables are
 * plain maps, and garbage collection removes nothing.
 */
module Scheduler {
  import opened Wire

  type Tid = nat
  type Eid = nat

  /** What a yielded coroutine waits for: the table it keeps on its stack for clean-up. */
  datatype Park = ByPause | ByWaitAll | ByEvent(e: Eid) | ByEvents(es: set<Eid>) {
    function Events(): set<Eid> {
      match this
      case ByEvent(e) => {e}
      case ByEvents(es) => es
      case _ => {}
    }
  }

  /**
   * Fresh: attached, never resumed. Unpaused: yielded, with the results of pause() on its stack.
   * Hollow: yielded, with its stack emptied by kill or alarm.
   */
  datatype Status = Fresh | Running | Parked(park: Park) | Unpaused | Hollow | Finished | Failed

  /** A pending libevent event: whose, and whether it is the thread's alarm. */
  datatype Note = Note(owner: Tid, alarm: bool)

  /** `owes` remembers, for a thread in wait_all, which threads of its list were live at the call. */
  datatype State = State(status: map<Tid, Status>, threads: set<Tid>, ready: set<Tid>, waitingOn: map<Tid, set<Tid>>,
                         alarms: map<Tid, Eid>, pending: map<Eid, Note>, current: Option<Tid>, serial: nat,
                         owes: map<Tid, set<Tid>>)

  datatype Op =
    // the thread that runs: calls into the library ...
    | Attach | Unpause(t: Tid) | Kill(t: Tid) | Alarm
    // ... and ways to stop running
    | WaitAll(list: seq<Tid>) | Pause | Block | BlockMany(n: nat) | Return | Throw
    // the loop: what it resumes
    | RunReady(t: Tid) | RunDone(t: Tid) | Fire(e: Eid)

  // ---- Pieces ---------------------------------------------------------------------

  /** What emptying a coroutine's stack does to its status. */
  function Emptied(s: Status): Status {
    match s
    case Fresh => Finished
    case Parked(_) => Hollow
    case Unpaused => Hollow
    case _ => s
  }

  /** end_thread_persist: forget the thread, delete its alarm, and take it off every list waited for. */
  function EndPersist(s: State, t: Tid): State
    requires t in s.status
  {
    s.(status := s.status[t := Emptied(s.status[t])],
       threads := s.threads - {t},
       pending := if t in s.alarms then s.pending - {s.alarms[t]} else s.pending,
       waitingOn := map k | k in s.waitingOn :: s.waitingOn[k] - {t})
  }

  /** end_all_waiting_thread_events on a yielded coroutine. */
  function EndEvents(s: State, t: Tid): State
    requires t in s.status
  {
    if s.status[t].Parked? then s.(pending := s.pending - s.status[t].park.Events()) else s
  }

  function Resume(s: State, t: Tid): State {
    s.(status := s.status[t := Running], current := Some(t))
  }

  function Stop(s: State, t: Tid, st: Status): State {
    s.(status := s.status[t := st], current := None)
  }

  /** The threads of a list that wait_all will wait for: all but the finished and the failed. */
  function Unfinished(s: State, list: seq<Tid>): set<Tid> {
    set u | u in list && u in s.status && !s.status[u].Finished? && !s.status[u].Failed?
  }

  /** The `n` event numbers from `e` on. */
  function EventsFrom(e: Eid, n: nat): set<Eid> {
    if n == 0 then {} else EventsFrom(e, n - 1) + {e + n - 1}
  }

  function NotesFrom(e: Eid, n: nat, t: Tid): map<Eid, Note> {
    map x | x in EventsFrom(e, n) :: Note(t, false)
  }

  // ---- Operations --------------------------------------------------------------------

  /** When an operation can happen; kill spares the running thread and threads about to be resumed. */
  ghost predicate Enabled(s: State, op: Op) {
    match op
    case Unpause(t) => s.current.Some? && t in s.status && s.status[t] == Parked(ByPause)
    case Kill(t) => s.current.Some? && t in s.status && s.current != Some(t) && t !in s.ready
    case WaitAll(list) => s.current.Some? && forall u :: u in list ==> u in s.status
    case RunReady(t) => s.current.None? && t in s.ready
    case RunDone(t) => s.current.None? && t in s.waitingOn && s.waitingOn[t] == {}
    case Fire(e) => s.current.None? && e in s.pending && (s.pending[e].alarm ==> s.pending[e].owner !in s.ready)
    case _ => s.current.Some?
  }

  function Apply(s: State, op: Op): State {
    match op
    case Attach =>
      s.(status := s.status[s.serial := Fresh], threads := s.threads + {s.serial}, ready := s.ready + {s.serial},
        serial := s.serial + 1)
    case Unpause(t) => s.(status := s.status[t := Unpaused], ready := s.ready + {t})
    case Kill(t) => if t in s.status then EndPersist(EndEvents(s, t), t) else s
    case RunReady(t) => Resume(s.(ready := s.ready - {t}), t)
    case RunDone(t) => Resume(s.(waitingOn := s.waitingOn - {t}), t)
    case Fire(e) => if e in s.pending then Fired(s, e, s.pending[e]) else s
    case _ => if s.current.Some? then ByCurrent(s, op, s.current.value) else s
  }

  /** What the running thread does to itself. */
  function ByCurrent(s: State, op: Op, t: Tid): State {
    match op
    case Alarm =>
      var rest := if t in s.alarms then s.pending - {s.alarms[t]} else s.pending;
      s.(alarms := s.alarms[t := s.serial], pending := rest[s.serial := Note(t, true)], serial := s.serial + 1)
    case WaitAll(list) =>
      Stop(s.(waitingOn := s.waitingOn[t := Unfinished(s, list)],
        owes := s.owes[t := set u | u in list && u in s.threads]), t, Parked(ByWaitAll))
    case Pause => Stop(s, t, Parked(ByPause))
    case Block => Stop(s.(pending := s.pending[s.serial := Note(t, false)], serial := s.serial + 1), t,
      Parked(ByEvent(s.serial)))
    case BlockMany(n) =>
      Stop(s.(pending := s.pending + NotesFrom(s.serial, n, t), serial := s.serial + n), t,
        Parked(ByEvents(EventsFrom(s.serial, n))))
    case Return => EndPersist(Stop(s, t, Finished), t)
    case Throw => EndPersist(Stop(s, t, Failed), t)
    case _ => s
  }

  /** An event fires: the callbacks of read, write and timer; of signals and block_on; of alarms. */
  function Fired(s: State, e: Eid, n: Note): State {
    var t := n.owner;
    var s1 := s.(pending := s.pending - {e});
    if t !in s.status then s1
    else if n.alarm then EndPersist(EndEvents(s1, t), t)
    else if s.status[t].Parked? && s.status[t].park.ByEvents? then Resume(EndEvents(s1, t), t)
    else Resume(s1, t)
  }

  // ---- What holds in every run ------------------------------------------------------------

  /** A pending event belongs to its thread's current park, or is its alarm. */
  ghost predicate Belongs(s: State, e: Eid) {
    e in s.pending ==>
      var n := s.pending[e];
      && e < s.serial && n.owner in s.status
      && if n.alarm then n.owner in s.alarms && s.alarms[n.owner] == e
         else s.status[n.owner].Parked? && e in s.status[n.owner].park.Events()
  }

  /** A thread in wait_all still waits for every thread it was to wait for that has not ended. */
  ghost predicate Joins(s: State, t: Tid) {
    t in s.status && s.status[t] == Parked(ByWaitAll) ==>
      && t in s.waitingOn && t in s.owes
      && forall u :: u in s.owes[t] ==> u < s.serial && (u in s.threads ==> u in s.waitingOn[t])
  }

  predicate Alive(st: Status) {
    st.Fresh? || st.Running? || st.Parked? || st.Unpaused?
  }

  ghost predicate Numbered(s: State) {
    && (forall t :: t in s.status ==> t < s.serial)
    && (forall t :: t in s.alarms ==> s.alarms[t] < s.serial)
  }

  ghost predicate Scheduled(s: State) {
    && (forall t :: t in s.ready ==> t in s.status && (s.status[t].Fresh? || s.status[t].Unpaused?))
    && (forall t :: t in s.waitingOn ==> t in s.status && (s.status[t] == Parked(ByWaitAll) || s.status[t].Hollow?))
    && (forall t :: t in s.threads ==> t in s.status && Alive(s.status[t]))
    && (forall t :: t in s.status && s.status[t].Running? <==> s.current == Some(t))
  }

  ghost predicate Inv(s: State) {
    && Numbered(s) && Scheduled(s)
    && (forall e {:trigger Belongs(s, e)} :: Belongs(s, e))
    && (forall t {:trigger Joins(s, t)} :: Joins(s, t))
  }

  // ---- Every operation keeps it ---------------------------------------------------------

  /** What an operation needs to keep of events and joins, one at a time. */
  lemma Keeps(s: State, s': State)
    requires Inv(s) && Numbered(s') && Scheduled(s')
    requires forall e :: e in s'.pending ==> Belongs(s', e)
    requires forall t :: t in s'.status && s'.status[t] == Parked(ByWaitAll) ==> Joins(s', t)
    ensures Inv(s')
  {
    hide Numbered, Scheduled;
    forall e
      ensures Belongs(s', e)
    {
    }
    forall t
      ensures Joins(s', t)
    {
    }
  }

  lemma AttachOk(s: State)
    requires Inv(s) && Enabled(s, Attach)
    ensures Inv(Apply(s, Attach))
  {
    var s' := Apply(s, Attach);
    forall e | e in s'.pending
      ensures Belongs(s', e)
    {
      assert Belongs(s, e);
    }
    forall t | t in s'.status && s'.status[t] == Parked(ByWaitAll)
      ensures Joins(s', t)
    {
      assert Joins(s, t);
    }
    Keeps(s, s');
  }

  lemma UnpauseOk(s: State, u: Tid)
    requires Inv(s) && Enabled(s, Unpause(u))
    ensures Inv(Apply(s, Unpause(u)))
  {
    var s' := Apply(s, Unpause(u));
    forall e | e in s'.pending
      ensures Belongs(s', e)
    {
      assert Belongs(s, e);
    }
    forall t | t in s'.status && s'.status[t] == Parked(ByWaitAll)
      ensures Joins(s', t)
    {
      assert Joins(s, t);
    }
    Keeps(s, s');
  }

  lemma EndEventsOk(s: State, u: Tid)
    requires Inv(s) && u in s.status
    ensures Inv(EndEvents(s, u))
    ensures forall e :: e in EndEvents(s, u).pending && EndEvents(s, u).pending[e].owner == u ==>
      EndEvents(s, u).pending[e].alarm
  {
    var s' := EndEvents(s, u);
    forall e | e in s'.pending
      ensures Belongs(s', e) && (s'.pending[e].owner == u ==> s'.pending[e].alarm)
    {
      assert Belongs(s, e);
    }
    forall t | t in s'.status && s'.status[t] == Parked(ByWaitAll)
      ensures Joins(s', t)
    {
      assert Joins(s, t);
    }
    Keeps(s, s');
  }

  /** Forgetting a thread that has no park event left and is not about to be resumed. */
  lemma EndPersistOk(s: State, u: Tid)
    requires Inv(s) && u in s.status && u !in s.ready && !s.status[u].Running?
    requires forall e :: e in s.pending && s.pending[e].owner == u ==> s.pending[e].alarm
    ensures Inv(EndPersist(s, u))
  {
    var s' := EndPersist(s, u);
    forall e | e in s'.pending
      ensures Belongs(s', e)
    {
      assert Belongs(s, e);
    }
    forall t | t in s'.status && s'.status[t] == Parked(ByWaitAll)
      ensures Joins(s', t)
    {
      assert Joins(s, t);
    }
    Keeps(s, s');
  }

  lemma KillOk(s: State, u: Tid)
    requires Inv(s) && Enabled(s, Kill(u))
    ensures Inv(Apply(s, Kill(u)))
  {
    EndEventsOk(s, u);
    EndPersistOk(EndEvents(s, u), u);
  }

  lemma AlarmOk(s: State)
    requires Inv(s) && Enabled(s, Alarm)
    ensures Inv(Apply(s, Alarm))
  {
    var s' := Apply(s, Alarm);
    forall e | e in s'.pending
      ensures Belongs(s', e)
    {
      assert Belongs(s, e);
    }
    forall t | t in s'.status && s'.status[t] == Parked(ByWaitAll)
      ensures Joins(s', t)
    {
      assert Joins(s, t);
    }
    Keeps(s, s');
  }

  lemma WaitAllOk(s: State, list: seq<Tid>)
    requires Inv(s) && Enabled(s, WaitAll(list))
    ensures Inv(Apply(s, WaitAll(list)))
  {
    var s' := Apply(s, WaitAll(list));
    forall e | e in s'.pending
      ensures Belongs(s', e)
    {
      assert Belongs(s, e);
    }
    forall t | t in s'.status && s'.status[t] == Parked(ByWaitAll)
      ensures Joins(s', t)
    {
      assert Joins(s, t);
    }
    Keeps(s, s');
  }

  lemma PauseOk(s: State)
    requires Inv(s) && Enabled(s, Pause)
    ensures Inv(Apply(s, Pause))
  {
    var s' := Apply(s, Pause);
    forall e | e in s'.pending
      ensures Belongs(s', e)
    {
      assert Belongs(s, e);
    }
    forall t | t in s'.status && s'.status[t] == Parked(ByWaitAll)
      ensures Joins(s', t)
    {
      assert Joins(s, t);
    }
    Keeps(s, s');
  }

  lemma BlockOk(s: State)
    requires Inv(s) && Enabled(s, Block)
    ensures Inv(Apply(s, Block))
  {
    var s' := Apply(s, Block);
    forall e | e in s'.pending
      ensures Belongs(s', e)
    {
      assert e != s.serial ==> Belongs(s, e);
    }
    forall t | t in s'.status && s'.status[t] == Parked(ByWaitAll)
      ensures Joins(s', t)
    {
      assert Joins(s, t);
    }
    Keeps(s, s');
  }

  lemma BlockManyOk(s: State, n: nat)
    requires Inv(s) && Enabled(s, BlockMany(n))
    ensures Inv(Apply(s, BlockMany(n)))
  {
    var s' := Apply(s, BlockMany(n));
    forall e | e in s'.pending
      ensures Belongs(s', e)
    {
      EventsFromRange(s.serial, n);
      assert Belongs(s, e);
    }
    forall t | t in s'.status && s'.status[t] == Parked(ByWaitAll)
      ensures Joins(s', t)
    {
      assert Joins(s, t);
    }
    Keeps(s, s');
  }

  lemma {:induction false} EventsFromRange(e: Eid, n: nat)
    ensures forall x :: x in EventsFrom(e, n) <==> e <= x < e + n
  {
    if n > 0 {
      EventsFromRange(e, n - 1);
    }
  }

  lemma EndJoins(s: State, op: Op, t: Tid)
    requires Inv(s) && Enabled(s, op) && (op.Return? || op.Throw?)
    ensures Joins(Apply(s, op), t)
  {
    hide Numbered, Scheduled;
    assert Joins(s, t);
  }

  lemma EndBelongs(s: State, op: Op, e: Eid)
    requires Inv(s) && Enabled(s, op) && (op.Return? || op.Throw?)
    ensures Belongs(Apply(s, op), e)
  {
    hide Numbered;
    assert Belongs(s, e);
  }

  lemma EndScheduled(s: State, op: Op)
    requires Inv(s) && Enabled(s, op) && (op.Return? || op.Throw?)
    ensures Scheduled(Apply(s, op)) && Numbered(Apply(s, op))
  {
  }

  lemma EndOk(s: State, op: Op)
    requires Inv(s) && Enabled(s, op) && (op.Return? || op.Throw?)
    ensures Inv(Apply(s, op))
  {
    hide Apply, Numbered, Scheduled, Belongs, Joins;
    EndScheduled(s, op);
    var s' := Apply(s, op);
    forall e
      ensures Belongs(s', e)
    {
      EndBelongs(s, op, e);
    }
    forall t
      ensures Joins(s', t)
    {
      EndJoins(s, op, t);
    }
  }

  lemma RunReadyOk(s: State, u: Tid)
    requires Inv(s) && Enabled(s, RunReady(u))
    ensures Inv(Apply(s, RunReady(u)))
  {
    var s' := Apply(s, RunReady(u));
    forall e | e in s'.pending
      ensures Belongs(s', e)
    {
      assert Belongs(s, e);
    }
    forall t | t in s'.status && s'.status[t] == Parked(ByWaitAll)
      ensures Joins(s', t)
    {
      assert Joins(s, t);
    }
    Keeps(s, s');
  }

  lemma RunDoneOk(s: State, u: Tid)
    requires Inv(s) && Enabled(s, RunDone(u))
    ensures Inv(Apply(s, RunDone(u)))
  {
    var s' := Apply(s, RunDone(u));
    forall e | e in s'.pending
      ensures Belongs(s', e)
    {
      assert Belongs(s, e);
    }
    forall t | t in s'.status && s'.status[t] == Parked(ByWaitAll)
      ensures Joins(s', t)
    {
      assert Joins(s, t);
    }
    Keeps(s, s');
  }

  /** For an event of its thread's park, firing is cancelling all of them and resuming. */
  lemma FiredCancels(s: State, e: Eid)
    requires Inv(s) && Enabled(s, Fire(e)) && !s.pending[e].alarm
    ensures var t := s.pending[e].owner;
      && t in s.status && s.status[t].Parked? && s.status[t].park != ByWaitAll && t !in s.ready
      && Apply(s, Fire(e)) == Resume(EndEvents(s, t), t)
  {
    assert Belongs(s, e);
    var t := s.pending[e].owner;
    var es := s.status[t].park.Events();
    assert s.pending - {e} - es == s.pending - es;
  }

  lemma ResumeOk(s: State, u: Tid)
    requires Inv(s) && s.current.None? && u in s.status && s.status[u].Parked? && s.status[u].park != ByWaitAll
      && u !in s.ready
    requires forall e :: e in s.pending && s.pending[e].owner == u ==> s.pending[e].alarm
    ensures Inv(Resume(s, u))
  {
    var s' := Resume(s, u);
    forall e | e in s'.pending
      ensures Belongs(s', e)
    {
      assert Belongs(s, e);
    }
    forall t | t in s'.status && s'.status[t] == Parked(ByWaitAll)
      ensures Joins(s', t)
    {
      assert Joins(s, t);
    }
    Keeps(s, s');
  }

  lemma FireEventOk(s: State, e: Eid)
    requires Inv(s) && Enabled(s, Fire(e)) && !s.pending[e].alarm
    ensures Inv(Apply(s, Fire(e)))
  {
    hide Inv, Apply;
    FiredCancels(s, e);
    var u := s.pending[e].owner;
    EndEventsOk(s, u);
    ResumeOk(EndEvents(s, u), u);
  }

  lemma DropOk(s: State, e: Eid)
    requires Inv(s)
    ensures Inv(s.(pending := s.pending - {e}))
  {
    var s1 := s.(pending := s.pending - {e});
    forall x | x in s1.pending
      ensures Belongs(s1, x)
    {
      assert Belongs(s, x);
    }
    forall t | t in s1.status && s1.status[t] == Parked(ByWaitAll)
      ensures Joins(s1, t)
    {
      assert Joins(s, t);
    }
    Keeps(s, s1);
  }

  lemma FireAlarmOk(s: State, e: Eid)
    requires Inv(s) && Enabled(s, Fire(e)) && s.pending[e].alarm
    ensures Inv(Apply(s, Fire(e)))
  {
    assert Belongs(s, e);
    var u := s.pending[e].owner;
    var s1 := s.(pending := s.pending - {e});
    DropOk(s, e);
    EndEventsOk(s1, u);
    EndPersistOk(EndEvents(s1, u), u);
  }

  /** Every operation keeps the invariant. */
  lemma StepOk(s: State, op: Op)
    requires Inv(s) && Enabled(s, op)
    ensures Inv(Apply(s, op))
  {
    hide Inv, Apply;
    match op
    case Attach => AttachOk(s);
    case Unpause(t) => UnpauseOk(s, t);
    case Kill(t) => KillOk(s, t);
    case Alarm => AlarmOk(s);
    case WaitAll(list) => WaitAllOk(s, list);
    case Pause => PauseOk(s);
    case Block => BlockOk(s);
    case BlockMany(n) => BlockManyOk(s, n);
    case Return => EndOk(s, op);
    case Throw => EndOk(s, op);
    case RunReady(t) => RunReadyOk(s, t);
    case RunDone(t) => RunDoneOk(s, t);
    case Fire(e) =>
      if s.pending[e].alarm {
        FireAlarmOk(s, e);
      } else {
        FireEventOk(s, e);
      }
  }

  // ---- Runs -------------------------------------------------------------------------------

  /** As ratchet_new leaves it: the entry thread is attached. */
  const START := State(map[0 := Fresh], {0}, {0}, map[], map[], map[], None, 1, map[])

  function Run(ops: seq<Op>): State {
    if ops == [] then START else Apply(Run(ops[..|ops| - 1]), ops[|ops| - 1])
  }

  /** Each operation was possible when its turn came. */
  ghost predicate Possible(ops: seq<Op>) {
    ops == [] || (Possible(ops[..|ops| - 1]) && Enabled(Run(ops[..|ops| - 1]), ops[|ops| - 1]))
  }

  lemma {:induction false} RunOk(ops: seq<Op>)
    requires Possible(ops)
    ensures Inv(Run(ops))
  {
    hide Inv, Apply, Enabled;
    if ops == [] {
      StartOk();
    } else {
      RunOk(ops[..|ops| - 1]);
      StepOk(Run(ops[..|ops| - 1]), ops[|ops| - 1]);
    }
  }

  lemma StartOk()
    ensures Inv(START) && Live(START)
  {
  }

  /** The operation resumes `t`, which was not running. */
  predicate Resumes(s: State, op: Op, t: Tid) {
    s.current != Some(t) && Apply(s, op).current == Some(t)
  }

  lemma ResumedFromWaitAll(s: State, op: Op, t: Tid)
    requires Inv(s) && Enabled(s, op) && Resumes(s, op, t) && t in s.status && s.status[t] == Parked(ByWaitAll)
    ensures op == RunDone(t)
  {
    forall e | e in s.pending && !s.pending[e].alarm
      ensures s.pending[e].owner in s.status && s.status[s.pending[e].owner] != Parked(ByWaitAll)
    {
      assert Belongs(s, e);
    }
  }

  /**
   * Join safety: in every run, a thread parked in wait_all is resumed only when every thread of its
   * list that was live at the call has ended.
   */
  lemma JoinSafety(ops: seq<Op>, op: Op, t: Tid)
    requires Possible(ops + [op]) && Resumes(Run(ops), op, t)
    requires t in Run(ops).status && Run(ops).status[t] == Parked(ByWaitAll)
    ensures t in Run(ops).owes && Run(ops).owes[t] !! Run(ops).threads
  {
    hide Apply, EndPersist;
    var s := Run(ops);
    assert (ops + [op])[..|ops|] == ops;
    RunOk(ops);
    ResumedFromWaitAll(s, op, t);
    assert Joins(s, t);
  }

  /** wait_all notes the live threads of its list, and waits for these and for ended ones that had yielded. */
  lemma OwesTheLive(s: State, list: seq<Tid>)
    requires Inv(s) && Enabled(s, WaitAll(list))
    ensures var t, s' := s.current.value, Apply(s, WaitAll(list));
      && s'.owes[t] == (set u | u in list && u in s.threads) && s'.owes[t] <= s'.waitingOn[t]
      && forall u :: u in s'.waitingOn[t] <==> u in list && (Alive(s.status[u]) || s.status[u].Hollow?)
  {
  }

  // ---- Events -------------------------------------------------------------------------------

  /** No event but the alarm is pending for `t`. */
  ghost predicate Quiet(s: State, t: Tid) {
    forall e :: e in s.pending && s.pending[e].owner == t ==> s.pending[e].alarm
  }

  /** Whatever resumes a thread leaves none of the events of its park pending: one park, one resume. */
  lemma OneResume(s: State, op: Op, t: Tid)
    requires Inv(s) && Enabled(s, op) && Resumes(s, op, t)
    ensures Quiet(Apply(s, op), t)
  {
    hide Apply;
    StepOk(s, op);
    var s' := Apply(s, op);
    assert s'.status[t].Running?;
    forall e | e in s'.pending && s'.pending[e].owner == t
      ensures s'.pending[e].alarm
    {
      assert Belongs(s', e);
    }
  }

  /** A thread that runs, or that anything can still resume, has not ended. */
  ghost predicate Live(s: State) {
    && s.ready <= s.threads
    && s.waitingOn.Keys <= s.threads
    && (forall e :: e in s.pending ==> s.pending[e].owner in s.threads)
    && (forall t :: t in s.status && Alive(s.status[t]) ==> t in s.threads)
  }

  /** A thread is not ended, by kill or by its alarm, while it is parked in wait_all. */
  ghost predicate Spares(s: State, op: Op) {
    match op
    case Kill(t) => t !in s.waitingOn
    case Fire(e) => e in s.pending && s.pending[e].alarm ==> s.pending[e].owner !in s.waitingOn
    case _ => true
  }

  /** Ending a thread without park events: what is left is live, unless the thread was in wait_all. */
  lemma EndsLive(s: State, u: Tid)
    requires Inv(s) && Live(s) && u in s.status && u !in s.ready && s.current != Some(u) && Quiet(s, u)
    ensures Live(EndPersist(s, u)) <==> u !in s.waitingOn
  {
    var s' := EndPersist(s, u);
    assert s'.waitingOn.Keys == s.waitingOn.Keys;
    forall e | e in s'.pending
      ensures s'.pending[e].owner in s'.threads
    {
      assert Belongs(s, e);
    }
  }

  lemma EndEventsQuiet(s: State, u: Tid)
    requires Inv(s) && u in s.status
    ensures Quiet(EndEvents(s, u), u) && (Live(s) ==> Live(EndEvents(s, u)))
  {
    forall e | e in EndEvents(s, u).pending && s.pending[e].owner == u
      ensures s.pending[e].alarm
    {
      assert Belongs(s, e);
    }
  }

  lemma KillLive(s: State, u: Tid)
    requires Inv(s) && Live(s) && Enabled(s, Kill(u))
    ensures Live(Apply(s, Kill(u))) <==> u !in s.waitingOn
  {
    hide Inv, Live, Quiet, EndPersist;
    EndEventsOk(s, u);
    EndEventsQuiet(s, u);
    EndsLive(EndEvents(s, u), u);
  }

  lemma FireLive(s: State, e: Eid)
    requires Inv(s) && Live(s) && Enabled(s, Fire(e))
    ensures Live(Apply(s, Fire(e))) <==> (s.pending[e].alarm ==> s.pending[e].owner !in s.waitingOn)
  {
    assert Belongs(s, e);
    var u := s.pending[e].owner;
    if s.pending[e].alarm {
      var s1 := s.(pending := s.pending - {e});
      DropOk(s, e);
      hide Inv, Quiet, EndPersist;
      EndEventsOk(s1, u);
      EndEventsQuiet(s1, u);
      EndsLive(EndEvents(s1, u), u);
    }
  }

  lemma EndLive(s: State, op: Op)
    requires Inv(s) && Live(s) && Enabled(s, op) && (op.Return? || op.Throw?)
    ensures Live(Apply(s, op))
  {
    var u := s.current.value;
    var s' := Apply(s, op);
    assert s'.waitingOn.Keys == s.waitingOn.Keys;
    forall e | e in s'.pending
      ensures s'.pending[e].owner in s'.threads
    {
      assert Belongs(s, e);
    }
  }

  lemma OthersLive(s: State, op: Op)
    requires Inv(s) && Live(s) && Enabled(s, op) && !op.Kill? && !op.Fire? && !op.Return? && !op.Throw?
    ensures Live(Apply(s, op))
  {
  }

  /**
   * Event ownership: while kill and alarms spare the threads parked in wait_all, everything pending
   * names a thread that has not ended; the first operation that does not spare one breaks this.
   */
  lemma LiveIff(s: State, op: Op)
    requires Inv(s) && Live(s) && Enabled(s, op)
    ensures Live(Apply(s, op)) <==> Spares(s, op)
  {
    hide Inv, Live, Apply;
    match op
    case Kill(t) => KillLive(s, t);
    case Fire(e) => FireLive(s, e);
    case Return => EndLive(s, op);
    case Throw => EndLive(s, op);
    case _ => OthersLive(s, op);
  }

  /** Each operation spared the threads in wait_all. */
  ghost predicate Sparing(ops: seq<Op>) {
    ops == [] || (Sparing(ops[..|ops| - 1]) && Spares(Run(ops[..|ops| - 1]), ops[|ops| - 1]))
  }

  /** Over a whole run: nothing that could resume an ended thread is left, as long as the run is sparing. */
  lemma {:induction false} OwnershipOverRuns(ops: seq<Op>)
    requires Possible(ops) && Sparing(ops)
    ensures Inv(Run(ops)) && Live(Run(ops))
  {
    hide Inv, Live, Apply, Enabled, Spares;
    RunOk(ops);
    if ops == [] {
      StartOk();
    } else {
      OwnershipOverRuns(ops[..|ops| - 1]);
      LiveIff(Run(ops[..|ops| - 1]), ops[|ops| - 1]);
    }
  }

  /** Once a thread has ended, no event and no table entry is left that could resume it. */
  lemma NoneRemains(ops: seq<Op>, t: Tid)
    requires Possible(ops) && Sparing(ops) && t !in Run(ops).threads
    ensures var s := Run(ops);
      && t !in s.ready && t !in s.waitingOn && s.current != Some(t)
      && forall e :: e in s.pending ==> s.pending[e].owner != t
  {
    hide Run;
    OwnershipOverRuns(ops);
  }

  // ---- What happens otherwise ------------------------------------------------------------------

  /** Killed in wait_all, a thread has ended but keeps its entry, and is resumed when its list runs empty. */
  lemma Revives(s: State, t: Tid)
    requires Inv(s) && Enabled(s, Kill(t)) && t in s.waitingOn
    ensures var s' := Apply(s, Kill(t)); t !in s'.threads && t in s'.waitingOn && s'.status[t].Hollow?
  {
  }

  lemma Snoc(ops: seq<Op>, op: Op)
    requires Possible(ops) && Enabled(Run(ops), op)
    ensures Possible(ops + [op]) && Run(ops + [op]) == Apply(Run(ops), op)
  {
    assert (ops + [op])[..|ops|] == ops;
  }

  /** A run in which thread 1 waits for thread 0, is killed by it, and comes back to wait for an event. */
  lemma Revival() returns (ops: seq<Op>, e: Eid)
    ensures Possible(ops) && e in Run(ops).pending && Run(ops).pending[e].owner !in Run(ops).threads
  {
    hide Run, Possible;
    ops := Begun();
    var s := Run(ops);
    Snoc(ops, Fire(2));
    ops := ops + [Fire(2)];
    Snoc(ops, Kill(1));
    ops := ops + [Kill(1)];
    Snoc(ops, Return);
    ops := ops + [Return];
    assert Run(ops).waitingOn[1] == {};
    Snoc(ops, RunDone(1));
    ops := ops + [RunDone(1)];
    Snoc(ops, Block);
    ops := ops + [Block];
    e := 3;
  }

  /** Thread 0 waits for event 2; thread 1 is new. */
  ghost predicate Opened(s: State) {
    && s.status.Keys == {0, 1} && s.status[0] == Parked(ByEvent(2)) && s.status[1] == Fresh
    && s.threads == {0, 1} && s.ready == {1} && s.waitingOn == map[] && s.alarms == map[]
    && 2 in s.pending && s.pending[2] == Note(0, false) && s.current.None? && s.serial == 3
  }

  lemma Begin() returns (ops: seq<Op>)
    ensures Possible(ops) && Opened(Run(ops))
  {
    ops := [];
    assert Possible(ops) && Run(ops) == START;
    hide Run, Possible;
    Snoc(ops, RunReady(0));
    ops := ops + [RunReady(0)];
    Snoc(ops, Attach);
    ops := ops + [Attach];
    Snoc(ops, Block);
    ops := ops + [Block];
  }

  /** Thread 0 waits for event 2, and thread 1 for thread 0. */
  ghost predicate Waiting(s: State) {
    && s.status.Keys == {0, 1} && s.status[0] == Parked(ByEvent(2)) && s.status[1] == Parked(ByWaitAll)
    && s.threads == {0, 1} && s.ready == {} && s.waitingOn == map[1 := {0}] && s.alarms == map[]
    && 2 in s.pending && s.pending[2] == Note(0, false) && s.current.None? && s.serial == 3
  }

  lemma Begun() returns (ops: seq<Op>)
    ensures Possible(ops) && Waiting(Run(ops))
  {
    ops := Begin();
    hide Run, Possible;
    Snoc(ops, RunReady(1));
    ops := ops + [RunReady(1)];
    var s := Run(ops);
    Snoc(ops, WaitAll([0]));
    ops := ops + [WaitAll([0])];
    assert Unfinished(s, [0]) == {0};
  }
}
