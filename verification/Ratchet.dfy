/** The scheduler's tables as it updates them in place, each method against the operation it carries out. */
module Ratchet {
  import opened Deadlock
  import opened Scheduler
  import opened Wire

  /** What a coroutine does between two resumes: calls into the library, and the way it stops. */
  datatype Deed = Deed(calls: seq<Op>, stop: Op)

  predicate IsCall(op: Op) {
    op.Attach? || op.Unpause? || op.Kill? || op.Alarm?
  }

  predicate IsStop(op: Op) {
    op.WaitAll? || op.Pause? || op.Block? || op.BlockMany? || op.Return? || op.Throw?
  }

  /** What is due stays due, and what is over stays over. */
  ghost predicate Persists(s: State, s': State) {
    && s.ready <= s'.ready
    && (forall t :: t in s.waitingOn && s.waitingOn[t] == {} ==> t in s'.waitingOn && s'.waitingOn[t] == {})
    && s.serial <= s'.serial
    && (forall e :: e < s.serial && e in s'.pending ==> e in s.pending && s'.pending[e] == s.pending[e])
  }

  /** Whatever a running thread does leaves what is due alone. */
  lemma DeedPersists(s: State, op: Op)
    requires Inv(s) && Enabled(s, op) && (IsCall(op) || IsStop(op))
    ensures Persists(s, Apply(s, op))
  {
    if op.BlockMany? {
      EventsFromRange(s.serial, op.n);
    }
  }

  /** The calls a running thread gets through, starting in `s`, and the state behind them. */
  ghost function Taken(s: State, calls: seq<Op>): (seq<Op>, State) {
    if calls == [] then ([], s)
    else
      var (front, s') := Taken(s, calls[..|calls| - 1]);
      var op := calls[|calls| - 1];
      if IsCall(op) && Enabled(s', op) then (front + [op], Apply(s', op)) else (front, s')
  }

  /** What a thread does when it is resumed: the calls that make sense, and one way to stop. */
  ghost function Done(s: State, deed: Deed): seq<Op> {
    var (calls, s') := Taken(s, deed.calls);
    calls + [if IsStop(deed.stop) && Enabled(s', deed.stop) then deed.stop else Throw]
  }

  /** How loop_once ends: it did something, there are no threads left, or it found a deadlock. */
  datatype Verdict = GoesOn | OutOfThreads | NoWayOut

  /** kill_all, one thread of the list after the other. */
  function KillEach(s: State, list: seq<Tid>): State {
    if list == [] then s else Apply(KillEach(s, list[..|list| - 1]), Kill(list[|list| - 1]))
  }

  class Tables {
    var status: map<Tid, Status>
    var threads: set<Tid>
    var ready: set<Tid>
    var waitingOn: map<Tid, set<Tid>>
    var alarms: map<Tid, Eid>
    var pending: map<Eid, Note>
    var current: Option<Tid>
    var serial: nat
    ghost var owes: map<Tid, set<Tid>>

    /** What the coroutines are going to do, in the order they are resumed; after that they return. */
    var script: seq<Deed>

    /** The operations carried out since ratchet_new. */
    ghost var ops: seq<Op>

    /** The tables are those of a possible run. */
    ghost predicate Valid()
      reads this
    {
      Possible(ops) && View() == Run(ops)
    }

    ghost function View(): State
      reads this
    {
      State(status, threads, ready, waitingOn, alarms, pending, current, serial, owes)
    }

    /** ratchet_new. */
    constructor (script: seq<Deed>)
      ensures View() == START && this.script == script && Valid() && ops == []
    {
      status, threads, ready, waitingOn := map[0 := Fresh], {0}, {0}, map[];
      alarms, pending, current, serial, owes := map[], map[], None, 1, map[];
      this.script, ops := script, [];
    }

    /** The loop of end_thread_persist over `waiting_on`, which takes the thread off each list. */
    method StrikeOff(t: Tid)
      modifies this`waitingOn
      ensures waitingOn == map k | k in old(waitingOn) :: old(waitingOn)[k] - {t}
    {
      var left := waitingOn.Keys;
      while left != {}
        invariant left <= waitingOn.Keys == old(waitingOn).Keys
        invariant forall k :: k in waitingOn ==>
          waitingOn[k] == if k in left then old(waitingOn)[k] else old(waitingOn)[k] - {t}
        decreases |left|
      {
        var k :| k in left;
        waitingOn := waitingOn[k := waitingOn[k] - {t}];
        left := left - {k};
      }
    }

    method EndThreadPersist(t: Tid)
      requires t in status
      modifies this`status, this`threads, this`pending, this`waitingOn
      ensures View() == EndPersist(old(View()), t)
    {
      status := status[t := Emptied(status[t])];
      threads := threads - {t};
      if t in alarms {
        pending := pending - {alarms[t]};
      }
      StrikeOff(t);
    }

    /** end_all_waiting_thread_events: deletes the event, or each event of the list, the coroutine waits for. */
    method EndWaitingEvents(t: Tid)
      requires t in status
      modifies this`pending
      ensures View() == EndEvents(old(View()), t)
    {
      if status[t].Parked? {
        var es := status[t].park.Events();
        var left := es;
        while left != {}
          invariant left <= es && pending == old(pending) - (es - left)
          decreases |left|
        {
          var e :| e in left;
          pending := pending - {e};
          left := left - {e};
          assert es - left == (es - (left + {e})) + {e};
        }
      }
    }

    method Attach() returns (t: Tid)
      modifies this`status, this`threads, this`ready, this`serial
      ensures View() == Apply(old(View()), Op.Attach) && t == old(serial)
    {
      t := serial;
      status, threads, ready, serial := status[t := Fresh], threads + {t}, ready + {t}, serial + 1;
    }

    method Unpause(t: Tid)
      modifies this`status, this`ready
      ensures View() == Apply(old(View()), Op.Unpause(t))
    {
      status, ready := status[t := Unpaused], ready + {t};
    }

    method Kill(t: Tid)
      requires t in status
      modifies this`status, this`threads, this`pending, this`waitingOn
      ensures View() == Apply(old(View()), Op.Kill(t))
    {
      EndWaitingEvents(t);
      EndThreadPersist(t);
    }

    method KillAll(list: seq<Tid>)
      requires forall t :: t in list ==> t in status
      modifies this`status, this`threads, this`pending, this`waitingOn
      ensures View() == KillEach(old(View()), list)
    {
      var i := 0;
      while i < |list|
        invariant i <= |list| && View() == KillEach(old(View()), list[..i]) && status.Keys == old(status).Keys
      {
        Kill(list[i]);
        i := i + 1;
        assert list[..i][..i - 1] == list[..i - 1];
      }
      assert list[..i] == list;
    }

    method Alarm()
      requires current.Some?
      modifies this`alarms, this`pending, this`serial
      ensures View() == Apply(old(View()), Op.Alarm)
    {
      var t := current.value;
      if t in alarms {
        pending := pending - {alarms[t]};
      }
      alarms, pending, serial := alarms[t := serial], pending[serial := Note(t, true)], serial + 1;
    }

    /** wait_all. A list item that is no thread is an error, raised before anything changes. */
    method WaitAll(list: seq<Tid>) returns (ok: bool)
      requires current.Some?
      modifies this`status, this`waitingOn, this`current, this`owes
      ensures ok <==> forall u :: u in list ==> u in old(status)
      ensures View() == if ok then Apply(old(View()), Op.WaitAll(list)) else old(View())
    {
      var t := current.value;
      var on: set<Tid> := {};
      var i := 0;
      while i < |list|
        invariant i <= |list| && forall u :: u in list[..i] ==> u in status
        invariant on == Unfinished(View(), list[..i])
      {
        if list[i] !in status {
          return false;
        }
        if !status[list[i]].Finished? && !status[list[i]].Failed? {
          on := on + {list[i]};
        }
        i := i + 1;
        assert list[..i] == list[..i - 1] + [list[i - 1]];
      }
      assert list[..i] == list;
      owes := owes[t := set u | u in list && u in threads];
      waitingOn, status, current := waitingOn[t := on], status[t := Parked(ByWaitAll)], None;
      ok := true;
    }

    method Pause()
      requires current.Some?
      modifies this`status, this`current
      ensures View() == Apply(old(View()), Op.Pause)
    {
      status, current := status[current.value := Parked(ByPause)], None;
    }

    /** wait_for_read, wait_for_write and wait_for_timeout. */
    method Block()
      requires current.Some?
      modifies this`status, this`current, this`pending, this`serial
      ensures View() == Apply(old(View()), Op.Block)
    {
      var t := current.value;
      pending, status, current, serial := pending[serial := Note(t, false)], status[t := Parked(ByEvent(serial))], None,
        serial + 1;
    }

    /** Queues `n` events for `t`. */
    method AddEvents(n: nat, t: Tid) returns (es: set<Eid>)
      modifies this`pending, this`serial
      ensures serial == old(serial) + n && es == EventsFrom(old(serial), n)
      ensures pending == old(pending) + NotesFrom(old(serial), n, t)
    {
      es := {};
      var i := 0;
      while i < n
        invariant i <= n && serial == old(serial) + i && es == EventsFrom(old(serial), i)
        invariant pending == old(pending) + NotesFrom(old(serial), i, t)
      {
        es := es + {serial};
        pending := pending[serial := Note(t, false)];
        serial := serial + 1;
        i := i + 1;
      }
    }

    /** wait_for_signal and wait_for_multi: a list of events, any of which resumes the thread. */
    method BlockMany(n: nat)
      requires current.Some?
      modifies this`status, this`current, this`pending, this`serial
      ensures View() == Apply(old(View()), Op.BlockMany(n))
    {
      var t := current.value;
      var es := AddEvents(n, t);
      status, current := status[t := Parked(ByEvents(es))], None;
    }

    /** run_thread when the coroutine returned or raised an error. */
    method End(failed: bool)
      requires current.Some?
      modifies this`status, this`current, this`threads, this`pending, this`waitingOn
      ensures View() == Apply(old(View()), if failed then Op.Throw else Op.Return)
    {
      var t := current.value;
      status, current := status[t := if failed then Failed else Finished], None;
      EndThreadPersist(t);
    }

    /** One turn of start_threads_ready. */
    method RunReady(t: Tid)
      requires t in ready
      modifies this`status, this`current, this`ready
      ensures View() == Apply(old(View()), Op.RunReady(t))
    {
      ready := ready - {t};
      status, current := status[t := Running], Some(t);
    }

    /** One turn of start_threads_done_waiting. */
    method RunDone(t: Tid)
      requires t in waitingOn && waitingOn[t] == {}
      modifies this`status, this`current, this`waitingOn
      ensures View() == Apply(old(View()), Op.RunDone(t))
    {
      waitingOn := waitingOn - {t};
      status, current := status[t := Running], Some(t);
    }

    /** The callbacks libevent calls. */
    method Fire(e: Eid)
      requires e in pending && pending[e].owner in status
      modifies this`status, this`current, this`threads, this`pending, this`waitingOn
      ensures View() == Apply(old(View()), Op.Fire(e))
    {
      var n := pending[e];
      var t := n.owner;
      pending := pending - {e};
      if n.alarm {
        EndWaitingEvents(t);
        EndThreadPersist(t);
      } else {
        if status[t].Parked? && status[t].park.ByEvents? {
          EndWaitingEvents(t);
        }
        status, current := status[t := Running], Some(t);
      }
    }

    // ---- The loop ---------------------------------------------------------------------------

    predicate CanDo(op: Op)
      reads this
      ensures CanDo(op) <==> Enabled(View(), op)
    {
      match op
      case Unpause(t) => current.Some? && t in status && status[t] == Parked(ByPause)
      case Kill(t) => current.Some? && t in status && current != Some(t) && t !in ready
      case WaitAll(list) => current.Some? && forall u :: u in list ==> u in status
      case RunReady(t) => current.None? && t in ready
      case RunDone(t) => current.None? && t in waitingOn && waitingOn[t] == {}
      case Fire(e) => current.None? && e in pending && (pending[e].alarm ==> pending[e].owner !in ready)
      case _ => current.Some?
    }

    /** One operation; the run goes on with it. */
    method Do(op: Op)
      requires Valid() && Enabled(View(), op)
      modifies this
      ensures Valid() && ops == old(ops) + [op] && script == old(script) && View() == Apply(old(View()), op)
    {
      hide Apply, Run, Possible;
      Snoc(ops, op);
      RunOk(ops);
      match op {
        case Attach => var _ := Attach();
        case Unpause(t) => Unpause(t);
        case Kill(t) => Kill(t);
        case Alarm => Alarm();
        case WaitAll(list) => var _ := WaitAll(list);
        case Pause => Pause();
        case Block => Block();
        case BlockMany(n) => BlockMany(n);
        case Return => End(false);
        case Throw => End(true);
        case RunReady(t) => RunReady(t);
        case RunDone(t) => RunDone(t);
        case Fire(e) =>
          assert Belongs(View(), e);
          Fire(e);
      }
      ops := ops + [op];
    }

    /** The thread that was resumed runs until it stops. A call that makes no sense is passed over. */
    method Perform()
      requires Valid() && current.Some?
      modifies this
      ensures Valid() && current.None? && Persists(old(View()), View())
      ensures ops == old(ops) + Done(old(View()), if old(script) == [] then Deed([], Return) else old(script)[0])
      ensures script == if old(script) == [] then [] else old(script)[1..]
      ensures old(script) == [] ==> ready == old(ready)
    {
      hide Run, Possible, Apply, Enabled, Persists;
      var deed := Deed([], Return);
      if script != [] {
        deed, script := script[0], script[1..];
      }
      ghost var s := script;
      PersistsRefl(View());
      for i := 0 to |deed.calls|
        invariant Valid() && current.Some? && script == s && Persists(old(View()), View())
        invariant Taken(old(View()), deed.calls[..i]).1 == View()
          && ops == old(ops) + Taken(old(View()), deed.calls[..i]).0
        invariant deed.calls == [] ==> ready == old(ready)
      {
        assert deed.calls[..i + 1][..i] == deed.calls[..i];
        if IsCall(deed.calls[i]) && CanDo(deed.calls[i]) {
          Call(deed.calls[i], old(View()));
        }
      }
      assert deed.calls[..|deed.calls|] == deed.calls;
      Halt(if IsStop(deed.stop) && CanDo(deed.stop) then deed.stop else Throw, old(View()));
    }

    method Call(op: Op, ghost since: State)
      requires Valid() && IsCall(op) && Enabled(View(), op) && current.Some? && Persists(since, View())
      modifies this
      ensures Valid() && current.Some? && Persists(since, View()) && ops == old(ops) + [op] && script == old(script)
      ensures View() == Apply(old(View()), op)
    {
      hide Run, Possible, Enabled, Persists;
      RunOk(ops);
      CallKeepsRunning(View(), op);
      DeedPersists(View(), op);
      PersistsTrans(since, View(), Apply(View(), op));
      hide Apply;
      Do(op);
    }

    method Halt(op: Op, ghost since: State)
      requires Valid() && IsStop(op) && current.Some? && (op.Throw? || Enabled(View(), op)) && Persists(since, View())
      modifies this
      ensures Valid() && current.None? && Persists(since, View()) && ops == old(ops) + [op] && script == old(script)
        && ready == old(ready)
    {
      hide Run, Possible, Persists;
      RunOk(ops);
      StopStops(View(), op);
      DeedPersists(View(), op);
      PersistsTrans(since, View(), Apply(View(), op));
      hide Apply, Enabled;
      Do(op);
    }

    /** start_threads_ready: every ready thread is resumed, also one that becomes ready meanwhile. */
    method StartThreadsReady() returns (some: bool)
      requires Valid() && current.None?
      modifies this
      ensures Valid() && current.None? && ready == {} && old(ops) <= ops
      ensures some <==> old(ready) != {}
      ensures !some ==> View() == old(View()) && ops == old(ops) && script == old(script)
      ensures forall t :: t in old(ready) ==> Op.RunReady(t) in ops[|old(ops)|..]
    {
      hide Run, Possible, Done;
      some := false;
      while ready != {}
        invariant Valid() && current.None? && old(ops) <= ops
        invariant if some then old(ready) != {} else View() == old(View()) && ops == old(ops) && script == old(script)
        invariant forall t :: t in old(ready) && t !in ready ==> Op.RunReady(t) in ops[|old(ops)|..]
        decreases |script|, |ready|
      {
        var t :| t in ready;
        ghost var before, since := ready, ops;
        Do(Op.RunReady(t));
        assert ready == before - {t};
        Perform();
        GrownTail(old(ops), since, ops, Op.RunReady(t));
        some := true;
      }
    }

    /** A thread whose list has run empty is resumed; the others stay due. */
    method ResumeDone(t: Tid)
      requires Valid() && current.None? && t in waitingOn && waitingOn[t] == {}
      modifies this
      ensures Valid() && current.None? && old(ops) + [Op.RunDone(t)] <= ops
      ensures forall u :: u in old(waitingOn) && u != t && old(waitingOn)[u] == {} ==>
        u in waitingOn && waitingOn[u] == {}
    {
      hide Run, Possible, Done;
      Do(Op.RunDone(t));
      Perform();
    }

    /** start_threads_done_waiting: one pass, in which every thread is resumed whose list has run empty. */
    method StartThreadsDoneWaiting() returns (some: bool)
      requires Valid() && current.None?
      modifies this
      ensures Valid() && current.None? && old(ops) <= ops
      ensures some <==> exists t :: t in old(waitingOn) && old(waitingOn)[t] == {}
      ensures !some ==> View() == old(View()) && ops == old(ops) && script == old(script)
      ensures forall t :: t in old(waitingOn) && old(waitingOn)[t] == {} ==> Op.RunDone(t) in ops[|old(ops)|..]
    {
      hide Run, Possible;
      some := false;
      var left := waitingOn.Keys;
      while left != {}
        invariant Valid() && current.None? && old(ops) <= ops && left <= old(waitingOn).Keys
        invariant some ==> exists t :: t in old(waitingOn) && old(waitingOn)[t] == {}
        invariant !some ==> View() == old(View()) && ops == old(ops) && script == old(script)
        invariant forall t :: t in left && old(waitingOn)[t] == {} ==> t in waitingOn && waitingOn[t] == {}
        invariant forall t :: t in old(waitingOn) && old(waitingOn)[t] == {} && t !in left ==>
          Op.RunDone(t) in ops[|old(ops)|..]
        decreases |left|
      {
        var t :| t in left;
        left := left - {t};
        if t in waitingOn && waitingOn[t] == {} {
          ghost var before := ops;
          ResumeDone(t);
          GrownTail(old(ops), before, ops, Op.RunDone(t));
          some := true;
        }
      }
    }

    /** One callback, and what the thread it resumes goes on to do. */
    method FireOne(e: Eid)
      requires Valid() && Enabled(View(), Op.Fire(e))
      modifies this
      ensures Valid() && current.None? && old(ops) + [Op.Fire(e)] <= ops && old(serial) <= serial && e !in pending
      ensures forall x :: x < old(serial) && x in pending ==> x in old(pending) && pending[x] == old(pending)[x]
    {
      hide Run, Possible, Done;
      RunOk(ops);
      assert Belongs(View(), e);
      FireDrops(View(), e);
      hide Apply;
      Do(Op.Fire(e));
      if current.Some? {
        Perform();
      }
    }

    /** event_base_loop, which calls back for the events in `fires`, as far as they are still pending. */
    method FireEvents(fires: seq<Eid>)
      requires Valid() && current.None?
      modifies this
      ensures Valid() && current.None? && old(ops) <= ops
      ensures forall e :: e in fires && e in old(pending) && e in pending ==> pending[e].alarm
    {
      hide Run, Possible;
      RunOk(ops);
      assert forall e :: e in pending ==> Belongs(View(), e);
      for i := 0 to |fires|
        invariant Valid() && current.None? && old(ops) <= ops && old(serial) <= serial
        invariant forall e :: e in fires[..i] && e in old(pending) && e in pending ==> pending[e].alarm
      {
        if CanDo(Op.Fire(fires[i])) {
          FireOne(fires[i]);
        }
      }
    }

    /** loop_once: ready threads first, then threads whose list ran empty, then events. */
    method LoopOnce(fires: seq<Eid>) returns (r: Verdict)
      requires Valid() && current.None?
      modifies this
      ensures Valid() && current.None? && old(ops) <= ops
      ensures r == OutOfThreads <==> old(Idle(View())) && old(threads) == {}
      ensures r == NoWayOut <==> old(Deadlocked(View()))
      ensures r != GoesOn ==> View() == old(View())
      ensures r == NoWayOut ==> forall t :: t in threads ==> Stuck(View(), t)
      ensures forall t :: t in old(ready) ==> Op.RunReady(t) in ops[|old(ops)|..]
      ensures old(ready) == {} ==>
        forall t :: t in old(waitingOn) && old(waitingOn)[t] == {} ==> Op.RunDone(t) in ops[|old(ops)|..]
      ensures old(Idle(View())) && r == GoesOn ==>
        forall e :: e in fires && e in old(pending) && e in pending ==> pending[e].alarm
    {
      hide Run, Possible;
      var some := StartThreadsReady();
      if some {
        return GoesOn;
      }
      some := StartThreadsDoneWaiting();
      if some {
        return GoesOn;
      }
      if threads == {} {
        return OutOfThreads;
      }
      if pending.Keys == {} {
        assert pending == map[];
        forall t | t in threads
          ensures Stuck(View(), t)
        {
          DeadlockStuck(ops, t);
        }
        return NoWayOut;
      }
      FireEvents(fires);
      r := GoesOn;
    }

    /** ratchet_loop, for as long as `rounds` lasts: every execution is a possible run. */
    method Loop(rounds: seq<seq<Eid>>) returns (r: Verdict)
      requires Valid() && current.None?
      modifies this
      ensures Valid() && current.None? && old(ops) <= ops
      ensures r == OutOfThreads ==> threads == {} && Idle(View())
      ensures r == NoWayOut ==> Deadlocked(View()) && forall t :: t in threads ==> Stuck(View(), t)
    {
      hide Run, Possible;
      r := GoesOn;
      for i := 0 to |rounds|
        invariant Valid() && current.None? && old(ops) <= ops && r == GoesOn
      {
        r := LoopOnce(rounds[i]);
        if r != GoesOn {
          return;
        }
      }
    }
  }

  lemma GrownTail(start: seq<Op>, before: seq<Op>, after: seq<Op>, op: Op)
    requires start <= before && before + [op] <= after
    ensures start <= after && op in after[|start|..] && forall x :: x in before[|start|..] ==> x in after[|start|..]
  {
    assert after[|start|..] == before[|start|..] + [op] + after[|before| + 1..];
  }

  lemma FireDrops(s: State, e: Eid)
    requires Belongs(s, e) && Enabled(s, Op.Fire(e))
    ensures var s' := Apply(s, Op.Fire(e));
      && e < s.serial == s'.serial && e !in s'.pending
      && forall x :: x in s'.pending ==> x in s.pending && s'.pending[x] == s.pending[x]
  {
    var s1 := s.(pending := s.pending - {e});
    var t := s.pending[e].owner;
    FewerEvents(s1, t);
    hide EndEvents, EndPersist;
  }

  lemma FewerEvents(s: State, t: Tid)
    requires t in s.status
    ensures forall x :: x in EndEvents(s, t).pending ==> x in s.pending && EndEvents(s, t).pending[x] == s.pending[x]
    ensures EndEvents(s, t).status == s.status && EndEvents(s, t).serial == s.serial
    ensures var s' := EndPersist(EndEvents(s, t), t);
      s'.serial == s.serial && forall x :: x in s'.pending ==> x in s.pending && s'.pending[x] == s.pending[x]
  {
  }

  lemma PersistsRefl(s: State)
    ensures Persists(s, s)
  {
  }

  lemma PersistsTrans(s: State, s1: State, s2: State)
    requires Persists(s, s1) && Persists(s1, s2)
    ensures Persists(s, s2)
  {
  }

  lemma CallKeepsRunning(s: State, op: Op)
    requires IsCall(op) && Enabled(s, op)
    ensures Apply(s, op).current == s.current
  {
  }

  lemma StopStops(s: State, op: Op)
    requires IsStop(op) && Enabled(s, op)
    ensures Apply(s, op).current.None? && Apply(s, op).ready == s.ready
  {
  }
}
