/** The scheduler and its fibers as the objects they are, with one `use_caller` worker:
    every method keeps them in step with a run of ProtocolDrain, and so of the protocol. */
module SingleWorker {
  import opened Common
  import opened Protocol
  import opened ProtocolCare
  import opened ProtocolDrain
  import opened ProtocolStop
  import opened ProtocolPins

  /** `rest`: what the function of the fiber has still to do. */
  class Fiber {
    const id: nat
    var state: FState
    var hasCb: bool
    var rest: Script

    constructor (id: nat, body: Script)
      ensures this.id == id && state == INIT && hasCb && rest == body
    {
      this.id, state, hasCb, rest := id, INIT, true, body;
    }

    /** `reset`; false where it fails its assertion. */
    method Reset(cb: Option<Script>) returns (ok: bool)
      modifies this
      ensures ok == (old(state) == TERM || old(state) == INIT || old(state) == EXCEPT)
      ensures ok ==> state == INIT && hasCb == cb.Some? && rest == if cb.Some? then cb.value else []
      ensures !ok ==> state == old(state) && hasCb == old(hasCb) && rest == old(rest)
    {
      ok := state == TERM || state == INIT || state == EXCEPT;
      if !ok { return; }
      hasCb := cb.Some?;
      rest := if cb.Some? then cb.value else [];
      state := INIT;
    }

    /** `swapIn`, up to the switch: false where it fails its assertion, or where the
        fiber has ended and goes on behind its last switch. */
    method SwapIn() returns (ok: bool)
      modifies this
      ensures ok == (old(state) != EXEC && old(state) != TERM && old(state) != EXCEPT)
      ensures state == if ok then EXEC else old(state)
      ensures hasCb == old(hasCb) && rest == old(rest)
    {
      if state == EXEC { return false; }
      if state == TERM || state == EXCEPT { return false; }
      state := EXEC;
      ok := true;
    }
  }

  datatype FiberAndThread = FiberAndThread(fiber: Fiber?, cb: Option<Script>, thread: int)

  /** How the loop of the worker ends: it is left; it can only idle, and would go round
      for good; or an assertion fails. */
  datatype Ending = Left | Idling | Failed

  /** The first entry that is not passed over is the one Scan finds. */
  lemma {:induction false} ScanIs(q: seq<Entry>, tid: nat, fibers: seq<Protocol.Fiber>, i: nat)
    requires i <= |q| && forall j :: 0 <= j < i ==> !Eligible(q[j], tid, fibers)
    requires i < |q| ==> Eligible(q[i], tid, fibers)
    ensures Scan(q, tid, fibers) == i
  {
    var n := Scan(q, tid, fibers);
  }

  /** An entry of another thread is in front of place n. */
  predicate PassesForeign(q: seq<Entry>, tid: nat, n: nat)
    requires n <= |q|
  {
    exists j :: 0 <= j < n && Foreign(q[j], tid)
  }

  lemma {:induction false} PassesOneMore(q: seq<Entry>, tid: nat, n: nat)
    requires n < |q|
    ensures PassesForeign(q, tid, n + 1) <==> PassesForeign(q, tid, n) || Foreign(q[n], tid)
  {
  }

  lemma {:induction false} InsideAdvances(y: Sys, f: nat)
    requires Alone(y) && Inside(y, f)
    ensures Advance(y) == Some(Acted(y, ActState(y.p, f, NextAction(y.p.fibers[f], y.tasks[f].rest)), f))
    ensures Measure(Advance(y).value) < Measure(y) && Leads(y, Advance(y).value)
  {
    Open(y);
    DoIs(y.p, f, y.tasks[f].rest);
    AdvanceKeepsAlone(y);
    AdvanceCosts(y);
  }

  /** What leaving a fiber changes. */
  ghost predicate LeavesTo(y: Sys, f: nat, z: Sys)
    requires |y.p.workers| == 1 && |y.tasks| == |y.p.fibers| && f < |y.tasks|
  {
    var a, x := NextAction(y.p.fibers[f], y.tasks[f].rest), y.p.fibers[f];
    var ends := a == Return || a == Throw;
    && z.p.queue == (if a == YieldReady then y.p.queue + [FiberEntry(Handle(f, y.p.nextTicket), -1)] else y.p.queue)
    && z.p.fibers == y.p.fibers[f :=
         if ends && Me(y).phase.Running? && Me(y).phase.viaCb then Protocol.Fiber(INIT, false, None, None)
         else if a == YieldReady then x.(state := READY)
         else if a == YieldHold then x.(state := HOLD)
         else if a == Return then x.(state := TERM, hasCb := false)
         else x.(state := EXCEPT)]
    && z.tasks == y.tasks[f := if ends || y.tasks[f].rest == [] then Task([], None) else Task(y.tasks[f].rest[1..], y.tasks[f].job)]
    && z.p.workers == [Me(y).(phase := Scanning, cbFiber := if Me(y).phase.Running? && Me(y).phase.viaCb && !ends then None else Me(y).cbFiber)]
    && z.p.active == y.p.active - 1 && z.p.idle == y.p.idle && z.p.stopping == y.p.stopping && z.p.autoStop == y.p.autoStop
    && SameBodies(y, z) && forall e :: e in y.p.queue ==> EntryTold(e, y.stories)
  }

  predicate Leaving(a: Action) {
    a == YieldReady || a == YieldHold || a == Return || a == Throw
  }

  lemma {:induction false} LeaveStateIs(s: State, f: nat, a: Action)
    requires |s.workers| == 1 && s.workers[0].phase.Running? && s.workers[0].phase.fiber == f < |s.fibers| && Leaving(a)
    ensures var t, x := ActState(s, f, a), s.fibers[f];
      var ends, viaCb := a == Return || a == Throw, s.workers[0].phase.viaCb;
      && t.queue == (if a == YieldReady then s.queue + [FiberEntry(Handle(f, s.nextTicket), -1)] else s.queue)
      && t.fibers == s.fibers[f :=
           if ends && viaCb then Protocol.Fiber(INIT, false, None, None)
           else if a == YieldReady then x.(state := READY)
           else if a == YieldHold then x.(state := HOLD)
           else if a == Return then x.(state := TERM, hasCb := false)
           else x.(state := EXCEPT)]
      && t.workers == [s.workers[0].(phase := Scanning, cbFiber := if viaCb && !ends then None else s.workers[0].cbFiber)]
      && t.active == s.active - 1 && t.idle == s.idle && t.stopping == s.stopping && t.autoStop == s.autoStop
  {
  }

  lemma {:induction false} LeaveTasksAre(y: Sys, t: State, f: nat)
    requires Shaped(y) && f < |y.tasks|
    requires Leaving(NextAction(y.p.fibers[f], y.tasks[f].rest))
    ensures var a := NextAction(y.p.fibers[f], y.tasks[f].rest);
      Acted(y, t, f).tasks == y.tasks[f :=
        if a == Return || a == Throw || y.tasks[f].rest == [] then Task([], None) else Task(y.tasks[f].rest[1..], y.tasks[f].job)]
  {
  }

  lemma {:induction false} LeaveAdvances(y: Sys, f: nat) returns (z: Sys)
    requires Alone(y) && Inside(y, f) && Leaving(NextAction(y.p.fibers[f], y.tasks[f].rest))
    ensures LeavesTo(y, f, z) && |z.p.workers| == 1 && Me(z).phase == Scanning && Measure(z) < Measure(y) && Leads(y, z)
  {
    Open(y);
    InsideAdvances(y, f);
    AdvanceKeepsBodies(y);
    LeaveIs(y, f);
    z := Advance(y).value;
  }

  lemma {:induction false} LeaveIs(y: Sys, f: nat)
    requires Shaped(y) && Inside(y, f) && Leaving(NextAction(y.p.fibers[f], y.tasks[f].rest))
    requires var z := Acted(y, ActState(y.p, f, NextAction(y.p.fibers[f], y.tasks[f].rest)), f);
      SameBodies(y, z) && forall e :: e in y.p.queue ==> EntryTold(e, y.stories)
    ensures LeavesTo(y, f, Acted(y, ActState(y.p, f, NextAction(y.p.fibers[f], y.tasks[f].rest)), f))
  {
    var t := ActState(y.p, f, NextAction(y.p.fibers[f], y.tasks[f].rest));
    LeaveStateIs(y.p, f, NextAction(y.p.fibers[f], y.tasks[f].rest));
    LeaveTasksAre(y, t, f);
    assert Acted(y, t, f).p == t;
  }

  /** What an act that does not leave the fiber changes. */
  ghost predicate GoesTo(y: Sys, f: nat, z: Sys)
    requires Shaped(y) && f < |y.tasks| && y.tasks[f].rest != []
  {
    var r := y.tasks[f].rest;
    && z.p.queue == (if Added(y, f).Some? then y.p.queue + [Added(y, f).value] else y.p.queue)
    && z.p.fibers == y.p.fibers + (if r[0].Create? then [Protocol.Fiber(INIT, true, None, None)] else [])
    && z.tasks == y.tasks[f := Task(r[1..], y.tasks[f].job)] + (if r[0].Create? then [Task(r[0].body, None)] else [])
    && z.p.workers == y.p.workers
    && z.p.active == y.p.active && z.p.idle == y.p.idle && z.p.stopping == y.p.stopping && z.p.autoStop == y.p.autoStop
    && SameBodies(y, z) && (forall e :: e in y.p.queue ==> EntryTold(e, y.stories))
    && (r[0].Call? ==> ScriptOf(z.stories, y.p.nextTicket) == r[0].body)
  }

  lemma {:induction false} GoOnStateIs(s: State, f: nat, a: Action)
    requires |s.workers| == 1 && s.workers[0].phase.Running? && s.workers[0].phase.fiber == f < |s.fibers|
    requires a.ScheduleCb? || a.ScheduleFiber? || a.Spawn?
    ensures var t := ActState(s, f, a);
      && t.fibers == s.fibers + (if a.Spawn? then [Protocol.Fiber(INIT, true, None, None)] else [])
      && t.workers == s.workers
      && t.active == s.active && t.idle == s.idle && t.stopping == s.stopping && t.autoStop == s.autoStop
  {
  }

  lemma {:induction false} GoOnAdvances(y: Sys, f: nat) returns (z: Sys)
    requires Alone(y) && Inside(y, f) && y.p.fibers[f].hasCb && y.tasks[f].rest != []
    requires var act := y.tasks[f].rest[0]; act.Call? || act.Create? || act.Resume?
    ensures GoesTo(y, f, z) && Measure(z) < Measure(y) && Leads(y, z)
  {
    Open(y);
    InsideAdvances(y, f);
    AllIssued(y.p);
    GoOnIs(y, f);
    GoOnStateIs(y.p, f, NextAction(y.p.fibers[f], y.tasks[f].rest));
    AdvanceKeepsBodies(y);
    z := Advance(y).value;
  }

  lemma {:induction false} DriveGoesOn(y: Sys)
    requires Alone(y) && !AtEnd(y) && Advance(y).Some?
    ensures Measure(Advance(y).value) < Measure(y) && Leads(y, Advance(y).value)
  {
    Open(y);
    AdvanceKeepsAlone(y);
    AdvanceCosts(y);
  }

  /** What taking entry i and entering its fiber changes. */
  ghost predicate EntersTo(y: Sys, i: nat, c: nat, viaCb: bool, x: Protocol.Fiber, z: Sys)
    requires |y.p.workers| == 1 && i < |y.p.queue|
  {
    && z.p.queue == y.p.queue[..i] + y.p.queue[i + 1..] && z.p.active == y.p.active + 1
    && z.p.fibers == Put(y.p.fibers, c, x) && |z.p.workers| == 1
    && z.p.workers[0] == (if viaCb then Me(y).(phase := Running(c, true), cbFiber := Some(c)) else Me(y).(phase := Running(c, false)))
    && z.p.idle == y.p.idle && z.p.stopping == y.p.stopping && z.p.autoStop == y.p.autoStop && z.stories == y.stories
    && forall e :: e in y.p.queue ==> EntryTold(e, y.stories)
  }

  /** Entering the fiber of the entry; it fails iff the fiber has ended. */
  lemma {:induction false} EnterFiberAdvances(y: Sys, i: nat) returns (z: Sys)
    requires Alone(y) && Me(y).phase == Scanning && i == Scan(y.p.queue, Me(y).tid, y.p.fibers) < |y.p.queue|
    requires y.p.queue[i].FiberEntry?
    ensures var f := y.p.queue[i].handle.fiber;
      && f < |y.p.fibers| && y.p.fibers[f].state != EXEC
      && if y.p.fibers[f].state in {TERM, EXCEPT} then EndsAs(Failed, y)
         else EntersTo(y, i, f, false, y.p.fibers[f].(state := EXEC), z) && z.tasks == y.tasks && Measure(z) < Measure(y) && Leads(y, z)
  {
    Open(y);
    assert PlainEntry(y.p.queue[i], |y.p.fibers|);
    EnterFiberIs(y.p, i);
    z := y;
    if Advance(y).Some? {
      DriveGoesOn(y);
      z := Advance(y).value;
    }
  }

  lemma {:induction false} EnterCallbackAdvances(y: Sys, i: nat) returns (z: Sys)
    requires Alone(y) && Me(y).phase == Scanning && i == Scan(y.p.queue, Me(y).tid, y.p.fibers) < |y.p.queue|
    requires y.p.queue[i].CbEntry?
    ensures var c := CallbackFiber(y.p);
      && c <= |y.p.fibers| && (c < |y.p.fibers| ==> y.p.fibers[c].state in {TERM, INIT, EXCEPT})
      && EntersTo(y, i, c, true, Protocol.Fiber(EXEC, true, None, None), z)
      && z.tasks == Put(y.tasks, c, Task(ScriptOf(y.stories, y.p.queue[i].job.ticket), Some(y.p.queue[i].job.ticket)))
      && Measure(z) < Measure(y) && Leads(y, z)
  {
    Open(y);
    assert PlainEntry(y.p.queue[i], |y.p.fibers|);
    EnterCallbackIs(y.p, i);
    DriveGoesOn(y);
    z := Advance(y).value;
  }

  ghost predicate IsEnd(r: Ending, y: Sys)
    requires Shaped(y)
  {
    match r
    case Left => Me(y).phase == Exited
    case Idling => AtEnd(y) && Me(y).phase == AtCheck
    case Failed => !AtEnd(y) && Advance(y).None?
  }

  /** The result of the loop is the outcome of the run. Folded like Alone. */
  ghost predicate EndsAs(r: Ending, y: Sys) {
    Alone(y) && forall n: nat {:trigger Unfold(n)} :: Unfold(n) ==> IsEnd(r, y)
  }

  function EndingOf(o: Outcome): Ending {
    match o case Returned(_) => Left case Spins(_) => Idling case Aborted(_) => Failed
  }

  lemma {:induction false} EndIsOutcome(r: Ending, y: Sys)
    requires EndsAs(r, y)
    ensures EndingOf(Drive(y)) == r && Drive(y).end == y && IsEnd(r, y)
  {
    assert Unfold(0);
  }

  /** The worker is somewhere else in its loop, and nothing else has changed. */
  ghost predicate MovesTo(y: Sys, phase: Phase, done: bool, idle: int, z: Sys)
    requires |y.p.workers| == 1
  {
    z == y.(p := y.p.(workers := [Me(y).(phase := phase, idleDone := done)], idle := idle))
  }

  lemma {:induction false} LoopIdles(s: State)
    requires |s.workers| == 1 && s.workers[0].phase == Scanning && Scan(s.queue, s.workers[0].tid, s.fibers) == |s.queue|
    ensures Loop(s, 0) == Alive(
      if s.workers[0].idleDone then s.(workers := [s.workers[0].(phase := Exited)])
      else s.(workers := [s.workers[0].(phase := AtCheck)], idle := s.idle + 1))
  {
  }

  /** Nothing to take: the idle fiber is entered, or the loop is left. */
  lemma {:induction false} NothingToTake(y: Sys) returns (z: Sys)
    requires Alone(y) && Me(y).phase == Scanning && Scan(y.p.queue, Me(y).tid, y.p.fibers) == |y.p.queue|
    ensures Leads(y, z) && Measure(z) < Measure(y)
    ensures if Me(y).idleDone then MovesTo(y, Exited, true, y.p.idle, z) && EndsAs(Left, z) else MovesTo(y, AtCheck, false, y.p.idle + 1, z)
  {
    LoopIdles(y.p);
    DriveGoesOn(y);
    z := Advance(y).value;
  }

  /** Whether the idle fiber ends, and with no more than that it can only idle. */
  lemma {:induction false} IdleChecks(y: Sys)
    requires Alone(y) && Me(y).phase == AtCheck
    ensures Stopping(y.p) <==> BaseStopping(y.p)
    ensures !Stopping(y.p) ==> EndsAs(Idling, y)
  {
    Open(y);
  }

  /** `stopping()` holds: the idle fiber ends. */
  lemma {:induction false} IdleEnds(y: Sys) returns (z: Sys)
    requires Alone(y) && Me(y).phase == AtCheck && Stopping(y.p)
    ensures MovesTo(y, Scanning, true, y.p.idle - 1, z) && Leads(y, z) && Measure(z) < Measure(y)
  {
    Open(y);
    DriveGoesOn(y);
    z := Advance(y).value;
  }

  /** With nothing queued the loop would be left at once. */
  lemma {:induction false} EmptyReturns(y: Sys)
    requires Alone(y) && Stopped(y.p) && Me(y).phase == Scanning && y.p.queue == [] && y.p.active == 0
    ensures Drive(y).Returned?
  {
    var z := NothingToTake(y);
    SameEnd(y, z);
    if Me(z).phase == AtCheck {
      IdleChecks(z);
      var z1 := IdleEnds(z);
      SameEnd(z, z1);
      var z2 := NothingToTake(z1);
      SameEnd(z1, z2);
      EndIsOutcome(Left, z2);
    } else {
      EndIsOutcome(Left, z);
    }
  }

  /** What it means that `stop`, called in state y, ended as r in state z. */
  ghost predicate StopMeans(y: Sys, r: Ending, z: Sys)
    requires Alone(StopCalled(y))
  {
    && r == EndingOf(Drive(StopCalled(y))) && Shaped(z)
    && match r
       case Left => z.p.queue == [] && z.p.active == 0 && SameBodies(y, z) && AllOver(z)
       case Idling => OnlyForeign(z.p)
       case Failed => TakesEnded(z.p, 0)
  }

  /** Every callback was run exactly once, to its end, an exception, or a yield nobody
      woke it from. */
  ghost predicate AllOver(z: Sys)
    requires Shaped(z)
  {
    forall k :: k in z.stories ==> z.p.consumed[k] == 1 && Over(z, k)
  }

  lemma {:induction false} StopAtOnce(y: Sys)
    requires Waits(y) && y.p.queue == [] && y.p.active == 0
    ensures Alone(StopCalled(y)) && StopMeans(y, Left, StopCalled(y))
  {
    Open(y);
    StopCalledIsAlone(y);
    EmptyReturns(StopCalled(y));
    NothingLeft(StopCalled(y));
  }

  lemma {:induction false} StopAfterRun(y: Sys, r: Ending, z: Sys)
    requires Waits(y) && EndsAs(r, z) && Leads(StopCalled(y), z)
    ensures StopMeans(y, r, z)
  {
    StopCalledIsAlone(y);
    SameEnd(StopCalled(y), z);
    StopEnds(StopCalled(y));
    DriveKeepsBodies(StopCalled(y));
    EndIsOutcome(r, z);
    if r == Left {
      ReturnedIsDrained(z);
      NothingLeft(z);
    }
  }

  /** After callbacks that schedule no fibers by hand, `stop` leaves the loop if and only
      if none of them is pinned elsewhere or pins anything elsewhere; otherwise it is left
      with such entries. */
  lemma {:induction false} LeftIffAllStay(tid: nat, cbs: seq<Callback>, r: Ending, z: Sys)
    requires NoResumes(cbs) && Alone(StopCalled(ScheduledAll(tid, cbs))) && StopMeans(ScheduledAll(tid, cbs), r, z)
    ensures (r == Left <==> AllStay(cbs, tid)) && (r == Idling <==> !AllStay(cbs, tid))
  {
    StopReturnsIffAllStay(tid, cbs);
  }

  /** What the agreement of the queue rests on. */
  lemma {:induction false} QueueIs(y: Sys)
    requires Alone(y)
    ensures forall e :: e in y.p.queue ==> EntryTold(e, y.stories) && PlainEntry(e, |y.p.fibers|)
    ensures y.p.nextTicket !in y.stories
  {
    Open(y);
  }

  class Scheduler {
    const tid: nat
    var queue: seq<FiberAndThread>
    var active: int
    var idle: int
    var autoStop: bool
    var stopping: bool
    /** Every fiber made, as the programs hold pointers to them. */
    var fibers: seq<Fiber>
    // locals of `run`
    var cbFiber: Fiber?
    var idleDone: bool

    ghost var sys: Sys

    // ----- agreement with the protocol -----

    ghost predicate Shows(x: Fiber, f: Protocol.Fiber, t: Task)
      reads x
    {
      x.state == f.state && x.hasCb == f.hasCb && x.rest == t.rest
    }

    ghost predicate EntryShows(ft: FiberAndThread, e: Entry)
      reads this
    {
      ft.thread == e.thread &&
      match e
      case FiberEntry(h, _) => h.fiber < |fibers| && ft.fiber == fibers[h.fiber] && ft.cb.None?
      case CbEntry(job, _) => ft.fiber == null && ft.cb == Some(ScriptOf(sys.stories, job.ticket))
    }

    ghost predicate QueueShows(q: seq<Entry>)
      reads this
    {
      |queue| == |q| && forall i :: 0 <= i < |queue| ==> EntryShows(queue[i], q[i])
    }

    /** The fields but the queue agree with the state; the fibers are numbered as they were made. */
    ghost predicate FieldsShow(activeWas: int)
      reads this, fibers
    {
      && |sys.p.workers| == 1 && Me(sys).tid == tid
      && |fibers| == |sys.tasks| && |fibers| == |sys.p.fibers| && (forall i :: 0 <= i < |fibers| ==> fibers[i].id == i)
      && active == activeWas && autoStop == sys.p.autoStop && stopping == sys.p.stopping && idle == sys.p.idle
      && idleDone == Me(sys).idleDone
      && (match Me(sys).cbFiber case None => cbFiber == null case Some(c) => c < |fibers| && cbFiber == fibers[c])
    }

    ghost predicate FibersShow(but: int)
      requires |fibers| == |sys.tasks| && |fibers| == |sys.p.fibers|
      reads this, fibers
    {
      forall i :: 0 <= i < |fibers| && i != but ==> Shows(fibers[i], sys.p.fibers[i], sys.tasks[i])
    }

    ghost predicate Agrees()
      reads this, fibers
    {
      FieldsShow(sys.p.active) && QueueShows(sys.p.queue) && FibersShow(-1)
    }

    ghost predicate Valid()
      reads this, fibers
    {
      Alone(sys) && Agrees()
    }

    constructor (tid: nat)
      ensures Valid() && Waits(sys) && this.tid == tid && queue == [] && fibers == [] && sys == Begin(tid)
    {
      this.tid := tid;
      queue, active, idle, autoStop, stopping, cbFiber, idleDone := [], 0, 0, false, false, null, false;
      fibers := [];
      sys := Begin(tid);
      BeginIsAlone(tid);
    }

    /** `scheduleNoLock`: empty entries are not queued. */
    method ScheduleNoLock(fiber: Fiber?, cb: Option<Script>, thread: int) returns (needTickle: bool)
      modifies this`queue
      ensures needTickle == (old(queue) == [])
      ensures queue == if fiber != null || cb.Some? then old(queue) + [FiberAndThread(fiber, cb, thread)] else old(queue)
    {
      needTickle := queue == [];
      if fiber != null || cb.Some? {
        queue := queue + [FiberAndThread(fiber, cb, thread)];
      }
    }

    // ----- before stop -----

    /** `schedule` of a callback. */
    method Schedule(body: Script, thread: int)
      requires Valid() && Waits(sys)
      modifies this`queue, this`sys
      ensures Valid() && Waits(sys) && sys == ScheduledCb(old(sys), body, thread)
    {
      ghost var y := sys;
      QueueIs(sys);
      ScheduledCbIsAlone(sys, body, thread);
      var _ := ScheduleNoLock(null, Some(body), thread);
      sys := ScheduledCb(sys, body, thread);
      OldEntriesShow(y);
    }

    /** Callbacks scheduled one after the other on a new scheduler. */
    method ScheduleEach(cbs: seq<Callback>)
      requires Valid() && sys == Begin(tid) && Waits(sys)
      modifies this`queue, this`sys
      ensures Valid() && Waits(sys) && sys == ScheduledAll(tid, cbs)
    {
      for i := 0 to |cbs|
        invariant Valid() && Waits(sys) && sys == ScheduledAll(tid, cbs[..i])
      {
        assert cbs[..i + 1][..i] == cbs[..i];
        Schedule(cbs[i].script, cbs[i].thread);
      }
      assert cbs[..|cbs|] == cbs;
    }

    /** What was queued is still shown, when callbacks keep their scripts. */
    twostate lemma OldEntriesShow(y: Sys)
      requires y == old(sys) && old(QueueShows(y.p.queue)) && old(fibers) <= fibers
      requires SameBodies(y, sys) && forall e :: e in y.p.queue ==> EntryTold(e, y.stories)
      ensures forall i :: 0 <= i < |y.p.queue| ==> EntryShows(old(queue)[i], y.p.queue[i])
    {
      forall i | 0 <= i < |y.p.queue| ensures EntryShows(old(queue)[i], y.p.queue[i]) {
        assert EntryTold(y.p.queue[i], y.stories) && y.p.queue[i] in y.p.queue;
        assert old(EntryShows(queue[i], y.p.queue[i]));
      }
    }

    /** A new fiber. */
    method Make(body: Script) returns (f: Fiber)
      requires Valid() && Waits(sys)
      modifies this`fibers, this`sys
      ensures Valid() && Waits(sys) && fresh(f) && fibers == old(fibers) + [f] && sys == Created(old(sys), body)
    {
      ghost var y := sys;
      QueueIs(sys);
      CreatedIsAlone(sys, body);
      f := new Fiber(|fibers|, body);
      fibers := fibers + [f];
      sys := Created(sys, body);
      OldEntriesShow(y);
    }

    /** `schedule` of a fiber. */
    method ScheduleFiber(f: Fiber, thread: int)
      requires Valid() && Waits(sys) && f in fibers
      modifies this`queue, this`sys
      ensures Valid() && Waits(sys) && sys == ScheduledFiber(old(sys), f.id, thread)
    {
      ghost var y := sys;
      QueueIs(sys);
      ScheduledFiberIsAlone(sys, f.id, thread);
      var _ := ScheduleNoLock(f, None, thread);
      sys := ScheduledFiber(sys, f.id, thread);
      OldEntriesShow(y);
    }

    // ----- the worker loop -----

    /** The scan of the queue, under its lock. */
    method Pick() returns (ft: FiberAndThread, isActive: bool, tickleMe: bool)
      requires Valid()
      modifies this`queue, this`active
      ensures var i := Scan(sys.p.queue, tid, sys.p.fibers);
        && isActive == (i < |sys.p.queue|)
        && tickleMe == PassesForeign(sys.p.queue, tid, i)
        && if isActive then
             ft == old(queue)[i] && queue == old(queue)[..i] + old(queue)[i + 1..] && active == old(active) + 1
           else
             ft == FiberAndThread(null, None, -1) && queue == old(queue) && active == old(active)
    {
      QueueIs(sys);
      ft, isActive, tickleMe := FiberAndThread(null, None, -1), false, false;
      var it := 0;
      while it < |queue|
        invariant 0 <= it <= |queue| && queue == old(queue) && active == old(active) && !isActive
        invariant ft == FiberAndThread(null, None, -1)
        invariant forall j :: 0 <= j < it ==> !Eligible(sys.p.queue[j], tid, sys.p.fibers)
        invariant tickleMe == PassesForeign(sys.p.queue, tid, it)
      {
        assert EntryShows(queue[it], sys.p.queue[it]) && sys.p.queue[it] in sys.p.queue;
        PassesOneMore(sys.p.queue, tid, it);
        if queue[it].thread != -1 && queue[it].thread != tid {
          it := it + 1;
          tickleMe := true;
          continue;
        }
        assert queue[it].fiber != null || queue[it].cb.Some?;
        if queue[it].fiber != null && queue[it].fiber.state == EXEC {
          it := it + 1;
          continue;
        }
        ScanIs(sys.p.queue, tid, sys.p.fibers, it);
        ft := queue[it];
        queue := queue[..it] + queue[it + 1..];
        active := active + 1;
        isActive := true;
        return;
      }
      ScanIs(sys.p.queue, tid, sys.p.fibers, it);
    }

    // ----- inside of a fiber -----

    /** The worker is inside of f, and everything agrees. */
    ghost predicate In(f: Fiber)
      reads this, fibers
    {
      Valid() && f.id < |fibers| && fibers[f.id] == f && Inside(sys, f.id)
    }

    /** Going on: fibers are only added, and the worker's future is the one it had. */
    twostate predicate GoesOn()
      reads this
    {
      && old(fibers) <= fibers && (forall i :: |old(fibers)| <= i < |fibers| ==> fresh(fibers[i]))
      && Leads(old(sys), sys)
    }

    /** An act that does not leave f, and what it adds, keeps the agreement. */
    twostate lemma GoneOnAgrees(f: Fiber)
      requires old(Agrees()) && Shaped(old(sys)) && f.id < |old(fibers)| && old(fibers)[f.id] == f && old(sys).tasks[f.id].rest != []
      requires GoesTo(old(sys), f.id, sys)
      requires var r, e := old(sys).tasks[f.id].rest, Added(old(sys), f.id);
        && f.rest == r[1..] && f.state == old(f.state) && f.hasCb == old(f.hasCb)
        && |queue| == |old(queue)| + (if e.Some? then 1 else 0) && old(queue) <= queue
        && (e.Some? ==> EntryShows(queue[|old(queue)|], e.value))
        && |fibers| == |old(fibers)| + (if r[0].Create? then 1 else 0) && old(fibers) <= fibers
        && (r[0].Create? ==> var g := fibers[|old(fibers)|];
             g.id == |old(fibers)| && g.state == INIT && g.hasCb && g.rest == r[0].body)
      requires forall y :: y in old(fibers) && y != f ==> unchanged(y)
      requires unchanged(this`active) && unchanged(this`idle) && unchanged(this`autoStop) && unchanged(this`stopping)
      requires unchanged(this`idleDone) && unchanged(this`cbFiber)
      ensures Agrees()
    {
      OldEntriesShow(old(sys));
      forall n | 0 <= n < |fibers| ensures fibers[n].id == n && Shows(fibers[n], sys.p.fibers[n], sys.tasks[n]) {
        if n < |old(fibers)| {
          assert fibers[n] == old(fibers)[n] && fibers[n] in old(fibers) && (n != f.id ==> unchanged(fibers[n]));
          assert old(Shows(fibers[n], sys.p.fibers[n], sys.tasks[n]));
        }
      }
    }

    method DoCall(f: Fiber)
      requires In(f) && f.hasCb && f.rest != [] && f.rest[0].Call?
      modifies this`queue, this`sys, f`rest
      ensures In(f) && GoesOn() && sys.p.workers == old(sys).p.workers && Measure(sys) < Measure(old(sys))
    {
      assert Shows(f, sys.p.fibers[f.id], sys.tasks[f.id]);
      ghost var z := GoOnAdvances(sys, f.id);
      var act := f.rest[0];
      f.rest := f.rest[1..];
      var _ := ScheduleNoLock(null, Some(act.body), act.thread);
      sys := z;
      GoneOnAgrees(f);
    }

    method DoCreate(f: Fiber)
      requires In(f) && f.hasCb && f.rest != [] && f.rest[0].Create?
      modifies this`fibers, this`sys, f`rest
      ensures In(f) && GoesOn() && sys.p.workers == old(sys).p.workers && Measure(sys) < Measure(old(sys))
    {
      assert Shows(f, sys.p.fibers[f.id], sys.tasks[f.id]);
      ghost var z := GoOnAdvances(sys, f.id);
      var act := f.rest[0];
      f.rest := f.rest[1..];
      var g := new Fiber(|fibers|, act.body);
      fibers := fibers + [g];
      sys := z;
      GoneOnAgrees(f);
    }

    /** A pointer to a fiber that was never made is null, and is not queued. */
    method DoResume(f: Fiber)
      requires In(f) && f.hasCb && f.rest != [] && f.rest[0].Resume?
      modifies this`queue, this`sys, f`rest
      ensures In(f) && GoesOn() && sys.p.workers == old(sys).p.workers && Measure(sys) < Measure(old(sys))
    {
      assert Shows(f, sys.p.fibers[f.id], sys.tasks[f.id]);
      ghost var z := GoOnAdvances(sys, f.id);
      var act := f.rest[0];
      f.rest := f.rest[1..];
      var _ := ScheduleNoLock(if act.target < |fibers| then fibers[act.target] else null, None, act.thread);
      sys := z;
      GoneOnAgrees(f);
    }

    /** How f was left: the state it is in tells what the protocol's next step is. */
    ghost predicate Left(f: Fiber)
      reads this, fibers
    {
      Alone(sys) && AgreesBut(f)
    }

    ghost predicate AgreesBut(f: Fiber)
      reads this, fibers
    {
      && FieldsShow(sys.p.active) && QueueShows(sys.p.queue) && f.id < |fibers| && fibers[f.id] == f && Inside(sys, f.id)
      && FibersShow(f.id) && LeftBy(f, sys.p.fibers[f.id], sys.tasks[f.id].rest)
    }

    ghost predicate LeftBy(f: Fiber, x: Protocol.Fiber, r: Script)
      reads f
    {
      match NextAction(x, r)
      case YieldReady => r != [] && f.state == READY && f.hasCb && f.rest == r[1..]
      case YieldHold => r != [] && f.state == HOLD && f.hasCb && f.rest == r[1..]
      case Return => f.state == TERM && !f.hasCb && f.rest == []
      case Throw => f.state == EXCEPT && f.hasCb == x.hasCb && f.rest == []
      case _ => false
    }

    /** The end of the function, an exception, or a yield. Calling an empty function throws. */
    method SwitchOut(f: Fiber)
      requires In(f) && (!f.hasCb || f.rest == [] || f.rest[0] == ToReady || f.rest[0] == ToHold || f.rest[0] == Raise)
      modifies f`state, f`hasCb, f`rest
      ensures Left(f)
    {
      assert Shows(f, sys.p.fibers[f.id], sys.tasks[f.id]);
      if !f.hasCb {
        f.state, f.rest := EXCEPT, [];
      } else if f.rest == [] {
        f.hasCb := false;
        f.state := TERM;
      } else if f.rest[0] == ToReady {
        f.rest := f.rest[1..];
        f.state := READY;
      } else if f.rest[0] == ToHold {
        f.rest := f.rest[1..];
        f.state := HOLD;
      } else {
        f.state, f.rest := EXCEPT, [];
      }
    }

    /** `MainFunc`: the function of the fiber, up to the next switch out of it. */
    method RunBody(f: Fiber)
      requires In(f)
      modifies this`queue, this`fibers, this`sys, f`state, f`hasCb, f`rest
      ensures Left(f) && GoesOn() && sys.p.workers == old(sys).p.workers
    {
      while f.hasCb && f.rest != [] && (f.rest[0].Call? || f.rest[0].Create? || f.rest[0].Resume?)
        invariant In(f) && GoesOn() && sys.p.workers == old(sys).p.workers
        decreases Measure(sys)
      {
        ghost var y := sys;
        if f.rest[0].Call? {
          DoCall(f);
        } else if f.rest[0].Create? {
          DoCreate(f);
        } else {
          DoResume(f);
        }
        LeadsOn(old(sys), y, sys);
      }
      SwitchOut(f);
    }

    // ----- leaving a fiber -----

    twostate lemma LeftAgrees(f: Fiber)
      requires old(AgreesBut(f)) && LeavesTo(old(sys), f.id, sys)
      requires fibers == old(fibers) && idle == old(idle) && stopping == old(stopping) && autoStop == old(autoStop) && idleDone == old(idleDone)
      requires active == old(active) - 1
      requires forall x :: x in fibers && x != f ==> unchanged(x)
      requires var a, viaCb := NextAction(old(sys).p.fibers[f.id], old(sys).tasks[f.id].rest), Me(old(sys)).phase.viaCb;
        && queue == (if a == YieldReady then old(queue) + [FiberAndThread(f, None, -1)] else old(queue))
        && cbFiber == (if viaCb && (a == YieldReady || a == YieldHold) then null else old(cbFiber))
        && (if viaCb && (a == Return || a == Throw) then f.state == INIT && !f.hasCb && f.rest == [] else unchanged(f))
      ensures Agrees()
    {
      OldEntriesShow(old(sys));
      forall i | 0 <= i < |fibers| ensures Shows(fibers[i], sys.p.fibers[i], sys.tasks[i]) {
        if i != f.id {
          assert fibers[i] in fibers && fibers[i].id == i && unchanged(fibers[i]);
          assert old(Shows(fibers[i], sys.p.fibers[i], sys.tasks[i]));
        }
      }
    }

    /** The bookkeeping after `swapIn` of a fiber that was taken as a fiber. */
    method AfterFiber(f: Fiber)
      requires Left(f) && !Me(sys).phase.viaCb
      modifies this`queue, this`active, this`sys, f`state
      ensures Valid() && Me(sys).phase == Scanning && GoesOn() && Measure(sys) < Measure(old(sys))
    {
      ghost var z := LeaveAdvances(sys, f.id);
      active := active - 1;
      if f.state == READY {
        var _ := ScheduleNoLock(f, None, -1);
      } else if f.state != TERM && f.state != EXCEPT {
        f.state := HOLD;
      }
      sys := z;
      LeftAgrees(f);
    }

    /** What the callback fiber is after it was left: let go, or reset for the next one. */
    method ParkCallbackFiber(f: Fiber) returns (ok: bool)
      requires cbFiber == f && f.state in {READY, HOLD, EXCEPT, TERM}
      modifies this`queue, this`cbFiber, f
      ensures ok
      ensures queue == if old(f.state) == READY then old(queue) + [FiberAndThread(f, None, -1)] else old(queue)
      ensures if old(f.state) in {READY, HOLD} then cbFiber == null && unchanged(f)
        else cbFiber == f && f.state == INIT && !f.hasCb && f.rest == []
    {
      ok := true;
      if f.state == READY {
        var _ := ScheduleNoLock(f, None, -1);
        cbFiber := null;
      } else if f.state == EXCEPT || f.state == TERM {
        ok := f.Reset(None);
      } else {
        f.state := HOLD;
        cbFiber := null;
      }
    }

    /** The bookkeeping after `swapIn` of the callback fiber. */
    method AfterCallback(f: Fiber) returns (ok: bool)
      requires Left(f) && Me(sys).phase.viaCb && cbFiber == f
      modifies this`queue, this`active, this`sys, this`cbFiber, f
      ensures ok && Valid() && Me(sys).phase == Scanning && GoesOn() && Measure(sys) < Measure(old(sys))
    {
      ghost var z := LeaveAdvances(sys, f.id);
      active := active - 1;
      ok := ParkCallbackFiber(f);
      sys := z;
      LeftAgrees(f);
    }

    // ----- entering a fiber -----

    /** An entry has been picked: it was at i, and is gone from the queue. */
    ghost predicate Picked(i: nat)
      reads this, fibers
    {
      && Alone(sys) && Me(sys).phase == Scanning && i == Scan(sys.p.queue, tid, sys.p.fibers) < |sys.p.queue|
      && FieldsShow(sys.p.active + 1) && FibersShow(-1)
      && QueueShows(sys.p.queue[..i] + sys.p.queue[i + 1..])
    }

    /** Entries that stay are shown after callbacks were added, and fibers. */
    twostate lemma QueueStillShows(q: seq<Entry>)
      requires old(QueueShows(q)) && old(fibers) <= fibers && queue == old(queue) && sys.stories == old(sys).stories
      ensures QueueShows(q)
    {
      forall i | 0 <= i < |queue| ensures EntryShows(queue[i], q[i]) {
        assert old(EntryShows(queue[i], q[i]));
      }
    }

    /** False, and nothing else, iff the fiber has ended. */
    method EnterFiber(f: Fiber, ghost i: nat) returns (ok: bool)
      requires Picked(i) && sys.p.queue[i].FiberEntry? && sys.p.queue[i].handle.fiber < |fibers| && f == fibers[sys.p.queue[i].handle.fiber]
      modifies this`sys, f
      ensures !ok ==> sys == old(sys) && EndsAs(Failed, sys)
      ensures ok ==> In(f) && !Me(sys).phase.viaCb && GoesOn() && Measure(sys) < Measure(old(sys))
    {
      ghost var z := EnterFiberAdvances(sys, i);
      assert Shows(f, sys.p.fibers[f.id], sys.tasks[f.id]);
      ok := f.SwapIn();
      if !ok { return; }
      sys := z;
    }

    /** Entering the callback fiber f, with its record x and task t, keeps the agreement. */
    twostate lemma EnteredAgrees(new f: Fiber, new i: nat, new x: Protocol.Fiber, new t: Task)
      requires |old(sys).p.workers| == 1 && i < |old(sys).p.queue|
      requires old(FieldsShow(sys.p.active + 1)) && old(FibersShow(-1)) && old(QueueShows(sys.p.queue[..i] + sys.p.queue[i + 1..]))
      requires EntersTo(old(sys), i, f.id, true, x, sys) && sys.tasks == Put(old(sys).tasks, f.id, t)
      requires f.id <= |old(fibers)| && fibers == Put(old(fibers), f.id, f) && old(fibers) <= fibers
      requires f.state == x.state && f.hasCb == x.hasCb && f.rest == t.rest
      requires forall y :: y in old(fibers) && y != f ==> unchanged(y)
      requires queue == old(queue) && active == old(active) && idle == old(idle) && autoStop == old(autoStop)
      requires stopping == old(stopping) && idleDone == old(idleDone) && cbFiber == f
      ensures Agrees() && fibers[f.id] == f
    {
      QueueStillShows(sys.p.queue);
      forall n | 0 <= n < |fibers| ensures fibers[n].id == n && Shows(fibers[n], sys.p.fibers[n], sys.tasks[n]) {
        if n != f.id {
          assert fibers[n] == old(fibers)[n] && fibers[n] in old(fibers) && unchanged(fibers[n]);
          assert old(Shows(fibers[n], sys.p.fibers[n], sys.tasks[n]));
        }
      }
    }

    /** The callback fiber that was kept is reset and entered: neither assertion fails. */
    method ReuseCallbackFiber(f: Fiber, cb: Script, ghost i: nat)
      requires Picked(i) && sys.p.queue[i].CbEntry? && cb == ScriptOf(sys.stories, sys.p.queue[i].job.ticket) && cbFiber == f
      modifies this`sys, f
      ensures In(f) && Me(sys).phase.viaCb && GoesOn() && Measure(sys) < Measure(old(sys))
    {
      ghost var z := EnterCallbackAdvances(sys, i);
      assert Shows(f, sys.p.fibers[f.id], sys.tasks[f.id]);
      var reset := f.Reset(Some(cb));
      assert reset;
      var entered := f.SwapIn();
      assert entered;
      ghost var t := Task(cb, Some(sys.p.queue[i].job.ticket));
      sys := z;
      EnteredAgrees(f, i, Protocol.Fiber(EXEC, true, None, None), t);
    }

    /** There was none: one is made and entered. */
    method MakeCallbackFiber(cb: Script, ghost i: nat) returns (f: Fiber)
      requires Picked(i) && sys.p.queue[i].CbEntry? && cb == ScriptOf(sys.stories, sys.p.queue[i].job.ticket) && cbFiber == null
      modifies this`sys, this`fibers, this`cbFiber
      ensures fresh(f) && cbFiber == f && In(f) && Me(sys).phase.viaCb && GoesOn() && Measure(sys) < Measure(old(sys))
    {
      ghost var z := EnterCallbackAdvances(sys, i);
      f := new Fiber(|fibers|, cb);
      fibers := fibers + [f];
      cbFiber := f;
      var entered := f.SwapIn();
      assert entered;
      ghost var t := Task(cb, Some(sys.p.queue[i].job.ticket));
      sys := z;
      EnteredAgrees(f, i, Protocol.Fiber(EXEC, true, None, None), t);
    }

    // ----- the loop -----

    method Stopping() returns (b: bool)
      ensures b == (autoStop && stopping && queue == [] && active == 0)
    {
      b := autoStop && stopping && queue == [] && active == 0;
    }

    /** Nothing changed but where the worker is. */
    twostate lemma SameFieldsAgree()
      requires old(Agrees()) && fibers == old(fibers) && queue == old(queue) && active == old(active)
      requires autoStop == old(autoStop) && stopping == old(stopping) && cbFiber == old(cbFiber)
      requires forall x :: x in fibers ==> unchanged(x)
      requires sys == old(sys).(p := old(sys).p.(workers := sys.p.workers, idle := sys.p.idle)) && |sys.p.workers| == 1
      requires Me(sys) == Me(old(sys)).(phase := Me(sys).phase, idleDone := Me(sys).idleDone)
      requires idleDone == Me(sys).idleDone && idle == sys.p.idle
      ensures Agrees()
    {
      forall i | 0 <= i < |queue| ensures EntryShows(queue[i], sys.p.queue[i]) {
        assert old(EntryShows(queue[i], sys.p.queue[i]));
      }
      forall i | 0 <= i < |fibers| ensures Shows(fibers[i], sys.p.fibers[i], sys.tasks[i]) {
        assert fibers[i] in fibers && old(Shows(fibers[i], sys.p.fibers[i], sys.tasks[i]));
      }
    }

    twostate lemma FlagsAgree()
      requires old(Agrees()) && fibers == old(fibers) && queue == old(queue) && active == old(active) && idle == old(idle)
      requires idleDone == old(idleDone) && cbFiber == old(cbFiber)
      requires forall x :: x in fibers ==> unchanged(x)
      requires sys == StopCalled(old(sys)) && autoStop && stopping
      ensures Agrees()
    {
      forall i | 0 <= i < |queue| ensures EntryShows(queue[i], sys.p.queue[i]) {
        assert old(EntryShows(queue[i], sys.p.queue[i]));
      }
      forall i | 0 <= i < |fibers| ensures Shows(fibers[i], sys.p.fibers[i], sys.tasks[i]) {
        assert fibers[i] in fibers && old(Shows(fibers[i], sys.p.fibers[i], sys.tasks[i]));
      }
    }

    /** Inside of the idle fiber, once. None: go on; the loop is left next time. */
    method Idle() returns (r: Option<Ending>)
      requires Valid() && Me(sys).phase == Scanning && !idleDone && Scan(sys.p.queue, tid, sys.p.fibers) == |sys.p.queue|
      modifies this`idle, this`idleDone, this`sys
      ensures GoesOn() && Valid()
      ensures r.None? ==> Me(sys).phase == Scanning && Measure(sys) < Measure(old(sys))
      ensures r.Some? ==> r == Some(Idling) && EndsAs(Idling, sys)
    {
      ghost var y := NothingToTake(sys);
      IdleChecks(y);
      idle := idle + 1;
      var b := Stopping();
      if !b {
        // YieldToHold, and around again for good
        sys := y;
        SameFieldsAgree();
        return Some(Idling);
      }
      ghost var z := IdleEnds(y);
      LeadsOn(sys, y, z);
      idleDone := true;
      idle := idle - 1;
      sys := z;
      SameFieldsAgree();
      r := None;
    }

    /** A round that took a fiber; false where an assertion fails. */
    method TurnFiber(f: Fiber, ghost i: nat) returns (ok: bool)
      requires Picked(i) && sys.p.queue[i].FiberEntry? && sys.p.queue[i].handle.fiber < |fibers| && f == fibers[sys.p.queue[i].handle.fiber]
      modifies this`queue, this`fibers, this`active, this`sys, f
      ensures GoesOn()
      ensures ok ==> Valid() && Me(sys).phase == Scanning && Measure(sys) < Measure(old(sys))
      ensures !ok ==> EndsAs(Failed, sys)
    {
      ok := EnterFiber(f, i);
      if !ok { return; }
      ghost var y := sys;
      RunBody(f);
      LeadsOn(old(sys), y, sys);
      y := sys;
      AfterFiber(f);
      LeadsOn(old(sys), y, sys);
    }

    method EnterCallback(cb: Script, ghost i: nat) returns (f: Fiber)
      requires Picked(i) && sys.p.queue[i].CbEntry? && cb == ScriptOf(sys.stories, sys.p.queue[i].job.ticket)
      modifies this`fibers, this`cbFiber, this`sys, cbFiber
      ensures In(f) && cbFiber == f && (f == old(cbFiber) || fresh(f))
      ensures Me(sys).phase.viaCb && GoesOn() && Measure(sys) < Measure(old(sys))
    {
      if cbFiber != null {
        f := cbFiber;
        ReuseCallbackFiber(f, cb, i);
      } else {
        f := MakeCallbackFiber(cb, i);
      }
    }

    /** A round that took a callback. */
    method TurnCallback(cb: Script, ghost i: nat)
      requires Picked(i) && sys.p.queue[i].CbEntry? && cb == ScriptOf(sys.stories, sys.p.queue[i].job.ticket)
      modifies this`queue, this`fibers, this`active, this`cbFiber, this`sys, cbFiber
      ensures GoesOn() && Valid() && Me(sys).phase == Scanning && Measure(sys) < Measure(old(sys))
    {
      var f := EnterCallback(cb, i);
      ghost var y := sys;
      FinishCallback(f);
      LeadsOn(old(sys), y, sys);
    }

    /** The callback up to its next switch out, and the bookkeeping. */
    method FinishCallback(f: Fiber)
      requires In(f) && cbFiber == f && Me(sys).phase.viaCb
      modifies this`queue, this`fibers, this`active, this`cbFiber, this`sys, f
      ensures GoesOn() && Valid() && Me(sys).phase == Scanning && Measure(sys) < Measure(old(sys))
    {
      RunBody(f);
      ghost var y := sys;
      var _ := AfterCallback(f);
      LeadsOn(old(sys), y, sys);
    }

    /** A round that took nothing: the idle fiber, or out of the loop. */
    method TurnIdle() returns (r: Option<Ending>)
      requires Valid() && Me(sys).phase == Scanning && Scan(sys.p.queue, tid, sys.p.fibers) == |sys.p.queue|
      modifies this`idle, this`idleDone, this`sys
      ensures GoesOn() && Valid()
      ensures r.None? ==> Me(sys).phase == Scanning && Measure(sys) < Measure(old(sys))
      ensures r.Some? ==> EndsAs(r.value, sys)
    {
      if idleDone {
        sys := NothingToTake(sys);
        SameFieldsAgree();
        return Some(Ending.Left);
      }
      r := Idle();
    }

    /** One round of the loop of `run`. None: go on. */
    method Turn() returns (r: Option<Ending>)
      requires Valid() && Me(sys).phase == Scanning
      modifies this, fibers
      ensures GoesOn()
      ensures r.None? ==> Valid() && Me(sys).phase == Scanning && Measure(sys) < Measure(old(sys))
      ensures r.Some? ==> EndsAs(r.value, sys) && (r.value != Failed ==> Valid())
    {
      ghost var i := Scan(sys.p.queue, tid, sys.p.fibers);
      var ft, isActive := PickUp(i);
      if isActive {
        r := TurnTaken(ft, i);
      } else {
        r := TurnIdle();
      }
    }

    /** The scan, and the tickle for the entries that were passed over, which does nothing here. */
    method PickUp(ghost i: nat) returns (ft: FiberAndThread, isActive: bool)
      requires Valid() && Me(sys).phase == Scanning && i == Scan(sys.p.queue, tid, sys.p.fibers)
      modifies this`queue, this`active
      ensures isActive ==> Picked(i) && EntryShows(ft, sys.p.queue[i])
      ensures !isActive ==> Valid() && i == |sys.p.queue|
    {
      PickShows(i);
      var tickleMe;
      ft, isActive, tickleMe := Pick();
    }

    /** A round that took an entry. */
    method TurnTaken(ft: FiberAndThread, ghost i: nat) returns (r: Option<Ending>)
      requires Picked(i) && EntryShows(ft, sys.p.queue[i])
      modifies this, fibers
      ensures GoesOn()
      ensures r.None? ==> Valid() && Me(sys).phase == Scanning && Measure(sys) < Measure(old(sys))
      ensures r.Some? ==> r == Some(Failed) && EndsAs(Failed, sys)
    {
      r := None;
      if ft.fiber != null {
        var ok := TurnFiber(ft.fiber, i);
        if !ok { r := Some(Failed); }
      } else if ft.cb.Some? {
        TurnCallback(ft.cb.value, i);
      }
    }

    /** What is queued at i, and what stays when it is taken. */
    lemma PickShows(i: nat)
      requires Valid() && i <= |queue|
      ensures forall e :: e in sys.p.queue ==> PlainEntry(e, |fibers|)
      ensures i < |queue| ==>
        && PlainEntry(sys.p.queue[i], |fibers|) && EntryShows(queue[i], sys.p.queue[i])
        && var q, q' := sys.p.queue[..i] + sys.p.queue[i + 1..], queue[..i] + queue[i + 1..];
        |q| == |q'| && forall j :: 0 <= j < |q'| ==> EntryShows(q'[j], q[j])
    {
      QueueIs(sys);
      if i < |queue| {
        assert sys.p.queue[i] in sys.p.queue;
        var q, q' := sys.p.queue[..i] + sys.p.queue[i + 1..], queue[..i] + queue[i + 1..];
        forall j | 0 <= j < |q'| ensures EntryShows(q'[j], q[j]) {
          var j' := if j < i then j else j + 1;
          assert q'[j] == queue[j'] && q[j] == sys.p.queue[j'] && EntryShows(queue[j'], sys.p.queue[j']);
        }
      }
    }

    method Run() returns (r: Ending)
      requires Valid() && Me(sys).phase == Scanning
      modifies this, fibers
      ensures r != Failed ==> Valid()
      ensures EndsAs(r, sys) && Leads(old(sys), sys)
    {
      while true
        invariant Valid() && Me(sys).phase == Scanning && GoesOn()
        decreases Measure(sys)
      {
        ghost var y := sys;
        var t := Turn();
        LeadsOn(old(sys), y, sys);
        if t.Some? { return t.value; }
      }
    }

    /** `stop`: it ends as the run of the worker does. */
    method Stop() returns (r: Ending)
      requires Valid() && Waits(sys)
      modifies this, fibers
      ensures Alone(StopCalled(old(sys))) && StopMeans(old(sys), r, sys)
      ensures r != Failed ==> Valid()
    {
      ghost var y := sys;
      StopCalledIsAlone(sys);
      autoStop := true;
      stopping := true;
      sys := StopCalled(sys);
      FlagsAgree();
      var b := Stopping();
      if b {
        StopAtOnce(y);
        return Ending.Left;
      }
      r := Run();
      StopAfterRun(y, r, sys);
    }
  }
}
