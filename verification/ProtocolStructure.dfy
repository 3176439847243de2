/** What holds of the protocol in every reachable state: the counters, exclusive use of
    fibers, and what the end of the last idle fiber means. */
module ProtocolStructure {
  import opened Common
  import Io = IoSpec
  import opened TimerSpec
  import opened Protocol

  // ----- the invariant -----

  function IsRunning(): Worker -> nat {
    (w: Worker) => if w.phase.Running? then 1 else 0
  }

  predicate InIdle(p: Phase) {
    p.AtCheck? || p.Polling? || p.Handing? || p.Dispatching?
  }

  function IsIdle(): Worker -> nat {
    (w: Worker) => if InIdle(w.phase) then 1 else 0
  }

  function RunsFiber(f: nat): Worker -> nat {
    (w: Worker) => if w.phase.Running? && w.phase.fiber == f then 1 else 0
  }

  function ParksFiber(f: nat): Worker -> nat {
    (w: Worker) => if w.cbFiber == Some(f) then 1 else 0
  }

  /** A callback fiber in use is the one the worker keeps; an idle fiber that has ended is not entered again. */
  ghost predicate WorkerOk(w: Worker, fibers: nat) {
    && (w.phase.Running? ==> w.phase.fiber < fibers)
    && (w.cbFiber.Some? ==> w.cbFiber.value < fibers)
    && (w.phase.Running? && w.phase.viaCb ==> w.cbFiber == Some(w.phase.fiber))
    && (InIdle(w.phase) ==> !w.idleDone)
    && (w.phase.Exited? ==> w.idleDone)
  }

  ghost predicate Counters(s: State) {
    s.active == Total(s.workers, IsRunning()) && s.idle == Total(s.workers, IsIdle())
  }

  /** A fiber is EXEC iff exactly one worker is inside of it, and otherwise none is. */
  ghost predicate Exclusive(s: State) {
    forall f :: 0 <= f < |s.fibers| ==> Total(s.workers, RunsFiber(f)) == if s.fibers[f].state == EXEC then 1 else 0
  }

  /** No two workers keep the same callback fiber. */
  ghost predicate OwnCallbackFibers(s: State) {
    forall f :: 0 <= f < |s.fibers| ==> Total(s.workers, ParksFiber(f)) <= 1
  }

  ghost predicate Workers(s: State) {
    |s.workers| > 0 && forall w :: 0 <= w < |s.workers| ==> WorkerOk(s.workers[w], |s.fibers|)
  }

  ghost predicate TimersOk(s: State) {
    Sorted(s.timers) && DistinctIds(s.timers) && forall t :: t in s.timers ==> t.id < s.nextTimer
  }

  /** Every idle fiber has ended. */
  ghost predicate AllDone(s: State) {
    forall w :: 0 <= w < |s.workers| ==> s.workers[w].idleDone
  }

  /** Nothing queued, running, armed, registered, or in hand, after `stop`. */
  ghost predicate Quiet(s: State) {
    && s.stopping && s.queue == [] && s.timers == [] && s.io.pending == 0 && s.active == 0
    && forall w :: 0 <= w < |s.workers| ==> s.workers[w].phase == Scanning || s.workers[w].phase == Exited
  }

  ghost predicate Inv(s: State) {
    && Workers(s)
    && Counters(s)
    && Exclusive(s)
    && OwnCallbackFibers(s)
    && TimersOk(s)
    && Io.Good(s.io)
    && (AllDone(s) ==> Quiet(s))
  }

  // ----- building blocks -----

  /** Changing one worker, and the fiber it enters or leaves. */
  lemma {:induction false} WorkerChanges(s: State, w: nat, me: Worker)
    requires w < |s.workers|
    ensures var ws := s.workers[w := me];
      && Total(ws, IsRunning()) + IsRunning()(s.workers[w]) == Total(s.workers, IsRunning()) + IsRunning()(me)
      && Total(ws, IsIdle()) + IsIdle()(s.workers[w]) == Total(s.workers, IsIdle()) + IsIdle()(me)
      && (forall f: nat :: Total(ws, RunsFiber(f)) + RunsFiber(f)(s.workers[w]) == Total(s.workers, RunsFiber(f)) + RunsFiber(f)(me))
      && (forall f: nat :: Total(ws, ParksFiber(f)) + ParksFiber(f)(s.workers[w]) == Total(s.workers, ParksFiber(f)) + ParksFiber(f)(me))
  {
    TotalUpdate(s.workers, w, me, IsRunning());
    TotalUpdate(s.workers, w, me, IsIdle());
    forall f: nat
      ensures Total(s.workers[w := me], RunsFiber(f)) + RunsFiber(f)(s.workers[w]) == Total(s.workers, RunsFiber(f)) + RunsFiber(f)(me)
    {
      TotalUpdate(s.workers, w, me, RunsFiber(f));
    }
    forall f: nat
      ensures Total(s.workers[w := me], ParksFiber(f)) + ParksFiber(f)(s.workers[w]) == Total(s.workers, ParksFiber(f)) + ParksFiber(f)(me)
    {
      TotalUpdate(s.workers, w, me, ParksFiber(f));
    }
  }

  /** A fiber that does not exist yet is nobody's. */
  lemma {:induction false} NobodysFiber(s: State, f: nat)
    requires Workers(s) && f >= |s.fibers|
    ensures Total(s.workers, RunsFiber(f)) == 0 && Total(s.workers, ParksFiber(f)) == 0
  {
    TotalZero(s.workers, RunsFiber(f));
    TotalZero(s.workers, ParksFiber(f));
  }

  /** A worker outside of its idle fiber, or with it unfinished, is a witness. */
  lemma {:induction false} NotAllDone(s: State, w: nat)
    requires Inv(s) && w < |s.workers|
    requires s.workers[w].phase != Scanning && s.workers[w].phase != Exited
    ensures !AllDone(s)
  {
  }

  /** The part of the invariant about workers and fibers. */
  ghost predicate Crew(s: State) {
    Workers(s) && Counters(s) && Exclusive(s) && OwnCallbackFibers(s)
  }

  /** A worker outside of any fiber enters one that is not running. */
  lemma {:induction false} EnterKeepsCrew(s: State, w: nat, f: nat, x: Fiber, viaCb: bool, active: int)
    requires Crew(s) && w < |s.workers| && s.workers[w].phase == Scanning && active == s.active + 1
    requires f < |s.fibers| && s.fibers[f].state != EXEC && x.state == EXEC
    requires viaCb ==> s.workers[w].cbFiber == Some(f)
    ensures Crew(SetPhase(SetFiber(s, f, x), w, Running(f, viaCb)).(active := active))
  {
    WorkerChanges(s, w, s.workers[w].(phase := Running(f, viaCb)));
  }

  /** A worker without a callback fiber makes one and enters it. */
  lemma {:induction false} EnterNewKeepsCrew(s: State, w: nat, x: Fiber)
    requires Crew(s) && w < |s.workers| && s.workers[w].phase == Scanning && s.workers[w].cbFiber == None
    requires x.state == EXEC
    ensures var c := |s.fibers|;
      Crew(s.(fibers := s.fibers + [x], active := s.active + 1,
              workers := s.workers[w := s.workers[w].(phase := Running(c, true), cbFiber := Some(c))]))
  {
    var c := |s.fibers|;
    WorkerChanges(s, w, s.workers[w].(phase := Running(c, true), cbFiber := Some(c)));
    NobodysFiber(s, c);
  }

  /** A worker leaves the fiber it is in. */
  lemma {:induction false} LeaveKeepsCrew(s: State, w: nat, x: Fiber, ended: bool)
    requires Crew(s) && w < |s.workers| && s.workers[w].phase.Running? && x.state != EXEC
    ensures s.workers[w].phase.fiber < |s.fibers| && Crew(Leave(s, w, x, ended))
  {
    var p := s.workers[w].phase;
    var me := s.workers[w].(phase := Scanning, cbFiber := if p.viaCb && !ended then None else s.workers[w].cbFiber);
    WorkerChanges(s, w, me);
    TotalAtLeast(s.workers, w, RunsFiber(p.fiber));
    assert s.fibers[p.fiber].state == EXEC;
  }

  /** Moving in and out of, and inside, the idle fiber. */
  lemma {:induction false} IdleMoveKeepsCrew(s: State, w: nat, me: Worker)
    requires Crew(s) && w < |s.workers| && !s.workers[w].phase.Running? && !me.phase.Running?
    requires WorkerOk(me, |s.fibers|) && me.cbFiber == s.workers[w].cbFiber
    ensures Crew(s.(workers := s.workers[w := me], idle := s.idle - IsIdle()(s.workers[w]) + IsIdle()(me)))
  {
    WorkerChanges(s, w, me);
  }

  // ----- one step -----

  lemma {:induction false} EnterFiberKeepsCrew(s: State, w: nat, h: Handle)
    requires Crew(s) && w < |s.workers| && s.workers[w].phase == Scanning
    requires EnterFiber(s, w, h).Alive?
    ensures Crew(EnterFiber(s, w, h).state.(active := s.active + 1))
  {
    EnterKeepsCrew(s, w, h.fiber, s.fibers[h.fiber].(state := EXEC, nap := None), false, s.active + 1);
  }

  lemma {:induction false} EnterCallbackKeepsCrew(s: State, w: nat, job: Job)
    requires Crew(s) && w < |s.workers| && s.workers[w].phase == Scanning
    requires EnterCallback(s, w, job).Alive?
    ensures Crew(EnterCallback(s, w, job).state.(active := s.active + 1))
  {
    var owes := if job.code.Wake? then Some(Handle(job.code.fiber, job.ticket)) else None;
    var x := Fiber(EXEC, true, owes, None);
    match s.workers[w].cbFiber
    case Some(c) => EnterKeepsCrew(s, w, c, x, true, s.active + 1);
    case None => EnterNewKeepsCrew(s, w, x);
  }

  /** What taking entry i and entering it leaves alone. */
  ghost predicate Taken(s: State, t: State) {
    && t.timers == s.timers && t.nextTimer == s.nextTimer && t.io == s.io && |t.workers| == |s.workers|
    && forall v :: 0 <= v < |s.workers| ==> t.workers[v].idleDone == s.workers[v].idleDone
  }

  lemma {:induction false} TakeKeepsCrew(s: State, w: nat, i: nat)
    requires Crew(s) && w < |s.workers| && i == Scan(s.queue, s.workers[w].tid, s.fibers) < |s.queue|
    requires s.workers[w].phase == Scanning && Loop(s, w).Alive?
    ensures Crew(Loop(s, w).state) && Taken(s, Loop(s, w).state)
  {
    var s1 := s.(queue := s.queue[..i] + s.queue[i + 1..]);
    var e := s.queue[i];
    LoopIs(s, w, i);
    if e.FiberEntry? {
      EnterFiberKeepsCrew(s1, w, e.handle);
    } else {
      EnterCallbackKeepsCrew(s1, w, e.job);
    }
  }

  lemma {:induction false} EnterFiberFrame(s: State, w: nat, h: Handle, q: seq<Entry>, n: int)
    requires w < |s.workers|
    ensures var r, r1 := EnterFiber(s.(queue := q, active := n), w, h), EnterFiber(s.(queue := q), w, h);
      (r.Alive? <==> r1.Alive?) && (r.Alive? ==> r.state == r1.state.(active := n) && Taken(s, r.state))
  {
  }

  lemma {:induction false} EnterCallbackFrame(s: State, w: nat, job: Job, q: seq<Entry>, n: int)
    requires w < |s.workers|
    ensures var r, r1 := EnterCallback(s.(queue := q, active := n), w, job), EnterCallback(s.(queue := q), w, job);
      (r.Alive? <==> r1.Alive?) && (r.Alive? ==> r.state == r1.state.(active := n) && Taken(s, r.state))
  {
  }

  lemma {:induction false} LoopTakesFiber(s: State, w: nat, i: nat)
    requires w < |s.workers| && i == Scan(s.queue, s.workers[w].tid, s.fibers) < |s.queue| && s.workers[w].phase == Scanning
    requires s.queue[i].FiberEntry?
    ensures Loop(s, w) == EnterFiber(s.(queue := s.queue[..i] + s.queue[i + 1..], active := s.active + 1), w, s.queue[i].handle)
  {
  }

  lemma {:induction false} LoopTakesCallback(s: State, w: nat, i: nat)
    requires w < |s.workers| && i == Scan(s.queue, s.workers[w].tid, s.fibers) < |s.queue| && s.workers[w].phase == Scanning
    requires s.queue[i].CbEntry?
    ensures Loop(s, w) == EnterCallback(s.(queue := s.queue[..i] + s.queue[i + 1..], active := s.active + 1), w, s.queue[i].job)
  {
  }

  /** Entering does not look at the queue or the counter. */
  lemma {:induction false} LoopIs(s: State, w: nat, i: nat)
    requires w < |s.workers| && i == Scan(s.queue, s.workers[w].tid, s.fibers) < |s.queue| && s.workers[w].phase == Scanning
    requires Loop(s, w).Alive?
    ensures Taken(s, Loop(s, w).state)
    ensures var s1, t := s.(queue := s.queue[..i] + s.queue[i + 1..]), Loop(s, w).state;
      if s.queue[i].FiberEntry? then
        var r := EnterFiber(s1, w, s.queue[i].handle);
        r.Alive? && t == r.state.(active := s.active + 1)
      else
        var r := EnterCallback(s1, w, s.queue[i].job);
        r.Alive? && t == r.state.(active := s.active + 1)
  {
    var q := s.queue[..i] + s.queue[i + 1..];
    if s.queue[i].FiberEntry? {
      LoopTakesFiber(s, w, i);
      EnterFiberFrame(s, w, s.queue[i].handle, q, s.active + 1);
    } else {
      LoopTakesCallback(s, w, i);
      EnterCallbackFrame(s, w, s.queue[i].job, q, s.active + 1);
    }
  }

  lemma {:induction false} LoopKeepsInv(s: State, w: nat)
    requires Inv(s) && w < |s.workers| && Loop(s, w).Alive?
    ensures Inv(Loop(s, w).state)
  {
    var me := s.workers[w];
    var i := Scan(s.queue, me.tid, s.fibers);
    if me.phase == Scanning {
      if i < |s.queue| {
        TakeKeepsCrew(s, w, i);
        SameDone(s, Loop(s, w).state, w);
      } else if me.idleDone {
        IdleMoveKeepsCrew(s, w, me.(phase := Exited));
        if !AllDone(s) { SameDone(s, Loop(s, w).state, w); }
      } else {
        IdleMoveKeepsCrew(s, w, me.(phase := AtCheck));
        assert !Loop(s, w).state.workers[w].idleDone;
      }
    }
  }

  /** A step that ends no idle fiber leaves one unfinished if one was. */
  lemma {:induction false} SameDone(s: State, t: State, w: nat)
    requires !AllDone(s) && |t.workers| == |s.workers|
    requires forall v :: 0 <= v < |s.workers| ==> t.workers[v].idleDone == s.workers[v].idleDone
    ensures !AllDone(t)
  {
    var v :| 0 <= v < |s.workers| && !s.workers[v].idleDone;
    assert !t.workers[v].idleDone;
  }

  // ----- timers and the registry -----

  /** A step that leaves the workers, and what state the fibers are in, alone. */
  lemma {:induction false} SameCrewKeepsInv(s: State, t: State)
    requires Inv(s) && !AllDone(s) && TimersOk(t) && Io.Good(t.io)
    requires t.workers == s.workers && t.active == s.active && t.idle == s.idle && |t.fibers| == |s.fibers|
    requires forall f :: 0 <= f < |s.fibers| ==> t.fibers[f].state == s.fibers[f].state
    ensures Inv(t) && !AllDone(t)
  {
  }

  lemma {:induction false} ArmKeepsTimers(s: State, t: TimerRec)
    requires TimersOk(s) && t.id == s.nextTimer
    ensures TimersOk(s.(timers := Insert(s.timers, t), nextTimer := s.nextTimer + 1))
  {
    InsertKeepsOrder(s.timers, t);
    InsertKeepsIds(s.timers, t);
    InsertAdds(s.timers, t);
  }

  lemma {:induction false} RemoveKeepsTimers(s: State, id: nat)
    requires TimersOk(s)
    ensures TimersOk(s.(timers := Remove(s.timers, id))) && Fresh(Remove(s.timers, id), id)
  {
    RemoveKeepsOrder(s.timers, id);
    RemoveDrops(s.timers, id);
  }

  lemma {:induction false} MoveKeepsTimers(s: State, t: TimerRec)
    requires TimersOk(s) && t.id < s.nextTimer
    ensures TimersOk(s.(timers := Insert(Remove(s.timers, t.id), t)))
  {
    RemoveKeepsTimers(s, t.id);
    var rest := Remove(s.timers, t.id);
    InsertKeepsOrder(rest, t);
    InsertKeepsIds(rest, t);
    InsertAdds(rest, t);
  }

  lemma {:induction false} ExpireKeepsTimers(s: State, now: nat)
    requires TimersOk(s)
    ensures TimersOk(s.(timers := AfterExpiry(s.timers, now)))
  {
    ExpiryMovesOnlyTheFired(s.timers, now);
    ExpirySource(s.timers, now);
  }

  /** What an outcome of the registry leads to, as far as the structure is concerned. */
  lemma {:induction false} SettleKeepsInv(s: State, t: State, o: Io.Outcome)
    requires Inv(s) && !AllDone(s) && Settle(t, o).Alive? && Io.Good(o.reg)
    requires t == s || t == Issue(s)
    ensures Inv(Settle(t, o).state) && !AllDone(Settle(t, o).state)
  {
    SameCrewKeepsInv(s, Settle(t, o).state);
  }

  const NONE_COUNTED := (w: Io.Waiter) => 0

  lemma {:induction false} ArmKeepsInv(s: State, ms: nat, recurring: bool, cb: Option<nat>)
    requires Inv(s) && !AllDone(s)
    ensures var t := ArmTimer(s, ms, recurring, cb);
      Inv(t) && !AllDone(t)
  {
    ArmKeepsTimers(s, UsersTimer(s, ms, recurring, cb));
    SameCrewKeepsInv(s, ArmTimer(s, ms, recurring, cb));
  }

  lemma {:induction false} SleepKeepsInv(s: State, f: nat, ms: nat)
    requires Inv(s) && !AllDone(s) && f < |s.fibers|
    ensures var t := FallAsleep(s, f, ms);
      Inv(t) && !AllDone(t)
  {
    ArmKeepsTimers(s, SleepersTimer(s, f, ms));
    SameCrewKeepsInv(s, FallAsleep(s, f, ms));
  }

  lemma {:induction false} StopTimerKeepsInv(s: State, id: nat)
    requires Inv(s) && !AllDone(s)
    ensures var r := Shared(s, StopTimer(id));
      r.Alive? && Inv(r.state) && !AllDone(r.state)
  {
    RemoveKeepsTimers(s, id);
    SameCrewKeepsInv(s, Shared(s, StopTimer(id)).state);
  }

  lemma {:induction false} MoveTimerKeepsInv(s: State, id: nat, ms: nat, fromNow: bool)
    requires Inv(s) && !AllDone(s)
    ensures var r := Shared(s, MoveTimer(id, ms, fromNow));
      r.Alive? && Inv(r.state) && !AllDone(r.state)
  {
    var t := UserTimer(s, id);
    if t.Some? {
      MoveKeepsTimers(s, MovedTimer(s, t.value, ms, fromNow));
      SameCrewKeepsInv(s, Shared(s, MoveTimer(id, ms, fromNow)).state);
    }
  }

  lemma {:induction false} RegistryKeepsInv(s: State, a: Action)
    requires Inv(s) && !AllDone(s) && (a.Unwatch? || a.CancelWatch? || a.CancelFd?)
    ensures Shared(s, a).Alive? && Inv(Shared(s, a).state) && !AllDone(Shared(s, a).state)
  {
    match a
    case Unwatch(fd, ev, fail) =>
      Io.DelEventAccounts(s.io, fd, ev, fail, NONE_COUNTED);
      SettleKeepsInv(s, s, Io.DelEvent(s.io, fd, ev, fail));
    case CancelWatch(fd, ev, fail) =>
      Io.CancelEventAccounts(s.io, fd, ev, fail, NONE_COUNTED);
      SettleKeepsInv(s, s, Io.CancelEvent(s.io, fd, ev, fail));
    case CancelFd(fd, fail) =>
      Io.CancelAllAccounts(s.io, fd, fail, NONE_COUNTED);
      SettleKeepsInv(s, s, Io.CancelAll(s.io, fd, fail));
  }

  /** None of these actions can fail an assertion. */
  lemma {:induction false} SharedKeepsInv(s: State, a: Action)
    requires Inv(s) && !AllDone(s)
    ensures Shared(s, a).Alive? && Inv(Shared(s, a).state) && !AllDone(Shared(s, a).state)
  {
    match a
    case StartTimer(ms, recurring, cb) => ArmKeepsInv(s, ms, recurring, cb);
    case StopTimer(id) => StopTimerKeepsInv(s, id);
    case MoveTimer(id, ms, fromNow) => MoveTimerKeepsInv(s, id, ms, fromNow);
    case Unwatch(_, _, _) => RegistryKeepsInv(s, a);
    case CancelWatch(_, _, _) => RegistryKeepsInv(s, a);
    case CancelFd(_, _) => RegistryKeepsInv(s, a);
    case Spawn => SpawnKeepsInv(s);
    case _ => SameCrewKeepsInv(s, Shared(s, a).state);
  }

  lemma {:induction false} SpawnKeepsInv(s: State)
    requires Inv(s) && !AllDone(s)
    ensures var t := s.(fibers := s.fibers + [Fiber(INIT, true, None, None)]);
      Inv(t) && !AllDone(t)
  {
    NobodysFiber(s, |s.fibers|);
  }

  lemma {:induction false} WatchKeepsInv(s: State, w: nat, a: Action)
    requires Inv(s) && !AllDone(s) && w < |s.workers| && s.workers[w].phase.Running? && a.Watch? && Do(s, w, a).Alive?
    ensures Inv(Do(s, w, a).state)
  {
    var f := s.workers[w].phase.fiber;
    if May(s.fibers[f], a) {
      var waiter := NewWaiter(s, f, a.cb);
      var o := Io.AddEvent(s.io, a.fd, a.ev, waiter, 0, a.fail);
      Io.AddEventAccounts(s.io, a.fd, a.ev, waiter, 0, a.fail, NONE_COUNTED);
      SettleKeepsInv(s, if o.Done? && o.ok then Issue(s) else s, o);
    }
  }

  lemma {:induction false} RequeuingKeepsInv(s: State, w: nat, x: Fiber, h: Handle)
    requires Inv(s) && !AllDone(s) && w < |s.workers| && s.workers[w].phase.Running? && x.state != EXEC
    ensures var t := Push(Issue(Leave(s, w, x, false)), FiberEntry(h, -1));
      Inv(t) && !AllDone(t)
  {
    LeavingKeepsInv(s, w, x, false);
    SameCrewKeepsInv(Leave(s, w, x, false), Push(Issue(Leave(s, w, x, false)), FiberEntry(h, -1)));
  }

  /** A fiber that yields or ends, as what is left of it. */
  function Ending(x: Fiber, a: Action): Fiber
    requires a.YieldReady? || a.YieldHold? || a.Return? || a.Throw?
  {
    match a
    case YieldReady => x.(state := READY)
    case YieldHold => x.(state := HOLD)
    case Return => x.(state := TERM, hasCb := false)
    case Throw => x.(state := EXCEPT)
  }

  lemma {:induction false} EndingIs(s: State, w: nat, a: Action)
    requires w < |s.workers| && |s.io.ctxs| >= Io.FIRST_SIZE && CanDo(s, w, a)
    requires a.YieldReady? || a.YieldHold? || a.Return? || a.Throw?
    ensures var f := s.workers[w].phase.fiber;
      var t := Leave(s, w, Ending(s.fibers[f], a), a.Return? || a.Throw?);
      Do(s, w, a) == Alive(if a.YieldReady? then Push(Issue(t), FiberEntry(Handle(f, s.nextTicket), -1)) else t)
  {
  }

  lemma {:induction false} EndOrYieldKeepsInv(s: State, w: nat, a: Action)
    requires Inv(s) && !AllDone(s) && w < |s.workers| && CanDo(s, w, a)
    requires a.YieldReady? || a.YieldHold? || a.Return? || a.Throw?
    ensures Do(s, w, a).Alive? && Inv(Do(s, w, a).state)
  {
    EndingIs(s, w, a);
    var f := s.workers[w].phase.fiber;
    var x := Ending(s.fibers[f], a);
    if a.YieldReady? {
      RequeuingKeepsInv(s, w, x, Handle(f, s.nextTicket));
    } else {
      LeavingKeepsInv(s, w, x, a.Return? || a.Throw?);
    }
  }

  lemma {:induction false} DoKeepsInv(s: State, w: nat, a: Action)
    requires Inv(s) && w < |s.workers| && Do(s, w, a).Alive?
    ensures Inv(Do(s, w, a).state)
  {
    if CanDo(s, w, a) {
      NotAllDone(s, w);
      if a.YieldReady? || a.YieldHold? || a.Return? || a.Throw? {
        EndOrYieldKeepsInv(s, w, a);
      } else {
        match a
        case Watch(fd, ev, cb, fail) => WatchKeepsInv(s, w, a);
        case Sleep(ms) => SleepKeepsInv(s, s.workers[w].phase.fiber, ms);
        case WakeSleeper => SameCrewKeepsInv(s, Do(s, w, a).state);
        case _ => SharedKeepsInv(s, a);
      }
    }
  }

  lemma {:induction false} LeavingKeepsInv(s: State, w: nat, x: Fiber, ended: bool)
    requires Inv(s) && !AllDone(s) && w < |s.workers| && s.workers[w].phase.Running? && x.state != EXEC
    ensures Inv(Leave(s, w, x, ended)) && !AllDone(Leave(s, w, x, ended))
  {
    LeaveKeepsCrew(s, w, x, ended);
    SameDone(s, Leave(s, w, x, ended), w);
  }

  /** Where everything outside the workers is as it was, and the crew is in order. */
  lemma {:induction false} IdleMoveKeepsInv(s: State, w: nat, me: Worker)
    requires Inv(s) && w < |s.workers| && InIdle(s.workers[w].phase) && !me.phase.Running?
    requires WorkerOk(me, |s.fibers|) && me.cbFiber == s.workers[w].cbFiber && !me.idleDone
    ensures var t := s.(workers := s.workers[w := me], idle := s.idle - 1 + IsIdle()(me));
      Inv(t) && !AllDone(t)
  {
    IdleMoveKeepsCrew(s, w, me);
    assert !s.(workers := s.workers[w := me]).workers[w].idleDone;
  }

  /** The idle fiber of a worker ends. If it is the last one, everything is quiet. */
  lemma {:induction false} CheckKeepsInv(s: State, w: nat)
    requires Inv(s) && w < |s.workers|
    ensures Inv(Check(s, w))
  {
    var me := s.workers[w];
    if me.phase == AtCheck {
      if Stopping(s) {
        var t := Check(s, w);
        IdleMoveKeepsCrew(s, w, me.(phase := Scanning, idleDone := true));
        if AllDone(t) {
          TotalZero(s.workers, IsRunning());
          forall v | 0 <= v < |t.workers| ensures t.workers[v].phase == Scanning || t.workers[v].phase == Exited {
            assert t.workers[v].idleDone && WorkerOk(t.workers[v], |t.fibers|);
            assert IsRunning()(s.workers[v]) == 0;
          }
        }
      } else {
        IdleMoveKeepsInv(s, w, me.(phase := Polling));
      }
    }
  }

  lemma {:induction false} IdleKeepsInv(s: State, w: nat)
    requires Inv(s) && w < |s.workers|
    ensures Inv(Expire(s, w)) && Inv(Flush(s, w)) && Inv(Rest(s, w))
  {
    var me := s.workers[w];
    match me.phase
    case Polling =>
      var fired := Fired(s.timers, s.clock);
      IdleMoveKeepsInv(s, w, me.(phase := Handing(Callbacks(fired))));
      ExpireKeepsTimers(s, s.clock);
    case Handing(_) => IdleMoveKeepsInv(s, w, me.(phase := Dispatching));
    case Dispatching => IdleMoveKeepsInv(s, w, me.(phase := Scanning));
    case _ =>
  }

  lemma {:induction false} ReportKeepsInv(s: State, w: nat, r: Io.Report, fail: bool)
    requires Inv(s) && w < |s.workers| && Report(s, w, r, fail).Alive?
    ensures Inv(Report(s, w, r, fail).state)
  {
    if s.workers[w].phase == Dispatching && r.fd < |s.io.ctxs| {
      NotAllDone(s, w);
      Io.DispatchAccounts(s.io, r, fail, NONE_COUNTED);
      SettleKeepsInv(s, s, Io.Dispatch(s.io, r, fail));
    }
  }

  /** Every step keeps the invariant. */
  lemma {:induction false} StepKeepsInv(s: State, l: Label)
    requires Inv(s) && Step(s, l).Alive?
    ensures Inv(Step(s, l).state)
  {
    match l
    case ByWorker(w, m) =>
      if w < |s.workers| {
        match m
        case AtTop => LoopKeepsInv(s, w);
        case Acting(a) => DoKeepsInv(s, w, a);
        case Checking => CheckKeepsInv(s, w);
        case Expiring => IdleKeepsInv(s, w);
        case Flushing => IdleKeepsInv(s, w);
        case Resting => IdleKeepsInv(s, w);
        case Reporting(r, fail) => ReportKeepsInv(s, w, r, fail);
      }
    case Outside(a) => if !s.stopping { SharedKeepsInv(s, a); }
    case Ticking(ms) =>
    case Stop =>
  }
}
