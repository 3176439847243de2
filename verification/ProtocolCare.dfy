/** When the protocol's assertions can fail, and how programs keep them from failing. */
module ProtocolCare {
  import opened Common
  import Io = IoSpec
  import opened TimerSpec
  import opened Protocol
  import opened ProtocolStructure
  import opened ProtocolKept
  import opened ProtocolSleep
  import opened ProtocolRuns

  // ----- exactly when a step aborts -----

  /** The next entry this worker takes is of a fiber that has ended. */
  predicate TakesEnded(s: State, w: nat)
    requires w < |s.workers|
  {
    var i := Scan(s.queue, s.workers[w].tid, s.fibers);
    s.workers[w].phase == Scanning && i < |s.queue| && s.queue[i].FiberEntry? && s.fibers[s.queue[i].handle.fiber].state in {TERM, EXCEPT}
  }

  /** The next entry is a callback, and some other worker is in the kept callback fiber. */
  predicate TakesBusyCallbackFiber(s: State, w: nat)
    requires w < |s.workers|
  {
    var i := Scan(s.queue, s.workers[w].tid, s.fibers);
    var c := s.workers[w].cbFiber;
    && s.workers[w].phase == Scanning && i < |s.queue| && s.queue[i].CbEntry?
    && c.Some? && c.value < |s.fibers| && s.fibers[c.value].state == EXEC
  }

  predicate Registered(s: State, fd: nat, ev: Io.Event) {
    fd < |s.io.ctxs| && Io.Has(s.io.ctxs[fd].events, ev)
  }

  /** A report that concerns the fd and names an event that is not registered. */
  predicate StrayReport(s: State, r: Io.Report) {
    r.fd < |s.io.ctxs|
    && Io.And(s.io.ctxs[r.fd].events, Io.Reported(r)) != Io.NONE
    && !Io.Within(Io.Reported(r), s.io.ctxs[r.fd].events)
  }

  predicate Aborts(s: State, w: nat, m: Move)
    requires w < |s.workers|
  {
    var p := s.workers[w].phase;
    match m
    case AtTop => TakesEnded(s, w) || TakesBusyCallbackFiber(s, w)
    case Acting(Watch(fd, ev, cb, fail)) =>
      p.Running? && p.fiber < |s.fibers| && May(s.fibers[p.fiber], m.action) && Registered(s, fd, ev)
    case Reporting(r, fail) => p == Dispatching && !fail && StrayReport(s, r)
    case _ => false
  }

  /** In a reachable state a step fails an assertion iff a worker takes an entry of an
      ended fiber, resets a callback fiber that is in use, adds an event that is there
      already, or dispatches a report with an event that is not. */
  lemma {:induction false} AbortsExactly(s: State, l: Label)
    requires Sound(s)
    ensures Step(s, l).Dead? <==> l.ByWorker? && l.w < |s.workers| && Aborts(s, l.w, l.move)
  {
    match l
    case ByWorker(w, m) =>
      if w < |s.workers| {
        match m
        case AtTop => LoopAborts(s, w);
        case Acting(a) => ActionAborts(s, w, a);
        case Reporting(r, fail) =>
          if r.fd < |s.io.ctxs| { Io.DispatchAccounts(s.io, r, fail, NONE_COUNTED); }
        case _ =>
      }
    case Outside(a) => if !s.stopping { OutsideLives(s, a); }
    case _ =>
  }

  lemma {:induction false} LoopAborts(s: State, w: nat)
    requires Sound(s) && w < |s.workers|
    ensures Loop(s, w).Dead? <==> TakesEnded(s, w) || TakesBusyCallbackFiber(s, w)
  {
    assert WorkerOk(s.workers[w], |s.fibers|) && KeptAs(s, w, false);
  }

  lemma {:induction false} OutsideLives(s: State, a: Action)
    requires Sound(s) && !s.stopping
    ensures Shared(s, a).Alive?
  {
    assert !AllDone(s);
    SharedKeepsInv(s, a);
  }

  lemma {:induction false} ActionAborts(s: State, w: nat, a: Action)
    requires Sound(s) && w < |s.workers|
    ensures Do(s, w, a).Dead? <==> Aborts(s, w, Acting(a))
  {
    var p := s.workers[w].phase;
    if p.Running? && May(s.fibers[p.fiber], a) {
      NotAllDone(s, w);
      if a.Watch? {
        var waiter := NewWaiter(s, p.fiber, a.cb);
        Io.AddEventAccounts(s.io, a.fd, a.ev, waiter, 0, a.fail, NONE_COUNTED);
      } else {
        SharedKeepsInv(s, a);
      }
    }
  }

  // ----- references to fibers -----

  /** Sets of fibers, as predicates. */
  type Fids = nat -> bool

  ghost predicate JobRef(j: Job, good: Fids) {
    j.code.Wake? ==> good(j.code.fiber)
  }

  ghost predicate EntryRef(e: Entry, good: Fids) {
    match e
    case FiberEntry(h, _) => good(h.fiber)
    case CbEntry(j, _) => JobRef(j, good)
  }

  ghost predicate TimerRef(t: TimerRec, good: Fids) {
    t.cb.Some? ==> JobRef(t.cb.value, good)
  }

  ghost predicate HandRef(p: Phase, good: Fids) {
    p.Handing? ==> forall i :: 0 <= i < |p.cbs| && p.cbs[i].Some? ==> JobRef(p.cbs[i].value, good)
  }

  ghost predicate FiberRef(x: Fiber, good: Fids) {
    x.owes.Some? ==> good(x.owes.value.fiber)
  }

  /** The weight of the waiters that refer to a fiber that is not good. */
  function BadWaiter(good: Fids): Io.Waiter -> nat {
    (w: Io.Waiter) =>
      match w
      case CbWaiter(j) => if j.code.Wake? && !good(j.code.fiber) then 1 else 0
      case FiberWaiter(h) => if good(h.fiber) then 0 else 1
  }

  /** Every fiber that some place refers to is good. */
  ghost predicate Refs(s: State, good: Fids) {
    && (forall i :: 0 <= i < |s.queue| ==> EntryRef(s.queue[i], good))
    && (forall t :: t in s.timers ==> TimerRef(t, good))
    && (forall w :: 0 <= w < |s.workers| ==> HandRef(s.workers[w].phase, good))
    && (forall f :: 0 <= f < |s.fibers| ==> FiberRef(s.fibers[f], good))
    && Io.Weight(s.io, BadWaiter(good)) == 0
  }

  lemma {:induction false} RefsWeaken(s: State, a: Fids, b: Fids)
    requires Refs(s, a) && forall f :: a(f) ==> b(f)
    ensures Refs(s, b)
  {
    TotalZero(s.io.ctxs, Io.ContextWeight(BadWaiter(a)));
    TotalZero(s.io.ctxs, Io.ContextWeight(BadWaiter(b)));
    forall w: Io.Waiter | BadWaiter(a)(w) == 0 ensures BadWaiter(b)(w) == 0 {
      match w
      case CbWaiter(j) => if j.code.Wake? { assert a(j.code.fiber); }
      case FiberWaiter(h) => assert a(h.fiber);
    }
    forall i | 0 <= i < |s.io.ctxs| ensures Io.ContextWeight(BadWaiter(b))(s.io.ctxs[i]) == 0 {
      assert Io.ContextWeight(BadWaiter(a))(s.io.ctxs[i]) == 0;
    }
  }

  function Both(a: Fids, b: Fids): Fids {
    (f: nat) => a(f) && b(f)
  }

  lemma {:induction false} RefsBoth(s: State, a: Fids, b: Fids)
    requires Refs(s, a) && Refs(s, b)
    ensures Refs(s, Both(a, b))
  {
    TotalZero(s.io.ctxs, Io.ContextWeight(BadWaiter(a)));
    TotalZero(s.io.ctxs, Io.ContextWeight(BadWaiter(b)));
    TotalZero(s.io.ctxs, Io.ContextWeight(BadWaiter(Both(a, b))));
    forall i | 0 <= i < |s.io.ctxs| ensures Io.ContextWeight(BadWaiter(Both(a, b)))(s.io.ctxs[i]) == 0 {
      assert Io.ContextWeight(BadWaiter(a))(s.io.ctxs[i]) == 0;
      assert Io.ContextWeight(BadWaiter(b))(s.io.ctxs[i]) == 0;
    }
  }

  /** The fiber a step may come to refer to anew: the target it schedules, or the running fiber itself. */
  ghost predicate NewRefs(s: State, l: Label, good: Fids) {
    match l
    case Outside(ScheduleFiber(g, _)) => g < |s.fibers| ==> good(g)
    case ByWorker(w, Acting(a)) =>
      w < |s.workers| && CanDo(s, w, a) ==>
        (match a
         case ScheduleFiber(g, _) => g < |s.fibers| ==> good(g)
         case Watch(_, _, cb, _) => cb.None? ==> good(s.workers[w].phase.fiber)
         case Sleep(_) => good(s.workers[w].phase.fiber)
         case YieldReady => good(s.workers[w].phase.fiber)
         case _ => true)
    case _ => true
  }

  lemma {:induction false} SettleRefs(s: State, o: Io.Outcome, good: Fids)
    requires Refs(s, good) && o.Done? && Io.Accounts(s.io, o, BadWaiter(good), 0)
    ensures Refs(Settle(s, o).state, good)
  {
    TotalZero(o.out, Io.HandedWeight(BadWaiter(good)));
    forall i | 0 <= i < |o.out| ensures EntryRef(Entries(o.out)[i], good) {
      assert Io.HandedWeight(BadWaiter(good))(o.out[i]) == 0;
    }
  }

  lemma {:induction false} TimerActionRefs(s: State, a: Action, good: Fids)
    requires Inv(s) && Refs(s, good) && (a.StartTimer? || a.StopTimer? || a.MoveTimer?)
    ensures Refs(Shared(s, a).state, good)
  {
    match a
    case StartTimer(ms, recurring, cb) =>
      InsertAdds(s.timers, UsersTimer(s, ms, recurring, cb));
    case StopTimer(id) => RemoveDrops(s.timers, id);
    case MoveTimer(id, ms, fromNow) =>
      var t := UserTimer(s, id);
      if t.Some? {
        MoveRefs(s, MovedTimer(s, t.value, ms, fromNow), good);
      }
  }

  lemma {:induction false} MoveRefs(s: State, t: TimerRec, good: Fids)
    requires TimersOk(s) && Refs(s, good) && TimerRef(t, good)
    ensures Refs(s.(timers := Insert(Remove(s.timers, t.id), t)), good)
  {
    RemoveDrops(s.timers, t.id);
    InsertAdds(Remove(s.timers, t.id), t);
  }

  lemma {:induction false} SharedRefs(s: State, a: Action, good: Fids)
    requires Inv(s) && Refs(s, good) && Shared(s, a).Alive?
    requires a.ScheduleFiber? && a.target < |s.fibers| ==> good(a.target)
    ensures Refs(Shared(s, a).state, good)
  {
    match a
    case Unwatch(fd, ev, fail) =>
      Io.DelEventAccounts(s.io, fd, ev, fail, BadWaiter(good));
      SettleRefs(s, Io.DelEvent(s.io, fd, ev, fail), good);
    case CancelWatch(fd, ev, fail) =>
      Io.CancelEventAccounts(s.io, fd, ev, fail, BadWaiter(good));
      SettleRefs(s, Io.CancelEvent(s.io, fd, ev, fail), good);
    case CancelFd(fd, fail) =>
      Io.CancelAllAccounts(s.io, fd, fail, BadWaiter(good));
      SettleRefs(s, Io.CancelAll(s.io, fd, fail), good);
    case _ => if a.StartTimer? || a.StopTimer? || a.MoveTimer? { TimerActionRefs(s, a, good); }
  }

  lemma {:induction false} WatchRefs(s: State, w: nat, a: Action, good: Fids)
    requires Inv(s) && Refs(s, good) && w < |s.workers| && a.Watch? && Do(s, w, a).Alive?
    requires NewRefs(s, ByWorker(w, Acting(a)), good)
    ensures Refs(Do(s, w, a).state, good)
  {
    var p := s.workers[w].phase;
    if p.Running? && May(s.fibers[p.fiber], a) {
      var waiter := NewWaiter(s, p.fiber, a.cb);
      var o := Io.AddEvent(s.io, a.fd, a.ev, waiter, 0, a.fail);
      Io.AddEventAccounts(s.io, a.fd, a.ev, waiter, 0, a.fail, BadWaiter(good));
      var s1 := if o.ok then Issue(s) else s;
      SettleRefs(s1, o, good);
    }
  }

  lemma {:induction false} SleepRefs(s: State, f: nat, ms: nat, good: Fids)
    requires Refs(s, good) && f < |s.fibers| && good(f)
    ensures Refs(FallAsleep(s, f, ms), good)
  {
    InsertAdds(s.timers, SleepersTimer(s, f, ms));
  }

  lemma {:induction false} WakeRefs(s: State, f: nat, good: Fids)
    requires Refs(s, good) && f < |s.fibers| && s.fibers[f].owes.Some?
    ensures Refs(Push(SetFiber(s, f, s.fibers[f].(owes := None)), FiberEntry(s.fibers[f].owes.value, -1)), good)
  {
    assert FiberRef(s.fibers[f], good);
  }

  lemma {:induction false} LeaveRefs(s: State, w: nat, x: Fiber, ended: bool, good: Fids)
    requires Refs(s, good) && FiberRef(x, good) && w < |s.workers| && s.workers[w].phase.Running? && s.workers[w].phase.fiber < |s.fibers|
    ensures Refs(Leave(s, w, x, ended), good)
  {
  }

  lemma {:induction false} PushRefs(s: State, e: Entry, good: Fids)
    requires Refs(s, good) && EntryRef(e, good)
    ensures Refs(Push(Issue(s), e), good)
  {
  }

  lemma {:induction false} DoRefs(s: State, w: nat, a: Action, good: Fids)
    requires Inv(s) && Refs(s, good) && w < |s.workers| && Do(s, w, a).Alive?
    requires NewRefs(s, ByWorker(w, Acting(a)), good)
    ensures Refs(Do(s, w, a).state, good)
  {
    if CanDo(s, w, a) {
      var f := s.workers[w].phase.fiber;
      var x := s.fibers[f];
      assert FiberRef(x, good);
      match a
      case Watch(_, _, _, _) => WatchRefs(s, w, a, good);
      case Sleep(ms) => SleepRefs(s, f, ms, good);
      case WakeSleeper => WakeRefs(s, f, good);
      case YieldReady =>
        LeaveRefs(s, w, x.(state := READY), false, good);
        PushRefs(Leave(s, w, x.(state := READY), false), FiberEntry(Handle(f, s.nextTicket), -1), good);
      case YieldHold => LeaveRefs(s, w, x.(state := HOLD), false, good);
      case Return => LeaveRefs(s, w, x.(state := TERM, hasCb := false), true, good);
      case Throw => LeaveRefs(s, w, x.(state := EXCEPT), true, good);
      case _ => SharedRefs(s, a, good);
    }
  }

  lemma {:induction false} EnterFiberRefs(s: State, w: nat, h: Handle, good: Fids)
    requires Refs(s, good) && w < |s.workers| && EnterFiber(s, w, h).Alive?
    ensures Refs(EnterFiber(s, w, h).state, good)
  {
  }

  lemma {:induction false} EnterCallbackRefs(s: State, w: nat, job: Job, good: Fids)
    requires Refs(s, good) && JobRef(job, good) && w < |s.workers| && EnterCallback(s, w, job).Alive?
    ensures Refs(EnterCallback(s, w, job).state, good)
  {
  }

  lemma {:induction false} TakenRefs(s: State, i: nat, good: Fids)
    requires Refs(s, good) && i < |s.queue|
    ensures EntryRef(s.queue[i], good) && Refs(s.(queue := s.queue[..i] + s.queue[i + 1..]), good)
  {
  }

  lemma {:induction false} LoopRefs(s: State, w: nat, good: Fids)
    requires Refs(s, good) && w < |s.workers| && Loop(s, w).Alive?
    ensures Refs(Loop(s, w).state, good)
  {
    var i := Scan(s.queue, s.workers[w].tid, s.fibers);
    if s.workers[w].phase == Scanning && i < |s.queue| {
      var s1 := s.(queue := s.queue[..i] + s.queue[i + 1..]);
      LoopIs(s, w, i);
      TakenRefs(s, i, good);
      if s.queue[i].FiberEntry? {
        EnterFiberRefs(s1, w, s.queue[i].handle, good);
      } else {
        EnterCallbackRefs(s1, w, s.queue[i].job, good);
      }
    } else {
      assert Loop(s, w).state == s.(workers := Loop(s, w).state.workers, idle := Loop(s, w).state.idle);
    }
  }

  lemma {:induction false} IdleRefs(s: State, w: nat, good: Fids)
    requires Refs(s, good) && w < |s.workers|
    ensures Refs(Check(s, w), good) && Refs(Expire(s, w), good) && Refs(Flush(s, w), good) && Refs(Rest(s, w), good)
  {
    match s.workers[w].phase
    case Polling => ExpireRefs(s, w, good);
    case Handing(cbs) =>
      CbEntriesSource(cbs);
      forall e | e in CbEntries(cbs) ensures EntryRef(e, good) {}
    case _ =>
  }

  lemma {:induction false} ExpireRefs(s: State, w: nat, good: Fids)
    requires Refs(s, good) && w < |s.workers| && s.workers[w].phase == Polling
    ensures Refs(Expire(s, w), good)
  {
    var fired := Fired(s.timers, s.clock);
    ExpirySource(s.timers, s.clock);
    forall i | 0 <= i < |fired| ensures TimerRef(fired[i], good) {
      assert fired[i] in s.timers;
    }
    forall x | x in AfterExpiry(s.timers, s.clock) ensures TimerRef(x, good) {
      if x !in s.timers {
        var y :| y in s.timers && Again(x, y, fired, s.clock);
      }
    }
  }

  lemma {:induction false} ReportRefs(s: State, w: nat, r: Io.Report, fail: bool, good: Fids)
    requires Inv(s) && Refs(s, good) && w < |s.workers| && Report(s, w, r, fail).Alive?
    ensures Refs(Report(s, w, r, fail).state, good)
  {
    if s.workers[w].phase == Dispatching && r.fd < |s.io.ctxs| {
      Io.DispatchAccounts(s.io, r, fail, BadWaiter(good));
      SettleRefs(s, Io.Dispatch(s.io, r, fail), good);
    }
  }

  /** A step refers to no fiber it did not refer to before, but for the new one it names. */
  lemma {:induction false} StepRefs(s: State, l: Label, good: Fids)
    requires Inv(s) && Refs(s, good) && Step(s, l).Alive? && NewRefs(s, l, good)
    ensures Refs(Step(s, l).state, good)
  {
    match l
    case ByWorker(w, m) =>
      if w < |s.workers| {
        match m
        case AtTop => LoopRefs(s, w, good);
        case Acting(a) => DoRefs(s, w, a, good);
        case Reporting(r, fail) => ReportRefs(s, w, r, fail, good);
        case _ => IdleRefs(s, w, good);
      }
    case Outside(a) => if !s.stopping { SharedRefs(s, a, good); }
    case _ =>
  }
}
