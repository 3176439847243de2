/** The callback fibers the workers keep for reuse, along every run. */
module ProtocolKept {
  import opened Common
  import Io = IoSpec
  import opened Protocol
  import opened ProtocolStructure

  // ----- what an action changes -----

  /** An action that does not leave the fiber changes no fiber but the one it is done by. */
  lemma {:induction false} StayingInside(s: State, w: nat, a: Action)
    requires |s.io.ctxs| >= Io.FIRST_SIZE && w < |s.workers| && CanDo(s, w, a) && Do(s, w, a).Alive?
    requires !a.YieldReady? && !a.YieldHold? && !a.Return? && !a.Throw?
    ensures var t, f := Do(s, w, a).state, s.workers[w].phase.fiber;
      && t.workers == s.workers && |s.fibers| <= |t.fibers|
      && (forall g :: 0 <= g < |s.fibers| && g != f ==> t.fibers[g] == s.fibers[g])
      && t.fibers[f].state == s.fibers[f].state && t.fibers[f].hasCb == s.fibers[f].hasCb
      && (forall g :: |s.fibers| <= g < |t.fibers| ==> t.fibers[g] == Fiber(INIT, true, None, None))
  {
    if !a.Watch? && !a.Sleep? && !a.WakeSleeper? { SharedFibers(s, a); }
  }

  lemma {:induction false} SharedFibers(s: State, a: Action)
    requires |s.io.ctxs| >= Io.FIRST_SIZE && Shared(s, a).Alive?
    ensures var t := Shared(s, a).state;
      t.workers == s.workers && t.fibers == s.fibers + if a.Spawn? then [Fiber(INIT, true, None, None)] else []
  {
  }

  lemma {:induction false} ReportFibers(s: State, w: nat, r: Io.Report, fail: bool)
    requires w < |s.workers| && Report(s, w, r, fail).Alive?
    ensures var t := Report(s, w, r, fail).state;
      t.workers == s.workers && t.fibers == s.fibers
  {
  }

  // ----- the fiber a worker keeps -----

  /** In a callback fiber that is not in use there is no function: it waits as `reset`
      left it (strictly), or an entry of it was taken, and calling its empty function throws. */
  predicate Unused(x: Fiber, strictly: bool) {
    if strictly then x == Fiber(INIT, false, None, None) else !x.hasCb && x.state in {INIT, EXEC, EXCEPT}
  }

  ghost predicate KeptAs(s: State, v: nat, strictly: bool)
    requires v < |s.workers|
  {
    var c := s.workers[v].cbFiber;
    c.Some? ==>
      || s.workers[v].phase == Running(c.value, true)
      || (c.value < |s.fibers| && Unused(s.fibers[c.value], strictly))
  }

  /** The callback fiber a worker keeps is in use by it, or waits with no function. */
  ghost predicate Parked(s: State, v: nat)
    requires v < |s.workers|
  {
    KeptAs(s, v, true)
  }

  ghost predicate AllParked(s: State) {
    forall v :: 0 <= v < |s.workers| ==> Parked(s, v)
  }

  /** Whoever takes an entry of it, it never holds and is never ready. */
  ghost predicate Kept(s: State) {
    forall v :: 0 <= v < |s.workers| ==> KeptAs(s, v, false)
  }

  /** The step takes an entry of a callback fiber that some worker keeps. */
  ghost predicate TakesKept(s: State, l: Label) {
    exists v, c :: 0 <= v < |s.workers| && s.workers[v].cbFiber == Some(c) && TakesFiber(s, l, c)
  }

  lemma {:induction false} RunnerIsExec(s: State, w: nat)
    requires Inv(s) && w < |s.workers| && s.workers[w].phase.Running?
    ensures s.workers[w].phase.fiber < |s.fibers| && s.fibers[s.workers[w].phase.fiber].state == EXEC
  {
    assert WorkerOk(s.workers[w], |s.fibers|);
    TotalAtLeast(s.workers, w, RunsFiber(s.workers[w].phase.fiber));
  }

  lemma {:induction false} RunnersDiffer(s: State, v: nat, w: nat)
    requires Inv(s) && v < |s.workers| && w < |s.workers| && v != w && s.workers[v].phase.Running? && s.workers[w].phase.Running?
    ensures s.workers[v].phase.fiber != s.workers[w].phase.fiber
  {
    RunnerIsExec(s, v);
    if v < w {
      TwoAtLeast(s.workers, v, w, RunsFiber(s.workers[v].phase.fiber));
    } else {
      TwoAtLeast(s.workers, w, v, RunsFiber(s.workers[v].phase.fiber));
    }
  }

  lemma {:induction false} DistinctKept(s: State, v: nat, w: nat)
    requires Inv(s) && v < |s.workers| && w < |s.workers| && v != w && s.workers[v].cbFiber.Some?
    ensures s.workers[v].cbFiber != s.workers[w].cbFiber
  {
    if s.workers[v].cbFiber == s.workers[w].cbFiber {
      var c := s.workers[v].cbFiber.value;
      assert WorkerOk(s.workers[v], |s.fibers|);
      if v < w {
        TwoAtLeast(s.workers, v, w, ParksFiber(c));
      } else {
        TwoAtLeast(s.workers, w, v, ParksFiber(c));
      }
    }
  }

  // ----- one step -----

  lemma {:induction false} EnterFiberKept(s: State, w: nat, h: Handle, v: nat, strictly: bool)
    requires w < |s.workers| && v < |s.workers| && KeptAs(s, v, strictly) && s.workers[w].phase == Scanning
    requires EnterFiber(s, w, h).Alive? && (strictly ==> s.workers[v].cbFiber != Some(h.fiber))
    ensures KeptAs(EnterFiber(s, w, h).state, v, strictly)
  {
  }

  lemma {:induction false} EnterCallbackKept(s: State, w: nat, job: Job, v: nat, strictly: bool)
    requires w < |s.workers| && v < |s.workers| && KeptAs(s, v, strictly) && s.workers[w].phase == Scanning
    requires EnterCallback(s, w, job).Alive? && WorkerOk(s.workers[v], |s.fibers|)
    requires v != w && s.workers[v].cbFiber.Some? ==> s.workers[v].cbFiber != s.workers[w].cbFiber
    ensures KeptAs(EnterCallback(s, w, job).state, v, strictly)
  {
  }

  /** Workers keep their fibers; at most one outside of any task fiber moves. */
  lemma {:induction false} IdleMoveKept(s: State, t: State, v: nat, strictly: bool)
    requires v < |s.workers| && KeptAs(s, v, strictly) && t.fibers == s.fibers && |t.workers| == |s.workers|
    requires t.workers[v].cbFiber == s.workers[v].cbFiber
    requires t.workers[v].phase == s.workers[v].phase || !s.workers[v].phase.Running?
    ensures KeptAs(t, v, strictly)
  {
  }

  lemma {:induction false} LoopKept(s: State, w: nat, v: nat, strictly: bool)
    requires Inv(s) && w < |s.workers| && v < |s.workers| && KeptAs(s, v, strictly) && Loop(s, w).Alive?
    requires strictly && s.workers[v].cbFiber.Some? ==> !TakesFiber(s, ByWorker(w, AtTop), s.workers[v].cbFiber.value)
    ensures KeptAs(Loop(s, w).state, v, strictly)
  {
    var i := Scan(s.queue, s.workers[w].tid, s.fibers);
    if s.workers[w].phase == Scanning && i < |s.queue| {
      var s1 := s.(queue := s.queue[..i] + s.queue[i + 1..]);
      LoopIs(s, w, i);
      if s.queue[i].FiberEntry? {
        EnterFiberKept(s1, w, s.queue[i].handle, v, strictly);
      } else {
        assert WorkerOk(s.workers[v], |s.fibers|);
        if v != w && s.workers[v].cbFiber.Some? { DistinctKept(s, v, w); }
        EnterCallbackKept(s1, w, s.queue[i].job, v, strictly);
      }
    } else {
      IdleMoveKept(s, Loop(s, w).state, v, strictly);
    }
  }

  /** Leaving a fiber; if it has no function, then by an exception. */
  lemma {:induction false} LeaveKept(s: State, w: nat, x: Fiber, ended: bool, v: nat, strictly: bool)
    requires w < |s.workers| && v < |s.workers| && s.workers[w].phase.Running? && s.workers[w].phase.fiber < |s.fibers|
    requires KeptAs(s, v, strictly) && s.fibers[s.workers[w].phase.fiber].state == EXEC
    requires v != w && s.workers[v].phase.Running? ==> s.workers[v].phase.fiber != s.workers[w].phase.fiber
    requires v != w && s.workers[v].cbFiber.Some? ==> s.workers[v].cbFiber != s.workers[w].cbFiber
    requires s.workers[w].phase.viaCb ==> s.workers[w].cbFiber == Some(s.workers[w].phase.fiber)
    requires !s.fibers[s.workers[w].phase.fiber].hasCb ==> ended && x.state == EXCEPT && !x.hasCb
    ensures KeptAs(Leave(s, w, x, ended), v, strictly)
  {
  }

  /** Fibers in use may change, and new ones may come. */
  lemma {:induction false} FibersKept(s: State, t: State, v: nat, strictly: bool)
    requires v < |s.workers| && KeptAs(s, v, strictly) && t.workers == s.workers && |s.fibers| <= |t.fibers|
    requires forall f :: 0 <= f < |s.fibers| && Unused(s.fibers[f], strictly) ==> t.fibers[f] == s.fibers[f]
    ensures KeptAs(t, v, strictly)
  {
  }

  lemma {:induction false} LeavingKept(s: State, w: nat, a: Action, v: nat, strictly: bool)
    requires Inv(s) && w < |s.workers| && v < |s.workers| && KeptAs(s, v, strictly) && CanDo(s, w, a)
    requires a.YieldReady? || a.YieldHold? || a.Return? || a.Throw?
    ensures Do(s, w, a).Alive? && KeptAs(Do(s, w, a).state, v, strictly)
  {
    var x := s.fibers[s.workers[w].phase.fiber];
    RunnerIsExec(s, w);
    assert WorkerOk(s.workers[w], |s.fibers|);
    if v != w && s.workers[v].phase.Running? { RunnersDiffer(s, v, w); }
    if v != w && s.workers[v].cbFiber.Some? { DistinctKept(s, v, w); }
    match a
    case YieldReady => LeaveKept(s, w, x.(state := READY), false, v, strictly);
    case YieldHold => LeaveKept(s, w, x.(state := HOLD), false, v, strictly);
    case Return => LeaveKept(s, w, x.(state := TERM, hasCb := false), true, v, strictly);
    case Throw => LeaveKept(s, w, x.(state := EXCEPT), true, v, strictly);
  }

  lemma {:induction false} DoKept(s: State, w: nat, a: Action, v: nat, strictly: bool)
    requires Inv(s) && w < |s.workers| && v < |s.workers| && KeptAs(s, v, strictly) && Do(s, w, a).Alive?
    ensures KeptAs(Do(s, w, a).state, v, strictly)
  {
    if CanDo(s, w, a) {
      if a.YieldReady? || a.YieldHold? || a.Return? || a.Throw? {
        LeavingKept(s, w, a, v, strictly);
      } else {
        RunnerIsExec(s, w);
        StayingInside(s, w, a);
        FibersKept(s, Do(s, w, a).state, v, strictly);
      }
    }
  }

  lemma {:induction false} IdleKept(s: State, w: nat, v: nat, strictly: bool)
    requires w < |s.workers| && v < |s.workers| && KeptAs(s, v, strictly)
    ensures KeptAs(Check(s, w), v, strictly) && KeptAs(Expire(s, w), v, strictly)
    ensures KeptAs(Flush(s, w), v, strictly) && KeptAs(Rest(s, w), v, strictly)
  {
  }

  lemma {:induction false} WorkerKept(s: State, w: nat, m: Move, v: nat, strictly: bool)
    requires Inv(s) && w < |s.workers| && v < |s.workers| && KeptAs(s, v, strictly) && StepWorker(s, w, m).Alive?
    requires strictly && s.workers[v].cbFiber.Some? ==> !TakesFiber(s, ByWorker(w, m), s.workers[v].cbFiber.value)
    ensures KeptAs(StepWorker(s, w, m).state, v, strictly)
  {
    match m
    case AtTop => LoopKept(s, w, v, strictly);
    case Acting(a) => DoKept(s, w, a, v, strictly);
    case Reporting(r, fail) =>
      ReportFibers(s, w, r, fail);
      FibersKept(s, Report(s, w, r, fail).state, v, strictly);
    case _ => IdleKept(s, w, v, strictly);
  }

  lemma {:induction false} StepKeptAs(s: State, l: Label, v: nat, strictly: bool)
    requires Inv(s) && v < |s.workers| && KeptAs(s, v, strictly) && Step(s, l).Alive?
    requires strictly && s.workers[v].cbFiber.Some? ==> !TakesFiber(s, l, s.workers[v].cbFiber.value)
    ensures KeptAs(Step(s, l).state, v, strictly)
  {
    match l
    case ByWorker(w, m) => if w < |s.workers| { WorkerKept(s, w, m, v, strictly); }
    case Outside(a) =>
      if !s.stopping {
        SharedFibers(s, a);
        FibersKept(s, Shared(s, a).state, v, strictly);
      }
    case _ => FibersKept(s, Step(s, l).state, v, strictly);
  }

  /** Along every run, a callback fiber that is kept and not in use has no function, and
      is INIT, or an entry of it was taken: it is being entered, or ended by the exception. */
  lemma {:induction false} StepKeepsKept(s: State, l: Label)
    requires Inv(s) && Kept(s) && Step(s, l).Alive?
    ensures Kept(Step(s, l).state)
  {
    forall v | 0 <= v < |s.workers| ensures KeptAs(Step(s, l).state, v, false) {
      StepKeptAs(s, l, v, false);
    }
  }

  lemma {:induction false} TakingUnparks(s: State, l: Label, v: nat, c: nat)
    requires Inv(s) && v < |s.workers| && s.workers[v].cbFiber == Some(c) && TakesFiber(s, l, c) && Step(s, l).Alive?
    ensures !Parked(Step(s, l).state, v)
  {
    var i := Scan(s.queue, s.workers[l.w].tid, s.fibers);
    LoopIs(s, l.w, i);
    if s.workers[v].phase.Running? { RunnerIsExec(s, v); }
  }

  /** All kept callback fibers stay in use or INIT with no function iff the step does not
      take an entry of one of them. */
  lemma {:induction false} StaysParkedIffNoneTaken(s: State, l: Label)
    requires Inv(s) && AllParked(s) && Step(s, l).Alive?
    ensures AllParked(Step(s, l).state) <==> !TakesKept(s, l)
  {
    if TakesKept(s, l) {
      var v, c :| 0 <= v < |s.workers| && s.workers[v].cbFiber == Some(c) && TakesFiber(s, l, c);
      TakingUnparks(s, l, v, c);
    } else {
      forall v | 0 <= v < |s.workers| ensures Parked(Step(s, l).state, v) {
        assert Parked(s, v);
        StepKeptAs(s, l, v, true);
      }
    }
  }
}
