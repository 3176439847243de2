/** Careful programs: what a program has to take care of before each step, so that no
    assertion of the protocol ever fails. */
module ProtocolPrograms {
  import opened Common
  import Io = IoSpec
  import opened Protocol
  import opened ProtocolStructure
  import opened ProtocolKept
  import opened ProtocolRuns
  import opened ProtocolCare

  // ----- careful programs -----

  /** A fiber with a function that has not ended. A kept callback fiber is not one. */
  predicate CanRun(x: Fiber) {
    x.hasCb && x.state != TERM && x.state != EXCEPT
  }

  function Usable(fibers: seq<Fiber>): Fids {
    (f: nat) => f < |fibers| && CanRun(fibers[f])
  }

  function Other(g: nat): Fids {
    (f: nat) => f != g
  }

  /** What a careful program sees to before a step: schedule only fibers that can still
      run, let a fiber end only when nothing refers to it any more, do not add an event
      twice; and the kernel reports only registered events. */
  ghost predicate Careful(s: State, l: Label) {
    match l
    case Outside(ScheduleFiber(g, _)) => Usable(s.fibers)(g)
    case ByWorker(w, Acting(a)) =>
      w < |s.workers| && CanDo(s, w, a) ==>
        (match a
         case ScheduleFiber(g, _) => Usable(s.fibers)(g)
         case Watch(fd, ev, _, _) => !ProtocolCare.Registered(s, fd, ev)
         case Return => Refs(s, Other(s.workers[w].phase.fiber))
         case Throw => Refs(s, Other(s.workers[w].phase.fiber))
         case _ => true)
    case ByWorker(w, Reporting(r, fail)) => !StrayReport(s, r)
    case _ => true
  }

  /** Everything referred to can run, and so can whatever runs. */
  ghost predicate Tidy(s: State) {
    && Refs(s, Usable(s.fibers))
    && AllParked(s)
    && Functions(s)
  }

  /** No step of a careful program fails an assertion. */
  lemma {:induction false} CarefulStepLives(s: State, l: Label)
    requires Sound(s) && Tidy(s) && Careful(s, l)
    ensures Step(s, l).Alive?
  {
    AbortsExactly(s, l);
    if l.ByWorker? && l.w < |s.workers| && l.move.AtTop? && s.workers[l.w].phase == Scanning {
      var i := Scan(s.queue, s.workers[l.w].tid, s.fibers);
      if i < |s.queue| {
        assert EntryRef(s.queue[i], Usable(s.fibers));
        assert Parked(s, l.w);
      }
    }
  }

  /** The step ends the running fiber. */
  predicate Ends(s: State, l: Label, f: nat) {
    && l.ByWorker? && l.w < |s.workers| && l.move.Acting? && (l.move.action.Return? || l.move.action.Throw?)
    && CanDo(s, l.w, l.move.action) && s.workers[l.w].phase.fiber == f
  }

  /** Every fiber that can run before still can. */
  ghost predicate KeepsRunnable(s: State, t: State) {
    |s.fibers| <= |t.fibers| && forall f :: 0 <= f < |s.fibers| && CanRun(s.fibers[f]) ==> CanRun(t.fibers[f])
  }

  lemma {:induction false} DoKeepsRunnable(s: State, w: nat, a: Action)
    requires |s.io.ctxs| >= Io.FIRST_SIZE && w < |s.workers| && !a.Return? && !a.Throw? && Do(s, w, a).Alive?
    ensures KeepsRunnable(s, Do(s, w, a).state)
  {
    if CanDo(s, w, a) && !a.YieldReady? && !a.YieldHold? { StayingInside(s, w, a); }
  }

  lemma {:induction false} EndingKeepsOthers(s: State, w: nat, a: Action)
    requires Sound(s) && w < |s.workers| && (a.Return? || a.Throw?) && Do(s, w, a).Alive?
    ensures forall f :: Usable(s.fibers)(f) && !Ends(s, ByWorker(w, Acting(a)), f) ==> Usable(Do(s, w, a).state.fibers)(f)
  {
  }

  lemma {:induction false} LoopKeepsRunnable(s: State, w: nat)
    requires w < |s.workers| && Loop(s, w).Alive?
    ensures KeepsRunnable(s, Loop(s, w).state)
  {
  }

  /** Which fibers can run after a step: those that could, except the one it ends. */
  lemma {:induction false} UsableStays(s: State, l: Label)
    requires Sound(s) && Step(s, l).Alive?
    ensures forall f :: Usable(s.fibers)(f) && !Ends(s, l, f) ==> Usable(Step(s, l).state.fibers)(f)
  {
    match l
    case ByWorker(w, m) =>
      if w < |s.workers| {
        match m
        case AtTop => LoopKeepsRunnable(s, w);
        case Acting(a) =>
          if a.Return? || a.Throw? {
            EndingKeepsOthers(s, w, a);
          } else {
            DoKeepsRunnable(s, w, a);
          }
        case _ =>
      }
    case Outside(a) => if !s.stopping { SharedFibers(s, a); }
    case _ =>
  }

  /** Inside a fiber: it is EXEC, and it has a function. */
  lemma {:induction false} RunningCanRun(s: State, w: nat)
    requires Sound(s) && Tidy(s) && w < |s.workers| && s.workers[w].phase.Running?
    ensures s.workers[w].phase.fiber < |s.fibers| && s.fibers[s.workers[w].phase.fiber].state == EXEC
    ensures Usable(s.fibers)(s.workers[w].phase.fiber)
  {
    RunnerIsExec(s, w);
  }

  lemma {:induction false} CarefulStepKeepsRefs(s: State, l: Label)
    requires Sound(s) && Tidy(s) && Careful(s, l) && Step(s, l).Alive?
    ensures Refs(Step(s, l).state, Usable(Step(s, l).state.fibers))
  {
    var t := Step(s, l).state;
    UsableStays(s, l);
    if l.ByWorker? && l.w < |s.workers| && s.workers[l.w].phase.Running? {
      RunningCanRun(s, l.w);
      var f := s.workers[l.w].phase.fiber;
      if Ends(s, l, f) {
        RefsBoth(s, Usable(s.fibers), Other(f));
        StepRefs(s, l, Both(Usable(s.fibers), Other(f)));
        RefsWeaken(t, Both(Usable(s.fibers), Other(f)), Usable(t.fibers));
        return;
      }
    }
    StepRefs(s, l, Usable(s.fibers));
    RefsWeaken(t, Usable(s.fibers), Usable(t.fibers));
  }

  /** What runs has a function. */
  ghost predicate Functions(s: State) {
    forall f :: 0 <= f < |s.fibers| && s.fibers[f].state == EXEC ==> s.fibers[f].hasCb
  }

  lemma {:induction false} LoopKeepsFunctions(s: State, w: nat)
    requires Functions(s) && Refs(s, Usable(s.fibers)) && w < |s.workers| && Loop(s, w).Alive?
    ensures Functions(Loop(s, w).state)
  {
    var i := Scan(s.queue, s.workers[w].tid, s.fibers);
    if s.workers[w].phase == Scanning && i < |s.queue| {
      assert EntryRef(s.queue[i], Usable(s.fibers));
      LoopIs(s, w, i);
    }
  }

  lemma {:induction false} DoKeepsFunctions(s: State, w: nat, a: Action)
    requires |s.io.ctxs| >= Io.FIRST_SIZE && Functions(s) && w < |s.workers| && Do(s, w, a).Alive?
    ensures Functions(Do(s, w, a).state)
  {
    if CanDo(s, w, a) && !a.YieldReady? && !a.YieldHold? && !a.Return? && !a.Throw? {
      var t := Do(s, w, a).state;
      StayingInside(s, w, a);
      forall f | 0 <= f < |t.fibers| && t.fibers[f].state == EXEC ensures t.fibers[f].hasCb {
        if f < |s.fibers| { assert s.fibers[f].state == EXEC; }
      }
    }
  }

  lemma {:induction false} StepKeepsFunctions(s: State, l: Label)
    requires Sound(s) && Tidy(s) && Step(s, l).Alive?
    ensures Functions(Step(s, l).state)
  {
    match l
    case ByWorker(w, m) =>
      if w < |s.workers| {
        match m
        case AtTop => LoopKeepsFunctions(s, w);
        case Acting(a) => DoKeepsFunctions(s, w, a);
        case _ =>
      }
    case Outside(a) => if !s.stopping { SharedFibers(s, a); }
    case _ =>
  }

  /** A kept callback fiber cannot run, so no entry refers to it. */
  lemma {:induction false} NoneKeptIsTaken(s: State, l: Label)
    requires Inv(s) && Tidy(s)
    ensures !TakesKept(s, l)
  {
    if v, c :| 0 <= v < |s.workers| && s.workers[v].cbFiber == Some(c) && TakesFiber(s, l, c) {
      var i := Scan(s.queue, s.workers[l.w].tid, s.fibers);
      assert EntryRef(s.queue[i], Usable(s.fibers)) && Parked(s, v);
      if s.workers[v].phase.Running? { RunnerIsExec(s, v); }
      assert false;
    }
  }

  lemma {:induction false} CarefulStepKeepsTidy(s: State, l: Label)
    requires Sound(s) && Tidy(s) && Careful(s, l) && Step(s, l).Alive?
    ensures Tidy(Step(s, l).state)
  {
    CarefulStepKeepsRefs(s, l);
    StepKeepsFunctions(s, l);
    NoneKeptIsTaken(s, l);
    StaysParkedIffNoneTaken(s, l);
  }

  /** Every step of the run is careful where it happens. */
  ghost predicate CarefulRun(s: State, ls: seq<Label>)
    requires Sound(s)
    decreases |ls|
  {
    ls == [] ||
    (Careful(s, ls[0]) &&
     (Step(s, ls[0]).Alive? ==> (StepKeepsSound(s, ls[0]); CarefulRun(Step(s, ls[0]).state, ls[1..]))))
  }

  /** A careful program never fails an assertion, however it mixes yields, sleeps, ends
      and exceptions; and whenever a worker is at the top of its loop, the callback fiber
      it keeps, if any, is INIT and without a function. */
  lemma {:induction false} CarefulProgramsNeverAbort(s: State, ls: seq<Label>)
    requires Sound(s) && Tidy(s) && CarefulRun(s, ls)
    ensures Run(s, ls).Alive? && Tidy(Run(s, ls).state)
    ensures forall w :: 0 <= w < |Run(s, ls).state.workers| && Run(s, ls).state.workers[w].phase == Scanning ==>
      var c := Run(s, ls).state.workers[w].cbFiber;
      c.Some? ==> c.value < |Run(s, ls).state.fibers| && Run(s, ls).state.fibers[c.value] == Fiber(INIT, false, None, None)
    decreases |ls|
  {
    if ls == [] {
      forall w | 0 <= w < |s.workers| && s.workers[w].phase == Scanning && s.workers[w].cbFiber.Some?
        ensures s.workers[w].cbFiber.value < |s.fibers| && s.fibers[s.workers[w].cbFiber.value] == Fiber(INIT, false, None, None)
      {
        assert Parked(s, w);
      }
    } else {
      CarefulStepLives(s, ls[0]);
      CarefulStepKeepsTidy(s, ls[0]);
      StepKeepsSound(s, ls[0]);
      CarefulProgramsNeverAbort(Step(s, ls[0]).state, ls[1..]);
    }
  }

  lemma {:induction false} StartIsTidy(tids: seq<nat>)
    requires |tids| > 0
    ensures Sound(Start(tids)) && Tidy(Start(tids))
  {
    StartIsSound(tids);
    Io.FreshIsEmpty(Io.ContextWeight(BadWaiter(Usable([]))));
  }
}
