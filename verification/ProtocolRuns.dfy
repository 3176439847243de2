/** Theorems about whole runs of the protocol, for any number of workers and any programs. */
module ProtocolRuns {
  import opened Common
  import Io = IoSpec
  import opened TimerSpec
  import opened Protocol
  import opened ProtocolStructure
  import opened ProtocolKept
  import opened ProtocolBooks
  import opened ProtocolSleep

  ghost predicate Sound(s: State) {
    Inv(s) && Kept(s) && Fibers(s) && Naps(s) && forall k: nat :: Balanced(s, k)
  }

  lemma {:induction false} StepKeepsSound(s: State, l: Label)
    requires Sound(s) && Step(s, l).Alive?
    ensures Sound(Step(s, l).state)
  {
    StepKeepsInv(s, l);
    StepKeepsKept(s, l);
    StepKeepsNaps(s, l);
    StepBalances(s, l, 0);
    forall k: nat ensures Balanced(Step(s, l).state, k) {
      StepBalances(s, l, k);
    }
  }

  /** Running a list of steps; a failed assertion ends the run. */
  ghost function Run(s: State, ls: seq<Label>): (r: Result)
    requires Sound(s)
    ensures r.Alive? ==> Sound(r.state)
    decreases |ls|
  {
    if ls == [] then Alive(s)
    else
      var r := Step(s, ls[0]);
      if r.Dead? then Dead
      else
        StepKeepsSound(s, ls[0]);
        Run(r.state, ls[1..])
  }

  lemma {:induction false} StartHasInv(tids: seq<nat>)
    requires |tids| > 0
    ensures Inv(Start(tids))
  {
    var s := Start(tids);
    Io.FreshIsGood();
    TotalZero(s.workers, IsRunning());
    TotalZero(s.workers, IsIdle());
    assert !s.workers[0].idleDone;
  }

  lemma {:induction false} StartHasNaps(tids: seq<nat>)
    ensures Naps(Start(tids))
  {
    Io.FreshIsEmpty(Io.ContextWeight(Stray(Now(Start(tids)))));
  }

  lemma {:induction false} StartBalances(tids: seq<nat>, k: nat)
    ensures Balanced(Start(tids), k)
  {
    TotalZero(Start(tids).workers, InHand(k));
    Io.FreshIsEmpty(Io.ContextWeight(InSlot(k)));
  }

  lemma {:induction false} StartIsSound(tids: seq<nat>)
    requires |tids| > 0
    ensures Sound(Start(tids))
  {
    StartHasInv(tids);
    StartHasNaps(tids);
    forall k: nat ensures Balanced(Start(tids), k) {
      StartBalances(tids, k);
    }
  }

  /** A run from a freshly started scheduler. */
  ghost function RunFromStart(tids: seq<nat>, ls: seq<Label>): (r: Result)
    requires |tids| > 0
    ensures r.Alive? ==> Sound(r.state)
  {
    StartIsSound(tids);
    Run(Start(tids), ls)
  }

  /** The step leads from one state to the other. */
  predicate LeadsTo(s: State, l: Label, t: State) {
    |s.io.ctxs| >= Io.FIRST_SIZE && Step(s, l) == Alive(t)
  }

  /** A run along given states. */
  lemma {:induction false} RunAlong(st: nat -> State, ls: seq<Label>, n: nat)
    requires n <= |ls| && Sound(st(n))
    requires forall i: nat :: i < |ls| ==> LeadsTo(st(i), ls[i], st(i + 1))
    ensures Sound(st(|ls|)) && Run(st(n), ls[n..]) == Alive(st(|ls|))
    decreases |ls| - n
  {
    if n < |ls| {
      assert LeadsTo(st(n), ls[n], st(n + 1));
      StepKeepsSound(st(n), ls[n]);
      assert ls[n..][1..] == ls[n + 1..];
      RunAlong(st, ls, n + 1);
    }
  }

  lemma {:induction false} RunOfOne(s: State, l: Label, s1: State)
    requires Sound(s) && LeadsTo(s, l, s1)
    ensures Sound(s1) && Run(s, [l]) == Alive(s1)
  {
    StepKeepsSound(s, l);
    assert [l][1..] == [];
  }

  lemma {:induction false} RunOfTwo(s: State, l1: Label, l2: Label, s1: State, s2: State)
    requires Sound(s) && LeadsTo(s, l1, s1) && LeadsTo(s1, l2, s2)
    ensures Run(s, [l1, l2]) == Alive(s2)
  {
    StepKeepsSound(s, l1);
    RunOfOne(s1, l2, s2);
    assert [l1, l2][1..] == [l2];
  }

  lemma {:induction false} RunOfThree(s: State, l1: Label, l2: Label, l3: Label, s1: State, s2: State, s3: State)
    requires Sound(s) && LeadsTo(s, l1, s1) && LeadsTo(s1, l2, s2) && LeadsTo(s2, l3, s3)
    ensures Run(s, [l1, l2, l3]) == Alive(s3)
  {
    StepKeepsSound(s, l1);
    RunOfTwo(s1, l2, l3, s2, s3);
    assert [l1, l2, l3][1..] == [l2, l3];
  }

  // ----- clean shutdown -----

  /** Nothing is left: not in the queue, not in a fiber, not armed, not registered, not in a hand. */
  ghost predicate Clean(s: State) {
    && s.queue == [] && s.timers == [] && s.io.kernel == map[]
    && (forall fd :: 0 <= fd < |s.io.ctxs| ==>
         s.io.ctxs[fd].events == Io.NONE && s.io.ctxs[fd].read == Io.EMPTY && s.io.ctxs[fd].write == Io.EMPTY)
    && (forall f :: 0 <= f < |s.fibers| ==> s.fibers[f].state != EXEC)
    && (forall w :: 0 <= w < |s.workers| ==> s.workers[w].phase == Scanning || s.workers[w].phase == Exited)
    && (forall k: nat :: s.issued[k] == s.consumed[k] + s.dropped[k])
  }

  lemma {:induction false} NothingRegistered(g: Io.Registry)
    requires Io.Good(g) && g.pending == 0
    ensures g.kernel == map[]
    ensures forall fd :: 0 <= fd < |g.ctxs| ==>
      g.ctxs[fd].events == Io.NONE && g.ctxs[fd].read == Io.EMPTY && g.ctxs[fd].write == Io.EMPTY
  {
    TotalZero(g.ctxs, Io.Registered);
    forall fd | 0 <= fd < |g.ctxs|
      ensures g.ctxs[fd].events == Io.NONE && g.ctxs[fd].read == Io.EMPTY && g.ctxs[fd].write == Io.EMPTY
    {
      assert Io.Registered(g.ctxs[fd]) == 0;
      assert Io.SlotShape(g.ctxs[fd], Io.READ) && Io.SlotShape(g.ctxs[fd], Io.WRITE);
    }
    assert g.kernel.Keys == {};
  }

  lemma {:induction false} NobodyRuns(s: State)
    requires Inv(s) && s.active == 0
    ensures forall w :: 0 <= w < |s.workers| ==> !s.workers[w].phase.Running?
    ensures forall f :: 0 <= f < |s.fibers| ==> s.fibers[f].state != EXEC
  {
    TotalZero(s.workers, IsRunning());
    forall w | 0 <= w < |s.workers| ensures !s.workers[w].phase.Running? {
      assert IsRunning()(s.workers[w]) == 0;
    }
    forall f | 0 <= f < |s.fibers| ensures s.fibers[f].state != EXEC {
      TotalZero(s.workers, RunsFiber(f));
    }
  }

  lemma {:induction false} AllDoneIsClean(s: State)
    requires Sound(s) && AllDone(s)
    ensures Clean(s) && s.stopping
  {
    NothingRegistered(s.io);
    NobodyRuns(s);
    forall k: nat ensures s.issued[k] == s.consumed[k] + s.dropped[k] {
      TotalZero(s.workers, InHand(k));
      TotalZero(s.fibers, InFiber(k));
      TotalZero(s.io.ctxs, Io.ContextWeight(InSlot(k)));
      assert Balanced(s, k);
    }
  }

  /** Clean shutdown over every run: at the moment the last idle fiber ends, `stop` has
      been called and nothing is left; every obligation was consumed or dropped. */
  lemma {:induction false} CleanShutdown(tids: seq<nat>, ls: seq<Label>)
    requires |tids| > 0
    ensures var r := RunFromStart(tids, ls);
      r.Alive? && AllDone(r.state) ==> Clean(r.state) && r.state.stopping
  {
    var r := RunFromStart(tids, ls);
    if r.Alive? && AllDone(r.state) {
      AllDoneIsClean(r.state);
    }
  }

  /** What a step can still do then: let time pass, or let a worker exit. */
  lemma {:induction false} AllDoneStep(s: State, l: Label)
    requires Sound(s) && AllDone(s)
    ensures Step(s, l).Alive? && AllDone(Step(s, l).state)
    ensures var t := Step(s, l).state;
      && t == s.(clock := t.clock, workers := t.workers, autoStop := t.autoStop)
      && |t.workers| == |s.workers|
      && (forall w :: 0 <= w < |s.workers| ==> t.workers[w] == s.workers[w] || t.workers[w] == s.workers[w].(phase := Exited))
      && (l.ByWorker? && l.w < |s.workers| && l.move.AtTop? ==> t.workers[l.w].phase == Exited)
  {
    assert Quiet(s);
  }

  /** Clean is for good: from then on no assertion fails, nothing is queued, armed,
      registered or run again, and workers can only exit. */
  lemma {:induction false} CleanIsStable(s: State, ls: seq<Label>)
    requires Sound(s) && AllDone(s)
    ensures Run(s, ls).Alive? && AllDone(Run(s, ls).state) && Clean(Run(s, ls).state)
    ensures var t := Run(s, ls).state;
      && t == s.(clock := t.clock, workers := t.workers, autoStop := t.autoStop)
      && |t.workers| == |s.workers|
      && (forall w :: 0 <= w < |s.workers| ==> t.workers[w] == s.workers[w] || t.workers[w] == s.workers[w].(phase := Exited))
    decreases |ls|
  {
    if ls == [] {
      AllDoneIsClean(s);
    } else {
      AllDoneStep(s, ls[0]);
      StepKeepsSound(s, ls[0]);
      CleanIsStable(Step(s, ls[0]).state, ls[1..]);
    }
  }

  /** Worker w .. n-1, each at the top of its loop once. */
  function OnceEach(w: nat, n: nat): seq<Label>
    decreases n - w
  {
    if w >= n then [] else [ByWorker(w, AtTop)] + OnceEach(w + 1, n)
  }

  /** All workers exit: it takes each of them one more look at the queue. */
  lemma {:induction false} AllWorkersExit(s: State, w: nat)
    requires Sound(s) && AllDone(s) && w <= |s.workers|
    requires forall v :: 0 <= v < w ==> s.workers[v].phase == Exited
    ensures var r := Run(s, OnceEach(w, |s.workers|));
      r.Alive? && |r.state.workers| == |s.workers| && forall v :: 0 <= v < |s.workers| ==> r.state.workers[v].phase == Exited
    decreases |s.workers| - w
  {
    if w < |s.workers| {
      var l := ByWorker(w, AtTop);
      AllDoneStep(s, l);
      StepKeepsSound(s, l);
      var ls := OnceEach(w, |s.workers|);
      assert ls[0] == l && ls[1..] == OnceEach(w + 1, |s.workers|);
      AllWorkersExit(Step(s, l).state, w + 1);
    }
  }

  // ----- what stopping() means, and exclusive use of fibers -----

  /** `hps_Scheduler::stopping()` is true only when nothing is queued and nobody runs anything. */
  lemma {:induction false} StoppingMeansNothingToDo(s: State)
    requires Sound(s) && BaseStopping(s)
    ensures s.queue == []
    ensures forall w :: 0 <= w < |s.workers| ==> !s.workers[w].phase.Running?
    ensures forall f :: 0 <= f < |s.fibers| ==> s.fibers[f].state != EXEC
  {
    NobodyRuns(s);
  }

  /** A fiber is EXEC iff a worker is inside of it, and never are two. */
  lemma {:induction false} ExclusiveUse(s: State, f: nat)
    requires Sound(s) && f < |s.fibers|
    ensures s.fibers[f].state == EXEC <==>
      exists w :: 0 <= w < |s.workers| && s.workers[w].phase.Running? && s.workers[w].phase.fiber == f
    ensures forall v, w :: 0 <= v < w < |s.workers| && s.workers[v].phase.Running? && s.workers[w].phase.Running? ==>
      s.workers[v].phase.fiber != s.workers[w].phase.fiber
  {
    if s.fibers[f].state == EXEC {
      var w := TotalSource(s.workers, RunsFiber(f));
    } else {
      TotalZero(s.workers, RunsFiber(f));
    }
    forall v, w | 0 <= v < w < |s.workers| && s.workers[v].phase.Running? && s.workers[w].phase.Running?
      ensures s.workers[v].phase.fiber != s.workers[w].phase.fiber
    {
      TwoAtLeast(s.workers, v, w, RunsFiber(s.workers[v].phase.fiber));
    }
  }

  /** Whoever adds an event without a callback registers a fiber that is EXEC: the last
      assertion of `addEvent` never fails. */
  lemma {:induction false} WatcherIsExec(s: State, w: nat, a: Action)
    requires Sound(s) && w < |s.workers| && a.Watch? && a.cb.None? && CanDo(s, w, a)
    ensures var waiter := NewWaiter(s, s.workers[w].phase.fiber, a.cb);
      waiter.FiberWaiter? && waiter.handle.fiber < |s.fibers| && s.fibers[waiter.handle.fiber].state == EXEC
  {
    RunnerIsExec(s, w);
  }

  // ----- sleeping -----

  /** A sleep's wake-up is in exactly one place until it has resumed the sleeper, and
      then in none; it is never dropped. So it resumes the sleeper at most once. */
  lemma {:induction false} SleepHasOneWakeUp(s: State, k: nat)
    requires Sound(s) && k in s.naps
    ensures Live(s, k) + s.consumed[k] == 1 && s.dropped[k] == 0
  {
    assert Balanced(s, k);
  }

  /** While a fiber is inside of a sleep, whether it has yielded yet or not, the wake-up is live. */
  lemma {:induction false} SleeperWillBeWoken(s: State, f: nat)
    requires Sound(s) && f < |s.fibers| && s.fibers[f].nap.Some?
    ensures var k := s.fibers[f].nap.value;
      k in s.naps && s.naps[k].fiber == f && Live(s, k) == 1 && (s.fibers[f].state == EXEC || s.fibers[f].state == HOLD)
  {
    assert FiberNap(f, s.fibers[f], Now(s), s.consumed);
    assert FiberOk(s.fibers[f]);
    SleepHasOneWakeUp(s, s.fibers[f].nap.value);
  }

  lemma {:induction false} OthersStay<T>(q: seq<T>, i: nat, j: nat)
    requires i < |q| && j < |q| && i != j
    ensures q[j] in q[..i] + q[i + 1..]
  {
    assert (q[..i] + q[i + 1..])[if j < i then j else j - 1] == q[j];
  }

  /** A wake-up that comes before the sleeper has yielded is kept: no worker takes an
      entry of a fiber that is running. */
  lemma {:induction false} EarlyWakeUpIsKept(s: State, w: nat, j: nat)
    requires w < |s.workers| && Loop(s, w).Alive? && j < |s.queue|
    requires s.queue[j].FiberEntry? && s.queue[j].handle.fiber < |s.fibers| && s.fibers[s.queue[j].handle.fiber].state == EXEC
    ensures s.queue[j] in Loop(s, w).state.queue
  {
    var i := Scan(s.queue, s.workers[w].tid, s.fibers);
    if s.workers[w].phase == Scanning && i < |s.queue| {
      LoopIs(s, w, i);
      OthersStay(s.queue, i, j);
    }
  }

  // ----- a missed timer and shutdown -----

  ghost predicate Overdue(s: State) {
    s.timers != [] && s.timers[0].next < s.clock
  }

  /** The label neither cancels nor moves a timer. */
  predicate LeavesTimers(l: Label) {
    match l
    case ByWorker(_, Acting(a)) => !a.StopTimer? && !a.MoveTimer?
    case Outside(a) => !a.StopTimer? && !a.MoveTimer?
    case _ => true
  }

  lemma {:induction false} ArmedLater(s: State, t: TimerRec)
    requires Overdue(s) && s.clock <= t.next
    ensures Insert(s.timers, t) != [] && Insert(s.timers, t)[0] == s.timers[0]
  {
  }

  /** What a step leaves of an overdue front and of the idle fibers. */
  ghost predicate StillOverdue(s: State, t: State) {
    && Overdue(t) && |t.workers| == |s.workers|
    && forall w :: 0 <= w < |s.workers| ==> t.workers[w].idleDone == s.workers[w].idleDone
  }

  lemma {:induction false} OverdueShared(s: State, a: Action)
    requires |s.io.ctxs| >= Io.FIRST_SIZE && Overdue(s) && !a.StopTimer? && !a.MoveTimer? && Shared(s, a).Alive?
    ensures StillOverdue(s, Shared(s, a).state)
  {
    if a.StartTimer? {
      ArmedLater(s, UsersTimer(s, a.ms, a.recurring, a.cb));
    }
  }

  lemma {:induction false} OverdueDo(s: State, w: nat, a: Action)
    requires |s.io.ctxs| >= Io.FIRST_SIZE && Overdue(s) && w < |s.workers| && !a.StopTimer? && !a.MoveTimer? && Do(s, w, a).Alive?
    ensures StillOverdue(s, Do(s, w, a).state)
  {
    var p := s.workers[w].phase;
    if p.Running? && p.fiber < |s.fibers| && May(s.fibers[p.fiber], a) {
      if a.Sleep? {
        ArmedLater(s, SleepersTimer(s, p.fiber, a.ms));
      } else if a.Watch? || a.WakeSleeper? || a.YieldReady? || a.YieldHold? || a.Return? || a.Throw? {
      } else {
        OverdueShared(s, a);
      }
    }
  }

  lemma {:induction false} OverdueExpire(s: State, w: nat)
    requires Overdue(s) && w < |s.workers|
    ensures StillOverdue(s, Expire(s, w))
  {
    assert Fired(s.timers, s.clock) == [] && AfterExpiry(s.timers, s.clock) == s.timers;
  }

  lemma {:induction false} OverdueLoop(s: State, w: nat)
    requires Overdue(s) && w < |s.workers| && Loop(s, w).Alive?
    ensures StillOverdue(s, Loop(s, w).state)
  {
    var i := Scan(s.queue, s.workers[w].tid, s.fibers);
    if s.workers[w].phase == Scanning && i < |s.queue| {
      LoopIs(s, w, i);
    }
  }

  lemma {:induction false} OverdueIdle(s: State, w: nat)
    requires Overdue(s) && w < |s.workers|
    ensures StillOverdue(s, Check(s, w)) && StillOverdue(s, Flush(s, w)) && StillOverdue(s, Rest(s, w))
  {
  }

  lemma {:induction false} OverdueStep(s: State, l: Label)
    requires Sound(s) && Overdue(s) && LeavesTimers(l) && Step(s, l).Alive?
    ensures StillOverdue(s, Step(s, l).state)
  {
    match l
    case ByWorker(w, m) =>
      if w < |s.workers| {
        match m
        case AtTop => OverdueLoop(s, w);
        case Acting(a) => OverdueDo(s, w, a);
        case Expiring => OverdueExpire(s, w);
        case Reporting(_, _) =>
        case _ => OverdueIdle(s, w);
      }
    case Outside(a) => if !s.stopping { OverdueShared(s, a); }
    case _ =>
  }

  /** Once the front timer has been missed, no idle fiber ever ends, unless somebody
      cancels or moves a timer: expiry as written makes the shutdown hang. */
  lemma {:induction false} MissedTimerBlocksShutdown(s: State, ls: seq<Label>)
    requires Sound(s) && Overdue(s) && Run(s, ls).Alive? && forall l :: l in ls ==> LeavesTimers(l)
    ensures StillOverdue(s, Run(s, ls).state)
    decreases |ls|
  {
    if ls != [] {
      OverdueStep(s, ls[0]);
      StepKeepsSound(s, ls[0]);
      MissedTimerBlocksShutdown(Step(s, ls[0]).state, ls[1..]);
    }
  }
}
