/** What `stop` comes to with one worker: it returns with everything done, or an ended
    fiber is entered, or it is left with entries that belong to other threads. */
module ProtocolStop {
  import opened Common
  import Io = IoSpec
  import opened Protocol
  import opened ProtocolStructure
  import opened ProtocolBooks
  import opened ProtocolRuns
  import opened ProtocolCare
  import opened ProtocolPrograms
  import opened ProtocolPlain
  import opened ProtocolDrain
  import ProtocolQueue

  datatype Outcome = Returned(end: Sys) | Spins(end: Sys) | Aborted(end: Sys)

  /** The worker runs until it leaves its loop, can only idle, or fails an assertion. */
  ghost function Drive(y: Sys): Outcome
    requires Alone(y)
    decreases Measure(y)
  {
    if Me(y).phase == Exited then Returned(y)
    else if AtEnd(y) then Spins(y)
    else if Advance(y).None? then Aborted(y)
    else
      AdvanceKeepsAlone(y);
      AdvanceCosts(y);
      Drive(Advance(y).value)
  }

  /** z is on the way of y, and no further from the end. Folded like Alone. */
  ghost predicate Leads(y: Sys, z: Sys) {
    Alone(y) && Alone(z) && Measure(z) <= Measure(y) && forall n: nat {:trigger Unfold(n)} :: Unfold(n) ==> Drive(z) == Drive(y)
  }

  lemma {:induction false} SameEnd(y: Sys, z: Sys)
    requires Leads(y, z)
    ensures Drive(z) == Drive(y)
  {
    assert Unfold(0);
  }

  lemma {:induction false} LeadsOn(x: Sys, y: Sys, z: Sys)
    requires Leads(x, y) && Leads(y, z)
    ensures Leads(x, z)
  {
  }

  ghost predicate Stopped(p: State) {
    p.stopping && p.autoStop
  }

  predicate SameFlags(p: State, q: State)
    requires |p.workers| == 1
  {
    |q.workers| == 1 && q.stopping == p.stopping && q.autoStop == p.autoStop && q.workers[0].tid == p.workers[0].tid
  }

  lemma {:induction false} ActKeepsFlags(s: State, f: nat, a: Action)
    requires |s.workers| == 1 && s.workers[0].phase.Running? && s.workers[0].phase.fiber == f < |s.fibers|
    ensures SameFlags(s, ActState(s, f, a))
    ensures a.Return? || a.Throw? ==> ActState(s, f, a).queue == s.queue
  {
  }

  /** The queue after a step: one entry less, or the same with an entry added or not. */
  ghost predicate QueueStep(y: Sys, q: seq<Entry>)
    requires Shaped(y)
  {
    match Me(y).phase
    case Scanning =>
      var i := Scan(y.p.queue, Me(y).tid, y.p.fibers);
      q == if i < |y.p.queue| then y.p.queue[..i] + y.p.queue[i + 1..] else y.p.queue
    case Running(f, _) =>
      q == y.p.queue || (y.tasks[f].rest != [] && Added(y, f).Some? && q == y.p.queue + [Added(y, f).value])
    case _ => q == y.p.queue
  }

  lemma {:induction false} EnterQueueStep(y: Sys)
    requires Alone(y) && Advance(y).Some? && Me(y).phase == Scanning
    ensures SameFlags(y.p, Advance(y).value.p) && QueueStep(y, Advance(y).value.p.queue)
  {
    Open(y);
    var i := Scan(y.p.queue, Me(y).tid, y.p.fibers);
    if i < |y.p.queue| {
      assert PlainEntry(y.p.queue[i], |y.p.fibers|);
      if y.p.queue[i].FiberEntry? { EnterFiberIs(y.p, i); } else { EnterCallbackIs(y.p, i); }
    }
  }

  lemma {:induction false} AdvanceIs(y: Sys)
    requires Alone(y) && Advance(y).Some?
    ensures SameFlags(y.p, Advance(y).value.p) && QueueStep(y, Advance(y).value.p.queue)
  {
    Open(y);
    match Me(y).phase
    case Scanning => EnterQueueStep(y);
    case Running(f, _) =>
      DoIs(y.p, f, y.tasks[f].rest);
      ActKeepsFlags(y.p, f, NextAction(y.p.fibers[f], y.tasks[f].rest));
      if y.p.fibers[f].hasCb && y.tasks[f].rest != [] && y.tasks[f].rest[0] != Raise {
        AllIssued(y.p);
        GoOnIs(y, f);
      }
    case _ => IdleKeepsTasks(y);
  }

  // ----- the three ways it ends -----

  /** The callback did its script to the end, or to an exception, or to a yield nobody
      woke it from. */
  ghost predicate Over(y: Sys, k: nat)
    requires |y.tasks| == |y.p.fibers| && k in y.stories
  {
    Finished(y.stories[k]) ||
    exists f :: 0 <= f < |y.tasks| && y.tasks[f].job == Some(k) && y.p.fibers[f].state == HOLD
      && EndsWith(y.stories[k].ran, ToHold) && y.stories[k].ran <= y.stories[k].body
  }

  ghost predicate Drained(y: Sys) {
    && Alone(y) && Clean(y.p)
    && (forall k :: k in y.stories ==> y.p.consumed[k] == 1 && Over(y, k))
  }

  /** With nothing queued and nothing running every callback has had its turn. */
  lemma {:induction false} NothingLeft(y: Sys)
    requires Alone(y) && y.p.queue == [] && y.p.active == 0
    ensures forall k :: k in y.stories ==> y.p.consumed[k] == 1 && Over(y, k)
  {
    Open(y);
    NobodyRuns(y.p);
    NothingRegistered(y.p.io);
    forall k | k in y.stories ensures y.p.consumed[k] == 1 && Over(y, k) {
      NothingLive(y.p, k);
      assert Balanced(y.p, k) && Told(k, y.tasks, y.stories, y.p.consumed);
      if !Finished(y.stories[k]) {
        var f :| 0 <= f < |y.tasks| && y.tasks[f].job == Some(k);
        assert TaskOk(y.p.fibers[f], y.tasks[f], y.stories, y.p.consumed);
        assert !InQueue(y.p.queue, f);
      }
    }
  }

  lemma {:induction false} NothingLive(p: State, k: nat)
    requires Sound(p) && Base(p) && p.queue == []
    ensures Live(p, k) == 0
  {
    NothingRegistered(p.io);
    TotalZero(p.workers, InHand(k));
    TotalZero(p.fibers, InFiber(k));
    TotalZero(p.io.ctxs, Io.ContextWeight(InSlot(k)));
  }

  lemma {:induction false} ReturnedIsDrained(y: Sys)
    requires Alone(y) && Me(y).phase == Exited
    ensures Drained(y) && y.p.active == 0
  {
    Open(y);
    assert WorkerOk(Me(y), |y.p.fibers|);
    AllDoneIsClean(y.p);
    NothingLeft(y);
  }

  /** Entries there are, and all of them belong to other threads. */
  ghost predicate OnlyForeign(p: State)
    requires |p.workers| == 1
  {
    p.queue != [] && forall e :: e in p.queue ==> Foreign(e, p.workers[0].tid)
  }

  predicate Foreign(e: Entry, tid: nat) {
    e.thread != -1 && e.thread != tid
  }

  lemma {:induction false} SpinningIsForeign(y: Sys)
    requires Alone(y) && Stopped(y.p) && Me(y).phase == AtCheck && !Stopping(y.p)
    ensures OnlyForeign(y.p) && !LocalQueue(y.p)
  {
    Open(y);
    TotalZero(y.p.workers, IsRunning());
    NobodyRuns(y.p);
    forall e | e in y.p.queue ensures Foreign(e, Me(y).tid) {
      var j :| 0 <= j < |y.p.queue| && y.p.queue[j] == e;
      assert !Eligible(e, Me(y).tid, y.p.fibers) && PlainEntry(e, |y.p.fibers|);
    }
    assert y.p.queue[0] in y.p.queue;
  }

  const IDLE_ROUND: seq<Label> :=
    [ByWorker(0, Checking), ByWorker(0, Expiring), ByWorker(0, Flushing), ByWorker(0, Resting), ByWorker(0, AtTop)]

  ghost function RunFrom(y: Sys, ls: seq<Label>): Result
    requires Alone(y)
  {
    Open(y);
    Run(y.p, ls)
  }

  const SPIN: seq<Phase> := [AtCheck, Polling, Handing([]), Dispatching, Scanning, AtCheck]

  /** The state n steps into such a round. */
  function Spun(s: State, n: nat): State
    requires |s.workers| == 1 && n < 6
  {
    s.(workers := [s.workers[0].(phase := SPIN[n])], idle := if n == 4 then s.idle - 1 else s.idle)
  }

  lemma {:induction false} SpunStep(s: State, n: nat)
    requires |s.workers| == 1 && n < 5 && |s.io.ctxs| >= Io.FIRST_SIZE && s.timers == [] && !Stopping(s) && !s.workers[0].idleDone
    requires Scan(s.queue, s.workers[0].tid, s.fibers) == |s.queue|
    ensures Step(Spun(s, n), IDLE_ROUND[n]) == Alive(Spun(s, n + 1))
  {
    SpinStepIs(Spun(s, n), SPIN[n + 1]);
  }

  lemma {:induction false} SpinFrom(s: State, n: nat)
    requires |s.workers| == 1 && n < 6 && Sound(Spun(s, n)) && Base(s) && !Stopping(s) && !s.workers[0].idleDone
    requires Scan(s.queue, s.workers[0].tid, s.fibers) == |s.queue|
    ensures Run(Spun(s, n), IDLE_ROUND[n..]) == Alive(Spun(s, 5))
    decreases 6 - n
  {
    if n < 5 {
      var l := IDLE_ROUND[n];
      SpunStep(s, n);
      StepKeepsSound(Spun(s, n), l);
      assert IDLE_ROUND[n..][1..] == IDLE_ROUND[n + 1..];
      SpinFrom(s, n + 1);
    }
  }

  /** And then it stays that way: one round of the loop later everything is as it was. */
  lemma {:induction false} SpinningIsForever(y: Sys)
    requires Alone(y) && Me(y).phase == AtCheck && !Stopping(y.p)
    ensures RunFrom(y, IDLE_ROUND) == Alive(y.p)
  {
    Open(y);
    assert Spun(y.p, 0) == y.p && Spun(y.p, 5) == y.p && IDLE_ROUND[0..] == IDLE_ROUND;
    assert WorkerOk(Me(y), |y.p.fibers|);
    SpinFrom(y.p, 0);
  }

  lemma {:induction false} SpinStepIs(s: State, to: Phase)
    requires |s.workers| == 1 && s.timers == [] && !Stopping(s) && !s.workers[0].idleDone
    requires s.workers[0].phase == Handing([]) || !s.workers[0].phase.Handing?
    requires s.workers[0].phase == Scanning ==> Scan(s.queue, s.workers[0].tid, s.fibers) == |s.queue|
    ensures var t := s.(workers := [s.workers[0].(phase := to)],
                        idle := s.idle - (if to == Scanning then 1 else 0) + (if to == AtCheck then 1 else 0));
      match s.workers[0].phase
      case AtCheck => to == Polling ==> Check(s, 0) == t
      case Polling => to == Handing([]) ==> Expire(s, 0) == t
      case Handing(_) => to == Dispatching ==> Flush(s, 0) == t
      case Dispatching => to == Scanning ==> Rest(s, 0) == t
      case Scanning => to == AtCheck ==> Loop(s, 0) == Alive(t)
      case _ => true
  {
  }

  /** A callback fiber that is kept is not in the middle of anything. */
  lemma {:induction false} KeptIsNeverBusy(p: State)
    requires Base(p) && p.workers[0].phase == Scanning
    ensures !TakesBusyCallbackFiber(p, 0)
  {
  }

  lemma {:induction false} AbortedTakesEnded(y: Sys)
    requires Alone(y) && Advance(y).None?
    ensures TakesEnded(y.p, 0)
  {
    Open(y);
    AbortsExactly(y.p, NextLabel(y));
    if Me(y).phase == Scanning { KeptIsNeverBusy(y.p); }
  }

  /** After `stop` the worker comes to an end in finitely many steps: it returns and all
      is drained, every callback run exactly once up to its end, an exception or a yield
      nobody woke it from; or it enters an ended fiber; or only foreign entries are left. */
  lemma {:induction false} StopEnds(y: Sys)
    requires Alone(y) && Stopped(y.p)
    ensures var o := Drive(y);
      match o
      case Returned(z) => Drained(z)
      case Spins(z) => Alone(z) && OnlyForeign(z.p) && RunFrom(z, IDLE_ROUND) == Alive(z.p)
      case Aborted(z) => Alone(z) && TakesEnded(z.p, 0)
    decreases Measure(y)
  {
    Open(y);
    if Me(y).phase == Exited {
      ReturnedIsDrained(y);
    } else if AtEnd(y) {
      SpinningIsForeign(y);
      SpinningIsForever(y);
    } else if Advance(y).None? {
      AbortedTakesEnded(y);
    } else {
      AdvanceKeepsAlone(y);
      AdvanceCosts(y);
      AdvanceIs(y);
      StopEnds(Advance(y).value);
    }
  }

  // ----- which programs end how -----

  type ActTest = Act -> bool

  /** Every act of the script, and of the scripts in it. */
  predicate AllActs(r: Script, test: ActTest) {
    r == [] ||
    (test(r[0]) && AllActs(r[1..], test) &&
     (match r[0] case Call(b, _) => AllActs(b, test) case Create(b) => AllActs(b, test) case _ => true))
  }

  ghost predicate Everywhere(y: Sys, test: ActTest) {
    && (forall f :: 0 <= f < |y.tasks| ==> AllActs(y.tasks[f].rest, test))
    && (forall k :: k in y.stories ==> AllActs(y.stories[k].body, test))
  }

  lemma {:induction false} EnteredKeepsEverywhere(y: Sys, t: State, test: ActTest)
    requires Shaped(y) && |t.workers| == 1 && Everywhere(y, test)
    ensures Everywhere(Entered(y, t), test) && SameBodies(y, Entered(y, t))
  {
  }

  lemma {:induction false} ActedKeepsEverywhere(y: Sys, t: State, f: nat, test: ActTest)
    requires Shaped(y) && f < |y.tasks| && Everywhere(y, test)
    ensures Everywhere(Acted(y, t, f), test)
  {
    assert AllActs(y.tasks[f].rest, test);
  }

  lemma {:induction false} AdvanceKeepsEverywhere(y: Sys, test: ActTest)
    requires Alone(y) && Advance(y).Some? && Everywhere(y, test)
    ensures Everywhere(Advance(y).value, test)
  {
    Open(y);
    var t := Step(y.p, NextLabel(y)).state;
    match Me(y).phase
    case Scanning => EnteredKeepsEverywhere(y, t, test);
    case Running(f, _) => ActedKeepsEverywhere(y, t, f, test);
    case _ => IdleKeepsTasks(y);
  }

  /** Scripts that pin nothing to another thread. */
  function Local(tid: nat): ActTest {
    (a: Act) => match a case Call(_, t) => t == -1 || t == tid case Resume(_, t) => t == -1 || t == tid case _ => true
  }

  ghost predicate LocalQueue(p: State)
    requires |p.workers| == 1
  {
    forall e :: e in p.queue ==> !Foreign(e, p.workers[0].tid)
  }

  lemma {:induction false} QueueStepKeepsLocal(y: Sys, q: seq<Entry>)
    requires Shaped(y) && QueueStep(y, q) && Everywhere(y, Local(Me(y).tid)) && LocalQueue(y.p)
    ensures forall e :: e in q ==> !Foreign(e, Me(y).tid)
  {
    match Me(y).phase
    case Scanning =>
      var i := Scan(y.p.queue, Me(y).tid, y.p.fibers);
      if i < |y.p.queue| { TakenFrom(y.p.queue, i); }
    case Running(f, _) => assert AllActs(y.tasks[f].rest, Local(Me(y).tid));
    case _ =>
  }

  lemma {:induction false} AdvanceKeepsLocal(y: Sys)
    requires Alone(y) && Advance(y).Some? && Everywhere(y, Local(Me(y).tid)) && LocalQueue(y.p)
    ensures |Advance(y).value.p.workers| == 1 && LocalQueue(Advance(y).value.p)
  {
    Open(y);
    AdvanceIs(y);
    QueueStepKeepsLocal(y, Advance(y).value.p.queue);
  }

  /** A program that pins nothing elsewhere is never left idling with work. */
  lemma {:induction false} LocalProgramsNeverSpin(y: Sys)
    requires Alone(y) && Stopped(y.p) && Everywhere(y, Local(Me(y).tid)) && LocalQueue(y.p)
    ensures !Drive(y).Spins?
    decreases Measure(y)
  {
    Open(y);
    if Me(y).phase == Exited {
    } else if AtEnd(y) {
      SpinningIsForeign(y);
    } else if Advance(y).Some? {
      AdvanceKeepsAlone(y);
      AdvanceCosts(y);
      AdvanceIs(y);
      AdvanceKeepsEverywhere(y, Local(Me(y).tid));
      AdvanceKeepsLocal(y);
      LocalProgramsNeverSpin(Advance(y).value);
    }
  }

  ghost predicate SomeForeign(p: State)
    requires |p.workers| == 1
  {
    exists i :: 0 <= i < |p.queue| && Foreign(p.queue[i], p.workers[0].tid)
  }

  lemma {:induction false} TakingKeepsForeign(q: seq<Entry>, i: nat, tid: nat, j: nat) returns (n: nat)
    requires i < |q| && j < |q| && Foreign(q[j], tid) && !Foreign(q[i], tid)
    ensures n < |q| - 1 && Foreign((q[..i] + q[i + 1..])[n], tid)
  {
    n := if j < i then j else j - 1;
    assert (q[..i] + q[i + 1..])[n] == q[j];
  }

  lemma {:induction false} QueueStepKeepsForeign(y: Sys, q: seq<Entry>)
    requires Shaped(y) && QueueStep(y, q) && SomeForeign(y.p)
    ensures exists n :: 0 <= n < |q| && Foreign(q[n], Me(y).tid)
  {
    var j :| 0 <= j < |y.p.queue| && Foreign(y.p.queue[j], Me(y).tid);
    if Me(y).phase == Scanning {
      var i := Scan(y.p.queue, Me(y).tid, y.p.fibers);
      if i < |y.p.queue| { var n := TakingKeepsForeign(y.p.queue, i, Me(y).tid, j); }
    } else {
      assert q[j] == y.p.queue[j];
    }
  }

  lemma {:induction false} AdvanceKeepsForeign(y: Sys)
    requires Alone(y) && Advance(y).Some? && SomeForeign(y.p)
    ensures |Advance(y).value.p.workers| == 1 && SomeForeign(Advance(y).value.p)
  {
    Open(y);
    AdvanceIs(y);
    QueueStepKeepsForeign(y, Advance(y).value.p.queue);
  }

  /** With an entry of another thread in the queue `stop` does not return. */
  lemma {:induction false} ForeignEntryBlocksStop(y: Sys)
    requires Alone(y) && Me(y).phase != Exited && SomeForeign(y.p)
    ensures !Drive(y).Returned?
    decreases Measure(y)
  {
    Open(y);
    if !AtEnd(y) && Advance(y).Some? {
      AdvanceKeepsAlone(y);
      AdvanceCosts(y);
      AdvanceKeepsForeign(y);
      var z := Advance(y).value;
      if Me(z).phase == Exited {
        ReturnedIsDrained(z);
      } else {
        ForeignEntryBlocksStop(z);
      }
    }
  }

  /** Scripts that schedule no fibers. */
  function NoResume(): ActTest {
    (a: Act) => !a.Resume?
  }

  /** A program that schedules callbacks only never enters an ended fiber. */
  lemma {:induction false} CallbackProgramsNeverAbort(y: Sys)
    requires Alone(y) && Tidy(y.p) && Waiting(y.p) && Everywhere(y, NoResume())
    ensures !Drive(y).Aborted?
    decreases Measure(y)
  {
    Open(y);
    if Me(y).phase != Exited && !AtEnd(y) {
      var l := NextLabel(y);
      assert Plain(y.p, l);
      PlainIsCareful(y.p, l);
      CarefulStepLives(y.p, l);
      AdvanceSucceeds(y);
      AdvanceIsAStep(y);
      CarefulStepKeepsTidy(y.p, l);
      StepWaits(y.p, l);
      AdvanceKeepsAlone(y);
      AdvanceCosts(y);
      AdvanceKeepsEverywhere(y, NoResume());
      CallbackProgramsNeverAbort(Advance(y).value);
    }
  }

  lemma {:induction false} AdvanceSucceeds(y: Sys)
    requires Alone(y) && Step(y.p, NextLabel(y)).Alive?
    ensures Advance(y).Some?
  {
    Open(y);
    StepKeepsInv(y.p, NextLabel(y));
    ProtocolQueue.TidsStay(y.p, NextLabel(y));
  }

  /** The same callbacks, with the same scripts. */
  predicate SameBodies(y: Sys, z: Sys) {
    forall k :: k in y.stories ==> k in z.stories && z.stories[k].body == y.stories[k].body
  }

  lemma {:induction false} ActedKeepsBodies(y: Sys, t: State, f: nat)
    requires Shaped(y) && Tasks(y) && f < |y.tasks|
    ensures SameBodies(y, Acted(y, t, f))
  {
  }

  lemma {:induction false} AdvanceKeepsBodies(y: Sys)
    requires Alone(y) && Advance(y).Some?
    ensures SameBodies(y, Advance(y).value)
  {
    Open(y);
    match Me(y).phase
    case Running(f, _) => ActedKeepsBodies(y, Step(y.p, NextLabel(y)).state, f);
    case Scanning =>
    case _ => IdleKeepsTasks(y);
  }

  lemma {:induction false} DriveKeepsBodies(y: Sys)
    requires Alone(y)
    ensures SameBodies(y, Drive(y).end)
    decreases Measure(y)
  {
    Open(y);
    if Me(y).phase != Exited && !AtEnd(y) && Advance(y).Some? {
      AdvanceKeepsBodies(y);
      AdvanceKeepsAlone(y);
      AdvanceCosts(y);
      DriveKeepsBodies(Advance(y).value);
    }
  }

  /** A program of callbacks that schedule callbacks, yield and throw, pinned to this
      thread or not at all: `stop` returns, and each of them was run exactly once up to
      its end, an exception, or a yield nobody woke it from. */
  lemma {:induction false} CallbackProgramsDrain(y: Sys)
    requires Alone(y) && Stopped(y.p) && Tidy(y.p) && Waiting(y.p)
    requires Everywhere(y, NoResume()) && Everywhere(y, Local(Me(y).tid)) && LocalQueue(y.p)
    ensures var o := Drive(y);
      o.Returned? && Drained(o.end) && SameBodies(y, o.end)
  {
    Open(y);
    CallbackProgramsNeverAbort(y);
    LocalProgramsNeverSpin(y);
    StopEnds(y);
    DriveKeepsBodies(y);
  }

  // ----- the states `stop` is called in -----

  /** After `start`, with a fiber or callback scheduled from outside, and after `stop`. */
  function Begin(tid: nat): Sys {
    Sys(Start([tid]), [], map[])
  }

  function ScheduledCb(y: Sys, r: Script, thread: int): Sys {
    y.(p := Push(Issue(y.p), CbEntry(Job(User(0), y.p.nextTicket), thread)), stories := y.stories[y.p.nextTicket := Story(r, [])])
  }

  function ScheduledFiber(y: Sys, g: nat, thread: int): Sys {
    y.(p := Push(Issue(y.p), FiberEntry(Handle(g, y.p.nextTicket), thread)))
  }

  function Created(y: Sys, r: Script): Sys {
    y.(p := y.p.(fibers := y.p.fibers + [Fiber(INIT, true, None, None)]), tasks := y.tasks + [Task(r, None)])
  }

  function StopCalled(y: Sys): Sys {
    y.(p := y.p.(autoStop := true, stopping := true))
  }

  lemma {:induction false} BeginIsAlone(tid: nat)
    ensures Alone(Begin(tid)) && Tidy(Begin(tid).p) && Waiting(Begin(tid).p)
  {
    StartIsTidy([tid]);
    Io.FreshIsEmpty(Io.ContextWeight(BadWaiter(Nobody())));
  }

  /** Nobody is in a fiber or in the idle fiber yet, and `stop` has not been called. */
  ghost predicate Waits(y: Sys) {
    Alone(y) && Me(y).phase == Scanning && !y.p.stopping
  }

  lemma {:induction false} ScheduledCbIsAlone(y: Sys, r: Script, thread: int)
    requires Waits(y)
    ensures Waits(ScheduledCb(y, r, thread))
  {
    Open(y);
    var k := y.p.nextTicket;
    StepKeepsSound(y.p, Outside(ScheduleCb(0, thread)));
    PushKeepsBase(y.p, CbEntry(Job(User(0), k), thread));
    NotIssuedNotConsumed(y.p, k);
    AllIssued(y.p);
    EntriesStayTold(y, k, Story(r, []));
    assert k !in y.stories;
    NewStoryKeepsTasks(y, ScheduledCb(y, r, thread));
    QueueGrowsReady(y.p, ScheduledCb(y, r, thread).p);
  }

  lemma {:induction false} QueueGrowsReady(p: State, q: State)
    requires ReadyQueued(p) && q.fibers == p.fibers && p.queue <= q.queue
    ensures ReadyQueued(q)
  {
    forall f | 0 <= f < |q.fibers| && q.fibers[f].state == READY ensures InQueue(q.queue, f) {
      QueueKept(p.queue, q.queue, f);
    }
  }

  lemma {:induction false} NewStoryKeepsTasks(y: Sys, z: Sys)
    requires |y.tasks| == |y.p.fibers| && Tasks(y) && z.tasks == y.tasks && z.p.fibers == y.p.fibers && z.p.consumed == y.p.consumed
    requires forall k :: k in y.stories ==> k in z.stories && z.stories[k] == y.stories[k]
    requires forall k :: k in z.stories ==> k < z.p.nextTicket && (k in y.stories || (z.stories[k].ran == [] && z.p.consumed[k] == 0))
    requires forall e :: e in z.p.queue ==> EntryTold(e, z.stories)
    ensures Tasks(z)
  {
    forall f | 0 <= f < |z.tasks| ensures TaskOk(z.p.fibers[f], z.tasks[f], z.stories, z.p.consumed) {
      assert TaskOk(y.p.fibers[f], y.tasks[f], y.stories, y.p.consumed);
    }
    forall k | k in z.stories ensures Told(k, z.tasks, z.stories, z.p.consumed) {
      if k in y.stories { assert Told(k, y.tasks, y.stories, y.p.consumed); }
    }
  }

  lemma {:induction false} ScheduledFiberIsAlone(y: Sys, g: nat, thread: int)
    requires Waits(y) && g < |y.p.fibers|
    ensures Waits(ScheduledFiber(y, g, thread))
  {
    Open(y);
    var k := y.p.nextTicket;
    StepKeepsSound(y.p, Outside(ScheduleFiber(g, thread)));
    PushKeepsBase(y.p, FiberEntry(Handle(g, k), thread));
    assert k !in y.stories;
    NewStoryKeepsTasks(y, ScheduledFiber(y, g, thread));
    QueueGrowsReady(y.p, ScheduledFiber(y, g, thread).p);
  }

  lemma {:induction false} CreatedIsAlone(y: Sys, r: Script)
    requires Waits(y)
    ensures Waits(Created(y, r))
  {
    Open(y);
    var z := Created(y, r);
    StepKeepsSound(y.p, Outside(Spawn));
    EntriesStayPlain(y.p.queue, |y.p.fibers|, |z.p.fibers|);
    forall f | 0 <= f < |z.tasks| ensures TaskOk(z.p.fibers[f], z.tasks[f], z.stories, z.p.consumed) {
      if f < |y.tasks| { assert TaskOk(y.p.fibers[f], y.tasks[f], y.stories, y.p.consumed); }
    }
    forall k | k in z.stories ensures Told(k, z.tasks, z.stories, z.p.consumed) {
      assert Told(k, y.tasks, y.stories, y.p.consumed);
      if y.p.consumed[k] > 0 && !Finished(y.stories[k]) {
        var f :| 0 <= f < |y.tasks| && y.tasks[f].job == Some(k);
        assert z.tasks[f].job == Some(k);
      }
    }
  }

  lemma {:induction false} StopCalledIsAlone(y: Sys)
    requires Waits(y)
    ensures Alone(StopCalled(y)) && Stopped(StopCalled(y).p)
  {
    Open(y);
    StepKeepsSound(y.p, Stop);
  }
}
