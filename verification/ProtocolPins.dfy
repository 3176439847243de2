/** Exactly when `stop` returns, for programs of callbacks: the scripts cannot test anything,
    so what they pin to other threads can be seen before they run. */
module ProtocolPins {
  import opened Common
  import opened Protocol
  import opened ProtocolPrograms
  import opened ProtocolPlain
  import opened ProtocolDrain
  import opened ProtocolStop

  /** Running this script, and the callbacks it schedules here, pins something to another
      thread. What comes after a yield on hold or an exception is never run, nor is a
      fiber that is only made. */
  predicate Pins(r: Script, tid: nat) {
    r != [] &&
    match r[0]
    case Call(b, t) => (t != -1 && t != tid) || Pins(b, tid) || Pins(r[1..], tid)
    case ToHold => false
    case Raise => false
    case _ => Pins(r[1..], tid)
  }

  predicate EntryPins(e: Entry, stories: map<nat, Story>, tid: nat) {
    Foreign(e, tid) || (e.CbEntry? && Pins(ScriptOf(stories, e.job.ticket), tid))
  }

  /** The fiber is running, or will run again. */
  predicate TaskPins(x: Fiber, t: Task, tid: nat) {
    x.hasCb && (x.state == EXEC || x.state == READY) && Pins(t.rest, tid)
  }

  /** Nothing queued is pinned elsewhere, nor will be. */
  ghost predicate NoPins(y: Sys)
    requires Shaped(y)
  {
    && (forall e :: e in y.p.queue ==> !EntryPins(e, y.stories, Me(y).tid))
    && (forall f :: 0 <= f < |y.tasks| ==> !TaskPins(y.p.fibers[f], y.tasks[f], Me(y).tid))
  }

  // ----- one step -----

  lemma {:induction false} TakenOrStays(q: seq<Entry>, i: nat)
    requires i < |q|
    ensures forall e :: e in q <==> e == q[i] || e in q[..i] + q[i + 1..]
  {
    forall e | e in q ensures e == q[i] || e in q[..i] + q[i + 1..] {
      var j :| 0 <= j < |q| && q[j] == e;
      if j != i { assert (q[..i] + q[i + 1..])[if j < i then j else j - 1] == e; }
    }
  }

  /** Entering a fiber that was queued to run again. */
  lemma {:induction false} FiberTakenPins(y: Sys, z: Sys, i: nat)
    requires Shaped(y) && Shaped(z) && i < |y.p.queue| && y.p.queue[i].FiberEntry? && !Foreign(y.p.queue[i], Me(y).tid)
    requires y.p.queue[i].handle.fiber < |y.p.fibers| && y.p.fibers[y.p.queue[i].handle.fiber].state == READY
    requires z.p.queue == y.p.queue[..i] + y.p.queue[i + 1..] && z.tasks == y.tasks && z.stories == y.stories && Me(z).tid == Me(y).tid
    requires z.p.fibers == y.p.fibers[y.p.queue[i].handle.fiber := y.p.fibers[y.p.queue[i].handle.fiber].(state := EXEC, nap := None)]
    ensures NoPins(z) <==> NoPins(y)
  {
    TakenOrStays(y.p.queue, i);
    var f := y.p.queue[i].handle.fiber;
    assert TaskPins(z.p.fibers[f], z.tasks[f], Me(z).tid) == TaskPins(y.p.fibers[f], y.tasks[f], Me(y).tid);
    forall g | 0 <= g < |y.tasks|
      ensures TaskPins(z.p.fibers[g], z.tasks[g], Me(z).tid) == TaskPins(y.p.fibers[g], y.tasks[g], Me(y).tid)
    {
    }
  }

  /** Beginning a callback in a fiber that is not in use. */
  lemma {:induction false} CallbackTakenPins(y: Sys, z: Sys, i: nat, c: nat)
    requires Shaped(y) && Shaped(z) && i < |y.p.queue| && y.p.queue[i].CbEntry? && !Foreign(y.p.queue[i], Me(y).tid)
    requires c <= |y.tasks| && (c < |y.tasks| ==> y.p.fibers[c].state != EXEC && y.p.fibers[c].state != READY)
    requires z.p.queue == y.p.queue[..i] + y.p.queue[i + 1..] && z.stories == y.stories && Me(z).tid == Me(y).tid
    requires z.p.fibers == Put(y.p.fibers, c, Fiber(EXEC, true, None, None))
    requires var k := y.p.queue[i].job.ticket; z.tasks == Put(y.tasks, c, Task(ScriptOf(y.stories, k), Some(k)))
    ensures NoPins(z) <==> NoPins(y)
  {
    TakenOrStays(y.p.queue, i);
    assert TaskPins(z.p.fibers[c], z.tasks[c], Me(z).tid) == EntryPins(y.p.queue[i], y.stories, Me(y).tid);
    forall g | 0 <= g < |y.tasks| && g != c
      ensures TaskPins(z.p.fibers[g], z.tasks[g], Me(z).tid) == TaskPins(y.p.fibers[g], y.tasks[g], Me(y).tid)
    {
    }
    if c < |y.tasks| { assert !TaskPins(y.p.fibers[c], y.tasks[c], Me(y).tid); }
  }

  lemma {:induction false} ResumeKeepsPins(y: Sys, i: nat)
    requires Shaped(y) && Me(y).phase == Scanning && i == Scan(y.p.queue, Me(y).tid, y.p.fibers) < |y.p.queue|
    requires y.p.queue[i].FiberEntry? && Loop(y.p, 0).Alive?
    requires y.p.queue[i].handle.fiber < |y.p.fibers| && y.p.fibers[y.p.queue[i].handle.fiber].state == READY
    ensures var z := Entered(y, Loop(y.p, 0).state);
      Shaped(z) && (NoPins(z) <==> NoPins(y))
  {
    EnterFiberIs(y.p, i);
    FiberTakenPins(y, Entered(y, Loop(y.p, 0).state), i);
  }

  lemma {:induction false} BeginKeepsPins(y: Sys, i: nat)
    requires Shaped(y) && Me(y).phase == Scanning && i == Scan(y.p.queue, Me(y).tid, y.p.fibers) < |y.p.queue|
    requires y.p.queue[i].CbEntry? && y.p.queue[i].job.code.User? && Loop(y.p, 0).Alive?
    requires CallbackFiber(y.p) < |y.p.fibers| || Me(y).cbFiber.None?
    ensures var z := Entered(y, Loop(y.p, 0).state);
      Shaped(z) && (NoPins(z) <==> NoPins(y))
  {
    EnterCallbackIs(y.p, i);
    CallbackTakenPins(y, Entered(y, Loop(y.p, 0).state), i, CallbackFiber(y.p));
  }

  lemma {:induction false} EnterKeepsPins(y: Sys)
    requires Shaped(y) && Base(y.p) && Waiting(y.p) && Me(y).phase == Scanning && Loop(y.p, 0).Alive?
    ensures var z := Entered(y, Loop(y.p, 0).state);
      Shaped(z) && (NoPins(z) <==> NoPins(y))
  {
    var i := Scan(y.p.queue, Me(y).tid, y.p.fibers);
    if i < |y.p.queue| {
      assert PlainEntry(y.p.queue[i], |y.p.fibers|) && EntryWaits(y.p.queue[i], y.p.fibers);
      if y.p.queue[i].FiberEntry? { ResumeKeepsPins(y, i); } else { BeginKeepsPins(y, i); }
    }
  }

  /** Only the running fiber changed, and pins what it did, but for what it queued. */
  lemma {:induction false} TaskStepPins(y: Sys, z: Sys, f: nat)
    requires Shaped(y) && Shaped(z) && f < |y.tasks| <= |z.tasks| && Me(z).tid == Me(y).tid && Tasks(y) && SameBodies(y, z)
    requires forall g :: 0 <= g < |y.tasks| && g != f ==> z.p.fibers[g] == y.p.fibers[g] && z.tasks[g] == y.tasks[g]
    requires forall g :: |y.tasks| <= g < |z.tasks| ==> z.p.fibers[g].state == INIT
    requires y.p.queue <= z.p.queue && |z.p.queue| <= |y.p.queue| + 1
    requires TaskPins(y.p.fibers[f], y.tasks[f], Me(y).tid) <==>
      TaskPins(z.p.fibers[f], z.tasks[f], Me(z).tid) || (|z.p.queue| > |y.p.queue| && EntryPins(z.p.queue[|y.p.queue|], z.stories, Me(z).tid))
    ensures NoPins(z) <==> NoPins(y)
  {
    forall e | e in y.p.queue ensures e in z.p.queue && EntryPins(e, z.stories, Me(z).tid) == EntryPins(e, y.stories, Me(y).tid) {
      assert EntryTold(e, y.stories);
    }
    forall e | e in z.p.queue ensures e in y.p.queue || (|z.p.queue| > |y.p.queue| && e == z.p.queue[|y.p.queue|]) {
      var j :| 0 <= j < |z.p.queue| && z.p.queue[j] == e;
      if j < |y.p.queue| { assert y.p.queue[j] == e; }
    }
    if |z.p.queue| > |y.p.queue| { assert z.p.queue[|y.p.queue|] in z.p.queue; }
    if NoPins(y) {
      forall g | 0 <= g < |z.tasks| ensures !TaskPins(z.p.fibers[g], z.tasks[g], Me(z).tid) {
        if g < |y.tasks| { assert !TaskPins(y.p.fibers[g], y.tasks[g], Me(y).tid); }
      }
    }
    if NoPins(z) {
      forall g | 0 <= g < |y.tasks| ensures !TaskPins(y.p.fibers[g], y.tasks[g], Me(y).tid) {
        assert !TaskPins(z.p.fibers[g], z.tasks[g], Me(z).tid);
      }
    }
  }

  lemma {:induction false} StopKeepsPins(y: Sys, f: nat)
    requires Shaped(y) && Tasks(y) && Inside(y, f)
    requires !y.p.fibers[f].hasCb || y.tasks[f].rest == [] || y.tasks[f].rest[0] == Raise
    ensures var z := Acted(y, ActState(y.p, f, NextAction(y.p.fibers[f], y.tasks[f].rest)), f);
      Shaped(z) && (NoPins(z) <==> NoPins(y))
  {
    var z := Acted(y, ActState(y.p, f, NextAction(y.p.fibers[f], y.tasks[f].rest)), f);
    TaskStepPins(y, z, f);
  }

  lemma {:induction false} GoOnKeepsPins(y: Sys, f: nat)
    requires Shaped(y) && Tasks(y) && Issued(y.p) && Inside(y, f) && y.p.fibers[f].state == EXEC
    requires y.p.fibers[f].hasCb && y.tasks[f].rest != [] && y.tasks[f].rest[0] != Raise && !y.tasks[f].rest[0].Resume?
    ensures var z := Acted(y, ActState(y.p, f, NextAction(y.p.fibers[f], y.tasks[f].rest)), f);
      Shaped(z) && (NoPins(z) <==> NoPins(y))
  {
    var z := Acted(y, ActState(y.p, f, NextAction(y.p.fibers[f], y.tasks[f].rest)), f);
    GoOnIs(y, f);
    ActedKeepsBodies(y, ActState(y.p, f, NextAction(y.p.fibers[f], y.tasks[f].rest)), f);
    TaskStepPins(y, z, f);
  }

  lemma {:induction false} ActKeepsPins(y: Sys, f: nat)
    requires Shaped(y) && Tasks(y) && Issued(y.p) && Inside(y, f) && y.p.fibers[f].state == EXEC && AllActs(y.tasks[f].rest, NoResume())
    ensures var z := Acted(y, ActState(y.p, f, NextAction(y.p.fibers[f], y.tasks[f].rest)), f);
      Shaped(z) && (NoPins(z) <==> NoPins(y))
  {
    if !y.p.fibers[f].hasCb || y.tasks[f].rest == [] || y.tasks[f].rest[0] == Raise {
      StopKeepsPins(y, f);
    } else {
      GoOnKeepsPins(y, f);
    }
  }

  lemma {:induction false} IdleKeepsPins(y: Sys)
    requires Alone(y) && !Me(y).phase.Scanning? && !Me(y).phase.Running? && Advance(y).Some?
    ensures Shaped(Advance(y).value) && (NoPins(Advance(y).value) <==> NoPins(y))
  {
    AdvanceIs(y);
    IdleKeepsTasks(y);
  }

  /** A step pins nothing that was not going to be pinned, and leaves nothing unpinned. */
  lemma {:induction false} AdvanceKeepsPins(y: Sys)
    requires Alone(y) && Waiting(y.p) && Everywhere(y, NoResume()) && Advance(y).Some?
    ensures Shaped(Advance(y).value) && (NoPins(Advance(y).value) <==> NoPins(y))
  {
    match Me(y).phase
    case Scanning =>
      Open(y);
      EnterKeepsPins(y);
    case Running(f, _) =>
      RunningIs(y, f);
      ActKeepsPins(y, f);
    case _ => IdleKeepsPins(y);
  }

  lemma {:induction false} RunningIs(y: Sys, f: nat)
    requires Alone(y) && Inside(y, f) && Everywhere(y, NoResume()) && Advance(y).Some?
    ensures Tasks(y) && Issued(y.p) && y.p.fibers[f].state == EXEC && AllActs(y.tasks[f].rest, NoResume())
    ensures Advance(y).value == Acted(y, ActState(y.p, f, NextAction(y.p.fibers[f], y.tasks[f].rest)), f)
  {
    Open(y);
    RunningFiberIsExec(y);
    AllIssued(y.p);
    DoIs(y.p, f, y.tasks[f].rest);
  }

  // ----- the end -----

  lemma {:induction false} NothingLeftPinsNothing(y: Sys)
    requires Alone(y) && Me(y).phase == Exited
    ensures NoPins(y)
  {
    Open(y);
    ReturnedIsDrained(y);
    forall f | 0 <= f < |y.tasks| ensures !TaskPins(y.p.fibers[f], y.tasks[f], Me(y).tid) {
      assert !InQueue(y.p.queue, f);
    }
  }

  /** A program of callbacks: no fiber is scheduled by hand. */
  ghost predicate CallbacksRun(y: Sys) {
    Alone(y) && Stopped(y.p) && Tidy(y.p) && Waiting(y.p) && Everywhere(y, NoResume())
  }

  /** After `stop`, a program of callbacks returns, with everything drained, if and only
      if nothing is pinned to another thread and nothing it will run pins anything there;
      otherwise it is left with such entries. */
  lemma {:induction false} ReturnsIffNothingPins(y: Sys)
    requires CallbacksRun(y)
    ensures Drive(y).Returned? <==> NoPins(y)
    ensures Drive(y).Spins? <==> !NoPins(y)
    decreases Measure(y)
  {
    Open(y);
    if Me(y).phase == Exited {
      NothingLeftPinsNothing(y);
    } else if AtEnd(y) {
      SpinningIsForeign(y);
      assert y.p.queue[0] in y.p.queue;
    } else {
      var l := NextLabel(y);
      assert Plain(y.p, l);
      PlainIsCareful(y.p, l);
      CarefulStepLives(y.p, l);
      AdvanceSucceeds(y);
      AdvanceIsAStep(y);
      CarefulStepKeepsTidy(y.p, l);
      StepWaits(y.p, l);
      AdvanceKeepsAlone(y);
      AdvanceCosts(y);
      AdvanceIs(y);
      AdvanceKeepsEverywhere(y, NoResume());
      AdvanceKeepsPins(y);
      ReturnsIffNothingPins(Advance(y).value);
    }
  }

  // ----- from an empty scheduler -----

  /** A callback to schedule: its script, and the thread it is pinned to, or -1. */
  datatype Callback = Callback(script: Script, thread: int)

  /** The callbacks scheduled one after the other, from outside, before `stop`. */
  function ScheduledAll(tid: nat, cbs: seq<Callback>): Sys
    decreases |cbs|
  {
    if cbs == [] then Begin(tid)
    else
      var last := cbs[|cbs| - 1];
      ScheduledCb(ScheduledAll(tid, cbs[..|cbs| - 1]), last.script, last.thread)
  }

  predicate NoResumes(cbs: seq<Callback>) {
    forall i :: 0 <= i < |cbs| ==> AllActs(cbs[i].script, NoResume())
  }

  /** Scheduled here, and pinning nothing elsewhere. */
  predicate Stays(c: Callback, tid: nat) {
    (c.thread == -1 || c.thread == tid) && !Pins(c.script, tid)
  }

  predicate AllStay(cbs: seq<Callback>, tid: nat) {
    forall i :: 0 <= i < |cbs| ==> Stays(cbs[i], tid)
  }

  /** Before `stop`, with callbacks scheduled that schedule no fibers. */
  ghost predicate Ready(y: Sys, tid: nat) {
    Waits(y) && Tidy(y.p) && Waiting(y.p) && Everywhere(y, NoResume()) && Me(y).tid == tid
  }

  /** One more callback keeps the books, and pins what its entry pins. */
  lemma {:induction false} OneMoreScheduled(y: Sys, tid: nat, c: Callback)
    requires Ready(y, tid) && AllActs(c.script, NoResume())
    ensures var z := ScheduledCb(y, c.script, c.thread);
      Ready(z, tid) && (NoPins(z) <==> NoPins(y) && Stays(c, tid))
  {
    Open(y);
    var k := y.p.nextTicket;
    var z := ScheduledCb(y, c.script, c.thread);
    var l := Outside(ScheduleCb(0, c.thread));
    ScheduledCbIsAlone(y, c.script, c.thread);
    CarefulStepKeepsTidy(y.p, l);
    StepWaits(y.p, l);
    assert k !in y.stories;
    OneMoreEntryPins(y, z, CbEntry(Job(User(0), k), c.thread));
  }

  lemma {:induction false} OneMoreEntryPins(y: Sys, z: Sys, e: Entry)
    requires Shaped(y) && Shaped(z) && Tasks(y) && Me(z).tid == Me(y).tid && z.tasks == y.tasks && z.p.fibers == y.p.fibers
    requires SameBodies(y, z) && z.p.queue == y.p.queue + [e]
    ensures NoPins(z) <==> NoPins(y) && !EntryPins(e, z.stories, Me(z).tid)
  {
    forall e | e in y.p.queue ensures EntryPins(e, z.stories, Me(z).tid) == EntryPins(e, y.stories, Me(y).tid) {
      assert EntryTold(e, y.stories);
    }
    assert e in z.p.queue;
  }

  /** The scripts of what was scheduled, in order, and nothing else. */
  ghost predicate Holds(y: Sys, cbs: seq<Callback>) {
    && y.p.nextTicket == |cbs| && (forall i :: i in y.stories <==> 0 <= i < |cbs|)
    && forall i :: 0 <= i < |cbs| ==> y.stories[i].body == cbs[i].script
  }

  lemma {:induction false} HoldsOneMore(y: Sys, cbs: seq<Callback>, n: nat)
    requires n < |cbs| && Holds(y, cbs[..n])
    ensures Holds(ScheduledCb(y, cbs[n].script, cbs[n].thread), cbs[..n + 1])
    ensures forall tid :: AllStay(cbs[..n + 1], tid) <==> AllStay(cbs[..n], tid) && Stays(cbs[n], tid)
  {
    assert cbs[..n + 1] == cbs[..n] + [cbs[n]];
  }

  lemma {:induction false} BeginHolds(tid: nat)
    ensures Ready(Begin(tid), tid) && Holds(Begin(tid), []) && NoPins(Begin(tid))
  {
    BeginIsAlone(tid);
  }

  /** All of it, for the callbacks scheduled so far. */
  ghost predicate Scheduled(y: Sys, tid: nat, cbs: seq<Callback>) {
    Ready(y, tid) && Holds(y, cbs) && (NoPins(y) <==> AllStay(cbs, tid))
  }

  lemma {:induction false} ScheduledOneMore(y: Sys, tid: nat, cbs: seq<Callback>, n: nat)
    requires n < |cbs| && Scheduled(y, tid, cbs[..n]) && AllActs(cbs[n].script, NoResume())
    ensures Scheduled(ScheduledCb(y, cbs[n].script, cbs[n].thread), tid, cbs[..n + 1])
  {
    OneMoreScheduled(y, tid, cbs[n]);
    HoldsOneMore(y, cbs, n);
  }

  lemma {:induction false} ScheduledAllIs(tid: nat, cbs: seq<Callback>, n: nat)
    requires n <= |cbs| && NoResumes(cbs)
    ensures Scheduled(ScheduledAll(tid, cbs[..n]), tid, cbs[..n])
  {
    if n == 0 {
      BeginHolds(tid);
    } else {
      ScheduledAllIs(tid, cbs, n - 1);
      ScheduledOneMore(ScheduledAll(tid, cbs[..n - 1]), tid, cbs, n - 1);
      assert cbs[..n][..n - 1] == cbs[..n - 1] && cbs[..n][n - 1] == cbs[n - 1];
    }
  }

  /** Calling `stop` changes nothing the programs depend on. */
  lemma {:induction false} StopCalledRuns(y: Sys, tid: nat)
    requires Ready(y, tid)
    ensures CallbacksRun(StopCalled(y)) && (NoPins(StopCalled(y)) <==> NoPins(y))
  {
    StopCalledIsAlone(y);
    Open(y);
    CarefulStepKeepsTidy(y.p, Stop);
    StepWaits(y.p, Stop);
  }

  /** From an empty scheduler, with any callbacks scheduled before `stop` that schedule no
      fibers by hand: `stop` returns if and only if none of them is pinned elsewhere or
      pins anything elsewhere. Then callback number i was run exactly once, up to its
      end, an exception, or a yield nobody woke it from. */
  lemma {:induction false} StopReturnsIffAllStay(tid: nat, cbs: seq<Callback>)
    requires NoResumes(cbs)
    ensures Alone(StopCalled(ScheduledAll(tid, cbs)))
    ensures var o := Drive(StopCalled(ScheduledAll(tid, cbs)));
      && (o.Returned? <==> AllStay(cbs, tid)) && (o.Spins? <==> !AllStay(cbs, tid))
      && (o.Returned? ==>
           && Drained(o.end)
           && forall i :: 0 <= i < |cbs| ==> i in o.end.stories && o.end.stories[i].body == cbs[i].script && o.end.p.consumed[i] == 1)
  {
    var y := ScheduledAll(tid, cbs);
    ScheduledAllIs(tid, cbs, |cbs|);
    assert cbs[..|cbs|] == cbs;
    StopCalledRuns(y, tid);
    ReturnsIffNothingPins(StopCalled(y));
    StopEnds(StopCalled(y));
    DriveKeepsBodies(StopCalled(y));
  }
}
