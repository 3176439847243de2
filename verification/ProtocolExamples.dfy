/** Short runs that show what can go wrong, and that it can. */
module ProtocolExamples {
  import opened Common
  import Io = IoSpec
  import opened TimerSpec
  import opened Protocol
  import opened ProtocolRuns

  /** The step fails an assertion. */
  predicate Fails(s: State, l: Label) {
    |s.io.ctxs| >= Io.FIRST_SIZE && Step(s, l).Dead?
  }

  /** A run along given states whose last step fails. */
  lemma {:induction false} RunFails(st: nat -> State, ls: seq<Label>, n: nat)
    requires n < |ls| && Sound(st(n)) && Fails(st(|ls| - 1), ls[|ls| - 1])
    requires forall i: nat :: i < |ls| - 1 ==> LeadsTo(st(i), ls[i], st(i + 1))
    ensures Run(st(n), ls[n..]).Dead?
    decreases |ls| - n
  {
    if n < |ls| - 1 {
      assert LeadsTo(st(n), ls[n], st(n + 1));
      StepKeepsSound(st(n), ls[n]);
      assert ls[n..][1..] == ls[n + 1..];
      RunFails(st, ls, n + 1);
    }
  }

  // ----- a fiber that is scheduled twice -----

  const E0: Entry := FiberEntry(Handle(0, 0), -1)
  const E1: Entry := FiberEntry(Handle(0, 1), -1)

  /** A new fiber is scheduled twice from outside, and entered. */
  function Twice(n: nat): (s: State)
    ensures |s.io.ctxs| >= Io.FIRST_SIZE && |s.workers| == 1
  {
    var s0 := Start([0]);
    var s1 := s0.(fibers := [Fiber(INIT, true, None, None)]);
    var s2 := s1.(queue := [E0], nextTicket := 1, issued := multiset{0});
    var s3 := s2.(queue := [E0, E1], nextTicket := 2, issued := multiset{0, 1});
    if n == 0 then s0 else if n == 1 then s1 else if n == 2 then s2 else if n == 3 then s3
    else s3.(queue := [E1], active := 1, fibers := [Fiber(EXEC, true, None, None)],
             workers := [Worker(0, Running(0, false), None, false)], consumed := multiset{0})
  }

  const TWICE: seq<Label> := [Outside(Spawn), Outside(ScheduleFiber(0, -1)), Outside(ScheduleFiber(0, -1)), ByWorker(0, AtTop)]

  lemma {:induction false} TwiceScheduled(n: nat)
    requires n < 3
    ensures LeadsTo(Twice(n), TWICE[n], Twice(n + 1))
  {
  }

  lemma {:induction false} TwiceEntered()
    ensures LeadsTo(Twice(3), TWICE[3], Twice(4))
  {
    var q := Twice(3).queue;
    assert Scan(q, 0, Twice(3).fibers) == 0;
    assert q[..0] + q[1..] == Twice(4).queue;
  }

  lemma {:induction false} TwiceSteps(n: nat)
    requires n < 4
    ensures LeadsTo(Twice(n), TWICE[n], Twice(n + 1))
  {
    if n < 3 { TwiceScheduled(n); } else { TwiceEntered(); }
  }

  /** It returns. */
  function Dangling(n: nat): (s: State)
    ensures |s.io.ctxs| >= Io.FIRST_SIZE && |s.workers| == 1
  {
    if n <= 4 then Twice(n)
    else Twice(4).(active := 0, fibers := [Fiber(TERM, false, None, None)], workers := [Worker(0, Scanning, None, false)])
  }

  const DANGLING: seq<Label> := TWICE + [ByWorker(0, Acting(Return)), ByWorker(0, AtTop)]

  lemma {:induction false} DanglingReturns()
    ensures Do(Dangling(4), 0, Return) == Alive(Dangling(5))
  {
  }

  lemma {:induction false} DanglingDead()
    ensures Fails(Dangling(5), DANGLING[5])
  {
    assert Scan(Dangling(5).queue, 0, Dangling(5).fibers) == 0;
  }

  lemma {:induction false} DanglingSteps(n: nat)
    requires n < 5
    ensures LeadsTo(Dangling(n), DANGLING[n], Dangling(n + 1))
  {
    if n < 4 { TwiceSteps(n); } else { DanglingReturns(); }
  }

  /** The second entry is taken after its end, and it runs into the assertion. */
  lemma {:induction false} DanglingEntryAborts()
    ensures RunFromStart([0], DANGLING).Dead?
  {
    StartIsSound([0]);
    DanglingDead();
    forall n: nat | n < |DANGLING| - 1 ensures LeadsTo(Dangling(n), DANGLING[n], Dangling(n + 1)) {
      DanglingSteps(n);
    }
    RunFails(Dangling, DANGLING, 0);
    assert DANGLING[0..] == DANGLING;
  }

  // ----- a sleep that is cut short -----

  /** It sleeps for a second instead, and yields, and its second entry is taken. */
  function CutShort(n: nat): (s: State)
    ensures |s.io.ctxs| >= Io.FIRST_SIZE && |s.workers| == 1
  {
    var s5 := FallAsleep(Twice(4), 0, 1000);
    var s6 := s5.(active := 0, fibers := [Fiber(HOLD, true, None, Some(2))], workers := [Worker(0, Scanning, None, false)]);
    if n <= 4 then Twice(n) else if n == 5 then s5 else if n == 6 then s6
    else s6.(queue := [], active := 1, fibers := [Fiber(EXEC, true, None, None)],
             workers := [Worker(0, Running(0, false), None, false)], consumed := multiset{0, 1})
  }

  const CUT_SHORT: seq<Label> := TWICE + [ByWorker(0, Acting(Sleep(1000))), ByWorker(0, Acting(YieldHold)), ByWorker(0, AtTop)]

  /** The first sleep of the only fiber. */
  lemma {:induction false} FirstSleep(s: State, ms: nat)
    requires s.fibers == [Fiber(EXEC, true, None, None)] && s.timers == [] && s.naps == map[]
    ensures var k := s.nextTicket;
      FallAsleep(s, 0, ms) == s.(nextTicket := k + 1, issued := s.issued + multiset{k}, fibers := [Fiber(EXEC, true, None, Some(k))],
                                 timers := [TimerRec(s.nextTimer, s.clock + ms, ms, false, Some(Job(Wake(0), k)))],
                                 nextTimer := s.nextTimer + 1, naps := map[k := Nap(0, s.clock + ms)])
  {
  }

  lemma {:induction false} CutShortSleeps()
    ensures LeadsTo(CutShort(4), CUT_SHORT[4], CutShort(5))
  {
  }

  /** The only fiber yields on hold, and is entered through the second entry. */
  lemma {:induction false} OnlyFiberHolds(s: State, nap: nat)
    requires s.fibers == [Fiber(EXEC, true, None, Some(nap))] && s.workers == [Worker(0, Running(0, false), None, false)]
    requires |s.io.ctxs| >= Io.FIRST_SIZE
    ensures LeadsTo(s, ByWorker(0, Acting(YieldHold)),
                    s.(active := s.active - 1, fibers := [Fiber(HOLD, true, None, Some(nap))], workers := [Worker(0, Scanning, None, false)]))
  {
  }

  lemma {:induction false} OnlyFiberEntered(s: State, nap: nat)
    requires s.fibers == [Fiber(HOLD, true, None, Some(nap))] && s.workers == [Worker(0, Scanning, None, false)] && s.queue == [E1]
    requires |s.io.ctxs| >= Io.FIRST_SIZE
    ensures LeadsTo(s, ByWorker(0, AtTop),
                    s.(queue := [], active := s.active + 1, fibers := [Fiber(EXEC, true, None, None)],
                       workers := [Worker(0, Running(0, false), None, false)], consumed := s.consumed + multiset{1}))
  {
    assert Scan(s.queue, 0, s.fibers) == 0 && s.queue[..0] + s.queue[1..] == [];
  }

  lemma {:induction false} CutShortYields()
    ensures LeadsTo(CutShort(5), CUT_SHORT[5], CutShort(6))
  {
    FirstSleep(Twice(4), 1000);
    OnlyFiberHolds(CutShort(5), 2);
  }

  lemma {:induction false} CutShortEntered()
    ensures LeadsTo(CutShort(6), CUT_SHORT[6], CutShort(7))
  {
    FirstSleep(Twice(4), 1000);
    OnlyFiberEntered(CutShort(6), 2);
    assert CutShort(6).consumed + multiset{1} == multiset{0, 1};
  }

  lemma {:induction false} CutShortSteps(n: nat)
    requires n < 7
    ensures LeadsTo(CutShort(n), CUT_SHORT[n], CutShort(n + 1))
  {
    if n < 4 { TwiceSteps(n); } else if n == 4 { CutShortSleeps(); } else if n == 5 { CutShortYields(); } else { CutShortEntered(); }
  }

  lemma {:induction false} CutShortEnd()
    ensures var t := CutShort(7);
      && t.clock == 0 && t.naps == map[2 := Nap(0, 1000)]
      && t.fibers == [Fiber(EXEC, true, None, None)] && t.workers[0].phase == Running(0, false)
      && t.timers == [TimerRec(0, 1000, 1000, false, Some(Job(Wake(0), 2)))]
  {
    FirstSleep(Twice(4), 1000);
  }

  lemma {:induction false} CutShortRuns()
    ensures RunFromStart([0], CUT_SHORT) == Alive(CutShort(7))
  {
    StartIsSound([0]);
    forall n: nat | n < |CUT_SHORT| ensures LeadsTo(CutShort(n), CUT_SHORT[n], CutShort(n + 1)) {
      CutShortSteps(n);
    }
    RunAlong(CutShort, CUT_SHORT, 0);
    assert CUT_SHORT[0..] == CUT_SHORT;
  }

  /** The sleeper runs again while no time has passed, its sleep is due in a second, and
      its timer is still armed. */
  lemma {:induction false} SleepIsCutShort()
    ensures var r := RunFromStart([0], CUT_SHORT);
      && r.Alive? && r.state.clock == 0 && r.state.naps == map[2 := Nap(0, 1000)]
      && r.state.fibers == [Fiber(EXEC, true, None, None)] && r.state.workers[0].phase == Running(0, false)
      && r.state.timers == [TimerRec(0, 1000, 1000, false, Some(Job(Wake(0), 2)))]
  {
    CutShortRuns();
    CutShortEnd();
  }

  // ----- a callback fiber that is in use elsewhere -----

  /** The callback of worker 0 schedules its own fiber for thread 1 and returns; worker 1
      enters the fiber; another callback is scheduled. */
  function Borrowed(n: nat): (s: State)
    ensures |s.io.ctxs| >= Io.FIRST_SIZE && |s.workers| == 2
  {
    var idle1 := Worker(1, Scanning, None, false);
    var s0 := Start([0, 1]);
    var s1 := s0.(queue := [CbEntry(Job(User(0), 0), -1)], nextTicket := 1, issued := multiset{0});
    var s2 := s1.(queue := [], active := 1, fibers := [Fiber(EXEC, true, None, None)],
                  workers := [Worker(0, Running(0, true), Some(0), false), idle1], consumed := multiset{0});
    var s3 := s2.(queue := [FiberEntry(Handle(0, 1), 1)], nextTicket := 2, issued := multiset{0, 1});
    var s4 := s3.(active := 0, fibers := [Fiber(INIT, false, None, None)], workers := [Worker(0, Scanning, Some(0), false), idle1]);
    var s5 := s4.(queue := [], active := 1, fibers := [Fiber(EXEC, false, None, None)],
                  workers := [Worker(0, Scanning, Some(0), false), Worker(1, Running(0, false), None, false)], consumed := multiset{0, 1});
    if n == 0 then s0 else if n == 1 then s1 else if n == 2 then s2 else if n == 3 then s3 else if n == 4 then s4 else if n == 5 then s5
    else s5.(queue := [CbEntry(Job(User(0), 2), -1)], nextTicket := 3, issued := multiset{0, 1, 2})
  }

  const BORROWED: seq<Label> := [Outside(ScheduleCb(0, -1)), ByWorker(0, AtTop), ByWorker(0, Acting(ScheduleFiber(0, 1))),
                                 ByWorker(0, Acting(Return)), ByWorker(1, AtTop), Outside(ScheduleCb(0, -1)), ByWorker(0, AtTop)]

  lemma {:induction false} BorrowedScheduled()
    ensures LeadsTo(Borrowed(0), BORROWED[0], Borrowed(1)) && LeadsTo(Borrowed(5), BORROWED[5], Borrowed(6))
  {
  }

  lemma {:induction false} BorrowedEntered()
    ensures LeadsTo(Borrowed(1), BORROWED[1], Borrowed(2))
  {
    var q := Borrowed(1).queue;
    assert Scan(q, 0, Borrowed(1).fibers) == 0 && q[..0] + q[1..] == [];
  }

  lemma {:induction false} BorrowedLent()
    ensures LeadsTo(Borrowed(2), BORROWED[2], Borrowed(3))
  {
  }

  lemma {:induction false} BorrowedReturned()
    ensures LeadsTo(Borrowed(3), BORROWED[3], Borrowed(4))
  {
  }

  lemma {:induction false} BorrowedByOne()
    ensures LeadsTo(Borrowed(4), BORROWED[4], Borrowed(5))
  {
    var q := Borrowed(4).queue;
    assert Scan(q, 1, Borrowed(4).fibers) == 0 && q[..0] + q[1..] == [];
  }

  lemma {:induction false} BorrowedDead()
    ensures Fails(Borrowed(6), BORROWED[6])
  {
    assert Scan(Borrowed(6).queue, 0, Borrowed(6).fibers) == 0;
  }

  lemma {:induction false} BorrowedSteps(n: nat)
    requires n < 6
    ensures LeadsTo(Borrowed(n), BORROWED[n], Borrowed(n + 1))
  {
    if n == 0 || n == 5 {
      BorrowedScheduled();
    } else if n == 1 {
      BorrowedEntered();
    } else if n == 2 {
      BorrowedLent();
    } else if n == 3 {
      BorrowedReturned();
    } else {
      BorrowedByOne();
    }
  }

  lemma {:induction false} BorrowedRuns()
    ensures RunFromStart([0, 1], BORROWED[..6]) == Alive(Borrowed(6))
  {
    StartIsSound([0, 1]);
    var ls := BORROWED[..6];
    forall n: nat | n < |ls| ensures LeadsTo(Borrowed(n), ls[n], Borrowed(n + 1)) {
      BorrowedSteps(n);
    }
    RunAlong(Borrowed, ls, 0);
    assert ls[0..] == ls;
  }

  lemma {:induction false} BorrowedFails()
    ensures RunFromStart([0, 1], BORROWED).Dead?
  {
    StartIsSound([0, 1]);
    BorrowedDead();
    forall n: nat | n < |BORROWED| - 1 ensures LeadsTo(Borrowed(n), BORROWED[n], Borrowed(n + 1)) {
      BorrowedSteps(n);
    }
    RunFails(Borrowed, BORROWED, 0);
    assert BORROWED[0..] == BORROWED;
  }

  lemma {:induction false} BorrowedEnd()
    ensures Borrowed(6).workers[0] == Worker(0, Scanning, Some(0), false) && Borrowed(6).fibers == [Fiber(EXEC, false, None, None)]
  {
  }

  /** At the top of its loop worker 0 keeps a callback fiber that is EXEC, and its next
      callback fails the assertion of `reset`. */
  lemma {:induction false} BorrowedCallbackFiberAborts()
    ensures var r := RunFromStart([0, 1], BORROWED[..6]);
      r.Alive? && r.state.workers != [] && r.state.workers[0] == Worker(0, Scanning, Some(0), false)
      && r.state.fibers == [Fiber(EXEC, false, None, None)]
    ensures RunFromStart([0, 1], BORROWED).Dead?
  {
    BorrowedRuns();
    BorrowedEnd();
    BorrowedFails();
  }
}
