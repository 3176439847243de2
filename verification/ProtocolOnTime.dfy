/** A sleeper that is polled on time: one run that wakes it, from its timer to its fiber. */
module ProtocolOnTime {
  import opened Common
  import Io = IoSpec
  import opened TimerSpec
  import opened Protocol
  import opened ProtocolStructure
  import opened ProtocolKept
  import opened ProtocolBooks
  import opened ProtocolSleep
  import opened ProtocolRuns
  import opened ProtocolFiring

  /** Worker w polls at the very millisecond the sleep k of fiber f, on HOLD, is over, with
      no timer missed, nothing else to fire and nothing queued, and its callback fiber
      not in use elsewhere. */
  ghost predicate PolledOnTime(s: State, w: nat, f: nat, k: nat) {
    && w < |s.workers| && s.workers[w].phase == Polling && s.queue == []
    && f < |s.fibers| && s.fibers[f].state == HOLD && s.fibers[f].nap == Some(k)
    && At(s, k, AsTimer) && k in s.naps && s.timers != [] && s.naps[k].due == s.clock <= s.timers[0].next
    && (forall t :: t in s.timers && t.next == s.clock && t.cb.Some? ==> t.cb.value.ticket == k)
    && (s.workers[w].cbFiber.Some? ==> s.workers[w].cbFiber.value < |s.fibers| && s.fibers[s.workers[w].cbFiber.value].state != EXEC)
  }

  function WakingRun(w: nat): seq<Label> {
    [ByWorker(w, Expiring), ByWorker(w, Flushing), ByWorker(w, Resting), ByWorker(w, AtTop),
     ByWorker(w, Acting(WakeSleeper)), ByWorker(w, Acting(Return)), ByWorker(w, AtTop)]
  }

  /** The states of that run, from s behind the expiry on. */
  function OnTheWay(s: State, w: nat, f: nat, k: nat, n: nat): (t: State)
    requires w < |s.workers| && f < |s.fibers| && (s.workers[w].cbFiber.Some? ==> s.workers[w].cbFiber.value < |s.fibers|)
  {
    var c := if s.workers[w].cbFiber.Some? then s.workers[w].cbFiber.value else |s.fibers|;
    var me := s.workers[w].(phase := Scanning, cbFiber := Some(c));
    var x := Fiber(EXEC, true, Some(Handle(f, k)), None);
    var s1 := s.(workers := s.workers[w := s.workers[w].(phase := Dispatching)], queue := [CbEntry(Job(Wake(f), k), -1)]);
    var s2 := s1.(workers := s.workers[w := s.workers[w].(phase := Scanning)], idle := s.idle - 1);
    var s3 := s2.(workers := s.workers[w := me.(phase := Running(c, true))], queue := [], active := s.active + 1,
                  fibers := if c < |s.fibers| then s.fibers[c := x] else s.fibers + [x]);
    var s4 := s3.(fibers := s3.fibers[c := x.(owes := None)], queue := [FiberEntry(Handle(f, k), -1)]);
    var s5 := s4.(workers := s.workers[w := me], active := s.active, fibers := s3.fibers[c := Fiber(INIT, false, None, None)]);
    if n == 0 then s else if n == 1 then s1 else if n == 2 then s2 else if n == 3 then s3 else if n == 4 then s4 else if n == 5 then s5
    else s5.(workers := s.workers[w := me.(phase := Running(f, false))], queue := [], active := s.active + 1,
             fibers := s5.fibers[f := s.fibers[f].(state := EXEC, nap := None)], consumed := s.consumed + multiset{k})
  }

  // ----- its steps -----

  /** A hand whose jobs are all k's, with k in it once, holds one job. */
  lemma {:induction false} OneJob(cbs: seq<Option<Job>>, k: nat)
    requires forall i :: 0 <= i < |cbs| && cbs[i].Some? ==> cbs[i].value.ticket == k
    ensures |JobsOf(cbs)| == Total(cbs, InJob(k))
    ensures forall j :: 0 <= j < |JobsOf(cbs)| ==> Some(JobsOf(cbs)[j]) in cbs
  {
    if cbs != [] { OneJob(cbs[1..], k); }
  }

  /** A hand that holds a wake-up, and no other job, holds just it. */
  lemma {:induction false} JustTheLambda(s: State, w: nat, k: nat)
    requires Sound(s) && k in s.naps && w < |s.workers| && HandOf(s.workers[w].phase, k)
    requires var cbs := s.workers[w].phase.cbs; forall i :: 0 <= i < |cbs| && cbs[i].Some? ==> cbs[i].value.ticket == k
    ensures JobsOf(s.workers[w].phase.cbs) == [Job(Wake(s.naps[k].fiber), k)]
  {
    var cbs := s.workers[w].phase.cbs;
    var i :| 0 <= i < |cbs| && cbs[i].Some? && cbs[i].value.ticket == k;
    TotalAtLeast(cbs, i, InJob(k));
    TotalAtLeast(s.workers, w, ProtocolBooks.InHand(k));
    SleepHasOneWakeUp(s, k);
    OneJob(cbs, k);
    assert HandRipe(s.workers[w].phase, Now(s));
  }

  lemma {:induction false} FiringIsOnly(s: State, w: nat, f: nat, k: nat)
    requires TimersOk(s) && PolledOnTime(s, w, f, k)
    ensures forall t :: t in Firing(s.timers, s.clock) && t.cb.Some? ==> t.cb.value.ticket == k
  {
    FiredIsFiring(s.timers, s.clock);
  }

  /** The hand after the expiry. */
  lemma {:induction false} HandAfterExpiry(s: State, w: nat, f: nat, k: nat)
    requires Sound(s) && PolledOnTime(s, w, f, k)
    ensures HandOf(Expire(s, w).workers[w].phase, k)
  {
    var t :| t in s.timers && TimerOf(t, k);
    ExpiryTakes(s, w, t, k);
  }

  lemma {:induction false} NothingElseInHand(s: State, w: nat, f: nat, k: nat)
    requires Sound(s) && PolledOnTime(s, w, f, k)
    ensures var p := Expire(s, w).workers[w].phase;
      p.Handing? && forall i :: 0 <= i < |p.cbs| && p.cbs[i].Some? ==> p.cbs[i].value.ticket == k
  {
    FiringIsOnly(s, w, f, k);
    ExpiringFires(s, w);
    var fired := Firing(s.timers, s.clock);
    assert forall i :: 0 <= i < |fired| ==> fired[i] in fired;
  }

  lemma {:induction false} NapIsTheFibers(s: State, f: nat, k: nat)
    requires Naps(s) && f < |s.fibers| && s.fibers[f].nap == Some(k)
    ensures k in s.naps && s.naps[k].fiber == f
  {
    assert FiberNap(f, s.fibers[f], Now(s), s.consumed);
  }

  /** After the expiry the wake-up is the only job in the hand. */
  lemma {:induction false} OnlyTheLambda(s: State, w: nat, f: nat, k: nat)
    requires Sound(s) && PolledOnTime(s, w, f, k)
    ensures var p := Expire(s, w).workers[w].phase;
      p.Handing? && JobsOf(p.cbs) == [Job(Wake(f), k)]
  {
    HandAfterExpiry(s, w, f, k);
    NothingElseInHand(s, w, f, k);
    StepKeepsSound(s, ByWorker(w, Expiring));
    JustTheLambda(Expire(s, w), w, k);
    NapIsTheFibers(s, f, k);
  }

  /** The lambda is the only job in the hand, the sleeper is on HOLD, nothing is queued, and
      the worker's own callback fiber is free. */
  predicate Ready(s: State, w: nat, f: nat, k: nat) {
    && w < |s.workers| && f < |s.fibers| && s.fibers[f].state == HOLD && |s.io.ctxs| >= Io.FIRST_SIZE && s.queue == []
    && s.workers[w].phase.Handing? && JobsOf(s.workers[w].phase.cbs) == [Job(Wake(f), k)]
    && (s.workers[w].cbFiber.Some? ==>
         s.workers[w].cbFiber.value < |s.fibers| && s.fibers[s.workers[w].cbFiber.value].state in {INIT, EXCEPT})
  }

  lemma {:induction false} ExpiryMakesReady(s: State, w: nat, f: nat, k: nat)
    requires Sound(s) && PolledOnTime(s, w, f, k)
    ensures Ready(Expire(s, w), w, f, k)
    ensures var t := Expire(s, w);
      t.clock == s.clock && t.fibers == s.fibers && t.consumed == s.consumed
  {
    OnlyTheLambda(s, w, f, k);
    assert KeptAs(s, w, false);
  }

  /** The lambda is flushed, and the idle fiber left. */
  lemma {:induction false} LambdaIsFlushed(s: State, w: nat, f: nat, k: nat)
    requires Ready(s, w, f, k)
    ensures LeadsTo(s, ByWorker(w, Flushing), OnTheWay(s, w, f, k, 1))
  {
    EntriesOfJobs(s.workers[w].phase.cbs);
    assert [] + CbEntries(s.workers[w].phase.cbs) == [CbEntry(Job(Wake(f), k), -1)];
  }

  lemma {:induction false} IdleIsLeft(s: State, w: nat, f: nat, k: nat)
    requires Ready(s, w, f, k)
    ensures LeadsTo(OnTheWay(s, w, f, k, 1), ByWorker(w, Resting), OnTheWay(s, w, f, k, 2))
  {
  }

  lemma {:induction false} OnlyCallback(t: State, w: nat, job: Job)
    requires w < |t.workers| && t.workers[w].phase == Scanning && t.queue == [CbEntry(job, -1)]
    ensures Loop(t, w) == EnterCallback(t.(queue := [], active := t.active + 1), w, job)
  {
    assert Scan(t.queue, t.workers[w].tid, t.fibers) == 0 && t.queue[..0] + t.queue[1..] == [];
    LoopTakesCallback(t, w, 0);
  }

  lemma {:induction false} OnlyFiber(t: State, w: nat, h: Handle)
    requires w < |t.workers| && t.workers[w].phase == Scanning && t.queue == [FiberEntry(h, -1)]
    requires h.fiber < |t.fibers| && t.fibers[h.fiber].state != EXEC
    ensures Loop(t, w) == EnterFiber(t.(queue := [], active := t.active + 1), w, h)
  {
    assert Scan(t.queue, t.workers[w].tid, t.fibers) == 0 && t.queue[..0] + t.queue[1..] == [];
    LoopTakesFiber(t, w, 0);
  }

  lemma {:induction false} EnterLambda(s: State, w: nat, f: nat, k: nat)
    requires Ready(s, w, f, k)
    ensures var t := OnTheWay(s, w, f, k, 2);
      EnterCallback(t.(queue := [], active := t.active + 1), w, Job(Wake(f), k)) == Alive(OnTheWay(s, w, f, k, 3))
  {
  }

  lemma {:induction false} EnterSleeper(s: State, w: nat, f: nat, k: nat)
    requires Ready(s, w, f, k)
    ensures var t := OnTheWay(s, w, f, k, 5);
      EnterFiber(t.(queue := [], active := t.active + 1), w, Handle(f, k)) == Alive(OnTheWay(s, w, f, k, 6))
  {
  }

  /** The lambda is taken... */
  lemma {:induction false} LambdaIsEntered(s: State, w: nat, f: nat, k: nat)
    requires Ready(s, w, f, k)
    ensures LeadsTo(OnTheWay(s, w, f, k, 2), ByWorker(w, AtTop), OnTheWay(s, w, f, k, 3))
  {
    EnterLambda(s, w, f, k);
    OnlyCallback(OnTheWay(s, w, f, k, 2), w, Job(Wake(f), k));
  }

  /** ... schedules the sleeper... */
  lemma {:induction false} LambdaWakes(s: State, w: nat, f: nat, k: nat)
    requires Ready(s, w, f, k)
    ensures LeadsTo(OnTheWay(s, w, f, k, 3), ByWorker(w, Acting(WakeSleeper)), OnTheWay(s, w, f, k, 4))
  {
    assert [] + [FiberEntry(Handle(f, k), -1)] == [FiberEntry(Handle(f, k), -1)];
  }

  /** ... and returns. */
  lemma {:induction false} LambdaReturns(s: State, w: nat, f: nat, k: nat)
    requires Ready(s, w, f, k)
    ensures LeadsTo(OnTheWay(s, w, f, k, 4), ByWorker(w, Acting(Return)), OnTheWay(s, w, f, k, 5))
  {
  }

  /** The sleeper is taken. */
  lemma {:induction false} SleeperIsEntered(s: State, w: nat, f: nat, k: nat)
    requires Ready(s, w, f, k)
    ensures LeadsTo(OnTheWay(s, w, f, k, 5), ByWorker(w, AtTop), OnTheWay(s, w, f, k, 6))
  {
    EnterSleeper(s, w, f, k);
    OnlyFiber(OnTheWay(s, w, f, k, 5), w, Handle(f, k));
  }

  lemma {:induction false} WakingSteps(s: State, w: nat, f: nat, k: nat, n: nat)
    requires Ready(s, w, f, k) && n < 6
    ensures LeadsTo(OnTheWay(s, w, f, k, n), WakingRun(w)[n + 1], OnTheWay(s, w, f, k, n + 1))
  {
    if n == 0 { LambdaIsFlushed(s, w, f, k); }
    if n == 1 { IdleIsLeft(s, w, f, k); }
    if n == 2 { LambdaIsEntered(s, w, f, k); }
    if n == 3 { LambdaWakes(s, w, f, k); }
    if n == 4 { LambdaReturns(s, w, f, k); }
    if n == 5 { SleeperIsEntered(s, w, f, k); }
  }

  lemma {:induction false} WakingRunIs(s: State, w: nat, f: nat, k: nat)
    requires Sound(s) && Ready(s, w, f, k)
    ensures Run(s, WakingRun(w)[1..]) == Alive(OnTheWay(s, w, f, k, 6))
  {
    var st := (n: nat) => if Ready(s, w, f, k) then OnTheWay(s, w, f, k, n) else s;
    var ls := WakingRun(w)[1..];
    forall n: nat | n < 6 ensures LeadsTo(st(n), ls[n], st(n + 1)) {
      WakingSteps(s, w, f, k, n);
    }
    RunAlong(st, ls, 0);
    assert ls[0..] == ls;
  }

  lemma {:induction false} EndOfTheWay(s: State, w: nat, f: nat, k: nat)
    requires Ready(s, w, f, k)
    ensures var t := OnTheWay(s, w, f, k, 6);
      && t.clock == s.clock && t.queue == []
      && f < |t.fibers| && t.fibers[f] == s.fibers[f].(state := EXEC, nap := None)
      && w < |t.workers| && t.workers[w].phase == Running(f, false)
      && t.consumed == s.consumed + multiset{k}
  {
  }

  /** A sleeper on HOLD that is polled at the very millisecond its sleep is over runs again
      in that millisecond: its timer expires, its lambda is queued, taken and schedules
      it, and it is entered through this entry, once. */
  lemma {:induction false} PolledOnTimeIsWoken(s: State, w: nat, f: nat, k: nat)
    requires Sound(s) && PolledOnTime(s, w, f, k)
    ensures var r := Run(s, WakingRun(w));
      && r.Alive? && r.state.clock == s.naps[k].due && r.state.queue == []
      && f < |r.state.fibers| && r.state.fibers[f] == s.fibers[f].(state := EXEC, nap := None)
      && w < |r.state.workers| && r.state.workers[w].phase == Running(f, false)
      && r.state.consumed == s.consumed + multiset{k}
  {
    var t := Expire(s, w);
    StepKeepsSound(s, ByWorker(w, Expiring));
    ExpiryMakesReady(s, w, f, k);
    WakingRunIs(t, w, f, k);
    EndOfTheWay(t, w, f, k);
    assert WakingRun(w)[0] == ByWorker(w, Expiring);
  }
}
