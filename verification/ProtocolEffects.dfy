/** What the actions of a fiber come to, a step or two later. */
module ProtocolEffects {
  import opened Common
  import Io = IoSpec
  import opened TimerSpec
  import opened Protocol
  import opened ProtocolStructure
  import opened ProtocolKept
  import opened ProtocolRuns

  /** The thread may run what is pinned like this; -1 is any thread. */
  predicate Here(thread: int, tid: nat) {
    thread == -1 || thread == tid
  }

  // ----- scheduling -----

  /** A fiber that is scheduled on an empty queue is what a worker enters next, if it is
      pinned to its thread or to none; it runs into the assertion iff the fiber has ended.
      Otherwise the entry stays and the worker goes idle or leaves. */
  lemma {:induction false} ScheduledFiberRuns(s: State, g: nat, thread: int, w: nat)
    requires Sound(s) && !s.stopping && s.queue == [] && g < |s.fibers| && s.fibers[g].state != EXEC
    requires w < |s.workers| && s.workers[w].phase == Scanning
    ensures Step(s, Outside(ScheduleFiber(g, thread))).Alive?
    ensures var s1 := Step(s, Outside(ScheduleFiber(g, thread))).state;
      var r := Step(s1, ByWorker(w, AtTop));
      if Here(thread, s.workers[w].tid) then
        && (r.Dead? <==> s.fibers[g].state == TERM || s.fibers[g].state == EXCEPT)
        && (r.Alive? ==>
             && r.state.queue == [] && r.state.workers[w].phase == Running(g, false)
             && r.state.fibers == s.fibers[g := s.fibers[g].(state := EXEC, nap := None)]
             && r.state.consumed == s.consumed + multiset{s.nextTicket})
      else
        && r.Alive? && r.state.queue == [FiberEntry(Handle(g, s.nextTicket), thread)] && r.state.fibers == s.fibers
        && r.state.workers[w].phase == if s.workers[w].idleDone then Exited else AtCheck
  {
    var s1 := Step(s, Outside(ScheduleFiber(g, thread))).state;
    var e := FiberEntry(Handle(g, s.nextTicket), thread);
    assert s1.queue == [e] && s1.queue[..0] + s1.queue[1..] == [];
    assert Scan([e], s.workers[w].tid, s.fibers) == if Eligible(e, s.workers[w].tid, s.fibers) then 0 else 1 + Scan([e][1..], s.workers[w].tid, s.fibers);
  }

  /** And so is a callback: in the callback fiber the worker keeps, unless another worker is
      inside of that, or in a new one, which it keeps from then on. */
  lemma {:induction false} ScheduledCallbackRuns(s: State, id: nat, thread: int, w: nat)
    requires Sound(s) && !s.stopping && s.queue == [] && w < |s.workers| && s.workers[w].phase == Scanning
    requires Here(thread, s.workers[w].tid)
    ensures Step(s, Outside(ScheduleCb(id, thread))).Alive?
    ensures var s1 := Step(s, Outside(ScheduleCb(id, thread))).state;
      var r := Step(s1, ByWorker(w, AtTop));
      var kept := s.workers[w].cbFiber;
      var c := if kept.Some? then kept.value else |s.fibers|;
      && c <= |s.fibers| && (kept.Some? ==> c < |s.fibers|)
      && (r.Dead? <==> kept.Some? && s.fibers[c].state == EXEC)
      && (r.Alive? ==>
           && r.state.queue == [] && r.state.workers[w] == s.workers[w].(phase := Running(c, true), cbFiber := Some(c))
           && |r.state.fibers| == (if kept.Some? then |s.fibers| else |s.fibers| + 1)
           && r.state.fibers[c] == Fiber(EXEC, true, None, None)
           && (forall f :: 0 <= f < |s.fibers| && f != c ==> r.state.fibers[f] == s.fibers[f])
           && r.state.consumed == s.consumed + multiset{s.nextTicket})
  {
    var s1 := Step(s, Outside(ScheduleCb(id, thread))).state;
    var e := CbEntry(Job(User(id), s.nextTicket), thread);
    assert s1.queue == [e] && s1.queue[..0] + s1.queue[1..] == [];
    assert Scan([e], s.workers[w].tid, s.fibers) == 0;
    assert KeptAs(s, w, false) && WorkerOk(s.workers[w], |s.fibers|);
  }

  // ----- leaving a fiber -----

  /** The worker is back at the top of its loop, one task fewer is active, and only the
      fiber f it was in is another one. */
  predicate BackAtTop(s: State, t: State, w: nat, f: nat) {
    && w < |s.workers| && |t.workers| == |s.workers| && t.workers[w].phase == Scanning && t.active == s.active - 1
    && f < |s.fibers| == |t.fibers|
    && (forall g :: 0 <= g < |s.fibers| && g != f ==> t.fibers[g] == s.fibers[g])
    && (forall v :: 0 <= v < |s.workers| && v != w ==> t.workers[v] == s.workers[v])
  }

  /** How a fiber is left. One that yields is on HOLD and nowhere in the queue, or READY and
      the last of it; a callback fiber that yields is let go. One that returns or throws
      has ended; a callback fiber that ends is without a function, and kept. */
  lemma {:induction false} LeavesAs(s: State, w: nat, a: Action)
    requires Sound(s) && w < |s.workers| && CanDo(s, w, a)
    requires a.YieldReady? || a.YieldHold? || a.Return? || a.Throw?
    ensures var r, p := Step(s, ByWorker(w, Acting(a))), s.workers[w].phase;
      && r.Alive? && BackAtTop(s, r.state, w, p.fiber)
      && var x, y, kept := s.fibers[p.fiber], r.state.fibers[p.fiber], r.state.workers[w].cbFiber;
         match a
         case YieldHold => y == x.(state := HOLD) && r.state.queue == s.queue && kept == (if p.viaCb then None else s.workers[w].cbFiber)
         case YieldReady =>
           && y == x.(state := READY) && kept == (if p.viaCb then None else s.workers[w].cbFiber)
           && r.state.queue == s.queue + [FiberEntry(Handle(p.fiber, s.nextTicket), -1)]
         case _ =>
           && r.state.queue == s.queue && kept == s.workers[w].cbFiber && (p.viaCb ==> kept == Some(p.fiber))
           && (p.viaCb ==> y.state == INIT && !y.hasCb)
           && (!p.viaCb ==> y.state == if a.Return? then TERM else EXCEPT)
  {
    assert WorkerOk(s.workers[w], |s.fibers|);
  }

  // ----- timers -----

  /** Polling at the millisecond an armed timer is due, with none overdue. */
  lemma {:induction false} DueTimerFires(s: State, w: nat, x: TimerRec)
    requires Sound(s) && w < |s.workers| && s.workers[w].phase == Polling
    requires x in s.timers && x.next == s.clock && forall t :: t in s.timers ==> s.clock <= t.next
    ensures var t := Expire(s, w);
      && t.workers[w].phase.Handing? && |t.workers| == |s.workers| && x.cb in t.workers[w].phase.cbs
      && (forall y :: y in t.timers && y.id == x.id ==> x.recurring && y == x.(next := s.clock + x.ms))
      && (x.recurring ==> x.(next := s.clock + x.ms) in t.timers)
  {
    FiredIsFiring(s.timers, s.clock);
    FiresOnce(s.timers, s.clock, x);
    var fired := Fired(s.timers, s.clock);
    assert s.timers[0] in s.timers;
    var i :| 0 <= i < |fired| && fired[i] == x;
    assert Callbacks(fired)[i] == x.cb;
  }

  lemma {:induction false} ArmedIsDue(s: State, ms: nat, recurring: bool, id: nat)
    requires Sound(s) && !s.stopping && forall t :: t in s.timers ==> s.clock + ms <= t.next
    ensures var s1 := ArmTimer(s, ms, recurring, Some(id));
      var s2 := s1.(clock := s.clock + ms);
      && LeadsTo(s, Outside(StartTimer(ms, recurring, Some(id))), s1) && LeadsTo(s1, Ticking(ms), s2) && Sound(s2)
      && UsersTimer(s, ms, recurring, Some(id)) in s2.timers && forall t :: t in s2.timers ==> s2.clock <= t.next
  {
    var s1 := ArmTimer(s, ms, recurring, Some(id));
    InsertAdds(s.timers, UsersTimer(s, ms, recurring, Some(id)));
    StepKeepsSound(s, Outside(StartTimer(ms, recurring, Some(id))));
    StepKeepsSound(s1, Ticking(ms));
  }

  /** A timer that is armed now fires ms milliseconds later, to the millisecond, if it is
      polled then and nothing is overdue; it is armed once more iff it is recurring, and
      then for one period from there. */
  lemma {:induction false} ArmedTimerFires(s: State, w: nat, ms: nat, recurring: bool, id: nat)
    requires Sound(s) && !s.stopping && w < |s.workers| && s.workers[w].phase == Polling
    requires forall t :: t in s.timers ==> s.clock + ms <= t.next
    ensures var r := Run(s, [Outside(StartTimer(ms, recurring, Some(id))), Ticking(ms), ByWorker(w, Expiring)]);
      var again := TimerRec(s.nextTimer, s.clock + 2 * ms, ms, true, Some(Job(User(id), s.nextTicket)));
      && r.Alive? && w < |r.state.workers| && r.state.workers[w].phase.Handing?
      && Some(Job(User(id), s.nextTicket)) in r.state.workers[w].phase.cbs
      && (forall y :: y in r.state.timers && y.id == s.nextTimer ==> recurring && y == again)
      && (recurring ==> again in r.state.timers)
  {
    var s1 := ArmTimer(s, ms, recurring, Some(id));
    var s2 := s1.(clock := s.clock + ms);
    ArmedIsDue(s, ms, recurring, id);
    DueTimerFires(s2, w, UsersTimer(s, ms, recurring, Some(id)));
    var s3 := Expire(s2, w);
    assert LeadsTo(s2, ByWorker(w, Expiring), s3);
    RunOfThree(s, Outside(StartTimer(ms, recurring, Some(id))), Ticking(ms), ByWorker(w, Expiring), s1, s2, s3);
  }

  /** Cancelling takes out the timer of that number if it has a callback of the user's, and
      moving gives it a new period, from now or from when it was armed; every other timer
      is as it was. */
  lemma {:induction false} TimerIsMoved(s: State, id: nat, ms: nat, fromNow: bool, x: TimerRec)
    requires Sound(s) && !s.stopping && x in s.timers && x.id == id && x.cb.Some? && x.cb.value.code.User? && x.ms <= x.next
    ensures var r, q := Step(s, Outside(StopTimer(id))), Step(s, Outside(MoveTimer(id, ms, fromNow)));
      var start := if fromNow then s.clock else x.next - x.ms;
      && r.Alive? && Sorted(r.state.timers) && q.Alive? && Sorted(q.state.timers)
      && (forall y :: y in r.state.timers <==> y in s.timers && y.id != id)
      && r.state.dropped == s.dropped + multiset{x.cb.value.ticket} && q.state.dropped == s.dropped
      && (forall y :: y in q.state.timers <==> (y in s.timers && y.id != id) || y == TimerRec(id, start + ms, ms, x.recurring, x.cb))
  {
    LookupFinds(s.timers, x);
    StepKeepsSound(s, Outside(StopTimer(id)));
    StepKeepsSound(s, Outside(MoveTimer(id, ms, fromNow)));
    RemoveDrops(s.timers, id);
    InsertAdds(Remove(s.timers, id), MovedTimer(s, x, ms, fromNow));
  }

  lemma {:induction false} LookupFinds(ts: seq<TimerRec>, x: TimerRec)
    requires DistinctIds(ts) && x in ts
    ensures Lookup(ts, x.id) == Some(x)
  {
    if ts[0].id == x.id { SameTimer(ts, ts[0], x); } else { LookupFinds(ts[1..], x); }
  }

  // ----- events -----

  /** The entry that resumes or runs this waiter, on any thread. */
  predicate Resumes(e: Entry, w: Io.Waiter) {
    e.thread == -1 &&
    match w
    case CbWaiter(job) => e.CbEntry? && e.job == job
    case FiberWaiter(handle) => e.FiberEntry? && e.handle == handle
  }

  /** The entries from place n on resume what was handed over, in order. */
  ghost predicate QueuedFrom(q: seq<Entry>, n: nat, out: seq<Io.Delivery>) {
    n + |out| == |q| && forall i :: 0 <= i < |out| ==> Resumes(q[n + i], out[i].waiter)
  }

  lemma {:induction false} SettleQueues(s: State, o: Io.Outcome)
    requires o.Done?
    ensures var t := Settle(s, o).state;
      Settle(s, o).Alive? && t.io == o.reg && s.queue <= t.queue && QueuedFrom(t.queue, |s.queue|, o.out)
  {
  }

  /** A report queues the waiters it concerns, that for reading first, and no others. */
  lemma {:induction false} ReportQueues(s: State, w: nat, r: Io.Report)
    requires Sound(s) && w < |s.workers| && s.workers[w].phase == Dispatching && r.fd < |s.io.ctxs|
    requires var c := s.io.ctxs[r.fd];
      ((r.readable || r.broken) && c.events.read) || ((r.writable || r.broken) && c.events.write)
    requires Step(s, ByWorker(w, Reporting(r, false))).Alive?
    ensures var t, c := Step(s, ByWorker(w, Reporting(r, false))).state, s.io.ctxs[r.fd];
      && s.queue <= t.queue
      && Io.OnlyAt(s.io.ctxs, t.io.ctxs, r.fd) && Io.Emptied(c, t.io.ctxs[r.fd], r.readable || r.broken, r.writable || r.broken)
      && exists out ::
           QueuedFrom(t.queue, |s.queue|, out) && Io.HandsOverBoth(out, c, r.readable || r.broken, r.writable || r.broken)
  {
    Io.DispatchHandsOver(s.io, r, false);
    SettleQueues(s, Io.Dispatch(s.io, r, false));
  }

  /** What a fiber waits for is what it is resumed by: it watches an fd for an event, and the
      next report of that event alone puts it at the end of the queue. */
  lemma {:induction false} WatchRegisters(s: State, w: nat, fd: nat, ev: Io.Event, cb: Option<nat>)
    requires Sound(s) && w < |s.workers| && CanDo(s, w, Watch(fd, ev, cb, false))
    requires fd < |s.io.ctxs| ==> !(if ev == Io.READ then s.io.ctxs[fd].events.read else s.io.ctxs[fd].events.write)
    ensures var r := Step(s, ByWorker(w, Acting(Watch(fd, ev, cb, false))));
      var waiter := if cb.Some? then Io.CbWaiter(Job(User(cb.value), s.nextTicket))
                    else Io.FiberWaiter(Handle(s.workers[w].phase.fiber, s.nextTicket));
      && r.Alive? && r.state.io == Io.AddEvent(s.io, fd, ev, waiter, 0, false).reg
      && r.state.queue == s.queue && r.state.workers == s.workers && r.state.fibers == s.fibers
  {
    Io.AddedIsHandedOver(s.io, fd, ev, NewWaiter(s, s.workers[w].phase.fiber, cb), 0);
  }

  lemma {:induction false} WatcherIsResumed(s: State, w: nat, v: nat, fd: nat, ev: Io.Event)
    requires Sound(s) && w < |s.workers| && v < |s.workers| && s.workers[v].phase == Dispatching
    requires CanDo(s, w, Watch(fd, ev, None, false))
    requires fd < |s.io.ctxs| ==> !(if ev == Io.READ then s.io.ctxs[fd].events.read else s.io.ctxs[fd].events.write)
    ensures var r := Run(s, [ByWorker(w, Acting(Watch(fd, ev, None, false))),
                             ByWorker(v, Reporting(Io.Report(fd, ev == Io.READ, ev == Io.WRITE, false), false))]);
      r.Alive? && r.state.queue == s.queue + [FiberEntry(Handle(s.workers[w].phase.fiber, s.nextTicket), -1)]
  {
    var l1 := ByWorker(w, Acting(Watch(fd, ev, None, false)));
    var report := Io.Report(fd, ev == Io.READ, ev == Io.WRITE, false);
    var waiter := Io.FiberWaiter(Handle(s.workers[w].phase.fiber, s.nextTicket));
    WatchRegisters(s, w, fd, ev, None);
    Io.AddedIsHandedOver(s.io, fd, ev, waiter, 0);
    StepKeepsSound(s, l1);
    var s1 := Step(s, l1).state;
    var s2 := Settle(s1, Io.Dispatch(s1.io, report, false)).state;
    ReportDelivers(s1, v, report, Io.Delivery(0, waiter));
    RunOfTwo(s, l1, ByWorker(v, Reporting(report, false)), s1, s2);
  }

  lemma {:induction false} ReportDelivers(s: State, v: nat, r: Io.Report, d: Io.Delivery)
    requires |s.io.ctxs| >= Io.FIRST_SIZE && v < |s.workers| && s.workers[v].phase == Dispatching && r.fd < |s.io.ctxs|
    requires Io.Dispatch(s.io, r, false).Done? && Io.Dispatch(s.io, r, false).out == [d]
    ensures var t := Settle(s, Io.Dispatch(s.io, r, false)).state;
      LeadsTo(s, ByWorker(v, Reporting(r, false)), t) && t.queue == s.queue + [EntryOf(d.waiter)]
  {
    assert Entries([d]) == [EntryOf(d.waiter)];
  }
}
