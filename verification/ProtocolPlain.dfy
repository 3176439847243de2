/** Programs that pass no fiber pointers around: callbacks that schedule callbacks, arm
    timers, watch fds with callbacks, sleep and yield. They are careful by themselves. */
module ProtocolPlain {
  import opened Common
  import Io = IoSpec
  import opened TimerSpec
  import opened Protocol
  import opened ProtocolStructure
  import opened ProtocolKept
  import opened ProtocolBooks
  import opened ProtocolSleep
  import opened ProtocolRuns
  import opened ProtocolCare
  import opened ProtocolPrograms

  predicate PlainAction(s: State, a: Action) {
    match a
    case ScheduleFiber(_, _) => false
    case Watch(fd, ev, cb, _) => cb.Some? && !ProtocolCare.Registered(s, fd, ev)
    case _ => true
  }

  /** No fiber is scheduled or registered by hand, no event is added twice, and the
      kernel reports only registered events. */
  predicate Plain(s: State, l: Label) {
    match l
    case Outside(a) => PlainAction(s, a)
    case ByWorker(w, Acting(a)) => PlainAction(s, a)
    case ByWorker(w, Reporting(r, fail)) => !StrayReport(s, r)
    case _ => true
  }

  // ----- who is waited for -----

  /** The fiber is inside of the sleep this obligation belongs to. */
  predicate Awaited(f: nat, k: nat, fibers: seq<Fiber>) {
    f < |fibers| && fibers[f].nap == Some(k)
  }

  predicate JobWaits(j: Job, fibers: seq<Fiber>) {
    j.code.Wake? ==> Awaited(j.code.fiber, j.ticket, fibers)
  }

  predicate EntryWaits(e: Entry, fibers: seq<Fiber>) {
    match e
    case FiberEntry(h, _) => Awaited(h.fiber, h.ticket, fibers) || (h.fiber < |fibers| && fibers[h.fiber].state == READY)
    case CbEntry(j, _) => JobWaits(j, fibers)
  }

  predicate TimerWaits(t: TimerRec, fibers: seq<Fiber>) {
    t.cb.Some? ==> JobWaits(t.cb.value, fibers)
  }

  ghost predicate HandWaits(p: Phase, fibers: seq<Fiber>) {
    p.Handing? ==> forall i :: 0 <= i < |p.cbs| && p.cbs[i].Some? ==> JobWaits(p.cbs[i].value, fibers)
  }

  predicate OwesWaits(x: Fiber, fibers: seq<Fiber>) {
    x.owes.Some? ==> Awaited(x.owes.value.fiber, x.owes.value.ticket, fibers)
  }

  function Nobody(): Fids {
    (f: nat) => false
  }

  /** A fiber that yielded to be run again is queued once. */
  ghost predicate ReadyOnce(s: State) {
    forall i, j :: 0 <= i < j < |s.queue| && s.queue[i].FiberEntry? && s.queue[j].FiberEntry?
      && s.queue[i].handle.fiber == s.queue[j].handle.fiber && s.queue[i].handle.fiber < |s.fibers|
      ==> s.fibers[s.queue[i].handle.fiber].state != READY
  }

  /** Every reference to a fiber is the wake-up of the sleep it is in, or its own requeueing. */
  ghost predicate Waiting(s: State) {
    && (forall i :: 0 <= i < |s.queue| ==> EntryWaits(s.queue[i], s.fibers))
    && (forall t :: t in s.timers ==> TimerWaits(t, s.fibers))
    && (forall w :: 0 <= w < |s.workers| ==> HandWaits(s.workers[w].phase, s.fibers))
    && (forall f :: 0 <= f < |s.fibers| ==> OwesWaits(s.fibers[f], s.fibers))
    && Io.Weight(s.io, BadWaiter(Nobody())) == 0
    && ReadyOnce(s)
  }

  lemma {:induction false} SlotsReferToNobody(s: State, good: Fids)
    requires Io.Weight(s.io, BadWaiter(Nobody())) == 0
    ensures Io.Weight(s.io, BadWaiter(good)) == 0
  {
    TotalZero(s.io.ctxs, Io.ContextWeight(BadWaiter(Nobody())));
    TotalZero(s.io.ctxs, Io.ContextWeight(BadWaiter(good)));
    forall i | 0 <= i < |s.io.ctxs| ensures Io.ContextWeight(BadWaiter(good))(s.io.ctxs[i]) == 0 {
      assert Io.ContextWeight(BadWaiter(Nobody()))(s.io.ctxs[i]) == 0;
    }
  }

  /** Nothing refers to a fiber that is neither asleep nor ready. */
  lemma {:induction false} NobodyWaitsFor(s: State, f: nat)
    requires Waiting(s) && (f < |s.fibers| ==> s.fibers[f].nap.None? && s.fibers[f].state != READY)
    ensures Refs(s, Other(f))
  {
    SlotsReferToNobody(s, Other(f));
    forall i | 0 <= i < |s.queue| ensures EntryRef(s.queue[i], Other(f)) {
      assert EntryWaits(s.queue[i], s.fibers);
    }
    forall t | t in s.timers ensures TimerRef(t, Other(f)) {
      assert TimerWaits(t, s.fibers);
    }
    forall w | 0 <= w < |s.workers| ensures HandRef(s.workers[w].phase, Other(f)) {
      assert HandWaits(s.workers[w].phase, s.fibers);
    }
    forall g | 0 <= g < |s.fibers| ensures FiberRef(s.fibers[g], Other(f)) {
      assert OwesWaits(s.fibers[g], s.fibers);
    }
  }

  /** So a plain step is a careful one. */
  lemma {:induction false} PlainIsCareful(s: State, l: Label)
    requires Sound(s) && Tidy(s) && Waiting(s) && Plain(s, l)
    ensures Careful(s, l)
  {
    match l
    case ByWorker(w, Acting(a)) =>
      if w < |s.workers| && CanDo(s, w, a) {
        RunningCanRun(s, w);
        if a.Return? || a.Throw? {
          NobodyWaitsFor(s, s.workers[w].phase.fiber);
        }
      }
    case _ =>
  }

  // ----- one step -----

  /** Changing a fiber nothing refers to. */
  lemma {:induction false} ChangeKeepsWaiting(s: State, f: nat, x: Fiber)
    requires Waiting(s) && f < |s.fibers| && Refs(s, Other(f)) && OwesWaits(x, s.fibers)
    requires x.owes.Some? ==> x.owes.value.fiber != f
    ensures Waiting(SetFiber(s, f, x))
  {
    var t := SetFiber(s, f, x);
    forall i | 0 <= i < |s.queue| ensures EntryWaits(s.queue[i], t.fibers) {
      assert EntryWaits(s.queue[i], s.fibers) && EntryRef(s.queue[i], Other(f));
    }
    forall u | u in s.timers ensures TimerWaits(u, t.fibers) {
      assert TimerWaits(u, s.fibers) && TimerRef(u, Other(f));
    }
    forall w | 0 <= w < |s.workers| ensures HandWaits(s.workers[w].phase, t.fibers) {
      assert HandWaits(s.workers[w].phase, s.fibers) && HandRef(s.workers[w].phase, Other(f));
    }
    forall g | 0 <= g < |s.fibers| ensures OwesWaits(t.fibers[g], t.fibers) {
      assert OwesWaits(s.fibers[g], s.fibers) && FiberRef(s.fibers[g], Other(f));
    }
    forall i, j | 0 <= i < j < |s.queue| && s.queue[i].FiberEntry? && s.queue[j].FiberEntry?
      && s.queue[i].handle.fiber == s.queue[j].handle.fiber && s.queue[i].handle.fiber < |s.fibers|
      ensures t.fibers[s.queue[i].handle.fiber].state != READY
    {
      assert EntryRef(s.queue[i], Other(f));
    }
  }

  /** A sleeper's record may change as long as it stays in the sleep. */
  lemma {:induction false} AsleepKeepsWaiting(s: State, f: nat, x: Fiber)
    requires Waiting(s) && f < |s.fibers| && s.fibers[f].nap.Some? && x.nap == s.fibers[f].nap && x.state != READY
    requires s.fibers[f].state != READY && x.owes == s.fibers[f].owes
    ensures Waiting(SetFiber(s, f, x))
  {
    var t := SetFiber(s, f, x);
    forall g | 0 <= g < |s.fibers| ensures OwesWaits(t.fibers[g], t.fibers) {
      assert OwesWaits(s.fibers[g], s.fibers);
    }
  }

  /** The fiber a worker is in, unless it has just armed its sleep, is waited for by nobody. */
  lemma {:induction false} RunnerIsFree(s: State, w: nat)
    requires Sound(s) && Tidy(s) && Waiting(s) && w < |s.workers| && s.workers[w].phase.Running?
    requires s.fibers[s.workers[w].phase.fiber].nap.None?
    ensures Refs(s, Other(s.workers[w].phase.fiber))
  {
    RunningCanRun(s, w);
    NobodyWaitsFor(s, s.workers[w].phase.fiber);
  }

  lemma {:induction false} SettleWaits(s: State, o: Io.Outcome)
    requires Waiting(s) && o.Done? && Io.Accounts(s.io, o, BadWaiter(Nobody()), 0)
    ensures Waiting(Settle(s, o).state)
  {
    TotalZero(o.out, Io.HandedWeight(BadWaiter(Nobody())));
    forall i | 0 <= i < |o.out| ensures Entries(o.out)[i].CbEntry? && EntryWaits(Entries(o.out)[i], s.fibers) {
      assert Io.HandedWeight(BadWaiter(Nobody()))(o.out[i]) == 0;
    }
  }

  /** A callback entry at the end of the queue. */
  lemma {:induction false} PushWaits(s: State, e: Entry)
    requires Waiting(s) && e.CbEntry? && EntryWaits(e, s.fibers)
    ensures Waiting(Push(s, e))
  {
  }

  lemma {:induction false} ArmWaits(s: State, t: TimerRec, n: nat)
    requires Waiting(s) && TimerWaits(t, s.fibers)
    ensures Waiting(s.(timers := Insert(s.timers, t), nextTimer := n))
  {
    InsertAdds(s.timers, t);
  }

  lemma {:induction false} MoveWaits(s: State, t: TimerRec)
    requires TimersOk(s) && Waiting(s) && TimerWaits(t, s.fibers)
    ensures Waiting(s.(timers := Insert(Remove(s.timers, t.id), t)))
  {
    RemoveDrops(s.timers, t.id);
    InsertAdds(Remove(s.timers, t.id), t);
  }

  lemma {:induction false} SharedWaits(s: State, a: Action)
    requires Io.Good(s.io) && TimersOk(s) && Waiting(s) && Shared(s, a).Alive? && !a.ScheduleFiber?
    ensures Waiting(Shared(s, a).state)
  {
    match a
    case ScheduleCb(id, thread) => PushWaits(Issue(s), CbEntry(Job(User(id), s.nextTicket), thread));
    case StartTimer(ms, recurring, cb) =>
      ArmWaits(s, UsersTimer(s, ms, recurring, cb), s.nextTimer + 1);
    case StopTimer(id) => RemoveDrops(s.timers, id);
    case MoveTimer(id, ms, fromNow) =>
      var t := UserTimer(s, id);
      if t.Some? {
        MoveWaits(s, MovedTimer(s, t.value, ms, fromNow));
      }
    case Unwatch(fd, ev, fail) =>
      Io.DelEventAccounts(s.io, fd, ev, fail, BadWaiter(Nobody()));
      SettleWaits(s, Io.DelEvent(s.io, fd, ev, fail));
    case CancelWatch(fd, ev, fail) =>
      Io.CancelEventAccounts(s.io, fd, ev, fail, BadWaiter(Nobody()));
      SettleWaits(s, Io.CancelEvent(s.io, fd, ev, fail));
    case CancelFd(fd, fail) =>
      Io.CancelAllAccounts(s.io, fd, fail, BadWaiter(Nobody()));
      SettleWaits(s, Io.CancelAll(s.io, fd, fail));
    case Spawn => SpawnWaits(s);
    case _ =>
  }

  lemma {:induction false} SpawnWaits(s: State)
    requires Waiting(s)
    ensures Waiting(s.(fibers := s.fibers + [Fiber(INIT, true, None, None)]))
  {
    AppendWaits(s, Fiber(INIT, true, None, None));
  }

  lemma {:induction false} AppendWaits(s: State, x: Fiber)
    requires Waiting(s) && OwesWaits(x, s.fibers)
    requires forall i :: 0 <= i < |s.queue| && s.queue[i].FiberEntry? ==> s.queue[i].handle.fiber < |s.fibers|
    ensures Waiting(s.(fibers := s.fibers + [x]))
  {
    var t := s.(fibers := s.fibers + [x]);
    forall i | 0 <= i < |s.queue| ensures EntryWaits(s.queue[i], t.fibers) {
      assert EntryWaits(s.queue[i], s.fibers);
    }
    forall u | u in s.timers ensures TimerWaits(u, t.fibers) {
      assert TimerWaits(u, s.fibers);
    }
    forall w | 0 <= w < |s.workers| ensures HandWaits(s.workers[w].phase, t.fibers) {
      assert HandWaits(s.workers[w].phase, s.fibers);
    }
  }

  lemma {:induction false} WatchWaits(s: State, w: nat, a: Action)
    requires Inv(s) && Waiting(s) && w < |s.workers| && a.Watch? && a.cb.Some? && Do(s, w, a).Alive?
    ensures Waiting(Do(s, w, a).state)
  {
    if CanDo(s, w, a) {
      var waiter := Io.CbWaiter(Job(User(a.cb.value), s.nextTicket));
      var o := Io.AddEvent(s.io, a.fd, a.ev, waiter, 0, a.fail);
      Io.AddEventAccounts(s.io, a.fd, a.ev, waiter, 0, a.fail, BadWaiter(Nobody()));
      SettleWaits(if o.ok then Issue(s) else s, o);
    }
  }

  /** Leaving a fiber nobody waits for. */
  lemma {:induction false} LeaveWaits(s: State, w: nat, x: Fiber, ended: bool)
    requires Waiting(s) && w < |s.workers| && s.workers[w].phase.Running? && s.workers[w].phase.fiber < |s.fibers|
    requires Refs(s, Other(s.workers[w].phase.fiber)) && x.owes.None?
    ensures Waiting(Leave(s, w, x, ended)) && Refs(Leave(s, w, x, ended), Other(s.workers[w].phase.fiber))
  {
    var p := s.workers[w].phase;
    var x' := if p.viaCb && ended then Fiber(INIT, false, None, None) else x;
    ChangeKeepsWaiting(s, p.fiber, x');
    SameReferences(SetFiber(s, p.fiber, x'), Leave(s, w, x, ended));
  }

  /** A fiber that nothing refers to is left ready, and queued. */
  lemma {:induction false} RequeueWaits(s: State, f: nat)
    requires Waiting(s) && Refs(s, Other(f)) && f < |s.fibers| && s.fibers[f].state == READY
    ensures Waiting(Push(Issue(s), FiberEntry(Handle(f, s.nextTicket), -1)))
  {
    forall i | 0 <= i < |s.queue| ensures EntryRef(s.queue[i], Other(f)) {}
  }

  lemma {:induction false} YieldReadyWaits(s: State, w: nat, f: nat)
    requires Waiting(s) && w < |s.workers| && s.workers[w].phase.Running? && s.workers[w].phase.fiber == f < |s.fibers|
    requires Refs(s, Other(f)) && s.fibers[f].owes.None?
    ensures var t := Leave(s, w, s.fibers[f].(state := READY), false);
      Waiting(Push(Issue(t), FiberEntry(Handle(f, s.nextTicket), -1)))
  {
    LeaveWaits(s, w, s.fibers[f].(state := READY), false);
    RequeueWaits(Leave(s, w, s.fibers[f].(state := READY), false), f);
  }

  lemma {:induction false} SleepWaits(s: State, f: nat, ms: nat)
    requires Waiting(s) && f < |s.fibers| && Refs(s, Other(f)) && s.fibers[f].owes.None?
    ensures Waiting(FallAsleep(s, f, ms))
  {
    var x := s.fibers[f].(nap := Some(s.nextTicket));
    ChangeKeepsWaiting(s, f, x);
    ArmWaits(SetFiber(s, f, x), SleepersTimer(s, f, ms), s.nextTimer + 1);
  }

  /** The lambda of a sleep queues a fiber that is asleep, not ready. */
  lemma {:induction false} WakeWaits(s: State, f: nat)
    requires Waiting(s) && Fibers(s) && f < |s.fibers| && Refs(s, Other(f)) && s.fibers[f].owes.Some?
    ensures Waiting(Push(SetFiber(s, f, s.fibers[f].(owes := None)), FiberEntry(s.fibers[f].owes.value, -1)))
  {
    var h := s.fibers[f].owes.value;
    assert OwesWaits(s.fibers[f], s.fibers) && FiberOk(s.fibers[f]) && FiberOk(s.fibers[h.fiber]) && FiberRef(s.fibers[f], Other(f));
    ChangeKeepsWaiting(s, f, s.fibers[f].(owes := None));
  }

  /** Leaving the fiber, asleep or with nobody waiting for it. */
  lemma {:induction false} LeavingWaits(s: State, w: nat, a: Action, f: nat)
    requires |s.io.ctxs| >= Io.FIRST_SIZE && Waiting(s) && w < |s.workers| && CanDo(s, w, a) && s.workers[w].phase.fiber == f
    requires a.YieldReady? || a.YieldHold? || a.Return? || a.Throw?
    requires s.fibers[f].state == EXEC && s.fibers[f].hasCb && FiberOk(s.fibers[f])
    requires s.fibers[f].nap.None? ==> Refs(s, Other(f))
    ensures Do(s, w, a).Alive? && Waiting(Do(s, w, a).state)
  {
    var x := s.fibers[f];
    if x.nap.Some? {
      AsleepKeepsWaiting(s, f, x.(state := HOLD));
      SameReferences(SetFiber(s, f, x.(state := HOLD)), Leave(s, w, x.(state := HOLD), false));
    } else {
      match a
      case YieldReady => YieldReadyWaits(s, w, f);
      case YieldHold => LeaveWaits(s, w, x.(state := HOLD), false);
      case Return => LeaveWaits(s, w, x.(state := TERM, hasCb := false), true);
      case Throw => LeaveWaits(s, w, x.(state := EXCEPT), true);
    }
  }

  lemma {:induction false} DoWaits(s: State, w: nat, a: Action)
    requires Sound(s) && Tidy(s) && Waiting(s) && w < |s.workers| && PlainAction(s, a) && Do(s, w, a).Alive?
    ensures Waiting(Do(s, w, a).state)
  {
    if CanDo(s, w, a) {
      var f := s.workers[w].phase.fiber;
      if a.YieldReady? || a.YieldHold? || a.Return? || a.Throw? {
        RunningCanRun(s, w);
        assert FiberOk(s.fibers[f]);
        if s.fibers[f].nap.None? { RunnerIsFree(s, w); }
        LeavingWaits(s, w, a, f);
      } else if a.Sleep? || a.WakeSleeper? {
        RunnerIsFree(s, w);
        if a.Sleep? { SleepWaits(s, f, a.ms); } else { WakeWaits(s, f); }
      } else if a.Watch? {
        WatchWaits(s, w, a);
      } else {
        SharedWaits(s, a);
      }
    }
  }

  // ----- entering -----

  ghost predicate NotInHand(p: Phase, k: nat) {
    p.Handing? ==> forall i :: 0 <= i < |p.cbs| ==> InJob(k)(p.cbs[i]) == 0
  }

  /** Obligation k is nowhere. */
  lemma {:induction false} NowhereLive(s: State, k: nat)
    requires Live(s, k) == 0
    ensures forall i :: 0 <= i < |s.queue| ==> InEntry(k)(s.queue[i]) == 0
    ensures forall t :: t in s.timers ==> InTimer(k)(t) == 0
    ensures forall w :: 0 <= w < |s.workers| ==> NotInHand(s.workers[w].phase, k)
    ensures forall f :: 0 <= f < |s.fibers| ==> InFiber(k)(s.fibers[f]) == 0
  {
    TotalZero(s.queue, InEntry(k));
    TotalZero(s.timers, InTimer(k));
    TotalZero(s.workers, InHand(k));
    TotalZero(s.fibers, InFiber(k));
    forall w | 0 <= w < |s.workers| ensures NotInHand(s.workers[w].phase, k) {
      assert InHand(k)(s.workers[w]) == 0;
      if s.workers[w].phase.Handing? { TotalZero(s.workers[w].phase.cbs, InJob(k)); }
    }
  }

  /** Taking entry i out of the queue, when it is the one wake-up of a sleeper, leaves no
      other reference to the sleeper; nor does taking the entry of a ready fiber. */
  lemma {:induction false} TakenWasTheOnlyRef(s: State, i: nat, active: int)
    requires Sound(s) && Waiting(s) && i < |s.queue| && s.queue[i].FiberEntry?
    requires s.queue[i].handle.fiber < |s.fibers| && s.fibers[s.queue[i].handle.fiber].state != EXEC
    ensures var s1 := s.(queue := s.queue[..i] + s.queue[i + 1..], active := active);
      Waiting(s1) && Refs(s1, Other(s.queue[i].handle.fiber))
  {
    var h := s.queue[i].handle;
    var f := h.fiber;
    var s1 := s.(queue := s.queue[..i] + s.queue[i + 1..], active := active);
    assert forall j :: 0 <= j < |s1.queue| ==> s1.queue[j] == s.queue[if j < i then j else j + 1];
    assert EntryWaits(s.queue[i], s.fibers) && FiberOk(s.fibers[f]);
    SlotsReferToNobody(s, Other(f));
    if s.fibers[f].nap.Some? {
      var k := h.ticket;
      SleeperWillBeWoken(s, f);
      DequeueBalances(s, i, active, k);
      NowhereLive(s1, k);
    }
    RefsAfterTaking(s, s1, i);
  }

  lemma {:induction false} RefsAfterTaking(s: State, s1: State, i: nat)
    requires Waiting(s) && i < |s.queue| && s.queue[i].FiberEntry? && s.queue[i].handle.fiber < |s.fibers|
    requires s1 == s.(queue := s.queue[..i] + s.queue[i + 1..], active := s1.active)
    requires var x := s.fibers[s.queue[i].handle.fiber];
      (x.state == READY && x.nap.None?) || (x.state != READY && x.nap == Some(s.queue[i].handle.ticket) && Live(s1, s.queue[i].handle.ticket) == 0)
    requires Io.Weight(s.io, BadWaiter(Other(s.queue[i].handle.fiber))) == 0
    ensures Refs(s1, Other(s.queue[i].handle.fiber))
  {
    var h := s.queue[i].handle;
    var f := h.fiber;
    if s.fibers[f].nap.Some? { NowhereLive(s1, h.ticket); }
    forall j | 0 <= j < |s1.queue| ensures EntryRef(s1.queue[j], Other(f)) {
      var j' := if j < i then j else j + 1;
      assert s1.queue[j] == s.queue[j'];
      assert EntryWaits(s.queue[j'], s.fibers) && (s.fibers[f].nap.Some? ==> InEntry(h.ticket)(s1.queue[j]) == 0);
    }
    forall t | t in s1.timers ensures TimerRef(t, Other(f)) {
      assert TimerWaits(t, s.fibers) && (s.fibers[f].nap.Some? ==> InTimer(h.ticket)(t) == 0);
    }
    forall w | 0 <= w < |s1.workers| ensures HandRef(s1.workers[w].phase, Other(f)) {
      assert HandWaits(s.workers[w].phase, s.fibers);
      assert s.fibers[f].nap.Some? ==> NotInHand(s1.workers[w].phase, h.ticket);
      if s1.workers[w].phase.Handing? {
        forall n | 0 <= n < |s1.workers[w].phase.cbs| && s1.workers[w].phase.cbs[n].Some?
          ensures JobRef(s1.workers[w].phase.cbs[n].value, Other(f))
        {
          assert s.fibers[f].nap.Some? ==> InJob(h.ticket)(s1.workers[w].phase.cbs[n]) == 0;
        }
      }
    }
    forall g | 0 <= g < |s1.fibers| ensures FiberRef(s1.fibers[g], Other(f)) {
      assert OwesWaits(s.fibers[g], s.fibers) && (s.fibers[f].nap.Some? ==> InFiber(h.ticket)(s1.fibers[g]) == 0);
    }
  }

  /** What else a step changes does not matter to who is waited for. */
  lemma {:induction false} SameReferences(s: State, t: State)
    requires Waiting(s) && t.queue == s.queue && t.timers == s.timers && t.fibers == s.fibers && t.io == s.io
    requires |t.workers| == |s.workers|
    requires forall w :: 0 <= w < |s.workers| ==> t.workers[w].phase == s.workers[w].phase || !t.workers[w].phase.Handing?
    ensures Waiting(t)
  {
    forall w | 0 <= w < |t.workers| ensures HandWaits(t.workers[w].phase, t.fibers) {
      assert HandWaits(s.workers[w].phase, s.fibers);
    }
  }

  lemma {:induction false} FiberEnteredWaits(s: State, w: nat, h: Handle)
    requires Waiting(s) && w < |s.workers| && s.workers[w].phase == Scanning && EnterFiber(s, w, h).Alive?
    requires Refs(s, Other(h.fiber)) && s.fibers[h.fiber].owes.None?
    ensures Waiting(EnterFiber(s, w, h).state)
  {
    var x := s.fibers[h.fiber].(state := EXEC, nap := None);
    ChangeKeepsWaiting(s, h.fiber, x);
    SameReferences(SetFiber(s, h.fiber, x), EnterFiber(s, w, h).state);
  }

  lemma {:induction false} EnterFiberWaits(s: State, w: nat, i: nat)
    requires Sound(s) && Waiting(s) && w < |s.workers| && s.workers[w].phase == Scanning
    requires i == Scan(s.queue, s.workers[w].tid, s.fibers) < |s.queue| && s.queue[i].FiberEntry? && Loop(s, w).Alive?
    ensures Waiting(Loop(s, w).state)
  {
    var s1 := s.(queue := s.queue[..i] + s.queue[i + 1..]);
    var h := s.queue[i].handle;
    LoopIs(s, w, i);
    TakenWasTheOnlyRef(s, i, s.active);
    assert FiberOk(s.fibers[h.fiber]);
    FiberEnteredWaits(s1, w, h);
    SameReferences(EnterFiber(s1, w, h).state, Loop(s, w).state);
  }

  lemma {:induction false} TakeCallbackWaits(s: State, i: nat, active: int)
    requires Waiting(s) && i < |s.queue| && s.queue[i].CbEntry?
    ensures Waiting(s.(queue := s.queue[..i] + s.queue[i + 1..], active := active)) && JobWaits(s.queue[i].job, s.fibers)
  {
    var s1 := s.(queue := s.queue[..i] + s.queue[i + 1..], active := active);
    assert forall j :: 0 <= j < |s1.queue| ==> s1.queue[j] == s.queue[if j < i then j else j + 1];
    assert EntryWaits(s.queue[i], s.fibers);
  }

  /** Entering a callback; nobody waits for the fiber it is entered in. */
  lemma {:induction false} CallbackEnteredWaits(s: State, w: nat, job: Job)
    requires Waiting(s) && JobWaits(job, s.fibers) && w < |s.workers| && s.workers[w].phase == Scanning
    requires EnterCallback(s, w, job).Alive?
    requires forall e :: e in s.queue && e.FiberEntry? ==> e.handle.fiber < |s.fibers|
    requires var c := s.workers[w].cbFiber; c.Some? && c.value < |s.fibers| ==> s.fibers[c.value] == Fiber(INIT, false, None, None)
    ensures Waiting(EnterCallback(s, w, job).state)
  {
    var x := Fiber(EXEC, true, if job.code.Wake? then Some(Handle(job.code.fiber, job.ticket)) else None, None);
    var t := EnterCallback(s, w, job).state;
    match s.workers[w].cbFiber
    case Some(c) =>
      NobodyWaitsFor(s, c);
      ChangeKeepsWaiting(s, c, x);
      SameReferences(SetFiber(s, c, x), t);
    case None =>
      AppendWaits(s, x);
      SameReferences(s.(fibers := s.fibers + [x]), t);
  }

  lemma {:induction false} EnterCallbackWaits(s: State, w: nat, i: nat)
    requires Tidy(s) && Waiting(s) && w < |s.workers| && s.workers[w].phase == Scanning
    requires i == Scan(s.queue, s.workers[w].tid, s.fibers) < |s.queue| && s.queue[i].CbEntry? && Loop(s, w).Alive?
    ensures Waiting(Loop(s, w).state)
  {
    var s1 := s.(queue := s.queue[..i] + s.queue[i + 1..]);
    LoopIs(s, w, i);
    TakeCallbackWaits(s, i, s.active);
    assert Parked(s, w);
    forall e | e in s1.queue && e.FiberEntry? ensures e.handle.fiber < |s.fibers| {
      assert e in s.queue;
      var j :| 0 <= j < |s.queue| && s.queue[j] == e;
      assert EntryRef(s.queue[j], Usable(s.fibers));
    }
    CallbackEnteredWaits(s1, w, s.queue[i].job);
    SameReferences(EnterCallback(s1, w, s.queue[i].job).state, Loop(s, w).state);
  }

  lemma {:induction false} LoopWaits(s: State, w: nat)
    requires Sound(s) && Tidy(s) && Waiting(s) && w < |s.workers| && Loop(s, w).Alive?
    ensures Waiting(Loop(s, w).state)
  {
    var i := Scan(s.queue, s.workers[w].tid, s.fibers);
    if s.workers[w].phase == Scanning && i < |s.queue| {
      if s.queue[i].FiberEntry? {
        EnterFiberWaits(s, w, i);
      } else {
        EnterCallbackWaits(s, w, i);
      }
    }
  }

  lemma {:induction false} ExpireWaits(s: State, w: nat)
    requires Waiting(s) && w < |s.workers| && s.workers[w].phase == Polling
    ensures Waiting(Expire(s, w))
  {
    var fired := Fired(s.timers, s.clock);
    ExpirySource(s.timers, s.clock);
    forall i | 0 <= i < |fired| ensures TimerWaits(fired[i], s.fibers) {
      assert fired[i] in s.timers;
    }
    forall x | x in AfterExpiry(s.timers, s.clock) ensures TimerWaits(x, s.fibers) {
      if x !in s.timers {
        var y :| y in s.timers && Again(x, y, fired, s.clock);
      }
    }
  }

  lemma {:induction false} FlushWaits(s: State, w: nat)
    requires Waiting(s) && w < |s.workers| && s.workers[w].phase.Handing?
    ensures Waiting(Flush(s, w))
  {
    var es := CbEntries(s.workers[w].phase.cbs);
    CbEntriesSource(s.workers[w].phase.cbs);
    forall i | 0 <= i < |es| ensures es[i].CbEntry? && EntryWaits(es[i], s.fibers) {
      assert es[i] in es;
    }
  }

  lemma {:induction false} ReportWaits(s: State, w: nat, r: Io.Report, fail: bool)
    requires Inv(s) && Waiting(s) && w < |s.workers| && Report(s, w, r, fail).Alive?
    ensures Waiting(Report(s, w, r, fail).state)
  {
    if s.workers[w].phase == Dispatching && r.fd < |s.io.ctxs| {
      Io.DispatchAccounts(s.io, r, fail, BadWaiter(Nobody()));
      SettleWaits(s, Io.Dispatch(s.io, r, fail));
    }
  }

  lemma {:induction false} IdleWaits(s: State, w: nat)
    requires Waiting(s) && w < |s.workers|
    ensures Waiting(Check(s, w)) && Waiting(Expire(s, w)) && Waiting(Flush(s, w)) && Waiting(Rest(s, w))
  {
    match s.workers[w].phase
    case Polling => ExpireWaits(s, w);
    case Handing(_) => FlushWaits(s, w);
    case _ =>
  }

  lemma {:induction false} StepWaits(s: State, l: Label)
    requires Sound(s) && Tidy(s) && Waiting(s) && Plain(s, l) && Step(s, l).Alive?
    ensures Waiting(Step(s, l).state)
  {
    match l
    case ByWorker(w, m) =>
      if w < |s.workers| {
        match m
        case AtTop => LoopWaits(s, w);
        case Acting(a) => DoWaits(s, w, a);
        case Reporting(r, fail) => ReportWaits(s, w, r, fail);
        case _ => IdleWaits(s, w);
      }
    case Outside(a) => if !s.stopping { SharedWaits(s, a); }
    case _ =>
  }

  // ----- runs -----

  ghost predicate PlainRun(s: State, ls: seq<Label>)
    requires Sound(s)
    decreases |ls|
  {
    ls == [] ||
    (Plain(s, ls[0]) &&
     (Step(s, ls[0]).Alive? ==> (StepKeepsSound(s, ls[0]); PlainRun(Step(s, ls[0]).state, ls[1..]))))
  }

  lemma {:induction false} PlainRunIsCareful(s: State, ls: seq<Label>)
    requires Sound(s) && Tidy(s) && Waiting(s) && PlainRun(s, ls)
    ensures CarefulRun(s, ls)
    decreases |ls|
  {
    if ls != [] {
      PlainIsCareful(s, ls[0]);
      CarefulStepLives(s, ls[0]);
      CarefulStepKeepsTidy(s, ls[0]);
      StepWaits(s, ls[0]);
      StepKeepsSound(s, ls[0]);
      PlainRunIsCareful(Step(s, ls[0]).state, ls[1..]);
    }
  }

  /** Any number of workers running any plain program: no assertion ever fails, and at the
      top of its loop a worker's callback fiber, if it keeps one, is INIT without a function. */
  lemma {:induction false} PlainProgramsNeverAbort(tids: seq<nat>, ls: seq<Label>)
    requires |tids| > 0
    requires Sound(Start(tids)) ==> PlainRun(Start(tids), ls)
    ensures RunFromStart(tids, ls).Alive?
    ensures var t := RunFromStart(tids, ls).state;
      forall w :: 0 <= w < |t.workers| && t.workers[w].phase == Scanning && t.workers[w].cbFiber.Some? ==>
        t.workers[w].cbFiber.value < |t.fibers| && t.fibers[t.workers[w].cbFiber.value] == Fiber(INIT, false, None, None)
  {
    StartIsTidy(tids);
    Io.FreshIsEmpty(Io.ContextWeight(BadWaiter(Nobody())));
    PlainRunIsCareful(Start(tids), ls);
    CarefulProgramsNeverAbort(Start(tids), ls);
  }
}
