/** Conservation: every obligation ever issued is live in exactly one place, consumed,
    or dropped, along every run of the protocol. */
module ProtocolBooks {
  import opened Common
  import Io = IoSpec
  import opened TimerSpec
  import opened Protocol
  import opened ProtocolStructure

  // ----- where an obligation can be -----

  function InEntry(k: nat): Entry -> nat {
    (e: Entry) => if (if e.FiberEntry? then e.handle.ticket else e.job.ticket) == k then 1 else 0
  }

  function InJob(k: nat): Option<Job> -> nat {
    (j: Option<Job>) => if j.Some? && j.value.ticket == k then 1 else 0
  }

  function InTimer(k: nat): TimerRec -> nat {
    (t: TimerRec) => if t.cb.Some? && t.cb.value.ticket == k then 1 else 0
  }

  function InHand(k: nat): Worker -> nat {
    (w: Worker) => if w.phase.Handing? then Total(w.phase.cbs, InJob(k)) else 0
  }

  function InFiber(k: nat): Fiber -> nat {
    (x: Fiber) => if x.owes.Some? && x.owes.value.ticket == k then 1 else 0
  }

  function InSlot(k: nat): Io.Waiter -> nat {
    (w: Io.Waiter) => if TicketOf(w) == k then 1 else 0
  }

  /** How many times obligation k is live: queued, armed, in an idle worker's hand, owed
      by a running callback, or registered for an fd event. */
  function Live(s: State, k: nat): nat {
    Total(s.queue, InEntry(k)) + Total(s.timers, InTimer(k)) + Total(s.workers, InHand(k))
    + Total(s.fibers, InFiber(k)) + Io.Weight(s.io, InSlot(k))
  }

  ghost predicate Balanced(s: State, k: nat) {
    s.issued[k] == Live(s, k) + s.consumed[k] + s.dropped[k]
  }

  /** The lambda of a sleep has scheduled the sleeper before it is left; a sleeper stays on HOLD. */
  ghost predicate FiberOk(x: Fiber) {
    && (x.owes.Some? ==> x.state == EXEC && x.hasCb)
    && (x.nap.Some? ==> (x.state == EXEC || x.state == HOLD) && x.hasCb && x.owes.None?)
  }

  ghost predicate Fibers(s: State) {
    forall f :: 0 <= f < |s.fibers| ==> FiberOk(s.fibers[f])
  }

  // ----- sums over the parts -----

  lemma {:induction false} OneEntry(q: seq<Entry>, e: Entry, k: nat)
    ensures Total(q + [e], InEntry(k)) == Total(q, InEntry(k)) + InEntry(k)(e)
  {
    TotalAppend(q, [e], InEntry(k));
    Io.TotalOne(e, InEntry(k));
  }

  lemma {:induction false} HandedEntries(out: seq<Io.Delivery>, k: nat)
    ensures Total(Entries(out), InEntry(k)) == Total(out, Io.HandedWeight(InSlot(k)))
  {
    if out != [] {
      HandedEntries(out[1..], k);
      assert Entries(out)[0] == EntryOf(out[0].waiter) && Entries(out)[1..] == Entries(out[1..]);
    }
  }

  lemma {:induction false} HandEntries(cbs: seq<Option<Job>>, k: nat)
    ensures Total(CbEntries(cbs), InEntry(k)) == Total(cbs, InJob(k))
  {
    if cbs != [] {
      HandEntries(cbs[1..], k);
      if cbs[0].Some? {
        assert CbEntries(cbs)[0] == CbEntry(cbs[0].value, -1) && CbEntries(cbs)[1..] == CbEntries(cbs[1..]);
      } else {
        assert CbEntries(cbs) == CbEntries(cbs[1..]);
      }
    }
  }

  lemma {:induction false} InsertTotal(ts: seq<TimerRec>, t: TimerRec, f: TimerRec -> nat)
    ensures Total(Insert(ts, t), f) == Total(ts, f) + f(t)
  {
    if ts != [] && Before(ts[0], t) {
      InsertTotal(ts[1..], t, f);
      assert Insert(ts, t)[1..] == Insert(ts[1..], t);
    } else {
      assert ([t] + ts)[1..] == ts;
    }
  }

  lemma {:induction false} RemoveTotal(ts: seq<TimerRec>, id: nat, f: TimerRec -> nat)
    requires Lookup(ts, id).Some?
    ensures Total(Remove(ts, id), f) + f(Lookup(ts, id).value) == Total(ts, f)
  {
    if ts[0].id != id {
      RemoveTotal(ts[1..], id, f);
      assert Remove(ts, id)[1..] == Remove(ts[1..], id);
    }
  }

  lemma {:induction false} ReinsertTotal(rest: seq<TimerRec>, due: seq<TimerRec>, now: nat, k: nat)
    ensures Total(Reinsert(rest, due, now), InTimer(k)) == Total(rest, InTimer(k)) + Repeats(due)[k]
    decreases |due|
  {
    if due != [] {
      InsertTotal(rest, due[0].(next := now + due[0].ms), InTimer(k));
      ReinsertTotal(PutBack(rest, due[0], now), due[1..], now, k);
    }
  }

  lemma {:induction false} CallbacksTotal(due: seq<TimerRec>, k: nat)
    ensures Total(Callbacks(due), InJob(k)) == Total(due, InTimer(k))
  {
    if due != [] {
      CallbacksTotal(due[1..], k);
      assert Callbacks(due)[1..] == Callbacks(due[1..]);
    }
  }

  /** An expiry moves obligations from the set into the hand, and issues one more for each repeat. */
  lemma {:induction false} ExpiryTotal(ts: seq<TimerRec>, now: nat, k: nat)
    ensures Total(AfterExpiry(ts, now), InTimer(k)) + Total(Callbacks(Fired(ts, now)), InJob(k))
         == Total(ts, InTimer(k)) + Repeats(Fired(ts, now))[k]
  {
    var n := ExpiredCount(ts, now);
    assert ts == ts[..n] + ts[n..];
    TotalAppend(ts[..n], ts[n..], InTimer(k));
    ReinsertTotal(ts[n..], ts[..n], now, k);
    CallbacksTotal(ts[..n], k);
  }

  // ----- one step -----

  lemma {:induction false} LeaveBalances(s: State, w: nat, x: Fiber, ended: bool, k: nat)
    requires w < |s.workers| && s.workers[w].phase.Running? && s.workers[w].phase.fiber < |s.fibers|
    requires Balanced(s, k) && Fibers(s) && FiberOk(x) && x.owes.None?
    requires s.fibers[s.workers[w].phase.fiber].owes.None?
    ensures Balanced(Leave(s, w, x, ended), k) && Fibers(Leave(s, w, x, ended))
  {
    var p := s.workers[w].phase;
    var t := Leave(s, w, x, ended);
    TotalUpdate(s.fibers, p.fiber, t.fibers[p.fiber], InFiber(k));
    TotalUpdate(s.workers, w, t.workers[w], InHand(k));
  }

  /** Entering a fiber or a callback moves exactly the obligation of the entry, out of
      the queue, into the consumed ones or, for the lambda of a sleep, into the fiber. */
  lemma {:induction false} EnterFiberBalances(s: State, w: nat, h: Handle, k: nat)
    requires Fibers(s) && w < |s.workers| && s.workers[w].phase == Scanning && EnterFiber(s, w, h).Alive?
    ensures var t := EnterFiber(s, w, h).state;
      && Fibers(t) && Live(t, k) == Live(s, k) && t.issued == s.issued && t.dropped == s.dropped
      && t.consumed[k] == s.consumed[k] + if h.ticket == k then 1 else 0
  {
    var t := EnterFiber(s, w, h).state;
    TotalUpdate(s.workers, w, t.workers[w], InHand(k));
    TotalUpdate(s.fibers, h.fiber, t.fibers[h.fiber], InFiber(k));
  }

  /** The lambda of a sleep goes into the fiber, other callbacks are consumed. */
  lemma {:induction false} CallbackFiberBalances(fibers: seq<Fiber>, c: nat, x: Fiber, k: nat)
    requires c <= |fibers| && (c < |fibers| ==> InFiber(k)(fibers[c]) == 0)
    ensures Total(if c < |fibers| then fibers[c := x] else fibers + [x], InFiber(k)) == Total(fibers, InFiber(k)) + InFiber(k)(x)
  {
    if c < |fibers| {
      TotalUpdate(fibers, c, x, InFiber(k));
    } else {
      TotalAppend(fibers, [x], InFiber(k));
      Io.TotalOne(x, InFiber(k));
    }
  }

  lemma {:induction false} EnterCallbackBalances(s: State, w: nat, job: Job, k: nat)
    requires Fibers(s) && w < |s.workers| && s.workers[w].phase == Scanning && EnterCallback(s, w, job).Alive?
    ensures var t := EnterCallback(s, w, job).state;
      && Fibers(t) && t.issued == s.issued && t.dropped == s.dropped
      && Live(t, k) + t.consumed[k] == Live(s, k) + s.consumed[k] + if job.ticket == k then 1 else 0
  {
    var t := EnterCallback(s, w, job).state;
    var c := if s.workers[w].cbFiber.Some? then s.workers[w].cbFiber.value else |s.fibers|;
    TotalUpdate(s.workers, w, t.workers[w], InHand(k));
    if c < |s.fibers| { assert FiberOk(s.fibers[c]); }
    CallbackFiberBalances(s.fibers, c, t.fibers[c], k);
  }

  lemma {:induction false} DequeueBalances(s: State, i: nat, active: int, k: nat)
    requires i < |s.queue|
    ensures Live(s.(queue := s.queue[..i] + s.queue[i + 1..], active := active), k) + InEntry(k)(s.queue[i]) == Live(s, k)
  {
    TotalRemove(s.queue, i, InEntry(k));
  }

  lemma {:induction false} EnterBalances(s: State, w: nat, i: nat, k: nat)
    requires Fibers(s) && Balanced(s, k)
    requires w < |s.workers| && i == Scan(s.queue, s.workers[w].tid, s.fibers) < |s.queue|
    requires s.workers[w].phase == Scanning && Loop(s, w).Alive?
    ensures Balanced(Loop(s, w).state, k) && Fibers(Loop(s, w).state)
  {
    DequeueBalances(s, i, s.active + 1, k);
    var s1 := s.(queue := s.queue[..i] + s.queue[i + 1..], active := s.active + 1);
    var e := s.queue[i];
    assert Fibers(s1);
    if e.FiberEntry? {
      assert Loop(s, w) == EnterFiber(s1, w, e.handle);
      EnterFiberBalances(s1, w, e.handle, k);
    } else {
      assert Loop(s, w) == EnterCallback(s1, w, e.job);
      EnterCallbackBalances(s1, w, e.job, k);
    }
    var t := Loop(s, w).state;
    assert t.issued == s.issued && t.dropped == s.dropped;
    assert Live(t, k) + t.consumed[k] == Live(s1, k) + s.consumed[k] + InEntry(k)(e);
  }

  lemma {:induction false} LoopBalances(s: State, w: nat, k: nat)
    requires Inv(s) && Fibers(s) && Balanced(s, k) && w < |s.workers| && Loop(s, w).Alive?
    ensures Balanced(Loop(s, w).state, k) && Fibers(Loop(s, w).state)
  {
    var i := Scan(s.queue, s.workers[w].tid, s.fibers);
    if s.workers[w].phase == Scanning {
      if i < |s.queue| {
        EnterBalances(s, w, i, k);
      } else {
        TotalUpdate(s.workers, w, Loop(s, w).state.workers[w], InHand(k));
      }
    }
  }

  lemma {:induction false} GoneBalances(gone: seq<Io.Waiter>, dropped: multiset<nat>, k: nat)
    requires |gone| <= 1
    ensures (dropped + if gone == [] then multiset{} else multiset{TicketOf(gone[0])})[k] == dropped[k] + Total(gone, InSlot(k))
  {
    if gone != [] {
      Io.TotalOne(gone[0], InSlot(k));
      assert gone == [gone[0]];
    }
  }

  /** Settling an outcome that accounts for every waiter. */
  lemma {:induction false} SettleBalances(s: State, t: State, o: Io.Outcome, added: nat, k: nat)
    requires Balanced(s, k) && o.Done? && |o.gone| <= 1
    requires Io.Accounts(s.io, o, InSlot(k), added)
    requires (t == s && added == 0) || (t == Issue(s) && added == if k == s.nextTicket then 1 else 0)
    ensures Balanced(Settle(t, o).state, k)
  {
    var u := Settle(t, o).state;
    TotalAppend(s.queue, Entries(o.out), InEntry(k));
    HandedEntries(o.out, k);
    GoneBalances(o.gone, s.dropped, k);
    assert u.issued[k] == s.issued[k] + added && u.consumed == s.consumed;
  }

  lemma {:induction false} MoveBalances(s: State, t: TimerRec, u: TimerRec, k: nat)
    requires Lookup(s.timers, t.id) == Some(t) && u.cb == t.cb
    ensures Live(s.(timers := Insert(Remove(s.timers, t.id), u)), k) == Live(s, k)
  {
    RemoveTotal(s.timers, t.id, InTimer(k));
    InsertTotal(Remove(s.timers, t.id), u, InTimer(k));
  }

  lemma {:induction false} ArmBalances(s: State, ms: nat, recurring: bool, cb: Option<nat>, k: nat)
    requires Balanced(s, k)
    ensures Balanced(ArmTimer(s, ms, recurring, cb), k)
  {
    InsertTotal(s.timers, UsersTimer(s, ms, recurring, cb), InTimer(k));
  }

  lemma {:induction false} DropBalances(s: State, t: TimerRec, k: nat)
    requires Balanced(s, k) && Lookup(s.timers, t.id) == Some(t) && t.cb.Some?
    ensures Balanced(s.(timers := Remove(s.timers, t.id), dropped := s.dropped + multiset{t.cb.value.ticket}), k)
  {
    RemoveTotal(s.timers, t.id, InTimer(k));
  }

  lemma {:induction false} TimersBalance(s: State, a: Action, k: nat)
    requires Balanced(s, k) && (a.StartTimer? || a.StopTimer? || a.MoveTimer?) && |s.io.ctxs| >= Io.FIRST_SIZE
    ensures Shared(s, a).Alive? && Balanced(Shared(s, a).state, k) && Shared(s, a).state.fibers == s.fibers
  {
    match a
    case StartTimer(ms, recurring, cb) => ArmBalances(s, ms, recurring, cb, k);
    case StopTimer(id) =>
      var t := UserTimer(s, id);
      if t.Some? { DropBalances(s, t.value, k); }
    case MoveTimer(id, ms, fromNow) =>
      var t := UserTimer(s, id);
      if t.Some? { MoveBalances(s, t.value, MovedTimer(s, t.value, ms, fromNow), k); }
  }

  /** One more entry, for one more obligation. */
  lemma {:induction false} PushBalances(s: State, e: Entry, k: nat)
    requires Balanced(s, k) && (if e.FiberEntry? then e.handle.ticket else e.job.ticket) == s.nextTicket
    ensures Balanced(Push(Issue(s), e), k)
  {
    OneEntry(s.queue, e, k);
  }

  lemma {:induction false} SpawnBalances(s: State, k: nat)
    requires Balanced(s, k) && Fibers(s)
    ensures var t := s.(fibers := s.fibers + [Fiber(INIT, true, None, None)]);
      Balanced(t, k) && Fibers(t)
  {
    var x := Fiber(INIT, true, None, None);
    TotalAppend(s.fibers, [x], InFiber(k));
    Io.TotalOne(x, InFiber(k));
  }

  lemma {:induction false} RegistryBalances(s: State, a: Action, k: nat)
    requires Io.Good(s.io) && Balanced(s, k) && (a.Unwatch? || a.CancelWatch? || a.CancelFd?)
    ensures Shared(s, a).Alive? && Balanced(Shared(s, a).state, k) && Shared(s, a).state.fibers == s.fibers
  {
    match a
    case Unwatch(fd, ev, fail) =>
      Io.DelEventAccounts(s.io, fd, ev, fail, InSlot(k));
      SettleBalances(s, s, Io.DelEvent(s.io, fd, ev, fail), 0, k);
    case CancelWatch(fd, ev, fail) =>
      Io.CancelEventAccounts(s.io, fd, ev, fail, InSlot(k));
      SettleBalances(s, s, Io.CancelEvent(s.io, fd, ev, fail), 0, k);
    case CancelFd(fd, fail) =>
      Io.CancelAllAccounts(s.io, fd, fail, InSlot(k));
      SettleBalances(s, s, Io.CancelAll(s.io, fd, fail), 0, k);
  }

  lemma {:induction false} SharedBalances(s: State, a: Action, k: nat)
    requires Io.Good(s.io) && Fibers(s) && Balanced(s, k) && Shared(s, a).Alive?
    ensures Balanced(Shared(s, a).state, k) && Fibers(Shared(s, a).state)
  {
    match a
    case ScheduleCb(id, thread) => PushBalances(s, CbEntry(Job(User(id), s.nextTicket), thread), k);
    case ScheduleFiber(g, thread) => PushBalances(s, FiberEntry(Handle(g, s.nextTicket), thread), k);
    case Spawn => SpawnBalances(s, k);
    case Unwatch(_, _, _) => RegistryBalances(s, a, k);
    case CancelWatch(_, _, _) => RegistryBalances(s, a, k);
    case CancelFd(_, _) => RegistryBalances(s, a, k);
    case _ => if a.StartTimer? || a.StopTimer? || a.MoveTimer? { TimersBalance(s, a, k); }
  }

  lemma {:induction false} RegisterBalances(s: State, fd: nat, ev: Io.Event, waiter: Io.Waiter, fail: bool, k: nat)
    requires Io.Good(s.io) && Balanced(s, k) && TicketOf(waiter) == s.nextTicket
    ensures var o := Io.AddEvent(s.io, fd, ev, waiter, 0, fail);
      o.Done? ==> Balanced(Settle(if o.ok then Issue(s) else s, o).state, k)
  {
    var o := Io.AddEvent(s.io, fd, ev, waiter, 0, fail);
    Io.AddEventAccounts(s.io, fd, ev, waiter, 0, fail, InSlot(k));
    if o.Done? { SettleBalances(s, if o.ok then Issue(s) else s, o, if fail then 0 else InSlot(k)(waiter), k); }
  }

  lemma {:induction false} WatchBalances(s: State, w: nat, a: Action, k: nat)
    requires Io.Good(s.io) && Fibers(s) && Balanced(s, k) && w < |s.workers| && a.Watch? && Do(s, w, a).Alive?
    ensures Balanced(Do(s, w, a).state, k) && Fibers(Do(s, w, a).state)
  {
    if CanDo(s, w, a) {
      RegisterBalances(s, a.fd, a.ev, NewWaiter(s, s.workers[w].phase.fiber, a.cb), a.fail, k);
    }
  }

  lemma {:induction false} SleepBalances(s: State, f: nat, ms: nat, k: nat)
    requires Fibers(s) && Balanced(s, k) && f < |s.fibers| && s.fibers[f].state == EXEC && s.fibers[f].hasCb && s.fibers[f].owes.None?
    ensures Balanced(FallAsleep(s, f, ms), k) && Fibers(FallAsleep(s, f, ms))
  {
    TotalUpdate(s.fibers, f, s.fibers[f].(nap := Some(s.nextTicket)), InFiber(k));
    InsertTotal(s.timers, SleepersTimer(s, f, ms), InTimer(k));
  }

  lemma {:induction false} WakeBalances(s: State, f: nat, k: nat)
    requires Fibers(s) && Balanced(s, k) && f < |s.fibers| && s.fibers[f].owes.Some?
    ensures var t := Push(SetFiber(s, f, s.fibers[f].(owes := None)), FiberEntry(s.fibers[f].owes.value, -1));
      Balanced(t, k) && Fibers(t)
  {
    TotalUpdate(s.fibers, f, s.fibers[f].(owes := None), InFiber(k));
    OneEntry(s.queue, FiberEntry(s.fibers[f].owes.value, -1), k);
  }

  lemma {:induction false} LeavingBalances(s: State, w: nat, a: Action, k: nat)
    requires |s.io.ctxs| >= Io.FIRST_SIZE && Fibers(s) && Balanced(s, k) && w < |s.workers| && CanDo(s, w, a)
    requires a.YieldReady? || a.YieldHold? || a.Return? || a.Throw?
    ensures Do(s, w, a).Alive? && Balanced(Do(s, w, a).state, k) && Fibers(Do(s, w, a).state)
  {
    var f := s.workers[w].phase.fiber;
    var x := s.fibers[f];
    assert FiberOk(x);
    match a
    case YieldReady =>
      LeaveBalances(s, w, x.(state := READY), false, k);
      PushBalances(Leave(s, w, x.(state := READY), false), FiberEntry(Handle(f, s.nextTicket), -1), k);
    case YieldHold => LeaveBalances(s, w, x.(state := HOLD), false, k);
    case Return => LeaveBalances(s, w, x.(state := TERM, hasCb := false), true, k);
    case Throw => LeaveBalances(s, w, x.(state := EXCEPT), true, k);
  }

  lemma {:induction false} DoBalances(s: State, w: nat, a: Action, k: nat)
    requires Inv(s) && Fibers(s) && Balanced(s, k) && w < |s.workers| && Do(s, w, a).Alive?
    ensures Balanced(Do(s, w, a).state, k) && Fibers(Do(s, w, a).state)
  {
    if CanDo(s, w, a) {
      var f := s.workers[w].phase.fiber;
      TotalAtLeast(s.workers, w, RunsFiber(f));
      assert s.fibers[f].state == EXEC && FiberOk(s.fibers[f]);
      if a.YieldReady? || a.YieldHold? || a.Return? || a.Throw? {
        LeavingBalances(s, w, a, k);
      } else {
        match a
        case Watch(_, _, _, _) => WatchBalances(s, w, a, k);
        case Sleep(ms) => SleepBalances(s, f, ms, k);
        case WakeSleeper => WakeBalances(s, f, k);
        case _ => SharedBalances(s, a, k);
      }
    }
  }

  /** Moving inside the idle fiber with an empty hand, or letting go of one. */
  lemma {:induction false} MoveInIdleBalances(s: State, w: nat, me: Worker, idle: int, k: nat)
    requires Fibers(s) && Balanced(s, k) && w < |s.workers| && InHand(k)(me) == InHand(k)(s.workers[w])
    ensures var t := s.(workers := s.workers[w := me], idle := idle);
      Balanced(t, k) && Fibers(t)
  {
    TotalUpdate(s.workers, w, me, InHand(k));
  }

  lemma {:induction false} ExpireBalances(s: State, w: nat, k: nat)
    requires Fibers(s) && Balanced(s, k) && w < |s.workers| && s.workers[w].phase == Polling
    ensures Balanced(Expire(s, w), k) && Fibers(Expire(s, w))
  {
    TotalUpdate(s.workers, w, Expire(s, w).workers[w], InHand(k));
    ExpiryTotal(s.timers, s.clock, k);
  }

  lemma {:induction false} FlushBalances(s: State, w: nat, k: nat)
    requires Fibers(s) && Balanced(s, k) && w < |s.workers| && s.workers[w].phase.Handing?
    ensures Balanced(Flush(s, w), k) && Fibers(Flush(s, w))
  {
    var cbs := s.workers[w].phase.cbs;
    TotalUpdate(s.workers, w, Flush(s, w).workers[w], InHand(k));
    TotalAppend(s.queue, CbEntries(cbs), InEntry(k));
    HandEntries(cbs, k);
  }

  lemma {:induction false} IdleBalances(s: State, w: nat, k: nat)
    requires Fibers(s) && Balanced(s, k) && w < |s.workers|
    ensures Balanced(Check(s, w), k) && Balanced(Expire(s, w), k) && Balanced(Flush(s, w), k) && Balanced(Rest(s, w), k)
    ensures Fibers(Check(s, w)) && Fibers(Expire(s, w)) && Fibers(Flush(s, w)) && Fibers(Rest(s, w))
  {
    match s.workers[w].phase
    case AtCheck => MoveInIdleBalances(s, w, Check(s, w).workers[w], Check(s, w).idle, k);
    case Polling => ExpireBalances(s, w, k);
    case Handing(cbs) => FlushBalances(s, w, k);
    case Dispatching => MoveInIdleBalances(s, w, Rest(s, w).workers[w], Rest(s, w).idle, k);
    case _ =>
  }

  lemma {:induction false} ReportBalances(s: State, w: nat, r: Io.Report, fail: bool, k: nat)
    requires Inv(s) && Fibers(s) && Balanced(s, k) && w < |s.workers| && Report(s, w, r, fail).Alive?
    ensures Balanced(Report(s, w, r, fail).state, k) && Fibers(Report(s, w, r, fail).state)
  {
    if s.workers[w].phase == Dispatching && r.fd < |s.io.ctxs| {
      Io.DispatchAccounts(s.io, r, fail, InSlot(k));
      SettleBalances(s, s, Io.Dispatch(s.io, r, fail), 0, k);
    }
  }

  lemma {:induction false} WorkerBalances(s: State, w: nat, m: Move, k: nat)
    requires Inv(s) && Fibers(s) && Balanced(s, k) && w < |s.workers| && StepWorker(s, w, m).Alive?
    ensures Balanced(StepWorker(s, w, m).state, k) && Fibers(StepWorker(s, w, m).state)
  {
    match m
    case AtTop => LoopBalances(s, w, k);
    case Acting(a) => DoBalances(s, w, a, k);
    case Reporting(r, fail) => ReportBalances(s, w, r, fail, k);
    case _ => IdleBalances(s, w, k);
  }

  /** Every step keeps the books of every obligation. */
  lemma {:induction false} StepBalances(s: State, l: Label, k: nat)
    requires Inv(s) && Fibers(s) && Balanced(s, k) && Step(s, l).Alive?
    ensures Balanced(Step(s, l).state, k) && Fibers(Step(s, l).state)
  {
    match l
    case ByWorker(w, m) => if w < |s.workers| { WorkerBalances(s, w, m, k); }
    case Outside(a) => if !s.stopping { SharedBalances(s, a, k); }
    case Ticking(ms) =>
    case Stop =>
  }
}
