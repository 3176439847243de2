/** Hooked sleeps: where the one wake-up of a sleep is, along every run of the protocol. */
module ProtocolSleep {
  import opened Common
  import Io = IoSpec
  import opened TimerSpec
  import opened Protocol
  import opened ProtocolStructure
  import opened ProtocolBooks

  // ----- what each place may hold -----

  /** What the obligations are judged by: the sleeps so far, the next number, the clock. */
  datatype Context = Context(naps: map<nat, Nap>, next: nat, clock: nat)

  function Now(s: State): Context {
    Context(s.naps, s.nextTicket, s.clock)
  }

  /** Only the lambda of a sleep carries the number of one, and it names the sleeper. */
  ghost predicate JobOk(j: Job, c: Context) {
    && j.ticket < c.next
    && (if j.code.Wake? then j.ticket in c.naps && c.naps[j.ticket].fiber == j.code.fiber else j.ticket !in c.naps)
  }

  ghost predicate JobRipe(j: Job, c: Context) {
    JobOk(j, c) && (j.ticket in c.naps ==> c.naps[j.ticket].due <= c.clock)
  }

  ghost predicate HandleRipe(h: Handle, c: Context) {
    h.ticket < c.next && (h.ticket in c.naps ==> c.naps[h.ticket].fiber == h.fiber && c.naps[h.ticket].due <= c.clock)
  }

  ghost predicate EntryRipe(e: Entry, c: Context) {
    match e
    case FiberEntry(h, _) => HandleRipe(h, c)
    case CbEntry(j, _) => JobRipe(j, c)
  }

  ghost predicate TimerOk(t: TimerRec, c: Context) {
    t.cb.Some? ==>
      && JobOk(t.cb.value, c)
      && (t.cb.value.ticket in c.naps ==> c.naps[t.cb.value.ticket].due == t.next && !t.recurring)
  }

  ghost predicate HandRipe(p: Phase, c: Context) {
    p.Handing? ==> forall i :: 0 <= i < |p.cbs| && p.cbs[i].Some? ==> JobRipe(p.cbs[i].value, c)
  }

  ghost predicate FiberNap(f: nat, x: Fiber, c: Context, consumed: multiset<nat>) {
    && (x.owes.Some? ==> x.owes.value.ticket in c.naps && HandleRipe(x.owes.value, c))
    && (x.nap.Some? ==> x.nap.value in c.naps && c.naps[x.nap.value].fiber == f && consumed[x.nap.value] == 0)
  }

  /** The weight that is zero on the waiters that have nothing to do with a sleep. */
  function Stray(c: Context): Io.Waiter -> nat {
    (w: Io.Waiter) =>
      if TicketOf(w) < c.next && TicketOf(w) !in c.naps && (w.CbWaiter? ==> w.job.code.User?) then 0 else 1
  }

  // ----- the invariant -----

  ghost predicate Queue(s: State) {
    forall i :: 0 <= i < |s.queue| ==> EntryRipe(s.queue[i], Now(s))
  }

  ghost predicate Armed(s: State) {
    forall t :: t in s.timers ==> TimerOk(t, Now(s))
  }

  ghost predicate Hands(s: State) {
    forall w :: 0 <= w < |s.workers| ==> HandRipe(s.workers[w].phase, Now(s))
  }

  ghost predicate Sleepers(s: State) {
    forall f :: 0 <= f < |s.fibers| ==> FiberNap(f, s.fibers[f], Now(s), s.consumed)
  }

  ghost predicate Slots(s: State) {
    Io.Weight(s.io, Stray(Now(s))) == 0
  }

  /** Each sleep was issued once and never dropped; numbers not yet used were not issued. */
  ghost predicate Issues(s: State) {
    && (forall k :: k in s.naps ==> k < s.nextTicket && s.issued[k] == 1 && s.dropped[k] == 0)
    && (forall k: nat :: s.nextTicket <= k ==> s.issued[k] == 0 && s.dropped[k] == 0 && s.consumed[k] == 0)
  }

  ghost predicate Naps(s: State) {
    Queue(s) && Armed(s) && Hands(s) && Sleepers(s) && Slots(s) && Issues(s)
  }

  // ----- time passing, numbers and sleeps being added -----

  /** d is c with time gone by, more numbers used, or one more sleep under the next number. */
  ghost predicate Later(c: Context, d: Context) {
    && c.clock <= d.clock && c.next <= d.next
    && (d.naps == c.naps || (c.next < d.next && c.next in d.naps && d.naps == c.naps[c.next := d.naps[c.next]]))
  }

  lemma {:induction false} RipeLater(c: Context, d: Context)
    requires Later(c, d)
    ensures forall j :: JobOk(j, c) ==> JobOk(j, d)
    ensures forall e :: EntryRipe(e, c) ==> EntryRipe(e, d)
    ensures forall t :: TimerOk(t, c) ==> TimerOk(t, d)
    ensures forall p :: HandRipe(p, c) ==> HandRipe(p, d)
    ensures forall w: Io.Waiter :: Stray(c)(w) == 0 ==> Stray(d)(w) == 0
  {
  }

  lemma {:induction false} WeightLater(g: Io.Registry, c: Context, d: Context)
    requires Later(c, d) && Io.Weight(g, Stray(c)) == 0
    ensures Io.Weight(g, Stray(d)) == 0
  {
    RipeLater(c, d);
    TotalZero(g.ctxs, Io.ContextWeight(Stray(c)));
    TotalZero(g.ctxs, Io.ContextWeight(Stray(d)));
    forall i | 0 <= i < |g.ctxs| ensures Io.ContextWeight(Stray(d))(g.ctxs[i]) == 0 {
      assert Io.ContextWeight(Stray(c))(g.ctxs[i]) == 0;
    }
  }

  lemma {:induction false} FiberNapLater(f: nat, x: Fiber, c: Context, d: Context, consumed: multiset<nat>)
    requires Later(c, d) && FiberNap(f, x, c, consumed)
    requires forall k :: k in c.naps ==> k < c.next
    ensures FiberNap(f, x, d, consumed)
  {
  }

  /** Everything that is in place stays in place when only the context moves on. */
  lemma {:induction false} PlacesLater(s: State, t: State)
    requires Queue(s) && Armed(s) && Hands(s) && Sleepers(s) && Slots(s) && Issues(s) && Later(Now(s), Now(t))
    requires t.queue == s.queue && t.timers == s.timers && t.workers == s.workers && t.fibers == s.fibers
    requires t.io == s.io && t.consumed == s.consumed
    ensures Queue(t) && Armed(t) && Hands(t) && Sleepers(t) && Slots(t)
  {
    RipeLater(Now(s), Now(t));
    WeightLater(s.io, Now(s), Now(t));
    forall f | 0 <= f < |s.fibers| ensures FiberNap(f, t.fibers[f], Now(t), t.consumed) {
      FiberNapLater(f, s.fibers[f], Now(s), Now(t), s.consumed);
    }
  }

  /** Using up one number. */
  lemma {:induction false} IssueKeepsNaps(s: State)
    requires Naps(s)
    ensures Naps(Issue(s))
  {
    assert Later(Now(s), Now(Issue(s)));
    PlacesLater(s, Issue(s));
  }

  // ----- one step -----

  lemma {:induction false} PushKeepsNaps(s: State, e: Entry)
    requires Naps(s) && EntryRipe(e, Now(s))
    ensures Naps(Push(s, e))
  {
  }

  lemma {:induction false} RepeatsSource(due: seq<TimerRec>, k: nat)
    ensures Repeats(due)[k] > 0 ==> exists t :: t in due && t.recurring && t.cb.Some? && t.cb.value.ticket == k
  {
    if due != [] {
      RepeatsSource(due[1..], k);
      if Repeats(due)[k] > 0 {
        if Repeats(due[1..])[k] > 0 {
          var t :| t in due[1..] && t.recurring && t.cb.Some? && t.cb.value.ticket == k;
          assert t in due;
        } else {
          assert due[0] in due;
        }
      }
    }
  }

  lemma {:induction false} TimersKeepNaps(s: State, ts: seq<TimerRec>)
    requires Naps(s) && forall t :: t in ts ==> TimerOk(t, Now(s))
    ensures forall n :: Naps(s.(timers := ts, nextTimer := n))
  {
    forall n ensures Naps(s.(timers := ts, nextTimer := n)) {
      assert Now(s.(timers := ts, nextTimer := n)) == Now(s);
    }
  }

  lemma {:induction false} MoveKeepsNaps(s: State, t: TimerRec)
    requires TimersOk(s) && Naps(s) && TimerOk(t, Now(s))
    ensures forall n :: Naps(s.(timers := Insert(Remove(s.timers, t.id), t), nextTimer := n))
  {
    RemoveDrops(s.timers, t.id);
    InsertAdds(Remove(s.timers, t.id), t);
    TimersKeepNaps(s, Insert(Remove(s.timers, t.id), t));
  }

  lemma {:induction false} ArmKeepsNaps(s: State, ms: nat, recurring: bool, cb: Option<nat>)
    requires Naps(s)
    ensures Naps(ArmTimer(s, ms, recurring, cb))
  {
    var s1 := if cb.Some? then Issue(s) else s;
    IssueKeepsNaps(s);
    var t := UsersTimer(s, ms, recurring, cb);
    InsertAdds(s.timers, t);
    TimersKeepNaps(s1, Insert(s.timers, t));
  }

  /** Disarming a timer with a callback of the user's. */
  lemma {:induction false} DropKeepsNaps(s: State, t: TimerRec)
    requires TimersOk(s) && Naps(s) && t in s.timers && t.cb.Some? && t.cb.value.code.User?
    ensures Naps(s.(timers := Remove(s.timers, t.id), dropped := s.dropped + multiset{t.cb.value.ticket}))
  {
    RemoveDrops(s.timers, t.id);
    TimersKeepNaps(s, Remove(s.timers, t.id));
    assert TimerOk(t, Now(s));
  }

  lemma {:induction false} TimerActionKeepsNaps(s: State, a: Action)
    requires TimersOk(s) && Naps(s) && |s.io.ctxs| >= Io.FIRST_SIZE && (a.StartTimer? || a.StopTimer? || a.MoveTimer?)
    ensures Shared(s, a).Alive? && Naps(Shared(s, a).state)
  {
    match a
    case StartTimer(ms, recurring, cb) => ArmKeepsNaps(s, ms, recurring, cb);
    case StopTimer(id) =>
      var t := UserTimer(s, id);
      if t.Some? { DropKeepsNaps(s, t.value); }
    case MoveTimer(id, ms, fromNow) =>
      var t := UserTimer(s, id);
      if t.Some? {
        MoveKeepsNaps(s, MovedTimer(s, t.value, ms, fromNow));
      }
  }

  lemma {:induction false} HandedAreRipe(out: seq<Io.Delivery>, c: Context)
    requires Total(out, Io.HandedWeight(Stray(c))) == 0
    ensures forall i :: 0 <= i < |out| ==> EntryRipe(Entries(out)[i], c)
  {
    TotalZero(out, Io.HandedWeight(Stray(c)));
    forall i | 0 <= i < |out| ensures EntryRipe(Entries(out)[i], c) {
      assert Io.HandedWeight(Stray(c))(out[i]) == 0;
    }
  }

  /** The registry holds nothing of a sleep's, so nothing of a sleep's comes out of it. */
  lemma {:induction false} SettleKeepsNaps(s: State, o: Io.Outcome)
    requires Naps(s) && o.Done? && |o.gone| <= 1 && Io.Accounts(s.io, o, Stray(Now(s)), 0)
    ensures Naps(Settle(s, o).state)
  {
    HandedAreRipe(o.out, Now(s));
    var t := Settle(s, o).state;
    assert Now(t) == Now(s);
    if o.gone != [] {
      assert o.gone == [o.gone[0]];
      Io.TotalOne(o.gone[0], Stray(Now(s)));
      assert Stray(Now(s))(o.gone[0]) == 0;
    }
  }

  lemma {:induction false} SharedKeepsNaps(s: State, a: Action)
    requires Inv(s) && Naps(s) && Shared(s, a).Alive?
    ensures Naps(Shared(s, a).state)
  {
    match a
    case ScheduleCb(id, thread) =>
      RequeueKeepsNaps(s, CbEntry(Job(User(id), s.nextTicket), thread));
    case ScheduleFiber(g, thread) =>
      RequeueKeepsNaps(s, FiberEntry(Handle(g, s.nextTicket), thread));
    case Spawn => SpawnKeepsNaps(s);
    case Unwatch(fd, ev, fail) =>
      Io.DelEventAccounts(s.io, fd, ev, fail, Stray(Now(s)));
      SettleKeepsNaps(s, Io.DelEvent(s.io, fd, ev, fail));
    case CancelWatch(fd, ev, fail) =>
      Io.CancelEventAccounts(s.io, fd, ev, fail, Stray(Now(s)));
      SettleKeepsNaps(s, Io.CancelEvent(s.io, fd, ev, fail));
    case CancelFd(fd, fail) =>
      Io.CancelAllAccounts(s.io, fd, fail, Stray(Now(s)));
      SettleKeepsNaps(s, Io.CancelAll(s.io, fd, fail));
    case _ => if a.StartTimer? || a.StopTimer? || a.MoveTimer? { TimerActionKeepsNaps(s, a); }
  }

  lemma {:induction false} SpawnKeepsNaps(s: State)
    requires Naps(s)
    ensures Naps(s.(fibers := s.fibers + [Fiber(INIT, true, None, None)]))
  {
    assert Now(s.(fibers := s.fibers + [Fiber(INIT, true, None, None)])) == Now(s);
  }

  lemma {:induction false} RegisterKeepsNaps(s: State, fd: nat, ev: Io.Event, waiter: Io.Waiter, fail: bool)
    requires Io.Good(s.io) && Naps(s) && TicketOf(waiter) == s.nextTicket && (waiter.CbWaiter? ==> waiter.job.code.User?)
    ensures var o := Io.AddEvent(s.io, fd, ev, waiter, 0, fail);
      o.Done? ==> Naps(Settle(if o.ok then Issue(s) else s, o).state)
  {
    var o := Io.AddEvent(s.io, fd, ev, waiter, 0, fail);
    if o.Done? {
      var s1 := if o.ok then Issue(s) else s;
      IssueKeepsNaps(s);
      Io.AddEventAccounts(s.io, fd, ev, waiter, 0, fail, Stray(Now(s1)));
      SettleKeepsNaps(s1, o);
    }
  }

  lemma {:induction false} WatchKeepsNaps(s: State, w: nat, a: Action)
    requires Inv(s) && Naps(s) && w < |s.workers| && a.Watch? && Do(s, w, a).Alive?
    ensures Naps(Do(s, w, a).state)
  {
    var p := s.workers[w].phase;
    if p.Running? && May(s.fibers[p.fiber], a) {
      var waiter := NewWaiter(s, p.fiber, a.cb);
      RegisterKeepsNaps(s, a.fd, a.ev, waiter, a.fail);
    }
  }

  /** Leaving a fiber that has nothing outstanding in its body, or has gone to sleep. */
  lemma {:induction false} LeaveKeepsNaps(s: State, w: nat, x: Fiber, ended: bool)
    requires Inv(s) && Naps(s) && w < |s.workers| && s.workers[w].phase.Running?
    requires FiberNap(s.workers[w].phase.fiber, x, Now(s), s.consumed)
    ensures Naps(Leave(s, w, x, ended))
  {
    assert Now(Leave(s, w, x, ended)) == Now(s);
  }

  /** The next number now stands for the sleep. */
  lemma {:induction false} NewNapKeepsNaps(s: State, nap: Nap)
    requires Naps(s)
    ensures Naps(Issue(s).(naps := s.naps[s.nextTicket := nap]))
  {
    PlacesLater(s, Issue(s).(naps := s.naps[s.nextTicket := nap]));
  }

  /** Arming the timer of a sleep. */
  lemma {:induction false} SleepKeepsNaps(s: State, f: nat, ms: nat)
    requires Naps(s) && f < |s.fibers|
    ensures Naps(FallAsleep(s, f, ms))
  {
    var k := s.nextTicket;
    var s1 := Issue(s).(naps := s.naps[k := Nap(f, s.clock + ms)]);
    NewNapKeepsNaps(s, Nap(f, s.clock + ms));
    var rec := SleepersTimer(s, f, ms);
    InsertAdds(s.timers, rec);
    assert FiberNap(f, s1.fibers[f], Now(s1), s1.consumed);
    NapKeepsNaps(s1, f, s1.fibers[f].(nap := Some(k)), Insert(s.timers, rec), s.nextTimer + 1);
    assert FallAsleep(s, f, ms) == SetFiber(s1, f, s1.fibers[f].(nap := Some(k))).(timers := Insert(s.timers, rec), nextTimer := s.nextTimer + 1);
  }

  /** Changing a fiber and the timers. */
  lemma {:induction false} NapKeepsNaps(s: State, f: nat, x: Fiber, ts: seq<TimerRec>, n: nat)
    requires Naps(s) && f < |s.fibers| && FiberNap(f, x, Now(s), s.consumed) && forall t :: t in ts ==> TimerOk(t, Now(s))
    ensures Naps(SetFiber(s, f, x).(timers := ts, nextTimer := n))
  {
    assert Now(SetFiber(s, f, x).(timers := ts, nextTimer := n)) == Now(s);
  }

  lemma {:induction false} WakeKeepsNaps(s: State, f: nat)
    requires Naps(s) && f < |s.fibers| && s.fibers[f].owes.Some?
    ensures Naps(Push(SetFiber(s, f, s.fibers[f].(owes := None)), FiberEntry(s.fibers[f].owes.value, -1)))
  {
    var s1 := SetFiber(s, f, s.fibers[f].(owes := None));
    assert Now(s1) == Now(s) && FiberNap(f, s.fibers[f], Now(s), s.consumed);
    PushKeepsNaps(s1, FiberEntry(s.fibers[f].owes.value, -1));
  }

  /** An entry under the next number. */
  lemma {:induction false} RequeueKeepsNaps(s: State, e: Entry)
    requires Naps(s) && (if e.FiberEntry? then e.handle.ticket else e.job.ticket) == s.nextTicket
    requires e.CbEntry? ==> e.job.code.User?
    ensures Naps(Push(Issue(s), e))
  {
    IssueKeepsNaps(s);
    PushKeepsNaps(Issue(s), e);
  }

  lemma {:induction false} DoKeepsNaps(s: State, w: nat, a: Action)
    requires Inv(s) && Naps(s) && Fibers(s) && w < |s.workers| && Do(s, w, a).Alive?
    ensures Naps(Do(s, w, a).state)
  {
    var p := s.workers[w].phase;
    if p.Running? && May(s.fibers[p.fiber], a) {
      var x := s.fibers[p.fiber];
      match a
      case Watch(_, _, _, _) => WatchKeepsNaps(s, w, a);
      case Sleep(ms) => SleepKeepsNaps(s, p.fiber, ms);
      case WakeSleeper =>
        WakeKeepsNaps(s, p.fiber);
      case YieldReady =>
        var s1 := Leave(s, w, x.(state := READY), false);
        LeaveKeepsNaps(s, w, x.(state := READY), false);
        RequeueKeepsNaps(s1, FiberEntry(Handle(p.fiber, s.nextTicket), -1));
      case YieldHold => LeaveKeepsNaps(s, w, x.(state := HOLD), false);
      case Return => LeaveKeepsNaps(s, w, x.(state := TERM, hasCb := false), true);
      case Throw => LeaveKeepsNaps(s, w, x.(state := EXCEPT), true);
      case _ => SharedKeepsNaps(s, a);
    }
  }

  /** Entering a fiber through an entry: if the entry is the wake-up of a sleep, it is the
      sleep of this fiber, and its time has come. */
  lemma {:induction false} EnterFiberKeepsNaps(s: State, w: nat, h: Handle)
    requires Naps(s) && w < |s.workers| && EnterFiber(s, w, h).Alive? && HandleRipe(h, Now(s))
    ensures Naps(EnterFiber(s, w, h).state)
  {
    assert Now(EnterFiber(s, w, h).state) == Now(s);
  }

  lemma {:induction false} EnterCallbackKeepsNaps(s: State, w: nat, job: Job)
    requires Naps(s) && w < |s.workers| && EnterCallback(s, w, job).Alive? && JobRipe(job, Now(s))
    ensures Naps(EnterCallback(s, w, job).state)
  {
    assert Now(EnterCallback(s, w, job).state) == Now(s);
  }

  lemma {:induction false} LoopKeepsNaps(s: State, w: nat)
    requires Naps(s) && w < |s.workers| && Loop(s, w).Alive?
    ensures Naps(Loop(s, w).state)
  {
    var i := Scan(s.queue, s.workers[w].tid, s.fibers);
    if s.workers[w].phase == Scanning {
      if i < |s.queue| {
        var e := s.queue[i];
        var s1 := s.(queue := s.queue[..i] + s.queue[i + 1..], active := s.active + 1);
        assert Now(s1) == Now(s) && EntryRipe(e, Now(s)) && Naps(s1);
        if e.FiberEntry? {
          assert Loop(s, w) == EnterFiber(s1, w, e.handle);
          EnterFiberKeepsNaps(s1, w, e.handle);
        } else {
          assert Loop(s, w) == EnterCallback(s1, w, e.job);
          EnterCallbackKeepsNaps(s1, w, e.job);
        }
      } else {
        assert Now(Loop(s, w).state) == Now(s);
      }
    }
  }

  lemma {:induction false} ExpireKeepsNaps(s: State, w: nat)
    requires Inv(s) && Naps(s) && w < |s.workers|
    ensures Naps(Expire(s, w))
  {
    if s.workers[w].phase == Polling {
      var t := Expire(s, w);
      var fired := Fired(s.timers, s.clock);
      assert Now(t) == Now(s);
      ExpirySource(s.timers, s.clock);
      forall k | Repeats(fired)[k] > 0 ensures k < s.nextTicket && k !in s.naps {
        RepeatsSource(fired, k);
        var r :| r in fired && r.recurring && r.cb.Some? && r.cb.value.ticket == k;
        assert r in s.timers;
      }
      forall i | 0 <= i < |fired| && fired[i].cb.Some? ensures JobRipe(fired[i].cb.value, Now(s)) {
        assert fired[i] in s.timers && fired[i].next == s.clock;
      }
      forall x | x in t.timers ensures TimerOk(x, Now(t)) {
        if x !in s.timers {
          var y :| y in s.timers && Again(x, y, fired, s.clock);
        }
      }
    }
  }

  lemma {:induction false} CbEntriesSource(cbs: seq<Option<Job>>)
    ensures forall e :: e in CbEntries(cbs) ==> exists i :: 0 <= i < |cbs| && cbs[i].Some? && e == CbEntry(cbs[i].value, -1)
  {
    if cbs != [] {
      CbEntriesSource(cbs[1..]);
      forall e | e in CbEntries(cbs) ensures exists i :: 0 <= i < |cbs| && cbs[i].Some? && e == CbEntry(cbs[i].value, -1) {
        if e in CbEntries(cbs[1..]) {
          var i :| 0 <= i < |cbs[1..]| && cbs[1..][i].Some? && e == CbEntry(cbs[1..][i].value, -1);
          assert cbs[i + 1] == cbs[1..][i];
        }
      }
    }
  }

  lemma {:induction false} FlushKeepsNaps(s: State, w: nat)
    requires Naps(s) && w < |s.workers|
    ensures Naps(Flush(s, w))
  {
    if s.workers[w].phase.Handing? {
      var t := Flush(s, w);
      var cbs := s.workers[w].phase.cbs;
      assert Now(t) == Now(s);
      CbEntriesSource(cbs);
      forall i | 0 <= i < |t.queue| ensures EntryRipe(t.queue[i], Now(t)) {
        if i >= |s.queue| {
          assert t.queue[i] in CbEntries(cbs);
        }
      }
    }
  }

  lemma {:induction false} ReportKeepsNaps(s: State, w: nat, r: Io.Report, fail: bool)
    requires Inv(s) && Naps(s) && w < |s.workers| && Report(s, w, r, fail).Alive?
    ensures Naps(Report(s, w, r, fail).state)
  {
    if s.workers[w].phase == Dispatching && r.fd < |s.io.ctxs| {
      Io.DispatchAccounts(s.io, r, fail, Stray(Now(s)));
      SettleKeepsNaps(s, Io.Dispatch(s.io, r, fail));
    }
  }

  lemma {:induction false} IdleMoveKeepsNaps(s: State, w: nat)
    requires Naps(s) && w < |s.workers|
    ensures Naps(Check(s, w)) && Naps(Rest(s, w))
  {
    assert Now(Check(s, w)) == Now(s) && Now(Rest(s, w)) == Now(s);
  }

  lemma {:induction false} WorkerKeepsNaps(s: State, w: nat, m: Move)
    requires Inv(s) && Naps(s) && Fibers(s) && w < |s.workers| && StepWorker(s, w, m).Alive?
    ensures Naps(StepWorker(s, w, m).state)
  {
    match m
    case AtTop => LoopKeepsNaps(s, w);
    case Acting(a) => DoKeepsNaps(s, w, a);
    case Checking => IdleMoveKeepsNaps(s, w);
    case Expiring => ExpireKeepsNaps(s, w);
    case Flushing => FlushKeepsNaps(s, w);
    case Resting => IdleMoveKeepsNaps(s, w);
    case Reporting(r, fail) => ReportKeepsNaps(s, w, r, fail);
  }

  lemma {:induction false} StepKeepsNaps(s: State, l: Label)
    requires Inv(s) && Naps(s) && Fibers(s) && Step(s, l).Alive?
    ensures Naps(Step(s, l).state)
  {
    match l
    case ByWorker(w, m) => if w < |s.workers| { WorkerKeepsNaps(s, w, m); }
    case Outside(a) => if !s.stopping { SharedKeepsNaps(s, a); }
    case Ticking(ms) => PlacesLater(s, s.(clock := s.clock + ms));
    case Stop => assert Now(s.(autoStop := true, stopping := true)) == Now(s);
  }
}
