/** The scheduler, its fibers, the timers and the event registry as one transition
    system. N workers run the loop of `hps_Scheduler::run`; what a fiber's body does
    is left open, so that a theorem about all runs is a theorem about all programs.

    Each step is one lock section or one stretch of a worker that no other worker can
    observe in the middle: taking an entry and entering its fiber, leaving a fiber and
    the bookkeeping after it, one evaluation of `stopping()`. */
module Protocol {
  import opened Common
  import opened TimerSpec
  import Io = IoSpec

  datatype FState = INIT | HOLD | EXEC | TERM | READY | EXCEPT

  /** A fiber. `hasCb`: whether it has a function to run. `owes`: its body is the lambda
      of a sleep, and it has still to schedule the sleeper. `nap`: the obligation of
      the hooked sleep it is inside of. */
  datatype Fiber = Fiber(state: FState, hasCb: bool, owes: Option<Handle>, nap: Option<nat>)

  /** An entry of the run queue, with the thread it is pinned to, or -1. */
  datatype Entry = FiberEntry(handle: Handle, thread: int) | CbEntry(job: Job, thread: int)

  /** Where a worker is. `Running`: inside a task fiber, taken as a fiber or as a
      callback. From `AtCheck` on: inside its idle fiber, before `stopping()`, after it,
      holding expired callbacks, and handling reports. */
  datatype Phase =
    | Scanning
    | Running(fiber: nat, viaCb: bool)
    | AtCheck
    | Polling
    | Handing(cbs: seq<Option<Job>>)
    | Dispatching
    | Exited

  /** `cbFiber`: the callback fiber kept for reuse. `idleDone`: the idle fiber is TERM. */
  datatype Worker = Worker(tid: nat, phase: Phase, cbFiber: Option<nat>, idleDone: bool)

  /** One hooked sleep: who sleeps, and until when at least. */
  datatype Nap = Nap(fiber: nat, due: nat)

  /** The state, and the books kept about obligations: how often each was issued,
      consumed by resuming or running something, and dropped by deleting or cancelling. */
  datatype State = State(
    queue: seq<Entry>,
    fibers: seq<Fiber>,
    workers: seq<Worker>,
    active: int,
    idle: int,
    autoStop: bool,
    stopping: bool,
    timers: seq<TimerRec>,
    nextTimer: nat,
    io: Io.Registry,
    clock: nat,
    nextTicket: nat,
    issued: multiset<nat>,
    consumed: multiset<nat>,
    dropped: multiset<nat>,
    naps: map<nat, Nap>)

  /** A failed assertion of the source ends everything. */
  datatype Result = Dead | Alive(state: State)

  // ----- small pieces -----

  /** The first entry this thread may take: pinned elsewhere and running fibers are passed over. */
  function Scan(queue: seq<Entry>, tid: nat, fibers: seq<Fiber>): (i: nat)
    ensures i <= |queue|
    ensures i < |queue| ==> Eligible(queue[i], tid, fibers)
    ensures forall j :: 0 <= j < i ==> !Eligible(queue[j], tid, fibers)
  {
    if queue == [] || Eligible(queue[0], tid, fibers) then 0 else 1 + Scan(queue[1..], tid, fibers)
  }

  predicate Eligible(e: Entry, tid: nat, fibers: seq<Fiber>) {
    && (e.thread == -1 || e.thread == tid)
    && (e.FiberEntry? ==> e.handle.fiber < |fibers| && fibers[e.handle.fiber].state != EXEC)
  }

  function Push(s: State, e: Entry): State {
    s.(queue := s.queue + [e])
  }

  function Issue(s: State): State {
    s.(nextTicket := s.nextTicket + 1, issued := s.issued + multiset{s.nextTicket})
  }

  function SetPhase(s: State, w: nat, p: Phase): State
    requires w < |s.workers|
  {
    s.(workers := s.workers[w := s.workers[w].(phase := p)])
  }

  function SetFiber(s: State, f: nat, x: Fiber): State
    requires f < |s.fibers|
  {
    s.(fibers := s.fibers[f := x])
  }

  function EntryOf(w: Io.Waiter): Entry {
    match w
    case CbWaiter(job) => CbEntry(job, -1)
    case FiberWaiter(handle) => FiberEntry(handle, -1)
  }

  function Entries(out: seq<Io.Delivery>): (es: seq<Entry>)
    ensures |es| == |out| && forall i :: 0 <= i < |out| ==> es[i] == EntryOf(out[i].waiter)
  {
    if out == [] then [] else [EntryOf(out[0].waiter)] + Entries(out[1..])
  }

  /** `schedule(begin, end)`: empty callbacks are not queued. */
  function CbEntries(cbs: seq<Option<Job>>): seq<Entry> {
    if cbs == [] then []
    else (if cbs[0].Some? then [CbEntry(cbs[0].value, -1)] else []) + CbEntries(cbs[1..])
  }

  function TicketOf(w: Io.Waiter): nat {
    match w case CbWaiter(job) => job.ticket case FiberWaiter(handle) => handle.ticket
  }

  /** The obligations a recurring timer adds by firing once more. */
  function Repeats(fired: seq<TimerRec>): multiset<nat> {
    if fired == [] then multiset{}
    else (if fired[0].recurring && fired[0].cb.Some? then multiset{fired[0].cb.value.ticket} else multiset{})
         + Repeats(fired[1..])
  }

  // ----- the worker loop -----

  /** The top of the loop: take an entry and enter it, or enter the idle fiber, or leave. */
  function Loop(s: State, w: nat): (r: Result)
    requires w < |s.workers|
    ensures r.Alive? ==> |r.state.workers| == |s.workers|
  {
    var me := s.workers[w];
    var i := Scan(s.queue, me.tid, s.fibers);
    if me.phase != Scanning then Alive(s)
    else if i == |s.queue| then
      if me.idleDone then Alive(SetPhase(s, w, Exited))
      else Alive(SetPhase(s, w, AtCheck).(idle := s.idle + 1))
    else
      var e := s.queue[i];
      var s1 := s.(queue := s.queue[..i] + s.queue[i + 1..], active := s.active + 1);
      match e
      case FiberEntry(h, _) => EnterFiber(s1, w, h)
      case CbEntry(job, _) => EnterCallback(s1, w, job)
  }

  /** `ft.fiber->swapIn()`. The test before it is true of every state, so an ended
      fiber is entered too, and runs into the assertion behind its last switch. */
  function EnterFiber(s: State, w: nat, h: Handle): Result
    requires w < |s.workers|
  {
    if h.fiber >= |s.fibers| || s.fibers[h.fiber].state in {TERM, EXCEPT, EXEC} then Dead
    else
      var x := s.fibers[h.fiber];
      Alive(SetPhase(SetFiber(s, h.fiber, x.(state := EXEC, nap := None)), w, Running(h.fiber, false))
            .(consumed := s.consumed + multiset{h.ticket}))
  }

  /** The callback fiber is reset, or made, and entered. */
  function EnterCallback(s: State, w: nat, job: Job): Result
    requires w < |s.workers|
  {
    var owes := if job.code.Wake? then Some(Handle(job.code.fiber, job.ticket)) else None;
    var x := Fiber(EXEC, true, owes, None);
    var s1 := s.(consumed := s.consumed + if job.code.Wake? then multiset{} else multiset{job.ticket});
    match s.workers[w].cbFiber
    case Some(c) =>
      if c >= |s.fibers| || s.fibers[c].state !in {TERM, INIT, EXCEPT} then Dead
      else Alive(SetPhase(SetFiber(s1, c, x), w, Running(c, true)))
    case None =>
      var c := |s.fibers|;
      Alive(s1.(fibers := s.fibers + [x],
                workers := s.workers[w := s.workers[w].(phase := Running(c, true), cbFiber := Some(c))]))
  }

  // ----- what a running fiber may do -----

  datatype Action =
    | ScheduleCb(id: nat, thread: int)
    | ScheduleFiber(target: nat, thread: int)
    | Spawn
    | StartTimer(ms: nat, recurring: bool, cb: Option<nat>)
    | StopTimer(id: nat)
    | MoveTimer(id: nat, ms: nat, fromNow: bool)
    | Unwatch(fd: nat, ev: Io.Event, fail: bool)
    | CancelWatch(fd: nat, ev: Io.Event, fail: bool)
    | CancelFd(fd: nat, fail: bool)
    | Watch(fd: nat, ev: Io.Event, cb: Option<nat>, fail: bool)
    | Sleep(ms: nat)
    | WakeSleeper
    | YieldReady
    | YieldHold
    | Return
    | Throw

  /** Waiters handed over by the registry go to the end of the queue, deleted ones into the books. */
  function Settle(s: State, o: Io.Outcome): (r: Result)
    ensures r.Alive? ==> r.state.workers == s.workers
  {
    if o.Abort? then Dead
    else Alive(s.(io := o.reg, queue := s.queue + Entries(o.out),
                  dropped := s.dropped + if o.gone == [] then multiset{} else multiset{TicketOf(o.gone[0])}))
  }

  /** The timer an action names, when it is armed with a callback of the user's. */
  function UserTimer(s: State, id: nat): Option<TimerRec> {
    var found := Lookup(s.timers, id);
    if found.Some? && found.value.cb.Some? && found.value.cb.value.code.User? then found else None
  }

  function Lookup(ts: seq<TimerRec>, id: nat): (t: Option<TimerRec>)
    ensures t.Some? ==> t.value in ts && t.value.id == id
  {
    if ts == [] then None else if ts[0].id == id then Some(ts[0]) else Lookup(ts[1..], id)
  }

  /** The actions that need no current fiber; the ones a thread outside may do as well. */
  function Shared(s: State, a: Action): (r: Result)
    requires |s.io.ctxs| >= Io.FIRST_SIZE
    ensures r.Alive? ==> r.state.workers == s.workers
  {
    var k := s.nextTicket;
    match a
    case ScheduleCb(id, thread) => Alive(Push(Issue(s), CbEntry(Job(User(id), k), thread)))
    case ScheduleFiber(g, thread) =>
      if g < |s.fibers| then Alive(Push(Issue(s), FiberEntry(Handle(g, k), thread))) else Alive(s)
    case Spawn => Alive(s.(fibers := s.fibers + [Fiber(INIT, true, None, None)]))
    case StartTimer(ms, recurring, cb) => Alive(ArmTimer(s, ms, recurring, cb))
    case StopTimer(id) =>
      var t := UserTimer(s, id);
      if t.None? then Alive(s)
      else Alive(s.(timers := Remove(s.timers, id), dropped := s.dropped + multiset{t.value.cb.value.ticket}))
    case MoveTimer(id, ms, fromNow) =>
      var t := UserTimer(s, id);
      if t.None? then Alive(s)
      else
        Alive(s.(timers := Insert(Remove(s.timers, id), MovedTimer(s, t.value, ms, fromNow))))
    case Unwatch(fd, ev, fail) => Settle(s, Io.DelEvent(s.io, fd, ev, fail))
    case CancelWatch(fd, ev, fail) => Settle(s, Io.CancelEvent(s.io, fd, ev, fail))
    case CancelFd(fd, fail) => Settle(s, Io.CancelAll(s.io, fd, fail))
    case _ => Alive(s)
  }

  /** What the next thing the fiber does may be: an empty function can only throw, the
      lambda of a sleep schedules the sleeper first, a sleep yields after arming its timer. */
  predicate May(x: Fiber, a: Action) {
    if !x.hasCb then a.Throw?
    else if x.owes.Some? then a.WakeSleeper?
    else if x.nap.Some? then a.YieldHold?
    else !a.WakeSleeper?
  }

  /** The timer `addTimer` makes, with a callback of the user's, or an empty one. */
  function UsersTimer(s: State, ms: nat, recurring: bool, cb: Option<nat>): TimerRec {
    TimerRec(s.nextTimer, s.clock + ms, ms, recurring, if cb.Some? then Some(Job(User(cb.value), s.nextTicket)) else None)
  }

  function ArmTimer(s: State, ms: nat, recurring: bool, cb: Option<nat>): State {
    (if cb.Some? then Issue(s) else s)
      .(timers := Insert(s.timers, UsersTimer(s, ms, recurring, cb)), nextTimer := s.nextTimer + 1)
  }

  /** `reset`: the new period counts from now, or from when the timer was armed. */
  function MovedTimer(s: State, t: TimerRec, ms: nat, fromNow: bool): TimerRec {
    var start := if fromNow || t.next < t.ms then s.clock else t.next - t.ms;
    t.(ms := ms, next := start + ms)
  }

  /** The timer of a hooked `sleep`: its callback schedules the sleeper. */
  function SleepersTimer(s: State, f: nat, ms: nat): TimerRec {
    TimerRec(s.nextTimer, s.clock + ms, ms, false, Some(Job(Wake(f), s.nextTicket)))
  }

  /** The hooked `sleep`, up to its yield. */
  function FallAsleep(s: State, f: nat, ms: nat): State
    requires f < |s.fibers|
  {
    var k := s.nextTicket;
    SetFiber(Issue(s), f, s.fibers[f].(nap := Some(k)))
      .(timers := Insert(s.timers, SleepersTimer(s, f, ms)), nextTimer := s.nextTimer + 1,
        naps := s.naps[k := Nap(f, s.clock + ms)])
  }

  /** What `addEvent` registers: the callback, or else the fiber that calls it. */
  function NewWaiter(s: State, f: nat, cb: Option<nat>): Io.Waiter {
    if cb.Some? then Io.CbWaiter(Job(User(cb.value), s.nextTicket)) else Io.FiberWaiter(Handle(f, s.nextTicket))
  }

  /** The worker is inside of a fiber that may do this next. */
  predicate CanDo(s: State, w: nat, a: Action)
    requires w < |s.workers|
  {
    var p := s.workers[w].phase;
    p.Running? && p.fiber < |s.fibers| && May(s.fibers[p.fiber], a)
  }

  /** One action of the fiber a worker is running. */
  function Do(s: State, w: nat, a: Action): (r: Result)
    requires w < |s.workers| && |s.io.ctxs| >= Io.FIRST_SIZE
    ensures r.Alive? ==> |r.state.workers| == |s.workers|
  {
    if !CanDo(s, w, a) then Alive(s)
    else
      var f := s.workers[w].phase.fiber;
      var x := s.fibers[f];
      var k := s.nextTicket;
      match a
      case Watch(fd, ev, cb, fail) =>
        var o := Io.AddEvent(s.io, fd, ev, NewWaiter(s, f, cb), 0, fail);
        Settle(if o.Done? && o.ok then Issue(s) else s, o)
      case Sleep(ms) => Alive(FallAsleep(s, f, ms))
      case WakeSleeper => Alive(Push(SetFiber(s, f, x.(owes := None)), FiberEntry(x.owes.value, -1)))
      case YieldReady => Alive(Push(Issue(Leave(s, w, x.(state := READY), false)), FiberEntry(Handle(f, k), -1)))
      case YieldHold => Alive(Leave(s, w, x.(state := HOLD), false))
      case Return => Alive(Leave(s, w, x.(state := TERM, hasCb := false), true))
      case Throw => Alive(Leave(s, w, x.(state := EXCEPT), true))
      case _ => Shared(s, a)
  }

  /** Back in the worker loop, with the fiber left as x. A callback fiber that ended is
      reset and kept, one that did not end is let go. */
  function Leave(s: State, w: nat, x: Fiber, ended: bool): State
    requires w < |s.workers| && s.workers[w].phase.Running? && s.workers[w].phase.fiber < |s.fibers|
  {
    var p := s.workers[w].phase;
    var x' := if p.viaCb && ended then Fiber(INIT, false, None, None) else x;
    var me := s.workers[w].(phase := Scanning, cbFiber := if p.viaCb && !ended then None else s.workers[w].cbFiber);
    SetFiber(s, p.fiber, x').(workers := s.workers[w := me], active := s.active - 1)
  }

  // ----- the idle fiber -----

  /** `hps_Scheduler::stopping()`. */
  predicate BaseStopping(s: State) {
    s.autoStop && s.stopping && s.queue == [] && s.active == 0
  }

  /** `hps_IOManager::stopping()`. */
  predicate Stopping(s: State) {
    s.timers == [] && s.io.pending == 0 && BaseStopping(s)
  }

  function Check(s: State, w: nat): State
    requires w < |s.workers|
  {
    if s.workers[w].phase != AtCheck then s
    else if Stopping(s) then
      s.(workers := s.workers[w := s.workers[w].(phase := Scanning, idleDone := true)], idle := s.idle - 1)
    else SetPhase(s, w, Polling)
  }

  /** `listExpiredCb`, the expired callbacks now in the worker's hand. */
  function Expire(s: State, w: nat): State
    requires w < |s.workers|
  {
    if s.workers[w].phase != Polling then s
    else
      var fired := Fired(s.timers, s.clock);
      SetPhase(s, w, Handing(Callbacks(fired)))
        .(timers := AfterExpiry(s.timers, s.clock), issued := s.issued + Repeats(fired))
  }

  function Flush(s: State, w: nat): State
    requires w < |s.workers|
  {
    if !s.workers[w].phase.Handing? then s
    else SetPhase(s, w, Dispatching).(queue := s.queue + CbEntries(s.workers[w].phase.cbs))
  }

  function Report(s: State, w: nat, r: Io.Report, fail: bool): Result
    requires w < |s.workers|
  {
    if s.workers[w].phase != Dispatching || r.fd >= |s.io.ctxs| then Alive(s)
    else Settle(s, Io.Dispatch(s.io, r, fail))
  }

  /** The idle fiber switches out; the worker loop puts it on HOLD. */
  function Rest(s: State, w: nat): State
    requires w < |s.workers|
  {
    if s.workers[w].phase != Dispatching then s
    else SetPhase(s, w, Scanning).(idle := s.idle - 1)
  }

  // ----- steps and runs -----

  datatype Move =
    | AtTop
    | Acting(action: Action)
    | Checking
    | Expiring
    | Flushing
    | Reporting(report: Io.Report, fail: bool)
    | Resting

  datatype Label =
    | ByWorker(w: nat, move: Move)
    | Outside(action: Action)
    | Ticking(ms: nat)
    | Stop

  function StepWorker(s: State, w: nat, m: Move): (r: Result)
    requires w < |s.workers| && |s.io.ctxs| >= Io.FIRST_SIZE
    ensures r.Alive? ==> |r.state.workers| == |s.workers|
  {
    match m
    case AtTop => Loop(s, w)
    case Acting(a) => Do(s, w, a)
    case Checking => Alive(Check(s, w))
    case Expiring => Alive(Expire(s, w))
    case Flushing => Alive(Flush(s, w))
    case Reporting(r, fail) => Report(s, w, r, fail)
    case Resting => Alive(Rest(s, w))
  }

  /** One step. A label that does not fit the state leaves it alone. Threads outside
      act only until `stop` has been called. */
  function Step(s: State, l: Label): (r: Result)
    requires |s.io.ctxs| >= Io.FIRST_SIZE
    ensures r.Alive? ==> |r.state.workers| == |s.workers|
  {
    match l
    case ByWorker(w, m) => if w < |s.workers| then StepWorker(s, w, m) else Alive(s)
    case Outside(a) => if s.stopping then Alive(s) else Shared(s, a)
    case Ticking(ms) => Alive(s.(clock := s.clock + ms))
    case Stop => Alive(s.(autoStop := true, stopping := true))
  }

  /** Worker w is about to take an entry with this step. */
  predicate Takes(s: State, l: Label, w: nat) {
    && w < |s.workers| && l == ByWorker(w, AtTop) && s.workers[w].phase == Scanning
    && Scan(s.queue, s.workers[w].tid, s.fibers) < |s.queue|
  }

  /** The step takes an entry of fiber f, by whichever worker. */
  predicate TakesFiber(s: State, l: Label, f: nat) {
    l.ByWorker? && Takes(s, l, l.w) &&
    var e := s.queue[Scan(s.queue, s.workers[l.w].tid, s.fibers)];
    e.FiberEntry? && e.handle.fiber == f
  }

  /** After `start` with the given worker threads. */
  function Start(tids: seq<nat>): State {
    State([], [], seq(|tids|, i requires 0 <= i < |tids| => Worker(tids[i], Scanning, None, false)), 0, 0,
          false, false, [], 0, Io.Registry(Io.Resize([], Io.FIRST_SIZE), 0, map[]), 0, 0,
          multiset{}, multiset{}, multiset{}, map[])
  }
}
