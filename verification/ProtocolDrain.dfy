/** One worker, `use_caller`, no timers and no events: fibers with finite scripts, and
    what `stop` does with them. The runs are runs of the protocol. */
module ProtocolDrain {
  import opened Common
  import Io = IoSpec
  import opened Protocol
  import opened ProtocolStructure
  import opened ProtocolBooks
  import opened ProtocolRuns

  /** What the body of a fiber does, one thing after the other; then it returns. */
  datatype Act =
    | Call(body: seq<Act>, thread: int)
    | Create(body: seq<Act>)
    | Resume(target: nat, thread: int)
    | ToReady
    | ToHold
    | Raise

  type Script = seq<Act>

  /** What is left of a fiber's script, and the callback it runs, by its obligation. */
  datatype Task = Task(rest: Script, job: Option<nat>)

  /** The script of a callback, and what of it has been done. */
  datatype Story = Story(body: Script, ran: Script)

  /** A protocol state with a task per fiber and a story per callback. */
  datatype Sys = Sys(p: State, tasks: seq<Task>, stories: map<nat, Story>)

  function Me(y: Sys): Worker
    requires |y.p.workers| == 1
  {
    y.p.workers[0]
  }

  /** What the fiber does next. Calling an empty function throws. */
  function NextAction(x: Fiber, rest: Script): Action {
    if !x.hasCb then Throw
    else if rest == [] then Return
    else
      match rest[0]
      case Call(_, thread) => ScheduleCb(0, thread)
      case Create(_) => Spawn
      case Resume(target, thread) => ScheduleFiber(target, thread)
      case ToReady => YieldReady
      case ToHold => YieldHold
      case Raise => Throw
  }

  ghost predicate Shaped(y: Sys) {
    && |y.p.workers| == 1 && |y.p.io.ctxs| >= Io.FIRST_SIZE && |y.tasks| == |y.p.fibers|
    && (Me(y).phase.Running? ==> Me(y).phase.fiber < |y.p.fibers|)
  }

  function NextLabel(y: Sys): Label
    requires |y.p.workers| == 1 && |y.tasks| == |y.p.fibers|
    requires Me(y).phase.Running? ==> Me(y).phase.fiber < |y.p.fibers|
  {
    ByWorker(0,
      match Me(y).phase
      case Running(f, _) => Acting(NextAction(y.p.fibers[f], y.tasks[f].rest))
      case AtCheck => Checking
      case Polling => Expiring
      case Handing(_) => Flushing
      case Dispatching => Resting
      case _ => AtTop)
  }

  function Put<T>(s: seq<T>, i: nat, x: T): seq<T> {
    if i < |s| then s[i := x] else s + [x]
  }

  function ScriptOf(stories: map<nat, Story>, k: nat): Script {
    if k in stories then stories[k].body else []
  }

  /** The tasks after an entry was taken: a callback becomes the task of its fiber. */
  function Entered(y: Sys, t: State): Sys
    requires Shaped(y) && |t.workers| == 1
  {
    var i := Scan(y.p.queue, Me(y).tid, y.p.fibers);
    if i < |y.p.queue| && y.p.queue[i].CbEntry? && t.workers[0].phase.Running? then
      var k, c := y.p.queue[i].job.ticket, t.workers[0].phase.fiber;
      y.(p := t, tasks := Put(y.tasks, c, Task(ScriptOf(y.stories, k), Some(k))))
    else y.(p := t)
  }

  function Tell(stories: map<nat, Story>, job: Option<nat>, act: Act): map<nat, Story> {
    if job.Some? && job.value in stories
    then stories[job.value := stories[job.value].(ran := stories[job.value].ran + [act])]
    else stories
  }

  /** The tasks and stories after fiber f did its next thing. */
  function Acted(y: Sys, t: State, f: nat): Sys
    requires Shaped(y) && f < |y.tasks|
  {
    var r, job := y.tasks[f].rest, y.tasks[f].job;
    if !y.p.fibers[f].hasCb || r == [] then y.(p := t, tasks := y.tasks[f := Task([], None)])
    else
      var told := Tell(y.stories, job, r[0]);
      var went := y.tasks[f := Task(r[1..], job)];
      match r[0]
      case Call(b, _) => Sys(t, went, told[y.p.nextTicket := Story(b, [])])
      case Create(b) => Sys(t, went + [Task(b, None)], told)
      case Raise => Sys(t, y.tasks[f := Task([], None)], told)
      case _ => Sys(t, went, told)
  }

  /** One step of the one worker; None when an assertion of the source fails. */
  ghost function Advance(y: Sys): Option<Sys>
    requires Shaped(y)
  {
    var r := Step(y.p, NextLabel(y));
    if r.Dead? then None
    else
      match Me(y).phase
      case Scanning => if |r.state.workers| == 1 then Some(Entered(y, r.state)) else None
      case Running(f, _) => Some(Acted(y, r.state, f))
      case _ => Some(y.(p := r.state))
  }

  // ----- what stays true -----

  /** No timers, no events, no sleeps, and nothing in hand. */
  ghost predicate Base(p: State) {
    && |p.workers| == 1 && p.timers == [] && p.io.pending == 0
    && (p.workers[0].phase.Handing? ==> p.workers[0].phase.cbs == [])
    && (forall f :: 0 <= f < |p.fibers| ==> p.fibers[f].owes.None? && p.fibers[f].nap.None?)
    && (forall e :: e in p.queue ==> PlainEntry(e, |p.fibers|))
    && KeptIsFree(p)
    && (InIdle(p.workers[0].phase) ==> Scan(p.queue, p.workers[0].tid, p.fibers) == |p.queue|)
  }

  predicate PlainEntry(e: Entry, fibers: nat) {
    if e.CbEntry? then e.job.code.User? else e.handle.fiber < fibers
  }

  /** The callback fiber the worker keeps exists; it is in use by a callback, or has no function. */
  ghost predicate KeptIsFree(p: State)
    requires |p.workers| == 1
  {
    var c, phase := p.workers[0].cbFiber, p.workers[0].phase;
    && (phase.Running? && phase.viaCb ==> c == Some(phase.fiber))
    && (c.Some? ==>
         && c.value < |p.fibers|
         && (phase == Running(c.value, true) ||
             (!p.fibers[c.value].hasCb && p.fibers[c.value].state != HOLD && p.fibers[c.value].state != READY
              && (p.fibers[c.value].state == EXEC ==> phase == Running(c.value, false)))))
  }

  /** Every obligation was issued once, and none was dropped. */
  ghost predicate Tickets(p: State) {
    p.dropped == multiset{} && forall k: nat :: p.issued[k] == if k < p.nextTicket then 1 else 0
  }

  predicate EndsWith(ran: Script, act: Act) {
    ran != [] && ran[|ran| - 1] == act
  }

  /** A fiber that runs a callback has done of its script what the story says, and the
      rest is before it; it was left, if at all, by a yield. */
  predicate TaskOk(x: Fiber, t: Task, stories: map<nat, Story>, consumed: multiset<nat>) {
    t.job.Some? ==>
      var k := t.job.value;
      && k in stories && consumed[k] > 0 && x.hasCb && stories[k].ran + t.rest == stories[k].body
      && (x.state == EXEC || (x.state == HOLD && EndsWith(stories[k].ran, ToHold)) || (x.state == READY && EndsWith(stories[k].ran, ToReady)))
  }

  /** The callback did all of its script, or all up to an exception. */
  predicate Finished(s: Story) {
    s.ran == s.body || (s.ran <= s.body && EndsWith(s.ran, Raise))
  }

  /** A callback waits untouched, or some fiber is in the middle of it, or it is finished. */
  ghost predicate Told(k: nat, tasks: seq<Task>, stories: map<nat, Story>, consumed: multiset<nat>)
    requires k in stories
  {
    if consumed[k] == 0 then stories[k].ran == []
    else Finished(stories[k]) || exists f :: 0 <= f < |tasks| && tasks[f].job == Some(k)
  }

  predicate EntryTold(e: Entry, stories: map<nat, Story>) {
    if e.CbEntry? then e.job.ticket in stories else e.handle.ticket !in stories
  }

  ghost predicate Tasks(y: Sys)
    requires |y.tasks| == |y.p.fibers|
  {
    && (forall k :: k in y.stories ==> k < y.p.nextTicket && Told(k, y.tasks, y.stories, y.p.consumed))
    && (forall e :: e in y.p.queue ==> EntryTold(e, y.stories))
    && (forall f :: 0 <= f < |y.tasks| ==> TaskOk(y.p.fibers[f], y.tasks[f], y.stories, y.p.consumed))
    && (forall f, g :: 0 <= f < g < |y.tasks| && y.tasks[f].job.Some? ==> y.tasks[f].job != y.tasks[g].job)
  }

  /** A fiber that yielded to be run again is queued. */
  ghost predicate ReadyQueued(p: State) {
    forall f :: 0 <= f < |p.fibers| && p.fibers[f].state == READY ==> InQueue(p.queue, f)
  }

  ghost predicate InQueue(q: seq<Entry>, f: nat) {
    exists i :: 0 <= i < |q| && q[i].FiberEntry? && q[i].handle.fiber == f
  }

  ghost predicate Invariants(y: Sys) {
    Shaped(y) && Sound(y.p) && Base(y.p) && Tickets(y.p) && ReadyQueued(y.p) && Tasks(y)
  }

  predicate Unfold(n: nat) { true }

  /** All of the above, folded: only Open lets a proof see what is in it, so that the many
      proofs that just pass it on stay small. */
  ghost predicate Alone(y: Sys) {
    Shaped(y) && forall n: nat {:trigger Unfold(n)} :: Unfold(n) ==> Invariants(y)
  }

  lemma {:induction false} Open(y: Sys)
    requires Alone(y)
    ensures Invariants(y)
  {
    assert Unfold(0);
  }

  lemma {:induction false} AdvanceIsAStep(y: Sys)
    requires Shaped(y) && Advance(y).Some?
    ensures Step(y.p, NextLabel(y)) == Alive(Advance(y).value.p)
  {
  }

  /** What entering does, spelled out: the state changes in these places only. */
  lemma {:induction false} EnterFiberIs(s: State, i: nat)
    requires |s.workers| == 1 && s.workers[0].phase == Scanning && i == Scan(s.queue, s.workers[0].tid, s.fibers) < |s.queue|
    requires s.queue[i].FiberEntry?
    ensures var h := s.queue[i].handle;
      && h.fiber < |s.fibers| && s.fibers[h.fiber].state != EXEC
      && (Loop(s, 0).Dead? <==> s.fibers[h.fiber].state in {TERM, EXCEPT})
      && (Loop(s, 0).Alive? ==>
            Loop(s, 0).state == s.(queue := s.queue[..i] + s.queue[i + 1..], active := s.active + 1,
               fibers := s.fibers[h.fiber := s.fibers[h.fiber].(state := EXEC, nap := None)],
               workers := [s.workers[0].(phase := Running(h.fiber, false))],
               consumed := s.consumed + multiset{h.ticket}))
  {
  }

  /** The fiber a callback is entered in: the one kept, or a new one. */
  function CallbackFiber(s: State): nat
    requires |s.workers| == 1
  {
    if s.workers[0].cbFiber.Some? then s.workers[0].cbFiber.value else |s.fibers|
  }

  lemma {:induction false} EnterCallbackIs(s: State, i: nat)
    requires |s.workers| == 1 && s.workers[0].phase == Scanning && i == Scan(s.queue, s.workers[0].tid, s.fibers) < |s.queue|
    requires s.queue[i].CbEntry? && s.queue[i].job.code.User?
    requires CallbackFiber(s) < |s.fibers| || s.workers[0].cbFiber.None?
    ensures var k, c := s.queue[i].job.ticket, CallbackFiber(s);
      && (Loop(s, 0).Dead? <==> c < |s.fibers| && s.fibers[c].state !in {TERM, INIT, EXCEPT})
      && (Loop(s, 0).Alive? ==>
            Loop(s, 0).state == s.(queue := s.queue[..i] + s.queue[i + 1..], active := s.active + 1,
               fibers := Put(s.fibers, c, Fiber(EXEC, true, None, None)),
               workers := [s.workers[0].(phase := Running(c, true), cbFiber := Some(c))],
               consumed := s.consumed + multiset{k}))
  {
  }

  lemma {:induction false} TakenFrom(q: seq<Entry>, i: nat)
    requires i < |q|
    ensures forall e :: e in q[..i] + q[i + 1..] ==> e in q
  {
  }

  lemma {:induction false} EnterKeepsBase(s: State)
    requires Base(s) && Tickets(s) && s.workers[0].phase == Scanning && Loop(s, 0).Alive?
    ensures Base(Loop(s, 0).state) && Tickets(Loop(s, 0).state)
  {
    var i := Scan(s.queue, s.workers[0].tid, s.fibers);
    if i < |s.queue| {
      TakenFrom(s.queue, i);
      assert PlainEntry(s.queue[i], |s.fibers|);
      if s.queue[i].FiberEntry? {
        EnterFiberIs(s, i);
      } else {
        EnterCallbackIs(s, i);
        EntriesStayPlain(s.queue, |s.fibers|, |Loop(s, 0).state.fibers|);
      }
    }
  }

  lemma {:induction false} EntriesStayPlain(q: seq<Entry>, m: nat, n: nat)
    requires m <= n && forall e :: e in q ==> PlainEntry(e, m)
    ensures forall e :: e in q ==> PlainEntry(e, n)
  {
  }

  lemma {:induction false} PushKeepsBase(s: State, e: Entry)
    requires Base(s) && Tickets(s) && PlainEntry(e, |s.fibers|) && !InIdle(s.workers[0].phase)
    ensures Base(Push(Issue(s), e)) && Tickets(Push(Issue(s), e))
  {
  }

  lemma {:induction false} LeaveKeepsBase(s: State, x: Fiber, ended: bool)
    requires Base(s) && Tickets(s) && s.workers[0].phase.Running? && s.workers[0].phase.fiber < |s.fibers|
    requires x.owes.None? && x.nap.None? && s.fibers[s.workers[0].phase.fiber].state == EXEC
    requires x.hasCb ==> s.fibers[s.workers[0].phase.fiber].hasCb
    requires if ended then x.state in {TERM, EXCEPT} else x.hasCb && x.state in {HOLD, READY}
    ensures Base(Leave(s, 0, x, ended)) && Tickets(Leave(s, 0, x, ended))
  {
  }

  /** The state after an action of a script. */
  function ActState(s: State, f: nat, a: Action): State
    requires |s.workers| == 1 && s.workers[0].phase.Running? && s.workers[0].phase.fiber == f < |s.fibers|
  {
    var x, k := s.fibers[f], s.nextTicket;
    match a
    case ScheduleCb(id, thread) => Push(Issue(s), CbEntry(Job(User(id), k), thread))
    case ScheduleFiber(g, thread) => if g < |s.fibers| then Push(Issue(s), FiberEntry(Handle(g, k), thread)) else s
    case Spawn => s.(fibers := s.fibers + [Fiber(INIT, true, None, None)])
    case YieldReady => Push(Issue(Leave(s, 0, x.(state := READY), false)), FiberEntry(Handle(f, k), -1))
    case YieldHold => Leave(s, 0, x.(state := HOLD), false)
    case Return => Leave(s, 0, x.(state := TERM, hasCb := false), true)
    case Throw => Leave(s, 0, x.(state := EXCEPT), true)
    case _ => s
  }

  lemma {:induction false} SharedIs(s: State, f: nat, a: Action)
    requires |s.workers| == 1 && s.workers[0].phase.Running? && s.workers[0].phase.fiber == f < |s.fibers| && |s.io.ctxs| >= Io.FIRST_SIZE
    requires a.ScheduleCb? || a.ScheduleFiber? || a.Spawn?
    ensures Shared(s, a) == Alive(ActState(s, f, a))
  {
  }

  lemma {:induction false} LeavingIs(s: State, f: nat, a: Action)
    requires |s.workers| == 1 && s.workers[0].phase.Running? && s.workers[0].phase.fiber == f < |s.fibers| && |s.io.ctxs| >= Io.FIRST_SIZE
    requires a.YieldReady? || a.YieldHold? || a.Return? || a.Throw?
    ensures May(s.fibers[f], a) ==> Do(s, 0, a) == Alive(ActState(s, f, a))
  {
  }

  lemma {:induction false} DoIs(s: State, f: nat, rest: Script)
    requires |s.workers| == 1 && s.workers[0].phase.Running? && s.workers[0].phase.fiber == f < |s.fibers|
    requires |s.io.ctxs| >= Io.FIRST_SIZE && s.fibers[f].owes.None? && s.fibers[f].nap.None?
    ensures var a := NextAction(s.fibers[f], rest);
      Do(s, 0, a) == Alive(ActState(s, f, a))
  {
    var a := NextAction(s.fibers[f], rest);
    if a.ScheduleCb? || a.ScheduleFiber? || a.Spawn? {
      SharedIs(s, f, a);
    } else {
      LeavingIs(s, f, a);
    }
  }

  lemma {:induction false} ActKeepsBase(s: State, f: nat, rest: Script)
    requires Base(s) && Tickets(s) && s.workers[0].phase.Running? && s.workers[0].phase.fiber == f < |s.fibers| && s.fibers[f].state == EXEC
    ensures var t := ActState(s, f, NextAction(s.fibers[f], rest));
      Base(t) && Tickets(t)
  {
    var x, k := s.fibers[f], s.nextTicket;
    match NextAction(x, rest)
    case ScheduleCb(id, thread) => PushKeepsBase(s, CbEntry(Job(User(id), k), thread));
    case ScheduleFiber(g, thread) => if g < |s.fibers| { PushKeepsBase(s, FiberEntry(Handle(g, k), thread)); }
    case YieldReady =>
      LeaveKeepsBase(s, x.(state := READY), false);
      PushKeepsBase(Leave(s, 0, x.(state := READY), false), FiberEntry(Handle(f, k), -1));
    case YieldHold => LeaveKeepsBase(s, x.(state := HOLD), false);
    case Return => LeaveKeepsBase(s, x.(state := TERM, hasCb := false), true);
    case Throw => LeaveKeepsBase(s, x.(state := EXCEPT), true);
    case _ =>
  }

  /** Only the worker moved, and inside of its idle fiber only without work to take. */
  lemma {:induction false} MoveKeepsBase(s: State, t: State)
    requires Base(s) && Tickets(s) && t == s.(workers := t.workers, idle := t.idle) && |t.workers| == 1
    requires t.workers[0].tid == s.workers[0].tid && t.workers[0].cbFiber == s.workers[0].cbFiber
    requires !s.workers[0].phase.Running? && !t.workers[0].phase.Running? && (t.workers[0].phase.Handing? ==> t.workers[0].phase.cbs == [])
    requires InIdle(t.workers[0].phase) ==> Scan(s.queue, s.workers[0].tid, s.fibers) == |s.queue|
    ensures Base(t) && Tickets(t)
  {
  }

  lemma {:induction false} IdleKeepsBase(s: State)
    requires Base(s) && Tickets(s)
    ensures Base(Check(s, 0)) && Tickets(Check(s, 0)) && Base(Expire(s, 0)) && Tickets(Expire(s, 0))
    ensures Base(Flush(s, 0)) && Tickets(Flush(s, 0)) && Base(Rest(s, 0)) && Tickets(Rest(s, 0))
  {
    match s.workers[0].phase
    case AtCheck => MoveKeepsBase(s, Check(s, 0));
    case Polling => MoveKeepsBase(s, Expire(s, 0));
    case Handing(_) => MoveKeepsBase(s, Flush(s, 0));
    case Dispatching => MoveKeepsBase(s, Rest(s, 0));
    case _ =>
  }

  lemma {:induction false} RunningFiberIsExec(y: Sys)
    requires Alone(y) && Me(y).phase.Running?
    ensures y.p.fibers[Me(y).phase.fiber].state == EXEC
  {
    Open(y);
    TotalAtLeast(y.p.workers, 0, RunsFiber(Me(y).phase.fiber));
  }

  lemma {:induction false} StepKeepsBase(y: Sys)
    requires Shaped(y) && Base(y.p) && Tickets(y.p) && Advance(y).Some?
    requires Me(y).phase.Running? ==> y.p.fibers[Me(y).phase.fiber].state == EXEC
    ensures Base(Advance(y).value.p) && Tickets(Advance(y).value.p)
  {
    AdvanceIsAStep(y);
    match Me(y).phase
    case Scanning => EnterKeepsBase(y.p);
    case Running(f, _) =>
      DoIs(y.p, f, y.tasks[f].rest);
      ActKeepsBase(y.p, f, y.tasks[f].rest);
    case _ => IdleKeepsBase(y.p);
  }

  lemma {:induction false} AdvanceKeepsBase(y: Sys)
    requires Alone(y) && Advance(y).Some?
    ensures var p := Advance(y).value.p;
      Sound(p) && Base(p) && Tickets(p)
  {
    Open(y);
    AdvanceIsAStep(y);
    StepKeepsSound(y.p, NextLabel(y));
    if Me(y).phase.Running? { RunningFiberIsExec(y); }
    StepKeepsBase(y);
  }

  // ----- queue entries of ready fibers -----

  lemma {:induction false} QueueKept(a: seq<Entry>, b: seq<Entry>, f: nat)
    requires InQueue(a, f) && a <= b
    ensures InQueue(b, f)
  {
    var i :| 0 <= i < |a| && a[i].FiberEntry? && a[i].handle.fiber == f;
    assert b[i] == a[i];
  }

  lemma {:induction false} QueueTaken(q: seq<Entry>, i: nat, f: nat)
    requires i < |q| && InQueue(q, f) && !(q[i].FiberEntry? && q[i].handle.fiber == f)
    ensures InQueue(q[..i] + q[i + 1..], f)
  {
    var j :| 0 <= j < |q| && q[j].FiberEntry? && q[j].handle.fiber == f;
    assert (q[..i] + q[i + 1..])[if j < i then j else j - 1] == q[j];
  }

  lemma {:induction false} EnterKeepsReady(s: State)
    requires Base(s) && ReadyQueued(s) && s.workers[0].phase == Scanning && Loop(s, 0).Alive?
    ensures ReadyQueued(Loop(s, 0).state)
  {
    var i := Scan(s.queue, s.workers[0].tid, s.fibers);
    var t := Loop(s, 0).state;
    if i < |s.queue| {
      assert PlainEntry(s.queue[i], |s.fibers|);
      if s.queue[i].FiberEntry? { EnterFiberIs(s, i); } else { EnterCallbackIs(s, i); }
      forall f | 0 <= f < |t.fibers| && t.fibers[f].state == READY ensures InQueue(t.queue, f) {
        assert f < |s.fibers| && s.fibers[f].state == READY;
        QueueTaken(s.queue, i, f);
      }
    }
  }

  lemma {:induction false} ActKeepsReady(s: State, f: nat, a: Action)
    requires |s.workers| == 1 && s.workers[0].phase.Running? && s.workers[0].phase.fiber == f < |s.fibers|
    requires ReadyQueued(s) && s.fibers[f].state == EXEC
    ensures ReadyQueued(ActState(s, f, a))
  {
    var t := ActState(s, f, a);
    assert s.queue <= t.queue;
    forall g | 0 <= g < |t.fibers| && t.fibers[g].state == READY ensures InQueue(t.queue, g) {
      if g == f {
        var last := |t.queue| - 1;
        assert a.YieldReady? && t.queue[last] == FiberEntry(Handle(f, s.nextTicket), -1);
      } else {
        QueueKept(s.queue, t.queue, g);
      }
    }
  }

  // ----- tasks and stories -----

  /** An obligation that is queued has not been consumed. */
  lemma {:induction false} QueuedNotConsumed(p: State, i: nat)
    requires Sound(p) && Tickets(p) && i < |p.queue| && p.queue[i].CbEntry?
    ensures p.consumed[p.queue[i].job.ticket] == 0
  {
    var k := p.queue[i].job.ticket;
    assert Balanced(p, k);
    TotalAtLeast(p.queue, i, InEntry(k));
  }

  ghost predicate QueuedUnconsumed(p: State) {
    forall i :: 0 <= i < |p.queue| && p.queue[i].CbEntry? ==> p.consumed[p.queue[i].job.ticket] == 0
  }

  lemma {:induction false} AllQueuedUnconsumed(p: State)
    requires Sound(p) && Tickets(p)
    ensures QueuedUnconsumed(p)
  {
    forall i | 0 <= i < |p.queue| && p.queue[i].CbEntry? ensures p.consumed[p.queue[i].job.ticket] == 0 {
      QueuedNotConsumed(p, i);
    }
  }

  lemma {:induction false} NotIssuedNotConsumed(p: State, k: nat)
    requires Sound(p) && Tickets(p) && k >= p.nextTicket
    ensures p.consumed[k] == 0
  {
    assert Balanced(p, k);
  }

  /** Entering a callback: its fiber, c, was not in the middle of one. */
  lemma {:induction false} EnterCbKeepsTasks(y: Sys, z: Sys, c: nat, k: nat)
    requires |y.tasks| == |y.p.fibers| && Tasks(y) && c <= |y.tasks| && (c < |y.tasks| ==> y.tasks[c].job.None?)
    requires k in y.stories && y.p.consumed[k] == 0
    requires z.p.fibers == Put(y.p.fibers, c, Fiber(EXEC, true, None, None)) && z.p.nextTicket == y.p.nextTicket
    requires forall e :: e in z.p.queue ==> e in y.p.queue
    requires z.p.consumed == y.p.consumed + multiset{k}
    requires z.stories == y.stories && z.tasks == Put(y.tasks, c, Task(y.stories[k].body, Some(k)))
    ensures Tasks(z)
  {
    assert Told(k, y.tasks, y.stories, y.p.consumed);
    assert z.tasks[c].job == Some(k);
    forall f | 0 <= f < |z.tasks| ensures TaskOk(z.p.fibers[f], z.tasks[f], z.stories, z.p.consumed) {
      if f != c { assert TaskOk(y.p.fibers[f], y.tasks[f], y.stories, y.p.consumed); }
    }
    forall j | j in z.stories ensures Told(j, z.tasks, z.stories, z.p.consumed) {
      assert Told(j, y.tasks, y.stories, y.p.consumed);
      if j != k && y.p.consumed[j] > 0 && !Finished(y.stories[j]) {
        var f :| 0 <= f < |y.tasks| && y.tasks[f].job == Some(j);
        assert z.tasks[f].job == Some(j);
      }
    }
    forall f, g | 0 <= f < g < |z.tasks| && z.tasks[f].job.Some? ensures z.tasks[f].job != z.tasks[g].job {
      if f < |y.tasks| { assert TaskOk(y.p.fibers[f], y.tasks[f], y.stories, y.p.consumed); }
      if g < |y.tasks| { assert TaskOk(y.p.fibers[g], y.tasks[g], y.stories, y.p.consumed); }
    }
  }

  /** Entering a fiber again changes nobody's task. */
  lemma {:induction false} EnterFiberKeepsTasks(y: Sys, z: Sys, h: Handle)
    requires |y.tasks| == |y.p.fibers| && Tasks(y) && h.fiber < |y.tasks| && h.ticket !in y.stories
    requires z.p.fibers == y.p.fibers[h.fiber := y.p.fibers[h.fiber].(state := EXEC, nap := None)] && z.p.nextTicket == y.p.nextTicket
    requires forall e :: e in z.p.queue ==> e in y.p.queue
    requires z.p.consumed == y.p.consumed + multiset{h.ticket}
    requires z.stories == y.stories && z.tasks == y.tasks
    ensures Tasks(z)
  {
    forall f | 0 <= f < |z.tasks| ensures TaskOk(z.p.fibers[f], z.tasks[f], z.stories, z.p.consumed) {
      assert TaskOk(y.p.fibers[f], y.tasks[f], y.stories, y.p.consumed);
    }
    forall j | j in z.stories ensures Told(j, z.tasks, z.stories, z.p.consumed) {
      assert Told(j, y.tasks, y.stories, y.p.consumed);
    }
  }

  lemma {:induction false} ResumeKeepsTasks(y: Sys, i: nat)
    requires Shaped(y) && Tasks(y) && Me(y).phase == Scanning && i == Scan(y.p.queue, Me(y).tid, y.p.fibers) < |y.p.queue|
    requires y.p.queue[i].FiberEntry? && Loop(y.p, 0).Alive?
    ensures var z := Entered(y, Loop(y.p, 0).state);
      Shaped(z) && Tasks(z)
  {
    TakenFrom(y.p.queue, i);
    assert EntryTold(y.p.queue[i], y.stories);
    EnterFiberIs(y.p, i);
    EnterFiberKeepsTasks(y, Entered(y, Loop(y.p, 0).state), y.p.queue[i].handle);
  }

  lemma {:induction false} BeginKeepsTasks(y: Sys, i: nat)
    requires Shaped(y) && Base(y.p) && Tasks(y) && Me(y).phase == Scanning && i == Scan(y.p.queue, Me(y).tid, y.p.fibers) < |y.p.queue|
    requires y.p.queue[i].CbEntry? && y.p.consumed[y.p.queue[i].job.ticket] == 0 && Loop(y.p, 0).Alive?
    ensures var z := Entered(y, Loop(y.p, 0).state);
      Shaped(z) && Tasks(z)
  {
    var c := CallbackFiber(y.p);
    TakenFrom(y.p.queue, i);
    assert EntryTold(y.p.queue[i], y.stories) && PlainEntry(y.p.queue[i], |y.p.fibers|);
    EnterCallbackIs(y.p, i);
    assert c < |y.p.fibers| ==> TaskOk(y.p.fibers[c], y.tasks[c], y.stories, y.p.consumed);
    EnterCbKeepsTasks(y, Entered(y, Loop(y.p, 0).state), c, y.p.queue[i].job.ticket);
  }

  lemma {:induction false} EnterKeepsTasks(y: Sys)
    requires Shaped(y) && Base(y.p) && Tasks(y) && QueuedUnconsumed(y.p) && Me(y).phase == Scanning && Loop(y.p, 0).Alive?
    ensures var z := Entered(y, Loop(y.p, 0).state);
      Shaped(z) && Tasks(z)
  {
    var i := Scan(y.p.queue, Me(y).tid, y.p.fibers);
    if i < |y.p.queue| {
      if y.p.queue[i].FiberEntry? { ResumeKeepsTasks(y, i); } else { BeginKeepsTasks(y, i); }
    }
  }

  /** One fiber did something: its task goes on or is over, and only its story grew. */
  ghost predicate OneChanged(y: Sys, z: Sys, f: nat) {
    && |y.tasks| == |y.p.fibers| && f < |y.tasks|
    && |z.tasks| == |z.p.fibers| && |y.tasks| <= |z.tasks| && z.p.consumed == y.p.consumed && z.p.nextTicket >= y.p.nextTicket
    && (forall g :: 0 <= g < |z.tasks| && g != f ==>
         if g < |y.tasks| then z.tasks[g] == y.tasks[g] && z.p.fibers[g] == y.p.fibers[g] else z.tasks[g].job.None?)
    && (forall k :: k in y.stories ==> k in z.stories && (Some(k) != y.tasks[f].job ==> z.stories[k] == y.stories[k]))
    && (forall k :: k in z.stories && k !in y.stories ==> k < z.p.nextTicket && z.stories[k].ran == [] && z.p.consumed[k] == 0)
    && (forall e :: e in z.p.queue ==> EntryTold(e, z.stories))
    && (if z.tasks[f].job.Some? then z.tasks[f].job == y.tasks[f].job && TaskOk(z.p.fibers[f], z.tasks[f], z.stories, z.p.consumed)
        else y.tasks[f].job.Some? && y.tasks[f].job.value in z.stories ==> Finished(z.stories[y.tasks[f].job.value]))
  }

  lemma {:induction false} TasksStayOk(y: Sys, z: Sys, f: nat)
    requires |y.tasks| == |y.p.fibers| && Tasks(y) && OneChanged(y, z, f)
    ensures forall g :: 0 <= g < |z.tasks| ==> TaskOk(z.p.fibers[g], z.tasks[g], z.stories, z.p.consumed)
  {
    forall g | 0 <= g < |z.tasks| ensures TaskOk(z.p.fibers[g], z.tasks[g], z.stories, z.p.consumed) {
      if g != f && g < |y.tasks| { assert TaskOk(y.p.fibers[g], y.tasks[g], y.stories, y.p.consumed); }
    }
  }

  lemma {:induction false} StoriesStayTold(y: Sys, z: Sys, f: nat)
    requires |y.tasks| == |y.p.fibers| && Tasks(y) && OneChanged(y, z, f)
    ensures forall k :: k in z.stories ==> k < z.p.nextTicket && Told(k, z.tasks, z.stories, z.p.consumed)
  {
    assert TaskOk(y.p.fibers[f], y.tasks[f], y.stories, y.p.consumed);
    forall k | k in z.stories ensures k < z.p.nextTicket && Told(k, z.tasks, z.stories, z.p.consumed) {
      if k in y.stories {
        assert Told(k, y.tasks, y.stories, y.p.consumed);
        if y.p.consumed[k] > 0 && Some(k) != y.tasks[f].job && !Finished(y.stories[k]) {
          var g :| 0 <= g < |y.tasks| && y.tasks[g].job == Some(k);
          assert z.tasks[g].job == Some(k);
        }
      }
    }
  }

  lemma {:induction false} OneTaskChanges(y: Sys, z: Sys, f: nat)
    requires |y.tasks| == |y.p.fibers| && Tasks(y) && OneChanged(y, z, f)
    ensures Tasks(z)
  {
    TasksStayOk(y, z, f);
    StoriesStayTold(y, z, f);
  }

  lemma {:induction false} QueuedWasIssued(p: State, e: Entry)
    requires Sound(p) && Tickets(p) && e in p.queue
    ensures (if e.FiberEntry? then e.handle.ticket else e.job.ticket) < p.nextTicket
  {
    var k := if e.FiberEntry? then e.handle.ticket else e.job.ticket;
    var i :| 0 <= i < |p.queue| && p.queue[i] == e;
    assert Balanced(p, k);
    TotalAtLeast(p.queue, i, InEntry(k));
  }

  /** The entries still fit the stories when there is one more, of a new callback. */
  lemma {:induction false} EntriesStayTold(y: Sys, k: nat, story: Story)
    requires Shaped(y) && Tasks(y) && Issued(y.p) && k == y.p.nextTicket
    ensures forall e :: e in y.p.queue ==> EntryTold(e, y.stories[k := story])
  {
  }

  /** What is queued has been issued; what has not been issued has not been consumed. */
  ghost predicate Issued(p: State) {
    && (forall e :: e in p.queue ==> (if e.FiberEntry? then e.handle.ticket else e.job.ticket) < p.nextTicket)
    && p.consumed[p.nextTicket] == 0
  }

  lemma {:induction false} AllIssued(p: State)
    requires Sound(p) && Tickets(p)
    ensures Issued(p)
  {
    forall e | e in p.queue ensures (if e.FiberEntry? then e.handle.ticket else e.job.ticket) < p.nextTicket {
      QueuedWasIssued(p, e);
    }
    NotIssuedNotConsumed(p, p.nextTicket);
  }

  predicate Inside(y: Sys, f: nat)
    requires |y.p.workers| == 1
  {
    Me(y).phase.Running? && Me(y).phase.fiber == f
  }

  /** What the running fiber's story says after it did one more act. */
  lemma {:induction false} StoryGoesOn(y: Sys, f: nat)
    requires Shaped(y) && Tasks(y) && f < |y.tasks| && y.p.fibers[f].hasCb && y.tasks[f].rest != []
    ensures var r, job := y.tasks[f].rest, y.tasks[f].job;
      var told := Tell(y.stories, job, r[0]);
      && told.Keys == y.stories.Keys
      && (forall k :: k in y.stories && Some(k) != job ==> told[k] == y.stories[k])
      && (job.Some? ==>
           && job.value in told && y.p.consumed[job.value] > 0 && told[job.value].ran + r[1..] == told[job.value].body
           && EndsWith(told[job.value].ran, r[0]) && told[job.value].ran <= told[job.value].body)
  {
    var r, job := y.tasks[f].rest, y.tasks[f].job;
    assert TaskOk(y.p.fibers[f], y.tasks[f], y.stories, y.p.consumed);
    if job.Some? {
      var story := y.stories[job.value];
      assert r == [r[0]] + r[1..];
      assert story.ran + [r[0]] + r[1..] == story.ran + r;
    }
  }

  /** What an action of fiber f leaves alone. */
  ghost predicate OnlyFiber(s: State, t: State, f: nat) {
    && |s.fibers| <= |t.fibers| && f < |s.fibers| && t.consumed == s.consumed && s.nextTicket <= t.nextTicket
    && (forall g :: 0 <= g < |s.fibers| && g != f ==> t.fibers[g] == s.fibers[g])
    && |t.workers| == 1 && t.io == s.io
    && (t.workers[0].phase.Running? ==> t.workers[0].phase.fiber < |t.fibers|)
  }

  lemma {:induction false} ActFrame(s: State, f: nat, a: Action)
    requires |s.workers| == 1 && s.workers[0].phase.Running? && s.workers[0].phase.fiber == f < |s.fibers|
    ensures var t := ActState(s, f, a);
      && OnlyFiber(s, t, f) && |t.fibers| == |s.fibers| + (if a.Spawn? then 1 else 0)
      && (a.Return? || a.Throw? || a.YieldHold? || a.Spawn? ==> t.queue == s.queue)
  {
  }

  /** The fiber ended, in whatever state it is now. */
  lemma {:induction false} StoppedKeepsTasks(y: Sys, t: State, f: nat)
    requires Shaped(y) && Tasks(y) && OnlyFiber(y.p, t, f) && |t.fibers| == |y.p.fibers| && t.queue == y.p.queue
    requires !y.p.fibers[f].hasCb || y.tasks[f].rest == [] || y.tasks[f].rest[0] == Raise
    ensures Shaped(Acted(y, t, f)) && Tasks(Acted(y, t, f))
  {
    var job := y.tasks[f].job;
    assert TaskOk(y.p.fibers[f], y.tasks[f], y.stories, y.p.consumed);
    if y.p.fibers[f].hasCb && y.tasks[f].rest != [] {
      StoryGoesOn(y, f);
    } else if job.Some? {
      assert y.stories[job.value].ran + [] == y.stories[job.value].ran;
    }
    OneTaskChanges(y, Acted(y, t, f), f);
  }

  lemma {:induction false} StopKeepsTasks(y: Sys, f: nat)
    requires Shaped(y) && Tasks(y) && Inside(y, f)
    requires !y.p.fibers[f].hasCb || y.tasks[f].rest == [] || y.tasks[f].rest[0] == Raise
    ensures var z := Acted(y, ActState(y.p, f, NextAction(y.p.fibers[f], y.tasks[f].rest)), f);
      Shaped(z) && Tasks(z)
  {
    var a := NextAction(y.p.fibers[f], y.tasks[f].rest);
    ActFrame(y.p, f, a);
    StoppedKeepsTasks(y, ActState(y.p, f, a), f);
  }

  lemma {:induction false} CallKeepsTasks(y: Sys, f: nat)
    requires Shaped(y) && Tasks(y) && Issued(y.p) && Inside(y, f) && y.p.fibers[f].state == EXEC
    requires y.p.fibers[f].hasCb && y.tasks[f].rest != [] && y.tasks[f].rest[0].Call?
    ensures var z := Acted(y, ActState(y.p, f, NextAction(y.p.fibers[f], y.tasks[f].rest)), f);
      Shaped(z) && Tasks(z)
  {
    var k := y.p.nextTicket;
    StoryGoesOn(y, f);
    assert k !in y.stories;
    EntriesStayTold(y, k, Story(y.tasks[f].rest[0].body, []));
    OneTaskChanges(y, Acted(y, ActState(y.p, f, NextAction(y.p.fibers[f], y.tasks[f].rest)), f), f);
  }

  /** The fiber did something that may have queued an entry of a fiber. */
  lemma {:induction false} DidKeepsTasks(y: Sys, t: State, f: nat)
    requires Shaped(y) && Tasks(y) && OnlyFiber(y.p, t, f) && y.p.fibers[f].hasCb && y.tasks[f].rest != []
    requires !y.tasks[f].rest[0].Call? && y.tasks[f].rest[0] != Raise
    requires |t.fibers| == |y.p.fibers| + if y.tasks[f].rest[0].Create? then 1 else 0
    requires t.fibers[f].hasCb && match t.fibers[f].state
      case EXEC => true
      case HOLD => y.tasks[f].rest[0] == ToHold
      case READY => y.tasks[f].rest[0] == ToReady
      case _ => false
    requires t.queue == y.p.queue || (t.queue != [] && t.queue[|t.queue| - 1].FiberEntry? && t.queue[..|t.queue| - 1] == y.p.queue
      && t.queue[|t.queue| - 1].handle.ticket !in y.stories)
    ensures Shaped(Acted(y, t, f)) && Tasks(Acted(y, t, f))
  {
    var z := Acted(y, t, f);
    StoryGoesOn(y, f);
    forall e | e in t.queue ensures EntryTold(e, z.stories) {
      var j :| 0 <= j < |t.queue| && t.queue[j] == e;
      if t.queue == y.p.queue || j < |t.queue| - 1 {
        assert y.p.queue[j] == e && e in y.p.queue;
      }
    }
    OneTaskChanges(y, z, f);
  }

  lemma {:induction false} GoOnKeepsTasks(y: Sys, f: nat)
    requires Shaped(y) && Tasks(y) && Issued(y.p) && Inside(y, f) && y.p.fibers[f].state == EXEC
    requires y.p.fibers[f].hasCb && y.tasks[f].rest != [] && y.tasks[f].rest[0] != Raise
    ensures var z := Acted(y, ActState(y.p, f, NextAction(y.p.fibers[f], y.tasks[f].rest)), f);
      Shaped(z) && Tasks(z)
  {
    if y.tasks[f].rest[0].Call? {
      CallKeepsTasks(y, f);
    } else {
      var a := NextAction(y.p.fibers[f], y.tasks[f].rest);
      assert y.p.nextTicket !in y.stories;
      ActFrame(y.p, f, a);
      DidKeepsTasks(y, ActState(y.p, f, a), f);
    }
  }

  lemma {:induction false} AdvanceKeepsAlone(y: Sys)
    requires Alone(y) && Advance(y).Some?
    ensures Alone(Advance(y).value)
  {
    Open(y);
    AdvanceKeepsBase(y);
    match Me(y).phase
    case Scanning =>
      AllQueuedUnconsumed(y.p);
      EnterKeepsTasks(y);
      EnterKeepsReady(y.p);
    case Running(f, _) =>
      RunningFiberIsExec(y);
      DoIs(y.p, f, y.tasks[f].rest);
      ActKeepsReady(y.p, f, NextAction(y.p.fibers[f], y.tasks[f].rest));
      if !y.p.fibers[f].hasCb || y.tasks[f].rest == [] || y.tasks[f].rest[0] == Raise {
        StopKeepsTasks(y, f);
      } else {
        AllIssued(y.p);
        GoOnKeepsTasks(y, f);
      }
    case _ =>
      AdvanceIsAStep(y);
      IdleKeepsTasks(y);
  }

  /** With no timers the idle fiber changes nothing but where the worker is. */
  lemma {:induction false} IdleIs(s: State)
    requires Base(s)
    ensures Check(s, 0) == s.(workers := Check(s, 0).workers, idle := Check(s, 0).idle)
    ensures Expire(s, 0) == s.(workers := Expire(s, 0).workers)
    ensures Flush(s, 0) == s.(workers := Flush(s, 0).workers)
    ensures Rest(s, 0) == s.(workers := Rest(s, 0).workers, idle := Rest(s, 0).idle)
  {
  }

  lemma {:induction false} IdleKeepsTasks(y: Sys)
    requires Alone(y) && !Me(y).phase.Scanning? && !Me(y).phase.Running? && Advance(y).Some?
    ensures Shaped(Advance(y).value) && Tasks(Advance(y).value) && ReadyQueued(Advance(y).value.p)
    ensures var z := Advance(y).value;
      z == y.(p := y.p.(workers := z.p.workers, idle := z.p.idle))
  {
    Open(y);
    IdleIs(y.p);
    assert Me(y).phase == Exited ==> Loop(y.p, 0) == Alive(y.p);
  }

  // ----- termination -----

  function Size(r: Script): nat {
    if r == [] then 0
    else
      (match r[0]
       case Call(b, _) => 6 + Size(b)
       case Create(b) => 1 + Size(b)
       case Resume(_, _) => 6
       case ToReady => 6
       case ToHold => 1
       case Raise => 1)
      + Size(r[1..])
  }

  function TaskSize(): Task -> nat {
    (t: Task) => Size(t.rest)
  }

  /** An entry is worth entering its fiber, and what its callback will do. */
  function Worth(stories: map<nat, Story>): Entry -> nat {
    (e: Entry) => if e.CbEntry? then 5 + Size(ScriptOf(stories, e.job.ticket)) else 5
  }

  /** How far a worker is from the end of this round. */
  function Rank(w: Worker): nat {
    match w.phase
    case Polling => 6
    case Handing(_) => 5
    case Running(_, _) => 4
    case Dispatching => 4
    case Scanning => if w.idleDone then 1 else 3
    case AtCheck => 2
    case Exited => 0
  }

  function Measure(y: Sys): nat
    requires |y.p.workers| == 1
  {
    Total(y.p.queue, Worth(y.stories)) + Total(y.tasks, TaskSize()) + Rank(Me(y))
  }

  lemma {:induction false} TotalSame<T>(s: seq<T>, f: T -> nat, g: T -> nat)
    requires forall x :: x in s ==> f(x) == g(x)
    ensures Total(s, f) == Total(s, g)
  {
    if s != [] { TotalSame(s[1..], f, g); }
  }

  lemma {:induction false} TotalOneMore<T>(s: seq<T>, x: T, f: T -> nat)
    ensures Total(s + [x], f) == Total(s, f) + f(x)
  {
    TotalAppend(s, [x], f);
    Io.TotalOne(x, f);
  }

  /** Stories only grow in what has been done and by new callbacks, which are not queued. */
  lemma {:induction false} WorthStays(q: seq<Entry>, a: map<nat, Story>, b: map<nat, Story>)
    requires forall e :: e in q && e.CbEntry? ==> e.job.ticket in a && e.job.ticket in b && a[e.job.ticket].body == b[e.job.ticket].body
    ensures Total(q, Worth(a)) == Total(q, Worth(b))
  {
    TotalSame(q, Worth(a), Worth(b));
  }

  lemma {:induction false} CallbackCosts(tasks: seq<Task>, c: nat, t: Task)
    requires c <= |tasks|
    ensures Total(Put(tasks, c, t), TaskSize()) <= Total(tasks, TaskSize()) + Size(t.rest)
  {
    if c < |tasks| { TotalUpdate(tasks, c, t, TaskSize()); } else { TotalOneMore(tasks, t, TaskSize()); }
  }

  lemma {:induction false} EnterFiberCosts(y: Sys, i: nat)
    requires Shaped(y) && Me(y).phase == Scanning && i == Scan(y.p.queue, Me(y).tid, y.p.fibers) < |y.p.queue|
    requires y.p.queue[i].FiberEntry? && Loop(y.p, 0).Alive?
    ensures |Loop(y.p, 0).state.workers| == 1 && Measure(Entered(y, Loop(y.p, 0).state)) < Measure(y)
  {
    TotalRemove(y.p.queue, i, Worth(y.stories));
    EnterFiberIs(y.p, i);
  }

  lemma {:induction false} EnterCallbackCosts(y: Sys, i: nat)
    requires Shaped(y) && Me(y).phase == Scanning && i == Scan(y.p.queue, Me(y).tid, y.p.fibers) < |y.p.queue|
    requires y.p.queue[i].CbEntry? && y.p.queue[i].job.code.User? && y.p.queue[i].job.ticket in y.stories
    requires (CallbackFiber(y.p) < |y.p.fibers| || Me(y).cbFiber.None?) && Loop(y.p, 0).Alive?
    ensures |Loop(y.p, 0).state.workers| == 1 && Measure(Entered(y, Loop(y.p, 0).state)) < Measure(y)
  {
    var k := y.p.queue[i].job.ticket;
    TotalRemove(y.p.queue, i, Worth(y.stories));
    EnterCallbackIs(y.p, i);
    CallbackCosts(y.tasks, CallbackFiber(y.p), Task(ScriptOf(y.stories, k), Some(k)));
  }

  lemma {:induction false} EnterCosts(y: Sys)
    requires Shaped(y) && Base(y.p) && Tasks(y) && Me(y).phase == Scanning && Loop(y.p, 0).Alive?
    ensures |Loop(y.p, 0).state.workers| == 1 && Measure(Entered(y, Loop(y.p, 0).state)) < Measure(y)
  {
    var i := Scan(y.p.queue, Me(y).tid, y.p.fibers);
    if i < |y.p.queue| {
      var e := y.p.queue[i];
      assert EntryTold(e, y.stories) && PlainEntry(e, |y.p.fibers|);
      if e.FiberEntry? { EnterFiberCosts(y, i); } else { EnterCallbackCosts(y, i); }
    }
  }

  lemma {:induction false} StoppedCosts(y: Sys, t: State, f: nat)
    requires Shaped(y) && Tasks(y) && f < |y.tasks| && |t.workers| == 1 && t.queue == y.p.queue && Rank(t.workers[0]) < Rank(Me(y))
    requires !y.p.fibers[f].hasCb || y.tasks[f].rest == [] || y.tasks[f].rest[0] == Raise
    ensures Measure(Acted(y, t, f)) < Measure(y)
  {
    var z := Acted(y, t, f);
    TotalUpdate(y.tasks, f, Task([], None), TaskSize());
    forall e | e in y.p.queue && e.CbEntry?
      ensures e.job.ticket in y.stories && e.job.ticket in z.stories && y.stories[e.job.ticket].body == z.stories[e.job.ticket].body
    {
      assert EntryTold(e, y.stories);
    }
    WorthStays(y.p.queue, y.stories, z.stories);
  }

  lemma {:induction false} StopCosts(y: Sys, f: nat)
    requires Shaped(y) && Tasks(y) && Inside(y, f)
    requires !y.p.fibers[f].hasCb || y.tasks[f].rest == [] || y.tasks[f].rest[0] == Raise
    ensures var z := Acted(y, ActState(y.p, f, NextAction(y.p.fibers[f], y.tasks[f].rest)), f);
      |z.p.workers| == 1 && Measure(z) < Measure(y)
  {
    var a := NextAction(y.p.fibers[f], y.tasks[f].rest);
    ActFrame(y.p, f, a);
    assert Rank(ActState(y.p, f, a).workers[0]) < Rank(Me(y));
    StoppedCosts(y, ActState(y.p, f, a), f);
  }

  /** The entry an act adds to the queue, if it does. */
  function Added(y: Sys, f: nat): Option<Entry>
    requires Shaped(y) && f < |y.tasks| && y.tasks[f].rest != []
  {
    var k := y.p.nextTicket;
    match y.tasks[f].rest[0]
    case Call(b, thread) => Some(CbEntry(Job(User(0), k), thread))
    case Resume(g, thread) => if g < |y.p.fibers| then Some(FiberEntry(Handle(g, k), thread)) else None
    case ToReady => Some(FiberEntry(Handle(f, k), -1))
    case _ => None
  }

  lemma {:induction false} GoOnIs(y: Sys, f: nat)
    requires Shaped(y) && Tasks(y) && Issued(y.p) && Inside(y, f)
    requires y.p.fibers[f].hasCb && y.tasks[f].rest != [] && y.tasks[f].rest[0] != Raise
    ensures var r := y.tasks[f].rest;
      var z := Acted(y, ActState(y.p, f, NextAction(y.p.fibers[f], r)), f);
      && z.p.queue == (if Added(y, f).Some? then y.p.queue + [Added(y, f).value] else y.p.queue)
      && z.tasks == y.tasks[f := Task(r[1..], y.tasks[f].job)] + (if r[0].Create? then [Task(r[0].body, None)] else [])
      && |z.p.workers| == 1 && Rank(Me(z)) <= 4
      && (forall e :: e in y.p.queue && e.CbEntry? ==>
            e.job.ticket in y.stories && e.job.ticket in z.stories && y.stories[e.job.ticket].body == z.stories[e.job.ticket].body)
      && (r[0].Call? ==> ScriptOf(z.stories, y.p.nextTicket) == r[0].body)
  {
    forall e | e in y.p.queue && e.CbEntry? ensures e.job.ticket in y.stories && e.job.ticket != y.p.nextTicket {
      assert EntryTold(e, y.stories);
    }
  }

  lemma {:induction false} GoOnCosts(y: Sys, f: nat)
    requires Shaped(y) && Tasks(y) && Issued(y.p) && Inside(y, f)
    requires y.p.fibers[f].hasCb && y.tasks[f].rest != [] && y.tasks[f].rest[0] != Raise
    ensures var z := Acted(y, ActState(y.p, f, NextAction(y.p.fibers[f], y.tasks[f].rest)), f);
      |z.p.workers| == 1 && Measure(z) < Measure(y)
  {
    var r := y.tasks[f].rest;
    var z := Acted(y, ActState(y.p, f, NextAction(y.p.fibers[f], r)), f);
    GoOnIs(y, f);
    WorthStays(y.p.queue, y.stories, z.stories);
    if Added(y, f).Some? { TotalOneMore(y.p.queue, Added(y, f).value, Worth(z.stories)); }
    TotalUpdate(y.tasks, f, Task(r[1..], y.tasks[f].job), TaskSize());
    if r[0].Create? { TotalOneMore(y.tasks[f := Task(r[1..], y.tasks[f].job)], Task(r[0].body, None), TaskSize()); }
  }

  /** The worker has left its loop, or is in its idle fiber with work it cannot take. */
  ghost predicate AtEnd(y: Sys)
    requires Shaped(y)
  {
    Me(y).phase == Exited || (Me(y).phase == AtCheck && !Stopping(y.p))
  }

  lemma {:induction false} ActCosts(y: Sys, f: nat)
    requires Shaped(y) && Tasks(y) && Issued(y.p) && Inside(y, f)
    ensures var z := Acted(y, ActState(y.p, f, NextAction(y.p.fibers[f], y.tasks[f].rest)), f);
      |z.p.workers| == 1 && Measure(z) < Measure(y)
  {
    if !y.p.fibers[f].hasCb || y.tasks[f].rest == [] || y.tasks[f].rest[0] == Raise {
      StopCosts(y, f);
    } else {
      GoOnCosts(y, f);
    }
  }

  lemma {:induction false} IdleCosts(y: Sys)
    requires Shaped(y) && Base(y.p) && !Me(y).phase.Scanning? && !Me(y).phase.Running? && Advance(y).Some? && !AtEnd(y)
    ensures |Advance(y).value.p.workers| == 1 && Measure(Advance(y).value) < Measure(y)
  {
    IdleIs(y.p);
  }

  /** Each step of the worker, until then, uses something up. */
  lemma {:induction false} AdvanceCosts(y: Sys)
    requires Alone(y) && Advance(y).Some? && !AtEnd(y)
    ensures |Advance(y).value.p.workers| == 1 && Measure(Advance(y).value) < Measure(y)
  {
    Open(y);
    match Me(y).phase
    case Scanning => EnterCosts(y);
    case Running(f, _) =>
      DoIs(y.p, f, y.tasks[f].rest);
      AllIssued(y.p);
      ActCosts(y, f);
    case _ => IdleCosts(y);
  }

  /** What the first act that is left of the script of fiber f comes to. */
  ghost predicate ActMeant(y: Sys, z: Sys, f: nat)
    requires Shaped(y) && Shaped(z) && Me(y).phase.Running? && f < |y.tasks| <= |z.tasks| && y.tasks[f].rest != []
  {
    var k, act, rest := y.p.nextTicket, y.tasks[f].rest[0], y.tasks[f].rest[1..];
    && z.tasks[f] == (if act.Raise? then Task([], None) else Task(rest, y.tasks[f].job))
    && Me(z).phase == (if act.ToReady? || act.ToHold? || act.Raise? then Scanning else Me(y).phase)
    && match act
       case Call(b, thread) =>
         z.p.queue == y.p.queue + [CbEntry(Job(User(0), k), thread)] && k in z.stories && z.stories[k] == Story(b, [])
       case Create(b) =>
         && z.p.queue == y.p.queue && z.tasks == y.tasks[f := Task(rest, y.tasks[f].job)] + [Task(b, None)]
         && z.p.fibers == y.p.fibers + [Fiber(INIT, true, None, None)]
       case Resume(g, thread) =>
         z.p.queue == y.p.queue + if g < |y.p.fibers| then [FiberEntry(Handle(g, k), thread)] else []
       case ToReady => z.p.queue == y.p.queue + [FiberEntry(Handle(f, k), -1)] && z.p.fibers[f].state == READY
       case ToHold => z.p.queue == y.p.queue && z.p.fibers[f].state == HOLD
       case Raise => z.p.queue == y.p.queue && z.p.fibers[f].state == if Me(y).phase.viaCb then INIT else EXCEPT
  }

  lemma {:induction false} StayingMeans(y: Sys, f: nat)
    requires Shaped(y) && Me(y).phase.Running? && Me(y).phase.fiber == f && y.p.fibers[f].hasCb && y.tasks[f].rest != []
    requires var act := y.tasks[f].rest[0]; act.Call? || act.Create? || act.Resume?
    ensures var z := Acted(y, ActState(y.p, f, NextAction(y.p.fibers[f], y.tasks[f].rest)), f);
      Shaped(z) && |y.tasks| <= |z.tasks| && ActMeant(y, z, f)
  {
  }

  lemma {:induction false} LeavingMeans(y: Sys, f: nat)
    requires Shaped(y) && Me(y).phase.Running? && Me(y).phase.fiber == f && y.p.fibers[f].hasCb && y.tasks[f].rest != []
    requires var act := y.tasks[f].rest[0]; act.ToReady? || act.ToHold? || act.Raise?
    ensures var z := Acted(y, ActState(y.p, f, NextAction(y.p.fibers[f], y.tasks[f].rest)), f);
      Shaped(z) && |y.tasks| <= |z.tasks| && ActMeant(y, z, f)
  {
  }

  /** An act of a script does this. */
  lemma {:induction false} ActMeans(y: Sys, f: nat)
    requires Alone(y) && Me(y).phase.Running? && Me(y).phase.fiber == f && Advance(y).Some?
    requires y.p.fibers[f].hasCb && y.tasks[f].rest != []
    ensures Shaped(Advance(y).value) && |y.tasks| <= |Advance(y).value.tasks| && ActMeant(y, Advance(y).value, f)
  {
    Open(y);
    DoIs(y.p, f, y.tasks[f].rest);
    var act := y.tasks[f].rest[0];
    if act.ToReady? || act.ToHold? || act.Raise? { LeavingMeans(y, f); } else { StayingMeans(y, f); }
  }
}
