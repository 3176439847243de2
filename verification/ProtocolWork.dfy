/** What became of the work that was taken from the queue: each callback that was begun is
    running or suspended in exactly one fiber, or finished. */
module ProtocolWork {
  import opened Common
  import Io = IoSpec
  import opened Protocol
  import opened ProtocolStructure
  import opened ProtocolKept
  import opened ProtocolBooks
  import opened ProtocolRuns

  /** Beside a state: per fiber, the obligation of the callback it is in the middle of; and
      how often each obligation finished as a callback, or resumed a fiber. */
  datatype Work = Work(doing: seq<Option<nat>>, finished: multiset<nat>, resumed: multiset<nat>)

  function Is(k: nat): Option<nat> -> nat {
    (o: Option<nat>) => if o == Some(k) then 1 else 0
  }

  /** New fibers are in the middle of nothing. */
  function Padded(doing: seq<Option<nat>>, n: nat): (r: seq<Option<nat>>)
    ensures |doing| <= n ==> |r| == n
  {
    if n <= |doing| then doing else doing + seq(n - |doing|, i => None)
  }

  function Begun(doing: seq<Option<nat>>, c: nat, o: Option<nat>): seq<Option<nat>> {
    if c < |doing| then doing[c := o] else doing + [o]
  }

  /** What taking the entry does: resume a fiber, or begin a callback in fiber c. The
      lambda of a sleep is not work of its own; its obligation resumes the sleeper. */
  function AfterTaking(k: Work, e: Entry, c: nat): Work {
    match e
    case FiberEntry(h, _) => k.(resumed := k.resumed + multiset{h.ticket})
    case CbEntry(job, _) => k.(doing := Begun(k.doing, c, if job.code.User? then Some(job.ticket) else None))
  }

  function AfterEnding(k: Work, f: nat): Work {
    if f < |k.doing| && k.doing[f].Some?
    then k.(doing := k.doing[f := None], finished := k.finished + multiset{k.doing[f].value})
    else k
  }

  /** The step ends the fiber its worker is in. */
  predicate Ending(s: State, l: Label) {
    l.ByWorker? && l.w < |s.workers| && l.move.Acting? && (l.move.action.Return? || l.move.action.Throw?) && CanDo(s, l.w, l.move.action)
  }

  function WorkAfter(k: Work, s: State, l: Label, t: State): Work {
    if l.ByWorker? && Takes(s, l, l.w) && l.w < |t.workers| && t.workers[l.w].phase.Running? then
      AfterTaking(k, s.queue[Scan(s.queue, s.workers[l.w].tid, s.fibers)], t.workers[l.w].phase.fiber)
    else if Ending(s, l) then AfterEnding(k, s.workers[l.w].phase.fiber)
    else k.(doing := Padded(k.doing, |t.fibers|))
  }

  /** A callback in the middle is running, or suspended by a yield. */
  predicate DoingOk(x: Fiber, o: Option<nat>) {
    o.Some? ==> x.hasCb && x.state in {EXEC, HOLD, READY}
  }

  ghost predicate Doing(s: State, k: Work) {
    |k.doing| == |s.fibers| && forall f :: 0 <= f < |s.fibers| ==> DoingOk(s.fibers[f], k.doing[f])
  }

  /** Each time obligation n was consumed, it resumed a fiber, or was a callback that is
      now running or suspended in one fiber, or finished. */
  ghost predicate Accounted(s: State, k: Work, n: nat) {
    s.consumed[n] == Total(k.doing, Is(n)) + k.finished[n] + k.resumed[n]
  }

  ghost predicate Working(s: State, k: Work) {
    Doing(s, k) && forall n: nat :: Accounted(s, k, n)
  }

  // ----- one step -----

  lemma {:induction false} BegunTotal(doing: seq<Option<nat>>, c: nat, o: Option<nat>, n: nat)
    requires c <= |doing| && (c < |doing| ==> doing[c] == None)
    ensures Total(Begun(doing, c, o), Is(n)) == Total(doing, Is(n)) + Is(n)(o)
  {
    if c < |doing| {
      TotalUpdate(doing, c, o, Is(n));
    } else {
      TotalAppend(doing, [o], Is(n));
      Io.TotalOne(o, Is(n));
    }
  }

  lemma {:induction false} PaddedTotal(doing: seq<Option<nat>>, m: nat, n: nat)
    ensures Total(Padded(doing, m), Is(n)) == Total(doing, Is(n))
  {
    if m > |doing| {
      var more := seq(m - |doing|, i => None);
      TotalAppend(doing, more, Is(n));
      TotalZero(more, Is(n));
    }
  }

  lemma {:induction false} ResumeWorks(s: State, w: nat, h: Handle, k: Work)
    requires Working(s, k) && w < |s.workers| && EnterFiber(s, w, h).Alive?
    ensures Working(EnterFiber(s, w, h).state, k.(resumed := k.resumed + multiset{h.ticket}))
  {
    var t := EnterFiber(s, w, h).state;
    forall n: nat ensures Accounted(t, k.(resumed := k.resumed + multiset{h.ticket}), n) {
      assert Accounted(s, k, n);
    }
    assert DoingOk(s.fibers[h.fiber], k.doing[h.fiber]);
  }

  lemma {:induction false} BeginWorks(s: State, w: nat, job: Job, k: Work)
    requires Working(s, k) && w < |s.workers| && EnterCallback(s, w, job).Alive?
    requires s.workers[w].cbFiber.Some? ==> s.workers[w].cbFiber.value < |s.fibers|
    ensures var t := EnterCallback(s, w, job).state;
      && |t.workers| == |s.workers| && t.workers[w].phase.Running?
      && Working(t, AfterTaking(k, CbEntry(job, -1), t.workers[w].phase.fiber))
  {
    var t := EnterCallback(s, w, job).state;
    var c := t.workers[w].phase.fiber;
    var o := if job.code.User? then Some(job.ticket) else None;
    if c < |s.fibers| { assert DoingOk(s.fibers[c], k.doing[c]); }
    forall n: nat ensures Accounted(t, k.(doing := Begun(k.doing, c, o)), n) {
      assert Accounted(s, k, n);
      BegunTotal(k.doing, c, o, n);
    }
  }

  lemma {:induction false} TakingWorks(s: State, w: nat, k: Work)
    requires Inv(s) && Working(s, k) && Takes(s, ByWorker(w, AtTop), w) && Loop(s, w).Alive?
    ensures Working(Loop(s, w).state, WorkAfter(k, s, ByWorker(w, AtTop), Loop(s, w).state))
  {
    var i := Scan(s.queue, s.workers[w].tid, s.fibers);
    var s1 := s.(queue := s.queue[..i] + s.queue[i + 1..]);
    LoopIs(s, w, i);
    assert Working(s1, k) by {
      forall n: nat ensures Accounted(s1, k, n) { assert Accounted(s, k, n); }
    }
    if s.queue[i].FiberEntry? {
      ResumeWorks(s1, w, s.queue[i].handle, k);
    } else {
      assert WorkerOk(s.workers[w], |s.fibers|);
      BeginWorks(s1, w, s.queue[i].job, k);
    }
    SameConsumed(if s.queue[i].FiberEntry? then EnterFiber(s1, w, s.queue[i].handle).state else EnterCallback(s1, w, s.queue[i].job).state,
                 Loop(s, w).state, WorkAfter(k, s, ByWorker(w, AtTop), Loop(s, w).state));
  }

  lemma {:induction false} SameConsumed(s: State, t: State, k: Work)
    requires Working(s, k) && t.consumed == s.consumed && t.fibers == s.fibers
    ensures Working(t, k)
  {
    forall n: nat ensures Accounted(t, k, n) { assert Accounted(s, k, n); }
  }

  /** A fiber that ends finishes its callback. */
  lemma {:induction false} EndingWorks(s: State, w: nat, x: Fiber, k: Work)
    requires Working(s, k) && w < |s.workers| && s.workers[w].phase.Running? && s.workers[w].phase.fiber < |s.fibers|
    ensures Working(Leave(s, w, x, true), AfterEnding(k, s.workers[w].phase.fiber))
  {
    var f := s.workers[w].phase.fiber;
    forall n: nat ensures Accounted(Leave(s, w, x, true), AfterEnding(k, f), n) {
      assert Accounted(s, k, n);
      TotalUpdate(k.doing, f, None, Is(n));
    }
  }

  predicate StaysAtWork(x: Fiber, y: Fiber) {
    y.hasCb == x.hasCb && (y.state == x.state || y.state == HOLD || y.state == READY)
  }

  /** Fibers that are in the middle of something stay so, and new ones may come. */
  lemma {:induction false} OthersWork(s: State, t: State, k: Work)
    requires Working(s, k) && t.consumed == s.consumed && |s.fibers| <= |t.fibers|
    requires forall f :: 0 <= f < |s.fibers| ==> StaysAtWork(s.fibers[f], t.fibers[f])
    ensures Working(t, k.(doing := Padded(k.doing, |t.fibers|)))
  {
    var k' := k.(doing := Padded(k.doing, |t.fibers|));
    forall n: nat ensures Accounted(t, k', n) {
      assert Accounted(s, k, n);
      PaddedTotal(k.doing, |t.fibers|, n);
    }
    forall f | 0 <= f < |t.fibers| ensures DoingOk(t.fibers[f], k'.doing[f]) {
      if f < |s.fibers| { assert DoingOk(s.fibers[f], k.doing[f]); }
    }
  }

  lemma {:induction false} LeavingWorks(s: State, w: nat, a: Action, k: Work)
    requires |s.io.ctxs| >= Io.FIRST_SIZE && Working(s, k) && w < |s.workers| && CanDo(s, w, a)
    requires a.YieldReady? || a.YieldHold? || a.Return? || a.Throw?
    ensures Do(s, w, a).Alive? && Working(Do(s, w, a).state, WorkAfter(k, s, ByWorker(w, Acting(a)), Do(s, w, a).state))
  {
    var x := s.fibers[s.workers[w].phase.fiber];
    match a
    case Return => EndingWorks(s, w, x.(state := TERM, hasCb := false), k);
    case Throw => EndingWorks(s, w, x.(state := EXCEPT), k);
    case YieldReady => OthersWork(s, Do(s, w, a).state, k);
    case YieldHold => OthersWork(s, Do(s, w, a).state, k);
  }

  lemma {:induction false} StayingWorks(s: State, w: nat, a: Action, k: Work)
    requires |s.io.ctxs| >= Io.FIRST_SIZE && Working(s, k) && w < |s.workers| && CanDo(s, w, a) && Do(s, w, a).Alive?
    requires !a.YieldReady? && !a.YieldHold? && !a.Return? && !a.Throw?
    ensures var t := Do(s, w, a).state;
      Working(t, k.(doing := Padded(k.doing, |t.fibers|)))
  {
    StayingInside(s, w, a);
    StayingConsumes(s, w, a);
    OthersWork(s, Do(s, w, a).state, k);
  }

  lemma {:induction false} DoWorks(s: State, w: nat, a: Action, k: Work)
    requires |s.io.ctxs| >= Io.FIRST_SIZE && Working(s, k) && w < |s.workers| && Do(s, w, a).Alive?
    ensures Working(Do(s, w, a).state, WorkAfter(k, s, ByWorker(w, Acting(a)), Do(s, w, a).state))
  {
    if !CanDo(s, w, a) {
      OthersWork(s, s, k);
    } else if a.YieldReady? || a.YieldHold? || a.Return? || a.Throw? {
      LeavingWorks(s, w, a, k);
    } else {
      StayingWorks(s, w, a, k);
    }
  }

  lemma {:induction false} StayingConsumes(s: State, w: nat, a: Action)
    requires |s.io.ctxs| >= Io.FIRST_SIZE && w < |s.workers| && Do(s, w, a).Alive?
    ensures Do(s, w, a).state.consumed == s.consumed
  {
  }

  lemma {:induction false} LoopWorks(s: State, w: nat, k: Work)
    requires Inv(s) && Working(s, k) && w < |s.workers| && Loop(s, w).Alive?
    ensures Working(Loop(s, w).state, WorkAfter(k, s, ByWorker(w, AtTop), Loop(s, w).state))
  {
    if Takes(s, ByWorker(w, AtTop), w) {
      TakingWorks(s, w, k);
    } else {
      OthersWork(s, Loop(s, w).state, k);
    }
  }

  lemma {:induction false} IdleWorks(s: State, w: nat, k: Work)
    requires Working(s, k) && w < |s.workers|
    ensures var k' := k.(doing := Padded(k.doing, |s.fibers|));
      Working(Check(s, w), k') && Working(Expire(s, w), k') && Working(Flush(s, w), k') && Working(Rest(s, w), k')
  {
    OthersWork(s, s, k);
    var k' := k.(doing := Padded(k.doing, |s.fibers|));
    SameConsumed(s, Check(s, w), k');
    SameConsumed(s, Expire(s, w), k');
    SameConsumed(s, Flush(s, w), k');
    SameConsumed(s, Rest(s, w), k');
  }

  lemma {:induction false} ReportWorks(s: State, w: nat, r: Io.Report, fail: bool, k: Work)
    requires Working(s, k) && w < |s.workers| && Report(s, w, r, fail).Alive?
    ensures Working(Report(s, w, r, fail).state, k.(doing := Padded(k.doing, |s.fibers|))) && Report(s, w, r, fail).state.fibers == s.fibers
  {
    ReportFibers(s, w, r, fail);
    OthersWork(s, Report(s, w, r, fail).state, k);
  }

  lemma {:induction false} WorkerWorks(s: State, w: nat, m: Move, k: Work)
    requires Inv(s) && Working(s, k) && w < |s.workers| && StepWorker(s, w, m).Alive?
    ensures Working(StepWorker(s, w, m).state, WorkAfter(k, s, ByWorker(w, m), StepWorker(s, w, m).state))
  {
    match m
    case AtTop => LoopWorks(s, w, k);
    case Acting(a) => DoWorks(s, w, a, k);
    case Reporting(r, fail) => ReportWorks(s, w, r, fail, k);
    case _ => IdleWorks(s, w, k);
  }

  /** Every step keeps the account of the work that was begun. */
  lemma {:induction false} StepWorks(s: State, l: Label, k: Work)
    requires Inv(s) && Working(s, k) && Step(s, l).Alive?
    ensures Working(Step(s, l).state, WorkAfter(k, s, l, Step(s, l).state))
  {
    match l
    case ByWorker(w, m) => if w < |s.workers| { WorkerWorks(s, w, m, k); } else { OthersWork(s, s, k); }
    case Outside(a) =>
      if !s.stopping { SharedFibers(s, a); }
      OthersWork(s, Step(s, l).state, k);
    case _ => OthersWork(s, Step(s, l).state, k);
  }

  // ----- runs -----

  ghost function WorkOver(s: State, ls: seq<Label>, k: Work): Work
    requires Sound(s)
    decreases |ls|
  {
    if ls == [] || Step(s, ls[0]).Dead? then k
    else
      StepKeepsSound(s, ls[0]);
      WorkOver(Step(s, ls[0]).state, ls[1..], WorkAfter(k, s, ls[0], Step(s, ls[0]).state))
  }

  lemma {:induction false} RunWorks(s: State, ls: seq<Label>, k: Work)
    requires Sound(s) && Working(s, k) && Run(s, ls).Alive?
    ensures Working(Run(s, ls).state, WorkOver(s, ls, k))
    decreases |ls|
  {
    if ls != [] {
      StepWorks(s, ls[0], k);
      StepKeepsSound(s, ls[0]);
      RunWorks(Step(s, ls[0]).state, ls[1..], WorkAfter(k, s, ls[0], Step(s, ls[0]).state));
    }
  }

  ghost function WorkFromStart(tids: seq<nat>, ls: seq<Label>): Work
    requires |tids| > 0
  {
    StartIsSound(tids);
    WorkOver(Start(tids), ls, Work([], multiset{}, multiset{}))
  }

  /** Work conservation over every run: an obligation was issued as often as it is queued,
      armed, in hand, owed or registered; is a callback some fiber runs or was suspended
      in; finished as a callback; resumed a fiber; or was dropped, taken together. */
  lemma {:induction false} WorkIsConserved(tids: seq<nat>, ls: seq<Label>, n: nat)
    requires |tids| > 0
    ensures var r := RunFromStart(tids, ls);
      var k := WorkFromStart(tids, ls);
      r.Alive? ==>
        && r.state.issued[n] == Live(r.state, n) + Total(k.doing, Is(n)) + k.finished[n] + k.resumed[n] + r.state.dropped[n]
        && |k.doing| == |r.state.fibers|
        && forall f :: 0 <= f < |k.doing| && k.doing[f] == Some(n) ==> r.state.fibers[f].state in {EXEC, HOLD, READY}
  {
    StartIsSound(tids);
    var r := RunFromStart(tids, ls);
    if r.Alive? {
      RunWorks(Start(tids), ls, Work([], multiset{}, multiset{}));
      var k := WorkFromStart(tids, ls);
      assert Balanced(r.state, n) && Accounted(r.state, k, n);
      forall f | 0 <= f < |k.doing| && k.doing[f] == Some(n) ensures r.state.fibers[f].state in {EXEC, HOLD, READY} {
        assert DoingOk(r.state.fibers[f], k.doing[f]);
      }
    }
  }
}
