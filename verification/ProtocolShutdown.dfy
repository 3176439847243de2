/** How several workers get out: exactly when an idle fiber ends, and that with nothing
    left to do every worker exits, whatever the schedule. */
module ProtocolShutdown {
  import opened Common
  import Io = IoSpec
  import opened TimerSpec
  import opened Protocol
  import opened ProtocolStructure
  import opened ProtocolRuns

  /** Nothing is queued, armed or registered, and no worker runs a task. */
  ghost predicate Idling(s: State) {
    && s.queue == [] && s.timers == []
    && (forall fd :: 0 <= fd < |s.io.ctxs| ==> !s.io.ctxs[fd].events.read && !s.io.ctxs[fd].events.write)
    && forall v :: 0 <= v < |s.workers| ==> !s.workers[v].phase.Running?
  }

  lemma {:induction false} StoppingIffIdling(s: State)
    requires Inv(s)
    ensures Stopping(s) <==> s.autoStop && s.stopping && Idling(s)
  {
    TotalZero(s.io.ctxs, Io.Registered);
    TotalZero(s.workers, IsRunning());
    if Stopping(s) {
      forall fd | 0 <= fd < |s.io.ctxs| ensures !s.io.ctxs[fd].events.read && !s.io.ctxs[fd].events.write {
        assert Io.Registered(s.io.ctxs[fd]) == 0;
      }
      NobodyRuns(s);
    }
  }

  /** A worker's idle fiber ends at its check iff `stop` was called and nothing is left to
      do, whatever the other idle fibers have done; otherwise it goes on to wait. */
  lemma {:induction false} IdleFiberEndsIff(s: State, w: nat)
    requires Sound(s) && w < |s.workers| && s.workers[w].phase == AtCheck
    ensures var r := Step(s, ByWorker(w, Checking));
      var ends := s.autoStop && s.stopping && Idling(s);
      var me := s.workers[w].(phase := if ends then Scanning else Polling, idleDone := ends);
      r == Alive(s.(workers := s.workers[w := me], idle := s.idle - if ends then 1 else 0))
  {
    StoppingIffIdling(s);
  }

  // ----- winding down -----

  /** After `stop`, with nothing left to do, and no callback in an idle worker's hand. */
  ghost predicate Winding(s: State) {
    && s.autoStop && s.stopping && Idling(s)
    && forall v :: 0 <= v < |s.workers| ==> EmptyHand(s.workers[v].phase)
  }

  predicate EmptyHand(p: Phase) {
    p.Handing? ==> forall i :: 0 <= i < |p.cbs| ==> p.cbs[i].None?
  }

  /** What the worker does next; a worker that has exited does nothing. */
  function NextMove(p: Phase): Option<Move>
    requires !p.Running?
  {
    match p
    case Scanning => Some(AtTop)
    case AtCheck => Some(Checking)
    case Polling => Some(Expiring)
    case Handing(_) => Some(Flushing)
    case Dispatching => Some(Resting)
    case Exited => None
  }

  /** How many moves it is away from having exited. */
  function Distance(me: Worker): nat
    requires !me.phase.Running?
  {
    match me.phase
    case Exited => 0
    case Scanning => if me.idleDone then 1 else 3
    case AtCheck => 2
    case Dispatching => 4
    case Handing(_) => 5
    case Polling => 6
  }

  lemma {:induction false} NothingToFlush(cbs: seq<Option<Job>>)
    requires forall i :: 0 <= i < |cbs| ==> cbs[i].None?
    ensures CbEntries(cbs) == []
  {
    if cbs != [] { NothingToFlush(cbs[1..]); }
  }

  /** The worker makes this step, and it is its next move. */
  predicate Moves(s: State, l: Label, w: nat)
    requires w < |s.workers| && !s.workers[w].phase.Running?
  {
    l.ByWorker? && l.w == w && Some(l.move) == NextMove(s.workers[w].phase)
  }

  ghost predicate Closer(s: State, t: State, l: Label) {
    && t == s.(clock := t.clock, workers := t.workers, idle := t.idle) && |t.workers| == |s.workers| && Winding(t)
    && forall v :: 0 <= v < |s.workers| && !s.workers[v].phase.Running? && !t.workers[v].phase.Running? ==>
      if Moves(s, l, v) then Distance(t.workers[v]) == Distance(s.workers[v]) - 1 else t.workers[v] == s.workers[v]
  }

  lemma {:induction false} LoopWinds(s: State, w: nat)
    requires Sound(s) && Winding(s) && w < |s.workers|
    ensures Loop(s, w).Alive? && Closer(s, Loop(s, w).state, ByWorker(w, AtTop))
  {
    assert Scan(s.queue, s.workers[w].tid, s.fibers) == 0;
  }

  lemma {:induction false} CheckWinds(s: State, w: nat)
    requires Sound(s) && Winding(s) && w < |s.workers|
    ensures Closer(s, Check(s, w), ByWorker(w, Checking))
  {
    StoppingIffIdling(s);
  }

  lemma {:induction false} ExpireWinds(s: State, w: nat)
    requires Sound(s) && Winding(s) && w < |s.workers|
    ensures Closer(s, Expire(s, w), ByWorker(w, Expiring))
  {
    assert Fired([], s.clock) == [] && AfterExpiry([], s.clock) == [] && Callbacks([]) == [] && Repeats([]) == multiset{};
  }

  lemma {:induction false} FlushWinds(s: State, w: nat)
    requires Sound(s) && Winding(s) && w < |s.workers|
    ensures Closer(s, Flush(s, w), ByWorker(w, Flushing))
  {
    if s.workers[w].phase.Handing? { NothingToFlush(s.workers[w].phase.cbs); }
  }

  lemma {:induction false} RestWinds(s: State, w: nat)
    requires Sound(s) && Winding(s) && w < |s.workers|
    ensures Closer(s, Rest(s, w), ByWorker(w, Resting))
  {
  }

  lemma {:induction false} ReportWinds(s: State, w: nat, r: Io.Report, fail: bool)
    requires Sound(s) && Winding(s) && w < |s.workers|
    ensures Report(s, w, r, fail) == Alive(s)
  {
    if s.workers[w].phase == Dispatching && r.fd < |s.io.ctxs| {
      assert Io.Dispatch(s.io, r, fail) == Io.Done(s.io, false, [], []);
      assert Entries([]) == [];
    }
  }

  /** Winding down goes on whatever is scheduled: a worker's next move brings it one move
      closer to its exit, and nothing else changes anything but the clock. */
  lemma {:induction false} WindingStep(s: State, l: Label)
    requires Sound(s) && Winding(s)
    ensures Step(s, l).Alive? && Closer(s, Step(s, l).state, l)
  {
    match l
    case ByWorker(w, m) =>
      if w < |s.workers| {
        match m
        case AtTop => LoopWinds(s, w);
        case Checking => CheckWinds(s, w);
        case Expiring => ExpireWinds(s, w);
        case Flushing => FlushWinds(s, w);
        case Resting => RestWinds(s, w);
        case Reporting(r, fail) => ReportWinds(s, w, r, fail);
        case Acting(_) =>
      }
    case _ =>
  }

  /** How many moves worker w makes in the run. */
  ghost function MovesOf(s: State, ls: seq<Label>, w: nat): nat
    requires Sound(s) && Winding(s) && w < |s.workers|
    decreases |ls|
  {
    if ls == [] then 0
    else
      WindingStep(s, ls[0]);
      StepKeepsSound(s, ls[0]);
      (if Moves(s, ls[0], w) then 1 else 0) + MovesOf(Step(s, ls[0]).state, ls[1..], w)
  }

  /** Over every run from there no assertion fails, and a worker has exited iff it has made
      all of its moves: at most six, however the workers take turns. */
  lemma {:induction false} WorkerExitsIffItMoves(s: State, ls: seq<Label>, w: nat)
    requires Sound(s) && Winding(s) && w < |s.workers|
    ensures Run(s, ls).Alive? && Winding(Run(s, ls).state) && |Run(s, ls).state.workers| == |s.workers|
    ensures MovesOf(s, ls, w) <= Distance(s.workers[w]) <= 6
    ensures Run(s, ls).state.workers[w].phase == Exited <==> MovesOf(s, ls, w) == Distance(s.workers[w])
    decreases |ls|
  {
    if ls != [] {
      WindingStep(s, ls[0]);
      StepKeepsSound(s, ls[0]);
      var t := Step(s, ls[0]).state;
      assert Moves(s, ls[0], w) ==> Distance(t.workers[w]) == Distance(s.workers[w]) - 1;
      WorkerExitsIffItMoves(t, ls[1..], w);
    }
  }

  // ----- one such run -----

  /** The move of a worker at this distance. */
  function MoveAt(d: nat): Move
    requires 1 <= d <= 6
  {
    if d == 6 then Expiring else if d == 5 then Flushing else if d == 4 then Resting else if d == 2 then Checking else AtTop
  }

  /** From this distance once through the idle fiber and out. */
  function Round(w: nat, d: nat): seq<Label>
    requires d <= 6
    decreases d
  {
    if d == 0 then [] else [ByWorker(w, MoveAt(d))] + Round(w, d - 1)
  }

  function Rounds(w: nat, n: nat): seq<Label>
    decreases n - w
  {
    if w >= n then [] else Round(w, 6) + Rounds(w + 1, n)
  }

  lemma {:induction false} RunAppend(s: State, a: seq<Label>, b: seq<Label>)
    requires Sound(s) && Run(s, a).Alive?
    ensures Run(s, a + b) == Run(Run(s, a).state, b)
    decreases |a|
  {
    if a == [] {
      assert a + b == b;
    } else {
      assert (a + b)[0] == a[0] && (a + b)[1..] == a[1..] + b;
      StepKeepsSound(s, a[0]);
      RunAppend(Step(s, a[0]).state, a[1..], b);
    }
  }

  /** Only worker w has moved, and is at this distance at most. */
  ghost predicate Nearer(s: State, t: State, w: nat, d: nat)
    requires w < |s.workers|
  {
    && Winding(t) && |t.workers| == |s.workers| && Distance(t.workers[w]) <= d
    && forall v :: 0 <= v < |s.workers| && v != w ==> t.workers[v] == s.workers[v]
  }

  lemma {:induction false} RoundStep(s: State, w: nat, d: nat) returns (t: State)
    requires Sound(s) && w < |s.workers| && 1 <= d <= 6 && Nearer(s, s, w, d)
    ensures Sound(t) && Nearer(s, t, w, d - 1) && Nearer(t, t, w, d - 1)
    ensures Run(s, Round(w, d)) == Run(t, Round(w, d - 1))
  {
    var l := ByWorker(w, MoveAt(d));
    WindingStep(s, l);
    StepKeepsSound(s, l);
    t := Step(s, l).state;
    assert Round(w, d)[0] == l && Round(w, d)[1..] == Round(w, d - 1);
  }

  lemma {:induction false} NearerStill(s: State, t: State, u: State, w: nat, d: nat, e: nat)
    requires w < |s.workers| && Nearer(s, t, w, d) && Nearer(t, u, w, e)
    ensures Nearer(s, u, w, e)
  {
  }

  lemma {:induction false} NoRound(s: State, w: nat)
    requires Sound(s)
    ensures Run(s, Round(w, 0)) == Alive(s)
  {
  }

  lemma {:induction false} RoundExits(s: State, w: nat, d: nat) returns (t: State)
    requires Sound(s) && w < |s.workers| && d <= 6 && Nearer(s, s, w, d)
    ensures Run(s, Round(w, d)) == Alive(t) && Nearer(s, t, w, 0)
    decreases d
  {
    if d == 0 {
      NoRound(s, w);
      t := s;
    } else {
      var s1 := RoundStep(s, w, d);
      t := RoundExits(s1, w, d - 1);
      NearerStill(s, s1, t, w, d - 1, 0);
    }
  }

  /** From every such state this run takes every worker out, whichever are out already. */
  lemma {:induction false} RoundsExit(s: State, w: nat)
    requires Sound(s) && Winding(s) && w <= |s.workers| && forall v :: 0 <= v < w ==> s.workers[v].phase == Exited
    ensures var r := Run(s, Rounds(w, |s.workers|));
      && r.Alive? && |r.state.workers| == |s.workers|
      && forall v :: 0 <= v < |s.workers| ==> r.state.workers[v].phase == Exited
    decreases |s.workers| - w
  {
    if w < |s.workers| {
      var t := RoundExits(s, w, 6);
      RunAppend(s, Round(w, 6), Rounds(w + 1, |s.workers|));
      RoundsExit(t, w + 1);
    }
  }

  /** A call of `stop`, with nothing left to do, is followed by a run in which all exit. */
  lemma {:induction false} StopThenAllExit(s: State)
    requires Sound(s) && Idling(s) && forall v :: 0 <= v < |s.workers| ==> EmptyHand(s.workers[v].phase)
    ensures var r := Run(s, [Stop] + Rounds(0, |s.workers|));
      && r.Alive? && |r.state.workers| == |s.workers|
      && forall v :: 0 <= v < |s.workers| ==> r.state.workers[v].phase == Exited
  {
    StepKeepsSound(s, Stop);
    var ls := [Stop] + Rounds(0, |s.workers|);
    assert ls[0] == Stop && ls[1..] == Rounds(0, |s.workers|);
    RoundsExit(Step(s, Stop).state, 0);
  }

  /** So a scheduler that is stopped right after its start gets all of its workers out. */
  lemma {:induction false} StartThenStop(tids: seq<nat>)
    requires |tids| > 0
    ensures var r := RunFromStart(tids, [Stop] + Rounds(0, |tids|));
      && r.Alive? && |r.state.workers| == |tids|
      && forall v :: 0 <= v < |tids| ==> r.state.workers[v].phase == Exited
  {
    StartIsSound(tids);
    StopThenAllExit(Start(tids));
  }
}
