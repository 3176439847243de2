/** The run queue over whole runs: where an entry is, who may take it, and how long it can wait. */
module ProtocolQueue {
  import opened Common
  import Io = IoSpec
  import opened Protocol
  import opened ProtocolRuns

  /** The place of the entry at place k after the step; None once a worker has taken it. */
  function Place(s: State, l: Label, k: nat): Option<nat> {
    if l.ByWorker? && Takes(s, l, l.w) then
      var i := Scan(s.queue, s.workers[l.w].tid, s.fibers);
      if i == k then None else if i < k then Some(k - 1) else Some(k)
    else Some(k)
  }

  /** Where the entry at place k is after a run, if no worker has taken it. */
  ghost function PlaceAfter(s: State, ls: seq<Label>, k: nat): Option<nat>
    requires Sound(s)
    decreases |ls|
  {
    if ls == [] then Some(k)
    else
      match Place(s, ls[0], k)
      case None => None
      case Some(k') =>
        if Step(s, ls[0]).Dead? then None
        else
          StepKeepsSound(s, ls[0]);
          PlaceAfter(Step(s, ls[0]).state, ls[1..], k')
  }

  /** How many entries worker w takes in a run. */
  ghost function Picks(s: State, ls: seq<Label>, w: nat): nat
    requires Sound(s)
    decreases |ls|
  {
    if ls == [] || Step(s, ls[0]).Dead? then 0
    else
      StepKeepsSound(s, ls[0]);
      (if Takes(s, ls[0], w) then 1 else 0) + Picks(Step(s, ls[0]).state, ls[1..], w)
  }

  /** Each time worker w takes an entry, the entry that was at place k could be taken too. */
  ghost predicate EligibleThroughout(s: State, ls: seq<Label>, k: nat, w: nat)
    requires Sound(s)
    decreases |ls|
  {
    ls == [] || Place(s, ls[0], k).None? || Step(s, ls[0]).Dead? ||
    ((Takes(s, ls[0], w) ==> k < |s.queue| && Eligible(s.queue[k], s.workers[w].tid, s.fibers)) &&
     (StepKeepsSound(s, ls[0]); EligibleThroughout(Step(s, ls[0]).state, ls[1..], Place(s, ls[0], k).value, w)))
  }

  lemma {:induction false} LoopTakes(s: State, w: nat)
    requires Sound(s) && Takes(s, ByWorker(w, AtTop), w) && Loop(s, w).Alive?
    ensures var i := Scan(s.queue, s.workers[w].tid, s.fibers);
      var t := Loop(s, w).state;
      && t.queue == s.queue[..i] + s.queue[i + 1..]
      && t.workers[w].phase.Running?
      && (s.queue[i].FiberEntry? ==> t.workers[w].phase == Running(s.queue[i].handle.fiber, false))
      && (s.queue[i].CbEntry? ==> t.workers[w].phase.viaCb)
      && |t.workers| == |s.workers|
      && forall v :: 0 <= v < |s.workers| ==> t.workers[v].tid == s.workers[v].tid
  {
  }

  /** The queue only got longer, at its end, and the workers sit on the same threads. */
  predicate Grows(s: State, t: State) {
    && s.queue <= t.queue && |t.workers| == |s.workers|
    && forall v :: 0 <= v < |s.workers| ==> t.workers[v].tid == s.workers[v].tid
  }

  lemma {:induction false} SettleGrows(s: State, t: State, o: Io.Outcome)
    requires Grows(s, t) && Settle(t, o).Alive?
    ensures Grows(s, Settle(t, o).state)
  {
  }

  lemma {:induction false} SharedGrows(s: State, a: Action)
    requires |s.io.ctxs| >= Io.FIRST_SIZE && Shared(s, a).Alive?
    ensures Grows(s, Shared(s, a).state)
  {
    match a
    case Unwatch(fd, ev, fail) => SettleGrows(s, s, Io.DelEvent(s.io, fd, ev, fail));
    case CancelWatch(fd, ev, fail) => SettleGrows(s, s, Io.CancelEvent(s.io, fd, ev, fail));
    case CancelFd(fd, fail) => SettleGrows(s, s, Io.CancelAll(s.io, fd, fail));
    case _ =>
  }

  lemma {:induction false} DoGrows(s: State, w: nat, a: Action)
    requires |s.io.ctxs| >= Io.FIRST_SIZE && w < |s.workers| && Do(s, w, a).Alive?
    ensures Grows(s, Do(s, w, a).state)
  {
    if CanDo(s, w, a) {
      match a
      case Watch(fd, ev, cb, fail) =>
        var f := s.workers[w].phase.fiber;
        var waiter := NewWaiter(s, f, cb);
        var o := Io.AddEvent(s.io, fd, ev, waiter, 0, fail);
        SettleGrows(s, if o.Done? && o.ok then Issue(s) else s, o);
      case Sleep(_) =>
      case WakeSleeper =>
      case YieldReady =>
      case YieldHold =>
      case Return =>
      case Throw =>
      case _ => SharedGrows(s, a);
    }
  }

  lemma {:induction false} IdleGrows(s: State, w: nat)
    requires w < |s.workers|
    ensures Grows(s, Check(s, w)) && Grows(s, Expire(s, w)) && Grows(s, Flush(s, w)) && Grows(s, Rest(s, w))
  {
  }

  /** Everything but taking an entry only adds to the end of the queue. */
  lemma {:induction false} OthersAppend(s: State, l: Label)
    requires |s.io.ctxs| >= Io.FIRST_SIZE && Step(s, l).Alive? && !(l.ByWorker? && Takes(s, l, l.w))
    ensures Grows(s, Step(s, l).state)
  {
    match l
    case ByWorker(w, m) =>
      if w < |s.workers| {
        match m
        case AtTop =>
        case Acting(a) => DoGrows(s, w, a);
        case Reporting(r, fail) => if s.workers[w].phase == Dispatching && r.fd < |s.io.ctxs| { SettleGrows(s, s, Io.Dispatch(s.io, r, fail)); }
        case _ => IdleGrows(s, w);
      }
    case Outside(a) => if !s.stopping { SharedGrows(s, a); }
    case _ =>
  }

  /** An entry stays as it is and never moves back until it is taken. */
  lemma {:induction false} StepMovesEntry(s: State, l: Label, k: nat)
    requires Sound(s) && Step(s, l).Alive? && k < |s.queue|
    ensures var p := Place(s, l, k);
      p.Some? ==> p.value <= k && p.value < |Step(s, l).state.queue| && Step(s, l).state.queue[p.value] == s.queue[k]
  {
    if l.ByWorker? && Takes(s, l, l.w) {
      LoopTakes(s, l.w);
    } else {
      OthersAppend(s, l);
    }
  }

  lemma {:induction false} PositionNeverIncreases(s: State, ls: seq<Label>, k: nat)
    requires Sound(s) && Run(s, ls).Alive? && k < |s.queue|
    ensures var p := PlaceAfter(s, ls, k);
      p.Some? ==> p.value <= k && p.value < |Run(s, ls).state.queue| && Run(s, ls).state.queue[p.value] == s.queue[k]
    decreases |ls|
  {
    if ls != [] && Place(s, ls[0], k).Some? {
      StepMovesEntry(s, ls[0], k);
      StepKeepsSound(s, ls[0]);
      PositionNeverIncreases(Step(s, ls[0]).state, ls[1..], Place(s, ls[0], k).value);
    }
  }

  lemma {:induction false} StepKeepsOrder(s: State, l: Label, j: nat, k: nat)
    requires j < k && Place(s, l, j).Some? && Place(s, l, k).Some?
    ensures Place(s, l, j).value < Place(s, l, k).value
  {
  }

  /** Entries do not overtake each other in the queue. */
  lemma {:induction false} OrderIsKept(s: State, ls: seq<Label>, j: nat, k: nat)
    requires Sound(s) && j < k && PlaceAfter(s, ls, j).Some? && PlaceAfter(s, ls, k).Some?
    ensures PlaceAfter(s, ls, j).value < PlaceAfter(s, ls, k).value
    decreases |ls|
  {
    if ls != [] {
      StepKeepsOrder(s, ls[0], j, k);
      StepKeepsSound(s, ls[0]);
      OrderIsKept(Step(s, ls[0]).state, ls[1..], Place(s, ls[0], j).value, Place(s, ls[0], k).value);
    }
  }

  /** An entry is taken only by a worker it is not pinned away from, which enters its
      fiber, and only when that worker could take nothing in front of it. */
  lemma {:induction false} TakenByItsThread(s: State, l: Label, k: nat)
    requires Sound(s) && k < |s.queue| && Place(s, l, k).None? && Step(s, l).Alive?
    ensures l.ByWorker? && l.w < |s.workers|
    ensures s.queue[k].thread == -1 || s.queue[k].thread == s.workers[l.w].tid
    ensures forall j :: 0 <= j < k ==> !Eligible(s.queue[j], s.workers[l.w].tid, s.fibers)
    ensures var p := Step(s, l).state.workers[l.w].phase;
      p.Running? && (s.queue[k].FiberEntry? ==> p == Running(s.queue[k].handle.fiber, false))
  {
    LoopTakes(s, l.w);
  }

  /** An entry at place k that a worker could take each time it takes one is taken, by
      that worker or another, within k + 1 picks of that worker. */
  lemma {:induction false} TakenWithinPlacePicks(s: State, ls: seq<Label>, k: nat, w: nat)
    requires Sound(s) && Run(s, ls).Alive? && k < |s.queue| && w < |s.workers|
    requires EligibleThroughout(s, ls, k, w) && Picks(s, ls, w) > k
    ensures PlaceAfter(s, ls, k).None?
    decreases |ls|
  {
    if ls != [] && Place(s, ls[0], k).Some? {
      var k' := Place(s, ls[0], k).value;
      StepMovesEntry(s, ls[0], k);
      StepKeepsSound(s, ls[0]);
      TidsStay(s, ls[0]);
      assert Takes(s, ls[0], w) ==> k' == k - 1;
      TakenWithinPlacePicks(Step(s, ls[0]).state, ls[1..], k', w);
    }
  }

  /** A pinned entry waits for its thread: no other worker's picks take it. */
  lemma {:induction false} PinnedWaitsForItsThread(s: State, ls: seq<Label>, k: nat)
    requires Sound(s) && Run(s, ls).Alive? && k < |s.queue| && s.queue[k].thread != -1
    requires forall v :: 0 <= v < |s.workers| && s.workers[v].tid == s.queue[k].thread ==> ByWorker(v, AtTop) !in ls
    ensures PlaceAfter(s, ls, k).Some?
    decreases |ls|
  {
    if ls != [] {
      assert ls[0] in ls;
      NotTakenElsewhere(s, ls[0], k);
      StepMovesEntry(s, ls[0], k);
      StepKeepsSound(s, ls[0]);
      TidsStay(s, ls[0]);
      PinnedWaitsForItsThread(Step(s, ls[0]).state, ls[1..], Place(s, ls[0], k).value);
    }
  }

  lemma {:induction false} NotTakenElsewhere(s: State, l: Label, k: nat)
    requires k < |s.queue| && s.queue[k].thread != -1
    requires forall v :: 0 <= v < |s.workers| && s.workers[v].tid == s.queue[k].thread ==> l != ByWorker(v, AtTop)
    ensures Place(s, l, k).Some?
  {
  }

  lemma {:induction false} TidsStay(s: State, l: Label)
    requires Sound(s) && Step(s, l).Alive?
    ensures |Step(s, l).state.workers| == |s.workers|
    ensures forall v :: 0 <= v < |s.workers| ==> Step(s, l).state.workers[v].tid == s.workers[v].tid
  {
    if l.ByWorker? && Takes(s, l, l.w) {
      LoopTakes(s, l.w);
    } else {
      OthersAppend(s, l);
    }
  }
}
