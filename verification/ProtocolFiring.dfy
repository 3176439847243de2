/** How a timer fires in the protocol, and the way of a wake-up from its timer to its
    sleeper: over expiry, an idle worker's hand, the queue, the lambda, and the queue. */
module ProtocolFiring {
  import opened Common
  import Io = IoSpec
  import opened TimerSpec
  import opened Protocol
  import opened ProtocolStructure
  import opened ProtocolKept
  import opened ProtocolBooks
  import opened ProtocolSleep
  import opened ProtocolRuns
  import opened ProtocolQueue
  import opened ProtocolWaking

  // ----- one expiry -----

  /** Expiring takes into the hand, in order, the callbacks of exactly the timers whose
      deadline is this millisecond, unless the front is overdue, and then none. The
      one-shots among them are gone, the recurring ones are due one period from now, and
      every other timer is as it was. */
  lemma {:induction false} ExpiringFires(s: State, w: nat)
    requires Sound(s) && w < |s.workers| && s.workers[w].phase == Polling
    ensures var r, fired := Step(s, ByWorker(w, Expiring)), Firing(s.timers, s.clock);
      && r.Alive? && |r.state.workers| == |s.workers|
      && r.state == s.(workers := s.workers[w := s.workers[w].(phase := r.state.workers[w].phase)],
                       timers := r.state.timers, issued := r.state.issued)
      && r.state.workers[w].phase.Handing?
      && |r.state.workers[w].phase.cbs| == |fired|
      && (forall i :: 0 <= i < |fired| ==> r.state.workers[w].phase.cbs[i] == fired[i].cb)
      && Sorted(r.state.timers)
      && forall x :: x in r.state.timers <==> (x in s.timers && x !in fired) || exists y :: Again(x, y, fired, s.clock)
  {
    ExpiryTimerByTimer(s.timers, s.clock);
  }

  /** The callbacks in a hand, without the empty ones. */
  function JobsOf(cbs: seq<Option<Job>>): seq<Job> {
    if cbs == [] then [] else (if cbs[0].Some? then [cbs[0].value] else []) + JobsOf(cbs[1..])
  }

  lemma {:induction false} EntriesOfJobs(cbs: seq<Option<Job>>)
    ensures var js := JobsOf(cbs);
      |CbEntries(cbs)| == |js| && forall i :: 0 <= i < |js| ==> CbEntries(cbs)[i] == CbEntry(js[i], -1)
  {
    if cbs != [] { EntriesOfJobs(cbs[1..]); }
  }

  /** What is in the hand goes to the end of the queue, in order and for any thread. */
  lemma {:induction false} FlushingQueues(s: State, w: nat)
    requires Sound(s) && w < |s.workers| && s.workers[w].phase.Handing?
    ensures var r, js := Step(s, ByWorker(w, Flushing)), JobsOf(s.workers[w].phase.cbs);
      && r.Alive?
      && r.state == s.(workers := s.workers[w := s.workers[w].(phase := Dispatching)], queue := r.state.queue)
      && |r.state.queue| == |s.queue| + |js| && s.queue <= r.state.queue
      && forall i :: 0 <= i < |js| ==> r.state.queue[|s.queue| + i] == CbEntry(js[i], -1)
  {
    EntriesOfJobs(s.workers[w].phase.cbs);
  }

  // ----- where a wake-up is -----

  /** The places of a sleep's wake-up, in the order in which it goes through them: its
      timer is armed; its lambda is in an idle worker's hand, then queued, then running;
      the sleeper is queued; the sleeper has been entered through it. */
  datatype Place = AsTimer | InHand | AsLambda | Owed | AsEntry | Used

  function Next(p: Place): Place {
    match p
    case AsTimer => InHand
    case InHand => AsLambda
    case AsLambda => Owed
    case Owed => AsEntry
    case AsEntry => Used
    case Used => Used
  }

  predicate TimerOf(t: TimerRec, k: nat) {
    t.cb.Some? && t.cb.value.ticket == k
  }

  ghost predicate HandOf(p: Phase, k: nat) {
    p.Handing? && exists i :: 0 <= i < |p.cbs| && p.cbs[i].Some? && p.cbs[i].value.ticket == k
  }

  predicate LambdaOf(e: Entry, k: nat) {
    e.CbEntry? && e.job.ticket == k
  }

  predicate OwedBy(x: Fiber, k: nat) {
    x.owes.Some? && x.owes.value.ticket == k
  }

  predicate EntryOfWakeUp(e: Entry, k: nat) {
    e.FiberEntry? && e.handle.ticket == k
  }

  ghost predicate At(s: State, k: nat, p: Place) {
    match p
    case AsTimer => exists t :: t in s.timers && TimerOf(t, k)
    case InHand => exists w :: 0 <= w < |s.workers| && HandOf(s.workers[w].phase, k)
    case AsLambda => exists j :: 0 <= j < |s.queue| && LambdaOf(s.queue[j], k)
    case Owed => exists f :: 0 <= f < |s.fibers| && OwedBy(s.fibers[f], k)
    case AsEntry => exists j :: 0 <= j < |s.queue| && EntryOfWakeUp(s.queue[j], k)
    case Used => s.consumed[k] > 0
  }

  /** The parts of the sum that counts where k is. */
  function PartOf(s: State, k: nat, p: Place): nat {
    match p
    case AsTimer => Total(s.timers, InTimer(k))
    case InHand => Total(s.workers, ProtocolBooks.InHand(k))
    case AsLambda => Total(s.queue, InEntry(k))
    case Owed => Total(s.fibers, InFiber(k))
    case AsEntry => Total(s.queue, InEntry(k))
    case Used => s.consumed[k]
  }

  lemma {:induction false} AtCounts(s: State, k: nat, p: Place)
    requires At(s, k, p)
    ensures PartOf(s, k, p) > 0
  {
    match p
    case AsTimer =>
      var t :| t in s.timers && TimerOf(t, k);
      var i :| 0 <= i < |s.timers| && s.timers[i] == t;
      TotalAtLeast(s.timers, i, InTimer(k));
    case InHand =>
      var w :| 0 <= w < |s.workers| && HandOf(s.workers[w].phase, k);
      var cbs := s.workers[w].phase.cbs;
      var i :| 0 <= i < |cbs| && cbs[i].Some? && cbs[i].value.ticket == k;
      TotalAtLeast(cbs, i, InJob(k));
      TotalAtLeast(s.workers, w, ProtocolBooks.InHand(k));
    case AsLambda =>
      var j :| 0 <= j < |s.queue| && LambdaOf(s.queue[j], k);
      TotalAtLeast(s.queue, j, InEntry(k));
    case Owed =>
      var f :| 0 <= f < |s.fibers| && OwedBy(s.fibers[f], k);
      TotalAtLeast(s.fibers, f, InFiber(k));
    case AsEntry =>
      var j :| 0 <= j < |s.queue| && EntryOfWakeUp(s.queue[j], k);
      TotalAtLeast(s.queue, j, InEntry(k));
    case Used =>
  }

  lemma {:induction false} CountsAt(s: State, k: nat) returns (p: Place)
    requires Live(s, k) + s.consumed[k] == 1 && Io.Weight(s.io, InSlot(k)) == 0
    ensures At(s, k, p)
  {
    if Total(s.timers, InTimer(k)) > 0 {
      var i := TotalSource(s.timers, InTimer(k));
      assert TimerOf(s.timers[i], k);
      p := AsTimer;
    } else if Total(s.workers, ProtocolBooks.InHand(k)) > 0 {
      var w := TotalSource(s.workers, ProtocolBooks.InHand(k));
      var i := TotalSource(s.workers[w].phase.cbs, InJob(k));
      assert HandOf(s.workers[w].phase, k);
      p := InHand;
    } else if Total(s.queue, InEntry(k)) > 0 {
      var j := TotalSource(s.queue, InEntry(k));
      assert LambdaOf(s.queue[j], k) || EntryOfWakeUp(s.queue[j], k);
      p := if s.queue[j].CbEntry? then AsLambda else AsEntry;
    } else if Total(s.fibers, InFiber(k)) > 0 {
      var f := TotalSource(s.fibers, InFiber(k));
      assert OwedBy(s.fibers[f], k);
      p := Owed;
    } else {
      p := Used;
    }
  }

  lemma {:induction false} NotBothInQueue(s: State, k: nat)
    requires At(s, k, AsLambda) && At(s, k, AsEntry)
    ensures Total(s.queue, InEntry(k)) >= 2
  {
    var i :| 0 <= i < |s.queue| && LambdaOf(s.queue[i], k);
    var j :| 0 <= j < |s.queue| && EntryOfWakeUp(s.queue[j], k);
    if i < j { TwoAtLeast(s.queue, i, j, InEntry(k)); } else { TwoAtLeast(s.queue, j, i, InEntry(k)); }
  }

  lemma {:induction false} NoSlotHas(s: State, k: nat)
    requires Naps(s) && k in s.naps
    ensures Io.Weight(s.io, InSlot(k)) == 0
  {
    TotalZero(s.io.ctxs, Io.ContextWeight(Stray(Now(s))));
    TotalZero(s.io.ctxs, Io.ContextWeight(InSlot(k)));
    forall i | 0 <= i < |s.io.ctxs| ensures Io.ContextWeight(InSlot(k))(s.io.ctxs[i]) == 0 {
      assert Io.ContextWeight(Stray(Now(s)))(s.io.ctxs[i]) == 0;
    }
  }

  /** In every reachable state a wake-up is in exactly one of these places. */
  lemma {:induction false} InOnePlace(s: State, k: nat) returns (p: Place)
    requires Sound(s) && k in s.naps
    ensures At(s, k, p) && forall q :: At(s, k, q) ==> q == p
  {
    SleepHasOneWakeUp(s, k);
    NoSlotHas(s, k);
    p := CountsAt(s, k);
    AtCounts(s, k, p);
    forall q | At(s, k, q) ensures q == p {
      AtCounts(s, k, q);
      if At(s, k, AsLambda) && At(s, k, AsEntry) { NotBothInQueue(s, k); }
    }
  }

  // ----- how it moves on -----

  /** The step that takes the wake-up from this place to the next. */
  ghost predicate MovesOn(s: State, l: Label, k: nat, p: Place) {
    && l.ByWorker? && l.w < |s.workers|
    && var ph := s.workers[l.w].phase;
       match p
       case AsTimer =>
         l.move.Expiring? && ph == Polling && k in s.naps && s.naps[k].due == s.clock && s.timers != [] && s.clock <= s.timers[0].next
       case InHand => l.move.Flushing? && HandOf(ph, k)
       case AsLambda => Takes(s, l, l.w) && LambdaOf(s.queue[Scan(s.queue, s.workers[l.w].tid, s.fibers)], k)
       case Owed => l.move == Acting(WakeSleeper) && CanDo(s, l.w, WakeSleeper) && OwedBy(s.fibers[ph.fiber], k)
       case AsEntry => Takes(s, l, l.w) && EntryOfWakeUp(s.queue[Scan(s.queue, s.workers[l.w].tid, s.fibers)], k)
       case Used => false
  }

  /** Nobody cancels or moves the timer of a sleep. */
  lemma {:induction false} SharedKeepsTimer(s: State, a: Action, t: TimerRec)
    requires Inv(s) && Shared(s, a).Alive? && t in s.timers && t.cb.Some? && t.cb.value.code.Wake?
    ensures t in Shared(s, a).state.timers
  {
    match a
    case StartTimer(ms, recurring, cb) => InsertAdds(s.timers, UsersTimer(s, ms, recurring, cb));
    case StopTimer(id) =>
      var u := UserTimer(s, id);
      if u.Some? {
        RemoveDrops(s.timers, id);
        if t.id == id { SameTimer(s.timers, t, u.value); }
      }
    case MoveTimer(id, ms, fromNow) =>
      var u := UserTimer(s, id);
      if u.Some? {
        RemoveDrops(s.timers, id);
        InsertAdds(Remove(s.timers, id), MovedTimer(s, u.value, ms, fromNow));
        if t.id == id { SameTimer(s.timers, t, u.value); }
      }
    case _ =>
  }

  lemma {:induction false} DoKeepsTimer(s: State, w: nat, a: Action, t: TimerRec)
    requires Inv(s) && w < |s.workers| && Do(s, w, a).Alive? && t in s.timers && t.cb.Some? && t.cb.value.code.Wake?
    ensures t in Do(s, w, a).state.timers
  {
    if CanDo(s, w, a) {
      match a
      case Sleep(ms) => InsertAdds(s.timers, SleepersTimer(s, s.workers[w].phase.fiber, ms));
      case Watch(_, _, _, _) =>
      case WakeSleeper =>
      case YieldReady =>
      case YieldHold =>
      case Return =>
      case Throw =>
      case _ => SharedKeepsTimer(s, a, t);
    }
  }

  lemma {:induction false} LoopKeepsTimers(s: State, w: nat)
    requires w < |s.workers| && Loop(s, w).Alive?
    ensures Loop(s, w).state.timers == s.timers
  {
    var i := Scan(s.queue, s.workers[w].tid, s.fibers);
    if s.workers[w].phase == Scanning && i < |s.queue| { LoopIs(s, w, i); }
  }

  /** Only an expiry takes the timer of a sleep out. */
  lemma {:induction false} TimerStays(s: State, l: Label, t: TimerRec)
    requires Inv(s) && Step(s, l).Alive? && t in s.timers && t.cb.Some? && t.cb.value.code.Wake?
    requires !(l.ByWorker? && l.move.Expiring?)
    ensures t in Step(s, l).state.timers
  {
    match l
    case ByWorker(w, m) =>
      if w < |s.workers| {
        match m
        case AtTop => LoopKeepsTimers(s, w);
        case Acting(a) => DoKeepsTimer(s, w, a, t);
        case _ =>
      }
    case Outside(a) => if !s.stopping { SharedKeepsTimer(s, a, t); }
    case _ =>
  }

  lemma {:induction false} ExpiryTakes(s: State, w: nat, t: TimerRec, k: nat)
    requires Sound(s) && w < |s.workers| && s.workers[w].phase == Polling && k in s.naps && t in s.timers && TimerOf(t, k)
    ensures var u := Step(s, ByWorker(w, Expiring)).state;
      if s.naps[k].due == s.clock && s.clock <= s.timers[0].next then HandOf(u.workers[w].phase, k) else t in u.timers
  {
    ExpiringFires(s, w);
    FiredIsFiring(s.timers, s.clock);
    assert TimerOk(t, Now(s));
    var fired := Firing(s.timers, s.clock);
    if t in fired {
      var i :| 0 <= i < |fired| && fired[i] == t;
      assert Step(s, ByWorker(w, Expiring)).state.workers[w].phase.cbs[i] == t.cb;
    }
  }

  lemma {:induction false} FromTimer(s: State, l: Label, k: nat)
    requires Sound(s) && k in s.naps && Step(s, l).Alive? && At(s, k, AsTimer)
    ensures At(Step(s, l).state, k, if MovesOn(s, l, k, AsTimer) then InHand else AsTimer)
  {
    var t :| t in s.timers && TimerOf(t, k);
    assert TimerOk(t, Now(s));
    if l.ByWorker? && l.move.Expiring? && l.w < |s.workers| && s.workers[l.w].phase == Polling {
      ExpiryTakes(s, l.w, t, k);
    } else if !(l.ByWorker? && l.move.Expiring?) {
      TimerStays(s, l, t);
    }
  }

  lemma {:induction false} FromHand(s: State, l: Label, k: nat)
    requires Sound(s) && k in s.naps && Step(s, l).Alive? && At(s, k, InHand)
    ensures At(Step(s, l).state, k, if MovesOn(s, l, k, InHand) then AsLambda else InHand)
  {
    var w :| 0 <= w < |s.workers| && HandOf(s.workers[w].phase, k);
    if l.ByWorker? && l.w < |s.workers| && l.move.Flushing? && HandOf(s.workers[l.w].phase, k) {
      var cbs := s.workers[l.w].phase.cbs;
      var i :| 0 <= i < |cbs| && cbs[i].Some? && cbs[i].value.ticket == k;
      FlushingQueues(s, l.w);
      var n := JobInHand(cbs, i);
      assert LambdaOf(Step(s, l).state.queue[|s.queue| + n], k);
    } else {
      HandStays(s, l, w);
      assert HandOf(Step(s, l).state.workers[w].phase, k);
    }
  }

  lemma {:induction false} JobInHand(cbs: seq<Option<Job>>, i: nat) returns (n: nat)
    requires i < |cbs| && cbs[i].Some?
    ensures n < |JobsOf(cbs)| && JobsOf(cbs)[n] == cbs[i].value
  {
    if i == 0 {
      n := 0;
    } else {
      n := JobInHand(cbs[1..], i - 1);
      if cbs[0].Some? { n := n + 1; }
    }
  }

  /** A hand is emptied by its worker alone. */
  lemma {:induction false} HandStays(s: State, l: Label, w: nat)
    requires |s.io.ctxs| >= Io.FIRST_SIZE && Step(s, l).Alive? && w < |s.workers| && s.workers[w].phase.Handing?
    requires !(l.ByWorker? && l.w == w && l.move.Flushing?)
    ensures Step(s, l).state.workers[w] == s.workers[w]
  {
    match l
    case ByWorker(v, AtTop) =>
      if v < |s.workers| {
        var i := Scan(s.queue, s.workers[v].tid, s.fibers);
        if s.workers[v].phase == Scanning && i < |s.queue| { LoopIs(s, v, i); }
      }
    case _ =>
  }

  /** An entry leaves the queue only when it is taken. */
  lemma {:induction false} EntryStays(s: State, l: Label, j: nat)
    requires Sound(s) && Step(s, l).Alive? && j < |s.queue|
    requires !(l.ByWorker? && Takes(s, l, l.w) && Scan(s.queue, s.workers[l.w].tid, s.fibers) == j)
    ensures exists i :: 0 <= i < |Step(s, l).state.queue| && Step(s, l).state.queue[i] == s.queue[j]
  {
    StepMovesEntry(s, l, j);
  }

  /** Taking the lambda makes a callback fiber owe the wake-up. */
  lemma {:induction false} TakenLambda(s: State, w: nat, k: nat)
    requires Sound(s) && k in s.naps && w < |s.workers| && Loop(s, w).Alive? && Takes(s, ByWorker(w, AtTop), w)
    requires LambdaOf(s.queue[Scan(s.queue, s.workers[w].tid, s.fibers)], k)
    ensures var t := Loop(s, w).state;
      t.workers[w].phase.Running? && t.workers[w].phase.fiber < |t.fibers| && OwedBy(t.fibers[t.workers[w].phase.fiber], k)
  {
    var i := Scan(s.queue, s.workers[w].tid, s.fibers);
    LoopIs(s, w, i);
    assert EntryRipe(s.queue[i], Now(s));
  }

  /** Taking the wake-up enters the sleeper. */
  lemma {:induction false} TakenWakeUp(s: State, w: nat, k: nat)
    requires Sound(s) && k in s.naps && w < |s.workers| && Loop(s, w).Alive? && Takes(s, ByWorker(w, AtTop), w)
    requires EntryOfWakeUp(s.queue[Scan(s.queue, s.workers[w].tid, s.fibers)], k)
    ensures var t, f := Loop(s, w).state, s.naps[k].fiber;
      && t.workers[w].phase == Running(f, false) && f < |t.fibers| && t.fibers[f].state == EXEC && t.fibers[f].nap.None?
      && t.consumed[k] == s.consumed[k] + 1 && s.naps[k].due <= s.clock
  {
    var i := Scan(s.queue, s.workers[w].tid, s.fibers);
    LoopIs(s, w, i);
    assert EntryRipe(s.queue[i], Now(s));
  }

  lemma {:induction false} FromQueue(s: State, l: Label, k: nat)
    requires Sound(s) && k in s.naps && Step(s, l).Alive?
    ensures At(s, k, AsLambda) ==> At(Step(s, l).state, k, if MovesOn(s, l, k, AsLambda) then Owed else AsLambda)
    ensures At(s, k, AsEntry) ==> At(Step(s, l).state, k, if MovesOn(s, l, k, AsEntry) then Used else AsEntry)
  {
    if MovesOn(s, l, k, AsLambda) {
      TakenLambda(s, l.w, k);
    } else if j :| 0 <= j < |s.queue| && LambdaOf(s.queue[j], k) {
      EntryStays(s, l, j);
    }
    if MovesOn(s, l, k, AsEntry) {
      TakenWakeUp(s, l.w, k);
    } else if j :| 0 <= j < |s.queue| && EntryOfWakeUp(s.queue[j], k) {
      EntryStays(s, l, j);
    }
  }

  /** A running fiber that owes a wake-up does nothing else before it has scheduled it. */
  lemma {:induction false} DoAndOwed(s: State, w: nat, a: Action, f: nat)
    requires Sound(s) && w < |s.workers| && Do(s, w, a).Alive? && f < |s.fibers| && s.fibers[f].owes.Some?
    ensures var t, k := Do(s, w, a).state, s.fibers[f].owes.value.ticket;
      if CanDo(s, w, a) && s.workers[w].phase.fiber == f
      then a.WakeSleeper? && t.queue == s.queue + [FiberEntry(s.fibers[f].owes.value, -1)]
      else f < |t.fibers| && t.fibers[f] == s.fibers[f]
  {
    assert FiberOk(s.fibers[f]);
    if CanDo(s, w, a) && s.workers[w].phase.fiber != f && !a.YieldReady? && !a.YieldHold? && !a.Return? && !a.Throw? {
      StayingInside(s, w, a);
    }
  }

  lemma {:induction false} LoopAndOwed(s: State, w: nat, f: nat)
    requires Sound(s) && w < |s.workers| && Loop(s, w).Alive? && f < |s.fibers| && s.fibers[f].owes.Some?
    ensures f < |Loop(s, w).state.fibers| && Loop(s, w).state.fibers[f] == s.fibers[f]
  {
    var i := Scan(s.queue, s.workers[w].tid, s.fibers);
    assert FiberOk(s.fibers[f]);
    if s.workers[w].phase == Scanning && i < |s.queue| { LoopIs(s, w, i); }
  }

  lemma {:induction false} LambdaSchedules(s: State, w: nat, k: nat)
    requires Sound(s) && w < |s.workers| && CanDo(s, w, WakeSleeper) && OwedBy(s.fibers[s.workers[w].phase.fiber], k)
    ensures Do(s, w, WakeSleeper).Alive? && At(Do(s, w, WakeSleeper).state, k, AsEntry)
  {
    DoAndOwed(s, w, WakeSleeper, s.workers[w].phase.fiber);
    assert EntryOfWakeUp(Do(s, w, WakeSleeper).state.queue[|s.queue|], k);
  }

  /** Unless it schedules the wake-up it owes, a fiber stays as it is. */
  lemma {:induction false} OwedStays(s: State, l: Label, f: nat)
    requires Sound(s) && Step(s, l).Alive? && f < |s.fibers| && s.fibers[f].owes.Some?
    requires !MovesOn(s, l, s.fibers[f].owes.value.ticket, Owed)
    ensures f < |Step(s, l).state.fibers| && Step(s, l).state.fibers[f] == s.fibers[f]
  {
    match l
    case ByWorker(w, m) =>
      if w < |s.workers| {
        match m
        case AtTop => LoopAndOwed(s, w, f);
        case Acting(a) => DoAndOwed(s, w, a, f);
        case Reporting(r, fail) => ReportFibers(s, w, r, fail);
        case _ =>
      }
    case Outside(a) => if !s.stopping { SharedFibers(s, a); }
    case _ =>
  }

  lemma {:induction false} FromOwed(s: State, l: Label, k: nat)
    requires Sound(s) && k in s.naps && Step(s, l).Alive? && At(s, k, Owed)
    ensures At(Step(s, l).state, k, if MovesOn(s, l, k, Owed) then AsEntry else Owed)
  {
    if MovesOn(s, l, k, Owed) {
      LambdaSchedules(s, l.w, k);
    } else {
      var f :| 0 <= f < |s.fibers| && OwedBy(s.fibers[f], k);
      OwedStays(s, l, f);
      assert OwedBy(Step(s, l).state.fibers[f], k);
    }
  }

  /** Every step either leaves a wake-up where it is, or takes it to the next place. It
      moves on exactly with these steps: from its timer with an expiry at its very
      millisecond while no timer in front is overdue; from a hand when that is flushed;
      through the queue when it is taken; and from the lambda when that schedules the sleeper. */
  lemma {:induction false} WakeUpMovesOn(s: State, l: Label, k: nat, p: Place)
    requires Sound(s) && k in s.naps && Step(s, l).Alive? && At(s, k, p)
    ensures At(Step(s, l).state, k, if MovesOn(s, l, k, p) then Next(p) else p)
  {
    match p
    case AsTimer => FromTimer(s, l, k);
    case InHand => FromHand(s, l, k);
    case AsLambda => FromQueue(s, l, k);
    case Owed => FromOwed(s, l, k);
    case AsEntry => FromQueue(s, l, k);
    case Used => StaysUsed(s, l, k);
  }

  lemma {:induction false} StaysUsed(s: State, l: Label, k: nat)
    requires |s.io.ctxs| >= Io.FIRST_SIZE && Step(s, l).Alive?
    ensures Step(s, l).state.consumed[k] >= s.consumed[k]
  {
    match l
    case ByWorker(w, AtTop) => if w < |s.workers| { LoopConsumes(s, w, k); }
    case ByWorker(w, Acting(a)) => if w < |s.workers| { DoConsumes(s, w, a); }
    case _ =>
  }

  lemma {:induction false} LoopConsumes(s: State, w: nat, k: nat)
    requires w < |s.workers| && Loop(s, w).Alive?
    ensures Loop(s, w).state.consumed[k] >= s.consumed[k]
  {
    var i := Scan(s.queue, s.workers[w].tid, s.fibers);
    if s.workers[w].phase == Scanning && i < |s.queue| { LoopIs(s, w, i); }
  }

  lemma {:induction false} DoConsumes(s: State, w: nat, a: Action)
    requires |s.io.ctxs| >= Io.FIRST_SIZE && w < |s.workers| && Do(s, w, a).Alive?
    ensures Do(s, w, a).state.consumed == s.consumed
  {
  }

  /** Where the steps of a run take the wake-up that is at p. */
  ghost function WentTo(s: State, ls: seq<Label>, k: nat, p: Place): Place
    requires Sound(s) && Run(s, ls).Alive?
    decreases |ls|
  {
    if ls == [] then p
    else
      StepKeepsSound(s, ls[0]);
      WentTo(Step(s, ls[0]).state, ls[1..], k, if MovesOn(s, ls[0], k, p) then Next(p) else p)
  }

  /** Over every run a wake-up goes this way, place by place, and no other. */
  lemma {:induction false} WakeUpOverRun(s: State, ls: seq<Label>, k: nat, p: Place)
    requires Sound(s) && k in s.naps && Run(s, ls).Alive? && At(s, k, p)
    ensures k in Run(s, ls).state.naps && Run(s, ls).state.naps[k] == s.naps[k]
    ensures forall q :: At(Run(s, ls).state, k, q) <==> q == WentTo(s, ls, k, p)
    decreases |ls|
  {
    if ls == [] {
      var q := InOnePlace(s, k);
    } else {
      WakeUpMovesOn(s, ls[0], k, p);
      StepKeepsSound(s, ls[0]);
      StepKeepsNoted(s, ls[0], k);
      WakeUpOverRun(Step(s, ls[0]).state, ls[1..], k, if MovesOn(s, ls[0], k, p) then Next(p) else p);
    }
  }
}
