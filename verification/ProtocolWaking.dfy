/** How and when a fiber comes out of a hooked sleep. */
module ProtocolWaking {
  import opened Common
  import Io = IoSpec
  import opened Protocol
  import opened ProtocolStructure
  import opened ProtocolKept
  import opened ProtocolBooks
  import opened ProtocolSleep
  import opened ProtocolRuns
  import opened ProtocolPrograms
  import opened ProtocolPlain

  // ----- leaving a sleep -----

  predicate Asleep(s: State, f: nat) {
    f < |s.fibers| && s.fibers[f].nap.Some?
  }

  /** The fiber is out of the sleep it was in. */
  predicate ComesOut(s: State, t: State, f: nat)
    requires Asleep(s, f)
  {
    f < |t.fibers| && t.fibers[f].nap != s.fibers[f].nap
  }

  /** The entry the step takes. */
  function Taken(s: State, l: Label): Entry
    requires l.ByWorker? && Takes(s, l, l.w)
  {
    s.queue[Scan(s.queue, s.workers[l.w].tid, s.fibers)]
  }

  lemma {:induction false} LoopAndSleepers(s: State, w: nat, f: nat)
    requires Fibers(s) && w < |s.workers| && Asleep(s, f) && Loop(s, w).Alive?
    ensures |s.fibers| <= |Loop(s, w).state.fibers|
    ensures ComesOut(s, Loop(s, w).state, f) <==> TakesFiber(s, ByWorker(w, AtTop), f)
  {
    var i := Scan(s.queue, s.workers[w].tid, s.fibers);
    assert FiberOk(s.fibers[f]);
    if s.workers[w].phase == Scanning && i < |s.queue| { LoopIs(s, w, i); }
  }

  lemma {:induction false} DoAndSleepers(s: State, w: nat, a: Action, f: nat)
    requires Inv(s) && Fibers(s) && w < |s.workers| && Asleep(s, f) && Do(s, w, a).Alive?
    ensures |s.fibers| <= |Do(s, w, a).state.fibers| && !ComesOut(s, Do(s, w, a).state, f)
  {
    assert FiberOk(s.fibers[f]);
    if CanDo(s, w, a) && !a.YieldReady? && !a.YieldHold? && !a.Return? && !a.Throw? {
      StayingInside(s, w, a);
    }
  }

  /** A sleeping fiber comes out of its sleep iff the step takes an entry of it. */
  lemma {:induction false} ComesOutIffTaken(s: State, l: Label, f: nat)
    requires Sound(s) && Asleep(s, f) && Step(s, l).Alive?
    ensures ComesOut(s, Step(s, l).state, f) <==> TakesFiber(s, l, f)
  {
    assert FiberOk(s.fibers[f]);
    match l
    case ByWorker(w, m) =>
      if w < |s.workers| {
        match m
        case AtTop => LoopAndSleepers(s, w, f);
        case Acting(a) => DoAndSleepers(s, w, a, f);
        case Reporting(r, fail) => ReportFibers(s, w, r, fail);
        case _ =>
      }
    case Outside(a) => if !s.stopping { SharedFibers(s, a); }
    case _ =>
  }

  /** It comes out through its own wake-up, and then not before the time asked for, iff
      the entry taken is that wake-up; through any other entry of it, it comes out whenever
      that entry is taken, and its wake-up stays live. */
  lemma {:induction false} WakeUpOrOtherEntry(s: State, l: Label, f: nat)
    requires Sound(s) && Asleep(s, f) && TakesFiber(s, l, f) && Step(s, l).Alive?
    ensures var k := s.fibers[f].nap.value;
      && k in s.naps && s.naps[k].fiber == f
      && (Step(s, l).state.consumed[k] > s.consumed[k] <==> Taken(s, l).handle.ticket == k)
      && (Taken(s, l).handle.ticket == k ==> s.naps[k].due <= s.clock)
      && (Taken(s, l).handle.ticket != k ==> Live(Step(s, l).state, k) == 1)
  {
    var k := s.fibers[f].nap.value;
    var t := Step(s, l).state;
    var i := Scan(s.queue, s.workers[l.w].tid, s.fibers);
    SleeperWillBeWoken(s, f);
    LoopIs(s, l.w, i);
    assert EntryRipe(s.queue[i], Now(s));
    assert FiberNap(f, s.fibers[f], Now(s), s.consumed);
    if Taken(s, l).handle.ticket != k {
      StepBalances(s, l, k);
      assert t.issued == s.issued && t.dropped == s.dropped && t.consumed[k] == s.consumed[k];
      SleepHasOneWakeUp(s, k);
    }
  }

  /** So a sleep is cut short iff an entry other than the wake-up is taken before its end. */
  lemma {:induction false} CutShortIffOtherEntryTaken(s: State, l: Label, f: nat)
    requires Sound(s) && Asleep(s, f) && Step(s, l).Alive?
    ensures s.fibers[f].nap.value in s.naps
    ensures var k := s.fibers[f].nap.value;
      (ComesOut(s, Step(s, l).state, f) && s.clock < s.naps[k].due)
      <==> (TakesFiber(s, l, f) && Taken(s, l).handle.ticket != k && s.clock < s.naps[k].due)
  {
    SleeperWillBeWoken(s, f);
    ComesOutIffTaken(s, l, f);
    if TakesFiber(s, l, f) { WakeUpOrOtherEntry(s, l, f); }
  }

  // ----- plain programs -----

  /** Where fibers are referred to by their wake-ups only, a sleeper comes out through its
      wake-up, and not before the time asked for. */
  lemma {:induction false} PlainSleepersComeOutWhenDue(s: State, l: Label, f: nat)
    requires Sound(s) && Waiting(s) && Asleep(s, f) && Step(s, l).Alive? && ComesOut(s, Step(s, l).state, f)
    ensures var k := s.fibers[f].nap.value;
      TakesFiber(s, l, f) && Taken(s, l).handle.ticket == k && k in s.naps && s.naps[k].due <= s.clock
  {
    ComesOutIffTaken(s, l, f);
    WakeUpOrOtherEntry(s, l, f);
    assert EntryWaits(Taken(s, l), s.fibers) && FiberOk(s.fibers[f]);
  }

  /** Plain runs keep what makes them so. */
  lemma {:induction false} PlainRunStaysWaiting(s: State, ls: seq<Label>)
    requires Sound(s) && Tidy(s) && Waiting(s) && PlainRun(s, ls)
    ensures Run(s, ls).Alive? && Tidy(Run(s, ls).state) && Waiting(Run(s, ls).state)
    decreases |ls|
  {
    if ls != [] {
      PlainIsCareful(s, ls[0]);
      CarefulStepLives(s, ls[0]);
      CarefulStepKeepsTidy(s, ls[0]);
      StepWaits(s, ls[0]);
      StepKeepsSound(s, ls[0]);
      PlainRunStaysWaiting(Step(s, ls[0]).state, ls[1..]);
    }
  }

  // ----- the seconds of a hooked sleep -----

  const TWO_TO_THE_32: nat := 0x1_0000_0000

  /** `sleep(seconds)`: the product is computed in 32 bits. */
  function HookedMs(seconds: nat): nat {
    seconds * 1000 % TWO_TO_THE_32
  }

  /** The sleep that starts is due after the seconds asked for iff their milliseconds fit
      32 bits, and too early otherwise. */
  lemma {:induction false} DueAfterSecondsIffTheyFit(s: State, w: nat, seconds: nat)
    requires Sound(s) && w < |s.workers| && CanDo(s, w, Sleep(HookedMs(seconds)))
    ensures var t, f, k := FallAsleep(s, s.workers[w].phase.fiber, HookedMs(seconds)), s.workers[w].phase.fiber, s.nextTicket;
      && Do(s, w, Sleep(HookedMs(seconds))) == Alive(t)
      && Asleep(t, f) && t.fibers[f].nap == Some(k) && k in t.naps && t.naps[k].fiber == f
      && t.naps[k].due <= s.clock + seconds * 1000
      && (t.naps[k].due == s.clock + seconds * 1000 <==> seconds * 1000 < TWO_TO_THE_32)
  {
  }

  /** Only a sleep that starts is noted, under the next number. */
  predicate Notes(s: State, t: State) {
    t.naps == s.naps || (s.nextTicket in t.naps && t.naps == s.naps[s.nextTicket := t.naps[s.nextTicket]])
  }

  lemma {:induction false} DoNotes(s: State, w: nat, a: Action)
    requires |s.io.ctxs| >= Io.FIRST_SIZE && w < |s.workers| && Do(s, w, a).Alive?
    ensures Notes(s, Do(s, w, a).state)
  {
  }

  lemma {:induction false} StepNotes(s: State, l: Label)
    requires |s.io.ctxs| >= Io.FIRST_SIZE && Step(s, l).Alive?
    ensures Notes(s, Step(s, l).state)
  {
    match l
    case ByWorker(w, Acting(a)) => if w < |s.workers| { DoNotes(s, w, a); }
    case _ =>
  }

  /** A sleep that was noted is not changed. */
  lemma {:induction false} StepKeepsNoted(s: State, l: Label, k: nat)
    requires Sound(s) && k in s.naps && Step(s, l).Alive?
    ensures k in Step(s, l).state.naps && Step(s, l).state.naps[k] == s.naps[k]
  {
    assert k < s.nextTicket;
    StepNotes(s, l);
  }

  lemma {:induction false} RunKeepsNoted(s: State, ls: seq<Label>, k: nat)
    requires Sound(s) && k in s.naps && Run(s, ls).Alive?
    ensures k in Run(s, ls).state.naps && Run(s, ls).state.naps[k] == s.naps[k]
    decreases |ls|
  {
    if ls != [] {
      StepKeepsNoted(s, ls[0], k);
      StepKeepsSound(s, ls[0]);
      RunKeepsNoted(Step(s, ls[0]).state, ls[1..], k);
    }
  }

  /** A fiber of a plain program calls `sleep(seconds)`. Whatever plain run follows, the
      step that lets it come out of this sleep happens the computed milliseconds later at
      the earliest; these are the seconds asked for iff seconds * 1000 fits 32 bits. */
  lemma {:induction false} HookedSleepLastsItsSeconds(s: State, w: nat, seconds: nat, ls: seq<Label>, l: Label)
    requires Sound(s) && Tidy(s) && Waiting(s) && w < |s.workers| && CanDo(s, w, Sleep(HookedMs(seconds)))
    requires PlainRun(s, [ByWorker(w, Acting(Sleep(HookedMs(seconds))))] + ls)
    ensures var f, k := s.workers[w].phase.fiber, s.nextTicket;
      var r := Run(s, [ByWorker(w, Acting(Sleep(HookedMs(seconds))))] + ls);
      && r.Alive?
      && (Asleep(r.state, f) && r.state.fibers[f].nap == Some(k) && Step(r.state, l).Alive? && ComesOut(r.state, Step(r.state, l).state, f) ==>
           r.state.clock >= s.clock + HookedMs(seconds))
    ensures HookedMs(seconds) == seconds * 1000 <==> seconds * 1000 < TWO_TO_THE_32
  {
    var l0 := ByWorker(w, Acting(Sleep(HookedMs(seconds))));
    var all := [l0] + ls;
    var f, k := s.workers[w].phase.fiber, s.nextTicket;
    DueAfterSecondsIffTheyFit(s, w, seconds);
    var s1 := FallAsleep(s, f, HookedMs(seconds));
    assert Step(s, l0) == Alive(s1) && all[0] == l0 && all[1..] == ls;
    StepKeepsSound(s, l0);
    PlainRunStaysWaiting(s, all);
    RunKeepsNoted(s1, ls, k);
    var t := Run(s, all).state;
    assert Run(s, all) == Run(s1, ls);
    if Asleep(t, f) && t.fibers[f].nap == Some(k) && Step(t, l).Alive? && ComesOut(t, Step(t, l).state, f) {
      PlainSleepersComeOutWhenDue(t, l, f);
    }
  }
}
