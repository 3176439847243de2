/** The fd contexts and the registry, with the fields the source updates in place. */
module IoRegistry {
  import opened Common
  import opened IoSpec

  class FdContext {
    const fd: nat
    var events: Mask
    var read: EventContext
    var write: EventContext

    constructor (fd: nat)
      ensures View() == Blank(fd)
    {
      this.fd, events, read, write := fd, NONE, EMPTY, EMPTY;
    }

    function View(): FdCtx
      reads this
    {
      FdCtx(fd, events, read, write)
    }

    /** `getContext`, for reading and for writing. */
    function GetContext(ev: Event): (s: EventContext)
      reads this
      ensures s == Slot(View(), ev)
    {
      match ev case READ => read case WRITE => write
    }

    method SetContext(ev: Event, s: EventContext)
      modifies this
      ensures View() == WithSlot(old(View()), ev, s)
    {
      match ev {
        case READ => read := s;
        case WRITE => write := s;
      }
    }

    /** `triggerEvent`; ok is false when the assertion, or the use of the scheduler, fails. */
    method TriggerEvent(ev: Event) returns (ok: bool, out: seq<Delivery>)
      modifies this
      ensures ok == Trigger(old(View()), ev).Some?
      ensures ok ==> (View(), out) == Trigger(old(View()), ev).value
    {
      out := [];
      if !Has(events, ev) {
        return false, out;
      }
      events := Without(events, ev);
      var ctx := GetContext(ev);
      if ctx.scheduler.None? {
        return false, out;
      }
      if ctx.cb.Some? {
        out := [Delivery(ctx.scheduler.value, CbWaiter(ctx.cb.value))];
        ctx := ctx.(cb := None);
      } else {
        if ctx.fiber.Some? {
          out := [Delivery(ctx.scheduler.value, FiberWaiter(ctx.fiber.value))];
        }
        ctx := ctx.(fiber := None);
      }
      ctx := ctx.(scheduler := None);
      SetContext(ev, ctx);
      return true, out;
    }

    /** The two `if`s that trigger reading and then writing. */
    method TriggerWanted(wanted: Mask) returns (ok: bool, out: seq<Delivery>, n: nat)
      modifies this
      ensures ok == TriggerBoth(old(View()), wanted).Some?
      ensures ok ==> (View(), out) == TriggerBoth(old(View()), wanted).value && n == Size(wanted)
    {
      ok, out, n := true, [], 0;
      if wanted.read {
        ok, out := TriggerEvent(READ);
        if !ok { return; }
        n := n + 1;
      }
      if wanted.write {
        var more;
        ok, more := TriggerEvent(WRITE);
        if !ok { return; }
        out, n := out + more, n + 1;
      }
    }
  }

  function Views(cs: seq<FdContext>): (vs: seq<FdCtx>)
    reads cs
    ensures |vs| == |cs| && forall i :: 0 <= i < |cs| ==> vs[i] == cs[i].View()
  {
    if cs == [] then [] else [cs[0].View()] + Views(cs[1..])
  }

  class Registry {
    var contexts: seq<FdContext>
    var pending: int
    /** The interest set the kernel keeps behind `epoll_ctl`. */
    var kernel: Kernel
    /** The run-queue entries made so far. */
    var handed: seq<Delivery>
    /** The waiters deleted so far. */
    ghost var deleted: seq<Waiter>

    /** Context i is the one of fd i; so no two entries of the table are the same object. */
    ghost predicate Indexed()
      reads this`contexts
    {
      |contexts| >= FIRST_SIZE && forall i :: 0 <= i < |contexts| ==> contexts[i].fd == i
    }

    ghost predicate Valid()
      reads this, contexts
    {
      Indexed() && Good(View())
    }

    function View(): (g: IoSpec.Registry)
      reads this`contexts, this`pending, this`kernel, contexts
      ensures |g.ctxs| == |contexts| && forall i :: 0 <= i < |contexts| ==> g.ctxs[i] == contexts[i].View()
    {
      IoSpec.Registry(Views(contexts), pending, kernel)
    }

    /** The state after an operation that the specification gives the outcome of. */
    twostate predicate Follows(o: Outcome)
      reads this, contexts
    {
      o.Done? ==> Indexed() && View() == o.reg && handed == old(handed) + o.out && deleted == old(deleted) + o.gone
    }

    constructor ()
      ensures Valid() && fresh(contexts) && handed == [] && deleted == []
      ensures View() == IoSpec.Registry(Resize([], FIRST_SIZE), 0, map[])
    {
      contexts, pending, kernel, handed, deleted := [], 0, map[], [], [];
      new;
      ContextResize(FIRST_SIZE);
      FreshIsGood();
      assert View().ctxs == Resize([], FIRST_SIZE);
    }

    ghost predicate Filled()
      reads this`contexts
    {
      forall i :: 0 <= i < |contexts| ==> contexts[i].fd == i
    }

    /** When no other context has changed, the table has changed at one place. */
    twostate lemma {:induction false} OnlyOneChanged(fd: nat)
      requires old(Indexed()) && contexts == old(contexts) && fd < |contexts|
      requires forall i :: 0 <= i < |contexts| && i != fd ==> unchanged(contexts[i])
      ensures View().ctxs == old(View()).ctxs[fd := contexts[fd].View()]
    {
    }

    /** `new hps_FdContext`, for the next index of the vector. */
    method NewContext()
      requires Filled()
      modifies this`contexts
      ensures Filled() && |contexts| == |old(contexts)| + 1 && old(contexts) <= contexts && fresh(contexts[|old(contexts)|])
      ensures View().ctxs == old(View()).ctxs + [Blank(|old(contexts)|)]
    {
      ghost var was := View().ctxs;
      var c := new FdContext(|contexts|);
      assert View().ctxs == was;
      contexts := contexts + [c];
      assert View().ctxs == was + [c.View()];
    }

    /** `contextResize`: the vector is cut or filled up with new contexts. */
    method ContextResize(size: nat)
      requires Filled()
      modifies this`contexts
      ensures Filled() && forall i :: 0 <= i < |contexts| ==> contexts[i] in old(contexts) || fresh(contexts[i])
      ensures View() == old(View()).(ctxs := Resize(old(View()).ctxs, size))
    {
      ghost var was := View().ctxs;
      if size < |contexts| {
        contexts := contexts[..size];
        assert View().ctxs == was[..size];
      }
      while |contexts| < size
        invariant Filled() && |contexts| <= size
        invariant forall j :: 0 <= j < |contexts| ==> contexts[j] in old(contexts) || fresh(contexts[j])
        invariant View().ctxs == Resize(was, |contexts|)
        decreases size - |contexts|
      {
        ResizeStep(was, |contexts|);
        NewContext();
      }
    }

    /** `epoll_ctl`; fail is what the kernel has against it. */
    method Ctl(op: CtlOp, fd: nat, evs: Mask, fail: bool) returns (rc: bool)
      modifies this`kernel
      ensures (rc, kernel) == EpollCtl(old(kernel), op, fd, evs, fail)
    {
      if fail || (op == ADD) == (fd in kernel) {
        return false;
      }
      if op == DEL {
        kernel := kernel - {fd};
      } else {
        kernel := kernel[fd := evs];
      }
      return true;
    }

    /** The context of an fd, in a table grown for it if need be. */
    method Lookup(fd: nat) returns (c: FdContext)
      requires Indexed()
      modifies this`contexts
      ensures Indexed() && fd < |contexts| && c == contexts[fd]
      ensures View() == old(View()).(ctxs := Grow(old(View()).ctxs, fd))
      ensures forall i :: 0 <= i < |contexts| ==> contexts[i] in old(contexts) || fresh(contexts[i])
    {
      if |contexts| <= fd {
        ContextResize(fd * 3 / 2);
      }
      c := contexts[fd];
    }

    /** `addEvent`; aborted stands for its first two assertions. The third one, that the
        fiber registered is EXEC, is about fibers: ProtocolRuns.WatcherIsExec. */
    method AddEvent(fd: nat, ev: Event, w: Waiter, sched: nat, fail: bool) returns (rc: int, aborted: bool)
      requires Indexed()
      modifies this, contexts
      ensures var o := IoSpec.AddEvent(old(View()), fd, ev, w, sched, fail);
        aborted == o.Abort? && (o.Done? ==> rc == (if o.ok then 0 else -1) && Follows(o))
    {
      var c := Lookup(fd);
      rc, aborted := Register(c, ev, w, sched, fail);
    }

    /** The rest of `addEvent`, under the lock of the context. */
    method Register(c: FdContext, ev: Event, w: Waiter, sched: nat, fail: bool) returns (rc: int, aborted: bool)
      requires Indexed() && c.fd < |contexts| && c == contexts[c.fd]
      modifies this, c
      ensures contexts == old(contexts)
      ensures var o := AddAt(old(View()), c.fd, ev, w, sched, fail);
        aborted == o.Abort? && (o.Done? ==> rc == (if o.ok then 0 else -1) && Follows(o))
    {
      if Has(c.events, ev) {
        return -1, true;
      }
      var op := if c.events != NONE then MOD else ADD;
      var ok := Ctl(op, c.fd, With(c.events, ev), fail);
      if !ok {
        return -1, false;
      }
      aborted := Fill(c, ev, w, sched);
      rc := if aborted then -1 else 0;
    }

    /** The event is set and its slot filled; aborted when the slot is not empty. */
    method Fill(c: FdContext, ev: Event, w: Waiter, sched: nat) returns (aborted: bool)
      requires Indexed() && c.fd < |contexts| && c == contexts[c.fd]
      modifies this`pending, c
      ensures aborted == (Slot(old(c.View()), ev) != EMPTY)
      ensures !aborted ==>
        var c' := WithSlot(old(c.View()).(events := With(old(c.View()).events, ev)), ev, SlotFor(w, sched));
        View() == IoSpec.Registry(old(View()).ctxs[c.fd := c'], old(pending) + 1, kernel)
    {
      pending := pending + 1;
      c.events := With(c.events, ev);
      var ctx := c.GetContext(ev);
      if ctx != EMPTY {
        return true;
      }
      c.SetContext(ev, SlotFor(w, sched));
      OnlyOneChanged(c.fd);
      return false;
    }

    /** `delEvent`. */
    method DelEvent(fd: nat, ev: Event, fail: bool) returns (ok: bool)
      requires Indexed()
      modifies this, contexts
      ensures var o := IoSpec.DelEvent(old(View()), fd, ev, fail);
        o.Done? && ok == o.ok && Follows(o)
    {
      if |contexts| <= fd {
        return false;
      }
      var c := contexts[fd];
      if !Has(c.events, ev) {
        return false;
      }
      label before:
      var left := Without(c.events, ev);
      ok := Ctl(if left != NONE then MOD else DEL, fd, left, fail);
      if !ok {
        return false;
      }
      pending := pending - 1;
      c.events := left;
      deleted := deleted + List(Held(c.GetContext(ev)));
      c.SetContext(ev, EMPTY);
      OnlyOneChanged@before(fd);
      return true;
    }

    /** `cancelEvent`; aborted stands for the assertion of `triggerEvent`. */
    method CancelEvent(fd: nat, ev: Event, fail: bool) returns (ok: bool, aborted: bool)
      requires Indexed()
      modifies this, contexts
      ensures var o := IoSpec.CancelEvent(old(View()), fd, ev, fail);
        aborted == o.Abort? && (o.Done? ==> ok == o.ok && Follows(o))
    {
      if |contexts| <= fd {
        return false, false;
      }
      var c := contexts[fd];
      if !Has(c.events, ev) {
        return false, false;
      }
      var left := Without(c.events, ev);
      ok := Ctl(if left != NONE then MOD else DEL, fd, left, fail);
      if !ok {
        return false, false;
      }
      aborted := HandOne(c, ev);
    }

    /** The event is triggered, and no longer pending. */
    method HandOne(c: FdContext, ev: Event) returns (aborted: bool)
      requires Indexed() && c.fd < |contexts| && c == contexts[c.fd]
      modifies this`handed, this`pending, c
      ensures var t := Trigger(old(c.View()), ev);
        && aborted == t.None?
        && (t.Some? ==>
             handed == old(handed) + t.value.1 &&
             View() == IoSpec.Registry(old(View()).ctxs[c.fd := t.value.0], old(pending) - 1, kernel))
    {
      var triggered, out := c.TriggerEvent(ev);
      if !triggered {
        return true;
      }
      handed := handed + out;
      pending := pending - 1;
      OnlyOneChanged(c.fd);
      return false;
    }

    /** `cancelAll`; aborted stands for its assertion and those of `triggerEvent`. */
    method CancelAll(fd: nat, fail: bool) returns (ok: bool, aborted: bool)
      requires Indexed()
      modifies this, contexts
      ensures var o := IoSpec.CancelAll(old(View()), fd, fail);
        aborted == o.Abort? && (o.Done? ==> ok == o.ok && Follows(o))
    {
      if |contexts| <= fd {
        return false, false;
      }
      var c := contexts[fd];
      if c.events == NONE {
        return false, false;
      }
      ok := Ctl(DEL, fd, NONE, fail);
      if !ok {
        return false, false;
      }
      aborted := Hand(c, c.events);
      if c.events != NONE {
        aborted := true;
      }
    }

    /** The handling of one reported fd in the idle loop; aborted stands for the
        assertion of `triggerEvent`. */
    method HandleReport(r: Report, fail: bool) returns (aborted: bool)
      requires Indexed() && r.fd < |contexts|
      modifies this, contexts
      ensures var o := Dispatch(old(View()), r, fail);
        aborted == o.Abort? && (o.Done? ==> Follows(o))
    {
      var c := contexts[r.fd];
      var hit := Reported(r);
      if And(c.events, hit) == NONE {
        return false;
      }
      var left := AndNot(c.events, hit);
      var ok := Ctl(if left != NONE then MOD else DEL, r.fd, left, fail);
      if !ok {
        return false;
      }
      aborted := Hand(c, hit);
    }

    /** These events are triggered, and no longer pending. */
    method Hand(c: FdContext, wanted: Mask) returns (aborted: bool)
      requires Indexed() && c.fd < |contexts| && c == contexts[c.fd]
      modifies this`handed, this`pending, c
      ensures var t := TriggerBoth(old(c.View()), wanted);
        && aborted == t.None?
        && (t.Some? ==>
             handed == old(handed) + t.value.1 &&
             View() == IoSpec.Registry(old(View()).ctxs[c.fd := t.value.0], old(pending) - Size(wanted), kernel))
    {
      var triggered, out, n := c.TriggerWanted(wanted);
      if !triggered {
        return true;
      }
      handed := handed + out;
      pending := pending - n;
      OnlyOneChanged(c.fd);
      return false;
    }

    /** Any request. A good registry stays good, so along any run of requests the only
        assertions that can fail are the two that IoSpec names. */
    method Serve(q: Request) returns (aborted: bool)
      requires Valid() && (q.Ready? ==> q.report.fd < |contexts|)
      modifies this, contexts
      ensures aborted == Apply(old(View()), q).Abort?
      ensures !aborted ==> Valid() && Follows(Apply(old(View()), q))
    {
      ApplyAccounts(View(), q, (w: Waiter) => 0);
      var rc, ok;
      match q {
        case Add(fd, ev, w, sched, fail) => rc, aborted := AddEvent(fd, ev, w, sched, fail);
        case Del(fd, ev, fail) => ok := DelEvent(fd, ev, fail); aborted := false;
        case Cancel(fd, ev, fail) => ok, aborted := CancelEvent(fd, ev, fail);
        case CancelEvery(fd, fail) => ok, aborted := CancelAll(fd, fail);
        case Ready(r, fail) => aborted := HandleReport(r, fail);
      }
    }
  }
}
