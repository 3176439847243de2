/** The fd event registry as a value: slots, the kernel's interest set, the pending counter. */
module IoSpec {
  import opened Common

  datatype Event = READ | WRITE

  /** The bits of `events`: registered for reading, registered for writing. */
  datatype Mask = Mask(read: bool, write: bool)

  const NONE := Mask(false, false)

  predicate Has(m: Mask, ev: Event) {
    match ev case READ => m.read case WRITE => m.write
  }

  function With(m: Mask, ev: Event): Mask {
    match ev case READ => m.(read := true) case WRITE => m.(write := true)
  }

  function Without(m: Mask, ev: Event): Mask {
    match ev case READ => m.(read := false) case WRITE => m.(write := false)
  }

  function And(a: Mask, b: Mask): Mask {
    Mask(a.read && b.read, a.write && b.write)
  }

  function AndNot(a: Mask, b: Mask): Mask {
    Mask(a.read && !b.read, a.write && !b.write)
  }

  predicate Within(a: Mask, b: Mask) {
    (a.read ==> b.read) && (a.write ==> b.write)
  }

  function Size(m: Mask): nat {
    (if m.read then 1 else 0) + (if m.write then 1 else 0)
  }

  /** One slot: where to deliver, and what. */
  datatype EventContext = EventContext(scheduler: Option<nat>, fiber: Option<Handle>, cb: Option<Job>)

  const EMPTY := EventContext(None, None, None)

  datatype FdCtx = FdCtx(fd: nat, events: Mask, read: EventContext, write: EventContext)

  datatype Waiter = CbWaiter(job: Job) | FiberWaiter(handle: Handle)

  /** A waiter handed to the run queue of a scheduler. */
  datatype Delivery = Delivery(scheduler: nat, waiter: Waiter)

  type Kernel = map<nat, Mask>

  datatype CtlOp = ADD | MOD | DEL

  datatype Registry = Registry(ctxs: seq<FdCtx>, pending: int, kernel: Kernel)

  /** What one operation leads to: a failed assertion, or the new registry, the
      result, the waiters handed over, in order, and the waiter deleted. */
  datatype Outcome =
    | Abort
    | Done(reg: Registry, ok: bool, out: seq<Delivery>, gone: seq<Waiter>)

  // ----- the kernel -----

  /** `epoll_ctl`: it fails when the kernel says so, when an added fd is there, or a changed one is not. */
  function EpollCtl(k: Kernel, op: CtlOp, fd: nat, evs: Mask, fail: bool): (bool, Kernel) {
    if fail || (op == ADD) == (fd in k) then (false, k)
    else if op == DEL then (true, k - {fd})
    else (true, k[fd := evs])
  }

  // ----- slots -----

  function Slot(c: FdCtx, ev: Event): EventContext {
    match ev case READ => c.read case WRITE => c.write
  }

  function WithSlot(c: FdCtx, ev: Event, s: EventContext): FdCtx {
    match ev case READ => c.(read := s) case WRITE => c.(write := s)
  }

  function SlotFor(w: Waiter, sched: nat): EventContext {
    match w
    case CbWaiter(job) => EventContext(Some(sched), None, Some(job))
    case FiberWaiter(handle) => EventContext(Some(sched), Some(handle), None)
  }

  /** The waiter a slot holds; the callback is looked at first. */
  function Held(s: EventContext): Option<Waiter> {
    if s.cb.Some? then Some(CbWaiter(s.cb.value))
    else if s.fiber.Some? then Some(FiberWaiter(s.fiber.value))
    else None
  }

  function List<T>(o: Option<T>): seq<T> {
    if o.Some? then [o.value] else []
  }

  /** `triggerEvent`. The swap into the queue entry empties the field it takes. */
  function Trigger(c: FdCtx, ev: Event): Option<(FdCtx, seq<Delivery>)> {
    var s := Slot(c, ev);
    if !Has(c.events, ev) || s.scheduler.None? then None
    else
      var left := if s.cb.Some? then s.(cb := None) else s.(fiber := None);
      var out := if Held(s).Some? then [Delivery(s.scheduler.value, Held(s).value)] else [];
      Some((WithSlot(c.(events := Without(c.events, ev)), ev, left.(scheduler := None)), out))
  }

  /** READ if it is wanted, then WRITE if it is wanted. */
  function TriggerBoth(c: FdCtx, wanted: Mask): Option<(FdCtx, seq<Delivery>)> {
    var first := if wanted.read then Trigger(c, READ) else Some((c, []));
    if first.None? || !wanted.write then first
    else
      var second := Trigger(first.value.0, WRITE);
      if second.None? then None else Some((second.value.0, first.value.1 + second.value.1))
  }

  // ----- the table -----

  const FIRST_SIZE: nat := 32

  function Blank(fd: nat): FdCtx {
    FdCtx(fd, NONE, EMPTY, EMPTY)
  }

  /** `contextResize`: shrinks as readily as it grows. */
  function Resize(ctxs: seq<FdCtx>, size: nat): (r: seq<FdCtx>)
    ensures |r| == size
  {
    if size <= |ctxs| then ctxs[..size]
    else ctxs + seq(size - |ctxs|, i requires 0 <= i => Blank(|ctxs| + i))
  }

  /** Look the context up, or grow the table to one and a half times the fd. */
  function Grow(ctxs: seq<FdCtx>, fd: nat): seq<FdCtx> {
    if |ctxs| > fd then ctxs else Resize(ctxs, fd * 3 / 2)
  }

  // ----- the operations -----

  function AddEvent(g: Registry, fd: nat, ev: Event, w: Waiter, sched: nat, fail: bool): Outcome
    requires |g.ctxs| >= FIRST_SIZE
  {
    AddAt(g.(ctxs := Grow(g.ctxs, fd)), fd, ev, w, sched, fail)
  }

  /** Adding once the context has been found or made. */
  function AddAt(r: Registry, fd: nat, ev: Event, w: Waiter, sched: nat, fail: bool): Outcome
    requires fd < |r.ctxs|
  {
    var c := r.ctxs[fd];
    var (rc, k) := EpollCtl(r.kernel, if c.events != NONE then MOD else ADD, fd, With(c.events, ev), fail);
    if Has(c.events, ev) then Abort
    else if !rc then Done(r, false, [], [])
    else if Slot(c, ev) != EMPTY then Abort
    else
      var c' := WithSlot(c.(events := With(c.events, ev)), ev, SlotFor(w, sched));
      Done(Registry(r.ctxs[fd := c'], r.pending + 1, k), true, [], [])
  }

  function DelEvent(g: Registry, fd: nat, ev: Event, fail: bool): Outcome {
    if |g.ctxs| <= fd || !Has(g.ctxs[fd].events, ev) then Done(g, false, [], [])
    else
      var c := g.ctxs[fd];
      var left := Without(c.events, ev);
      var (rc, k) := EpollCtl(g.kernel, if left != NONE then MOD else DEL, fd, left, fail);
      if !rc then Done(g, false, [], [])
      else
        var c' := WithSlot(c.(events := left), ev, EMPTY);
        Done(Registry(g.ctxs[fd := c'], g.pending - 1, k), true, [], List(Held(Slot(c, ev))))
  }

  function CancelEvent(g: Registry, fd: nat, ev: Event, fail: bool): Outcome {
    if |g.ctxs| <= fd || !Has(g.ctxs[fd].events, ev) then Done(g, false, [], [])
    else
      var c := g.ctxs[fd];
      var left := Without(c.events, ev);
      var (rc, k) := EpollCtl(g.kernel, if left != NONE then MOD else DEL, fd, left, fail);
      if !rc then Done(g, false, [], [])
      else
        var t := Trigger(c, ev);
        if t.None? then Abort
        else Done(Registry(g.ctxs[fd := t.value.0], g.pending - 1, k), true, t.value.1, [])
  }

  function CancelAll(g: Registry, fd: nat, fail: bool): Outcome {
    if |g.ctxs| <= fd || g.ctxs[fd].events == NONE then Done(g, false, [], [])
    else
      var c := g.ctxs[fd];
      var (rc, k) := EpollCtl(g.kernel, DEL, fd, NONE, fail);
      if !rc then Done(g, false, [], [])
      else
        var t := TriggerBoth(c, c.events);
        if t.None? || t.value.0.events != NONE then Abort
        else Done(Registry(g.ctxs[fd := t.value.0], g.pending - Size(c.events), k), true, t.value.1, [])
  }

  /** What the kernel reports for an fd: EPOLLIN, EPOLLOUT, and EPOLLERR or EPOLLHUP. */
  datatype Report = Report(fd: nat, readable: bool, writable: bool, broken: bool)

  /** An error or a hang-up counts as both events. */
  function Reported(r: Report): Mask {
    Mask(r.readable || r.broken, r.writable || r.broken)
  }

  /** The dispatch of one report. Every reported event is triggered, registered or not. */
  function Dispatch(g: Registry, r: Report, fail: bool): Outcome
    requires r.fd < |g.ctxs|
  {
    var c := g.ctxs[r.fd];
    var hit := Reported(r);
    if And(c.events, hit) == NONE then Done(g, false, [], [])
    else
      var left := AndNot(c.events, hit);
      var (rc, k) := EpollCtl(g.kernel, if left != NONE then MOD else DEL, r.fd, left, fail);
      if !rc then Done(g, false, [], [])
      else
        var t := TriggerBoth(c, hit);
        if t.None? then Abort
        else Done(Registry(g.ctxs[r.fd := t.value.0], g.pending - Size(hit), k), true, t.value.1, [])
  }

  // ----- the invariant -----

  /** A registered event has a scheduler and exactly one waiter; an unregistered one has an empty slot. */
  ghost predicate SlotShape(c: FdCtx, ev: Event) {
    var s := Slot(c, ev);
    if Has(c.events, ev) then s.scheduler.Some? && (s.fiber.Some? <==> s.cb.None?) else s == EMPTY
  }

  ghost predicate Shape(c: FdCtx) {
    SlotShape(c, READ) && SlotShape(c, WRITE)
  }

  /** The kernel watches an fd for exactly the events of its context. */
  ghost predicate Mirror(ctxs: seq<FdCtx>, kernel: Kernel) {
    && (forall fd :: fd in kernel ==> fd < |ctxs| && kernel[fd] == ctxs[fd].events && kernel[fd] != NONE)
    && (forall fd :: 0 <= fd < |ctxs| && ctxs[fd].events != NONE ==> fd in kernel)
  }

  function Registered(c: FdCtx): nat {
    Size(c.events)
  }

  ghost predicate Good(g: Registry) {
    && |g.ctxs| >= FIRST_SIZE
    && (forall fd :: 0 <= fd < |g.ctxs| ==> g.ctxs[fd].fd == fd && Shape(g.ctxs[fd]))
    && Mirror(g.ctxs, g.kernel)
    && g.pending == Total(g.ctxs, Registered)
  }

  // ----- weighing waiters -----

  /** The weight of what a slot holds. */
  function SlotWeight(s: EventContext, f: Waiter -> nat): nat {
    if Held(s).Some? then f(Held(s).value) else 0
  }

  function ContextWeight(f: Waiter -> nat): FdCtx -> nat {
    (c: FdCtx) => SlotWeight(c.read, f) + SlotWeight(c.write, f)
  }

  /** The weight of everything registered. */
  function Weight(g: Registry, f: Waiter -> nat): nat {
    Total(g.ctxs, ContextWeight(f))
  }

  function HandedWeight(f: Waiter -> nat): Delivery -> nat {
    (d: Delivery) => f(d.waiter)
  }

  /** The weight that counts one waiter. */
  function Counting(w: Waiter): Waiter -> nat {
    (v: Waiter) => if v == w then 1 else 0
  }

  // ----- preservation -----

  /** What triggering does to one well-shaped context. */
  lemma {:induction false} TriggerMoves(c: FdCtx, ev: Event, f: Waiter -> nat)
    requires Shape(c)
    ensures Trigger(c, ev).Some? <==> Has(c.events, ev)
    ensures Has(c.events, ev) ==>
      var (c', out) := Trigger(c, ev).value;
      && Shape(c') && c'.fd == c.fd && c'.events == Without(c.events, ev)
      && ContextWeight(f)(c') + Total(out, HandedWeight(f)) == ContextWeight(f)(c)
  {
    if Has(c.events, ev) {
      var (c', out) := Trigger(c, ev).value;
      assert out[1..] == [];
      assert Total(out, HandedWeight(f)) == HandedWeight(f)(out[0]);
    }
  }

  /** Triggering a set of events succeeds iff all of them are registered. */
  lemma {:induction false} TriggerBothMoves(c: FdCtx, wanted: Mask, f: Waiter -> nat)
    requires Shape(c)
    ensures TriggerBoth(c, wanted).Some? <==> Within(wanted, c.events)
    ensures Within(wanted, c.events) ==>
      var (c', out) := TriggerBoth(c, wanted).value;
      && Shape(c') && c'.fd == c.fd && c'.events == AndNot(c.events, wanted)
      && ContextWeight(f)(c') + Total(out, HandedWeight(f)) == ContextWeight(f)(c)
  {
    if wanted.read {
      TriggerMoves(c, READ, f);
    }
    var first := if wanted.read then Trigger(c, READ) else Some((c, []));
    if first.Some? {
      if wanted.write {
        TriggerMoves(first.value.0, WRITE, f);
        if c.events.write {
          TotalAppend(first.value.1, Trigger(first.value.0, WRITE).value.1, HandedWeight(f));
        }
      }
    }
  }

  lemma {:induction false} BlanksCountNothing(ctxs: seq<FdCtx>, size: nat, f: FdCtx -> nat)
    requires |ctxs| <= size && forall fd: nat :: f(Blank(fd)) == 0
    ensures Total(Resize(ctxs, size), f) == Total(ctxs, f)
  {
    var more := Resize(ctxs, size)[|ctxs|..];
    assert Resize(ctxs, size) == ctxs + more;
    assert forall i :: 0 <= i < |more| ==> more[i] == Blank(|ctxs| + i);
    TotalAppend(ctxs, more, f);
    TotalZero(more, f);
  }

  /** Growing keeps every context, fills in blank ones, and reaches past the fd. */
  lemma {:induction false} GrowKeeps(g: Registry, fd: nat, f: Waiter -> nat)
    requires Good(g)
    ensures var r := g.(ctxs := Grow(g.ctxs, fd));
      Good(r) && fd < |r.ctxs| && g.ctxs <= r.ctxs && Weight(r, f) == Weight(g, f)
  {
    if |g.ctxs| <= fd {
      BlanksCountNothing(g.ctxs, fd * 3 / 2, Registered);
      BlanksCountNothing(g.ctxs, fd * 3 / 2, ContextWeight(f));
    }
  }

  lemma {:induction false} ResizeStep(ctxs: seq<FdCtx>, size: nat)
    requires |ctxs| <= size
    ensures Resize(ctxs, size + 1) == Resize(ctxs, size) + [Blank(size)]
  {
  }

  /** The resize the growing branch calls keeps the contexts iff it is not asked for
      fewer than there are, which nothing checks again under the write lock. */
  lemma {:induction false} ResizeKeepsIffNotSmaller(ctxs: seq<FdCtx>, size: nat)
    ensures ctxs <= Resize(ctxs, size) <==> |ctxs| <= size
  {
    if |ctxs| <= size {
      assert ctxs == Resize(ctxs, size)[..|ctxs|];
    }
  }

  /** Two racing adds that both found the table too small: the one that takes the lock
      second drops contexts the first one made iff it asks for fewer, and among them
      the one the first one asked for iff the new table does not reach it. */
  lemma {:induction false} RacingGrowth(ctxs: seq<FdCtx>, fd1: nat, fd2: nat)
    requires |ctxs| <= fd1 && |ctxs| <= fd2
    ensures var first := Grow(ctxs, fd1);
      && first == Resize(ctxs, fd1 * 3 / 2)
      && (first <= Resize(first, fd2 * 3 / 2) <==> fd1 * 3 / 2 <= fd2 * 3 / 2)
      && (fd1 < |Resize(first, fd2 * 3 / 2)| <==> fd1 < fd2 * 3 / 2)
  {
    ResizeKeepsIffNotSmaller(Resize(ctxs, fd1 * 3 / 2), fd2 * 3 / 2);
  }

  /** Changing one context and the kernel's entry for it together keeps the registry
      good, and moves the weight by the difference it makes. */
  lemma {:induction false} Replaced(g: Registry, fd: nat, c: FdCtx, k: Kernel, op: CtlOp, f: Waiter -> nat)
    requires Good(g) && fd < |g.ctxs| && c.fd == fd && Shape(c)
    requires EpollCtl(g.kernel, op, fd, c.events, false) == (true, k)
    requires op == DEL <==> c.events == NONE
    ensures var r := Registry(g.ctxs[fd := c], g.pending - Size(g.ctxs[fd].events) + Size(c.events), k);
      Good(r) && Weight(r, f) + ContextWeight(f)(g.ctxs[fd]) == Weight(g, f) + ContextWeight(f)(c)
  {
    TotalUpdate(g.ctxs, fd, c, Registered);
    TotalUpdate(g.ctxs, fd, c, ContextWeight(f));
    MirrorKept(g, fd, c, k, op);
  }

  lemma {:induction false} MirrorKept(g: Registry, fd: nat, c: FdCtx, k: Kernel, op: CtlOp)
    requires Mirror(g.ctxs, g.kernel) && fd < |g.ctxs|
    requires EpollCtl(g.kernel, op, fd, c.events, false) == (true, k)
    requires op == DEL <==> c.events == NONE
    ensures Mirror(g.ctxs[fd := c], k)
  {
  }

  /** On a good registry the chosen operation fits: only the kernel can make `epoll_ctl` fail. */
  lemma {:induction false} ChosenOpFits(g: Registry, fd: nat, evs: Mask, fail: bool)
    requires Good(g) && fd < |g.ctxs|
    ensures EpollCtl(g.kernel, if g.ctxs[fd].events != NONE then MOD else ADD, fd, evs, fail).0 <==> !fail
    ensures g.ctxs[fd].events != NONE ==> (EpollCtl(g.kernel, if evs != NONE then MOD else DEL, fd, evs, fail).0 <==> !fail)
    ensures EpollCtl(g.kernel, if g.ctxs[fd].events != NONE then MOD else ADD, fd, evs, true).1 == g.kernel
  {
  }

  // ----- one operation -----

  /** An operation keeps the registry good, and every waiter it had, plus the added
      one, is now in a slot, handed over, or deleted: none twice, none lost. */
  ghost predicate Accounts(g: Registry, o: Outcome, f: Waiter -> nat, added: nat) {
    o.Done? ==>
      && Good(o.reg) && |g.ctxs| <= |o.reg.ctxs|
      && Weight(o.reg, f) + Total(o.out, HandedWeight(f)) + Total(o.gone, f) == Weight(g, f) + added
  }

  lemma {:induction false} TotalOne<T>(x: T, f: T -> nat)
    ensures Total([x], f) == f(x) && Total([], f) == 0
  {
    assert [x][1..] == [];
  }

  lemma {:induction false} FillSlot(c: FdCtx, ev: Event, w: Waiter, sched: nat, f: Waiter -> nat)
    requires Shape(c) && !Has(c.events, ev)
    ensures var c' := WithSlot(c.(events := With(c.events, ev)), ev, SlotFor(w, sched));
      && Shape(c') && c'.fd == c.fd && Size(c'.events) == Size(c.events) + 1 && c'.events != NONE
      && Held(Slot(c', ev)) == Some(w)
      && ContextWeight(f)(c') == ContextWeight(f)(c) + f(w)
  {
  }

  lemma {:induction false} AddAtAccounts(r: Registry, fd: nat, ev: Event, w: Waiter, sched: nat, fail: bool, f: Waiter -> nat)
    requires Good(r) && fd < |r.ctxs|
    ensures var o := AddAt(r, fd, ev, w, sched, fail);
      && (o.Abort? <==> Has(r.ctxs[fd].events, ev))
      && (o.Done? ==> o.ok == !fail)
      && (o.Done? && fail ==> o.reg == r)
      && (o.Done? && !fail ==> Held(Slot(o.reg.ctxs[fd], ev)) == Some(w) && o.out == [] && o.gone == [])
      && Accounts(r, o, f, if fail then 0 else f(w))
  {
    var c := r.ctxs[fd];
    ChosenOpFits(r, fd, With(c.events, ev), fail);
    if !Has(c.events, ev) && !fail {
      var c' := WithSlot(c.(events := With(c.events, ev)), ev, SlotFor(w, sched));
      FillSlot(c, ev, w, sched, f);
      Replaced(r, fd, c', r.kernel[fd := c'.events], if c.events != NONE then MOD else ADD, f);
    }
  }

  /** Adding fails an assertion iff the event is registered already; otherwise it
      succeeds iff the kernel agrees, and a refusal registers nothing. */
  lemma {:induction false} AddEventAccounts(g: Registry, fd: nat, ev: Event, w: Waiter, sched: nat, fail: bool, f: Waiter -> nat)
    requires Good(g)
    ensures var o := AddEvent(g, fd, ev, w, sched, fail);
      && (o.Abort? <==> fd < |g.ctxs| && Has(g.ctxs[fd].events, ev))
      && (o.Done? ==> o.ok == !fail)
      && (o.Done? && fail ==> o.reg == g.(ctxs := Grow(g.ctxs, fd)))
      && (o.Done? && !fail ==> Held(Slot(o.reg.ctxs[fd], ev)) == Some(w) && o.out == [] && o.gone == [])
      && Accounts(g, o, f, if fail then 0 else f(w))
  {
    GrowKeeps(g, fd, f);
    AddAtAccounts(g.(ctxs := Grow(g.ctxs, fd)), fd, ev, w, sched, fail, f);
  }

  /** Deleting removes the waiter for good iff it is registered and the kernel agrees. */
  lemma {:induction false} DelEventAccounts(g: Registry, fd: nat, ev: Event, fail: bool, f: Waiter -> nat)
    requires Good(g)
    ensures var o := DelEvent(g, fd, ev, fail);
      && o.Done?
      && o.ok == (fd < |g.ctxs| && Has(g.ctxs[fd].events, ev) && !fail)
      && (!o.ok ==> o == Done(g, false, [], []))
      && (o.ok ==> o.out == [] && o.gone == [Held(Slot(g.ctxs[fd], ev)).value])
      && Accounts(g, o, f, 0)
  {
    if fd < |g.ctxs| && Has(g.ctxs[fd].events, ev) && !fail {
      var c := g.ctxs[fd];
      var left := Without(c.events, ev);
      ChosenOpFits(g, fd, left, fail);
      var c' := WithSlot(c.(events := left), ev, EMPTY);
      var op := if left != NONE then MOD else DEL;
      Replaced(g, fd, c', EpollCtl(g.kernel, op, fd, left, false).1, op, f);
      TotalOne(Held(Slot(c, ev)).value, f);
    }
  }

  /** Cancelling hands the waiter over instead of deleting it. */
  lemma {:induction false} CancelEventAccounts(g: Registry, fd: nat, ev: Event, fail: bool, f: Waiter -> nat)
    requires Good(g)
    ensures var o := CancelEvent(g, fd, ev, fail);
      && o.Done?
      && o.ok == (fd < |g.ctxs| && Has(g.ctxs[fd].events, ev) && !fail)
      && (!o.ok ==> o == Done(g, false, [], []))
      && (o.ok ==> o.gone == [] && |o.out| == 1 && Some(o.out[0].waiter) == Held(Slot(g.ctxs[fd], ev)))
      && Accounts(g, o, f, 0)
  {
    if fd < |g.ctxs| && Has(g.ctxs[fd].events, ev) && !fail {
      var c := g.ctxs[fd];
      var left := Without(c.events, ev);
      ChosenOpFits(g, fd, left, fail);
      TriggerMoves(c, ev, f);
      var c' := Trigger(c, ev).value.0;
      var op := if left != NONE then MOD else DEL;
      Replaced(g, fd, c', EpollCtl(g.kernel, op, fd, left, false).1, op, f);
    }
  }

  /** Cancelling all hands over everything the fd has and leaves it without events. */
  lemma {:induction false} CancelAllAccounts(g: Registry, fd: nat, fail: bool, f: Waiter -> nat)
    requires Good(g)
    ensures var o := CancelAll(g, fd, fail);
      && o.Done?
      && o.ok == (fd < |g.ctxs| && g.ctxs[fd].events != NONE && !fail)
      && (!o.ok ==> o == Done(g, false, [], []))
      && (o.ok ==> o.gone == [] && o.reg.ctxs[fd].events == NONE && fd !in o.reg.kernel)
      && Accounts(g, o, f, 0)
  {
    if fd < |g.ctxs| && g.ctxs[fd].events != NONE && !fail {
      var c := g.ctxs[fd];
      TriggerBothMoves(c, c.events, f);
      var c' := TriggerBoth(c, c.events).value.0;
      assert c'.events == NONE;
      Replaced(g, fd, c', g.kernel - {fd}, DEL, f);
    }
  }

  /** Dispatching a report fails an assertion iff the kernel agrees to the change and
      the report, while it concerns the fd, names an event that is not registered. */
  lemma {:induction false} DispatchAccounts(g: Registry, r: Report, fail: bool, f: Waiter -> nat)
    requires Good(g) && r.fd < |g.ctxs|
    ensures var o := Dispatch(g, r, fail);
      var evs := g.ctxs[r.fd].events;
      && (o.Abort? <==> !fail && And(evs, Reported(r)) != NONE && !Within(Reported(r), evs))
      && (o.Done? ==> o.gone == [])
      && (o.Done? && (fail || And(evs, Reported(r)) == NONE) ==> o == Done(g, false, [], []))
      && (o.Done? && !fail && And(evs, Reported(r)) != NONE ==> o.reg.ctxs[r.fd].events == AndNot(evs, Reported(r)))
      && Accounts(g, o, f, 0)
  {
    var c := g.ctxs[r.fd];
    var hit := Reported(r);
    if !fail && And(c.events, hit) != NONE {
      var left := AndNot(c.events, hit);
      ChosenOpFits(g, r.fd, left, fail);
      TriggerBothMoves(c, hit, f);
      if Within(hit, c.events) {
        var c' := TriggerBoth(c, hit).value.0;
        assert Size(c'.events) == Size(c.events) - Size(hit);
        var op := if left != NONE then MOD else DEL;
        Replaced(g, r.fd, c', EpollCtl(g.kernel, op, r.fd, left, false).1, op, f);
      }
    }
  }

  // ----- which waiter goes where -----

  /** The delivery hands what the slot holds to the scheduler of the slot. */
  ghost predicate HandsOver(d: Delivery, s: EventContext) {
    && s.scheduler == Some(d.scheduler)
    && match d.waiter
       case CbWaiter(job) => s.cb == Some(job)
       case FiberWaiter(handle) => s.cb == None && s.fiber == Some(handle)
  }

  /** The deliveries are that of the READ slot if it is wanted, and then that of the WRITE
      slot if it is wanted, and nothing else. */
  ghost predicate HandsOverBoth(out: seq<Delivery>, c: FdCtx, read: bool, write: bool) {
    && |out| == (if read then 1 else 0) + (if write then 1 else 0)
    && (read ==> HandsOver(out[0], c.read))
    && (write ==> HandsOver(out[|out| - 1], c.write))
  }

  /** Of the context c, c' has the wanted slots emptied and the others as they were. */
  ghost predicate Emptied(c: FdCtx, c': FdCtx, read: bool, write: bool) {
    && c'.fd == c.fd
    && c'.events.read == (c.events.read && !read) && c'.events.write == (c.events.write && !write)
    && c'.read == (if read then EMPTY else c.read)
    && c'.write == (if write then EMPTY else c.write)
  }

  /** Only the context of fd is another one. */
  ghost predicate OnlyAt(ctxs: seq<FdCtx>, ctxs': seq<FdCtx>, fd: nat) {
    |ctxs'| == |ctxs| && forall i :: 0 <= i < |ctxs| && i != fd ==> ctxs'[i] == ctxs[i]
  }

  lemma {:induction false} TriggerHandsOver(c: FdCtx, ev: Event)
    requires Shape(c) && Has(c.events, ev)
    ensures var (c', out) := Trigger(c, ev).value;
      Trigger(c, ev).Some? && Emptied(c, c', ev == READ, ev == WRITE) && HandsOverBoth(out, c, ev == READ, ev == WRITE)
  {
  }

  lemma {:induction false} TriggerBothHandsOver(c: FdCtx, wanted: Mask)
    requires Shape(c) && Within(wanted, c.events)
    ensures TriggerBoth(c, wanted).Some?
    ensures var (c', out) := TriggerBoth(c, wanted).value;
      Emptied(c, c', wanted.read, wanted.write) && HandsOverBoth(out, c, wanted.read, wanted.write)
  {
    if wanted.read {
      TriggerHandsOver(c, READ);
      if wanted.write { TriggerHandsOver(Trigger(c, READ).value.0, WRITE); }
    } else if wanted.write {
      TriggerHandsOver(c, WRITE);
    }
  }

  /** A report that concerns the fd fails the assertion iff it names an event that is not
      registered. Otherwise it hands over the waiter for reading if the fd is readable or
      broken, and then the waiter for writing if it is writable or broken, each to its
      own scheduler; their slots are empty, and every other slot is as it was. */
  lemma {:induction false} DispatchHandsOver(g: Registry, r: Report, fail: bool)
    requires Good(g) && r.fd < |g.ctxs|
    ensures var (o, c) := (Dispatch(g, r, fail), g.ctxs[r.fd]);
      var (read, write) := (r.readable || r.broken, r.writable || r.broken);
      if fail || !((read && c.events.read) || (write && c.events.write)) then o == Done(g, false, [], [])
      else if (read && !c.events.read) || (write && !c.events.write) then o == Abort
      else
        && o.Done? && HandsOverBoth(o.out, c, read, write)
        && OnlyAt(g.ctxs, o.reg.ctxs, r.fd) && Emptied(c, o.reg.ctxs[r.fd], read, write)
  {
    DispatchAccounts(g, r, fail, (w: Waiter) => 0);
    if Within(Reported(r), g.ctxs[r.fd].events) { TriggerBothHandsOver(g.ctxs[r.fd], Reported(r)); }
  }

  /** Cancelling everything hands over the waiter for reading, if there is one, and then
      the one for writing. */
  lemma {:induction false} CancelAllHandsOver(g: Registry, fd: nat, fail: bool)
    requires Good(g) && CancelAll(g, fd, fail).Done? && CancelAll(g, fd, fail).ok
    ensures fd < |g.ctxs|
    ensures var (o, c) := (CancelAll(g, fd, fail), g.ctxs[fd]);
      && HandsOverBoth(o.out, c, c.events.read, c.events.write)
      && OnlyAt(g.ctxs, o.reg.ctxs, fd) && o.reg.ctxs[fd] == FdCtx(fd, Mask(false, false), EMPTY, EMPTY)
  {
    TriggerBothHandsOver(g.ctxs[fd], g.ctxs[fd].events);
    assert Shape(g.ctxs[fd]);
  }

  /** Cancelling one event hands over its waiter, and leaves the other one where it is. */
  lemma {:induction false} CancelEventHandsOver(g: Registry, fd: nat, ev: Event, fail: bool)
    requires Good(g) && CancelEvent(g, fd, ev, fail).Done? && CancelEvent(g, fd, ev, fail).ok
    ensures fd < |g.ctxs|
    ensures var (o, c) := (CancelEvent(g, fd, ev, fail), g.ctxs[fd]);
      && HandsOverBoth(o.out, c, ev == READ, ev == WRITE)
      && OnlyAt(g.ctxs, o.reg.ctxs, fd) && Emptied(c, o.reg.ctxs[fd], ev == READ, ev == WRITE)
  {
    TriggerHandsOver(g.ctxs[fd], ev);
  }

  /** Deleting one event forgets its waiter, and leaves the other one where it is. */
  lemma {:induction false} DelEventForgets(g: Registry, fd: nat, ev: Event, fail: bool)
    requires Good(g) && DelEvent(g, fd, ev, fail).Done? && DelEvent(g, fd, ev, fail).ok
    ensures fd < |g.ctxs|
    ensures var (o, c) := (DelEvent(g, fd, ev, fail), g.ctxs[fd]);
      o.out == [] && OnlyAt(g.ctxs, o.reg.ctxs, fd) && Emptied(c, o.reg.ctxs[fd], ev == READ, ev == WRITE)
  {
  }

  /** Adding puts the waiter, with the scheduler that is to get it, into the slot of the
      event, and leaves every other slot as it was. */
  lemma {:induction false} AddEventFills(g: Registry, fd: nat, ev: Event, w: Waiter, sched: nat, fail: bool)
    requires Good(g) && AddEvent(g, fd, ev, w, sched, fail).Done? && AddEvent(g, fd, ev, w, sched, fail).ok
    ensures var ctxs := AddEvent(g, fd, ev, w, sched, fail).reg.ctxs;
      && fd < |ctxs| && |g.ctxs| <= |ctxs|
      && HandsOver(Delivery(sched, w), if ev == READ then ctxs[fd].read else ctxs[fd].write)
      && (if ev == READ then ctxs[fd].events.read else ctxs[fd].events.write)
      && (forall i :: 0 <= i < |ctxs| ==>
           var c := if i < |g.ctxs| then g.ctxs[i] else Blank(i);
           && (i != fd || ev != READ ==> ctxs[i].read == c.read && ctxs[i].events.read == c.events.read)
           && (i != fd || ev != WRITE ==> ctxs[i].write == c.write && ctxs[i].events.write == c.events.write))
  {
    AddEventAccounts(g, fd, ev, w, sched, fail, Counting(w));
    GrowKeeps(g, fd, Counting(w));
  }

  lemma {:induction false} OneHandsOver(d: Delivery, e: Delivery, s: EventContext)
    requires HandsOver(d, s) && HandsOver(e, s)
    ensures d == e
  {
  }

  /** Round trip: what was added for an event is what the next report of that event alone
      hands over, to the scheduler it was added for. */
  lemma {:induction false} AddedIsHandedOver(g: Registry, fd: nat, ev: Event, w: Waiter, sched: nat)
    requires Good(g) && (fd < |g.ctxs| ==> !(if ev == READ then g.ctxs[fd].events.read else g.ctxs[fd].events.write))
    ensures var o := AddEvent(g, fd, ev, w, sched, false);
      && o.Done? && o.ok && o.out == [] && o.gone == [] && fd < |o.reg.ctxs|
      && var d := Dispatch(o.reg, Report(fd, ev == READ, ev == WRITE, false), false);
         d.Done? && d.out == [Delivery(sched, w)] && d.gone == []
  {
    var none := (w: Waiter) => 0;
    AddEventAccounts(g, fd, ev, w, sched, false, none);
    AddEventFills(g, fd, ev, w, sched, false);
    var r := AddEvent(g, fd, ev, w, sched, false).reg;
    var report := Report(fd, ev == READ, ev == WRITE, false);
    DispatchHandsOver(r, report, false);
    DispatchAccounts(r, report, false, none);
    OneHandsOver(Dispatch(r, report, false).out[0], Delivery(sched, w), if ev == READ then r.ctxs[fd].read else r.ctxs[fd].write);
  }

  /** A hang-up on an fd registered for reading only stops the process. */
  lemma {:induction false} HangUpAborts(w: Waiter)
    ensures var g := Registry(Resize([], FIRST_SIZE), 0, map[]);
            var o := AddEvent(g, 7, READ, w, 0, false);
            Good(g) && o.Done? && Dispatch(o.reg, Report(7, false, false, true), false).Abort?
  {
    var g := Registry(Resize([], FIRST_SIZE), 0, map[]);
    FreshIsGood();
    AddEventAccounts(g, 7, READ, w, 0, false, Counting(w));
    var o := AddEvent(g, 7, READ, w, 0, false);
    DispatchAccounts(o.reg, Report(7, false, false, true), false, Counting(w));
  }

  /** There is nothing in a fresh table. */
  lemma {:induction false} FreshIsEmpty(f: FdCtx -> nat)
    requires forall fd: nat :: f(Blank(fd)) == 0
    ensures Total(Resize([], FIRST_SIZE), f) == 0
  {
    var cs := Resize([], FIRST_SIZE);
    assert forall i :: 0 <= i < |cs| ==> cs[i] == Blank(i);
    TotalZero(cs, f);
  }

  lemma {:induction false} FreshIsGood()
    ensures Good(Registry(Resize([], FIRST_SIZE), 0, map[]))
  {
    FreshIsEmpty(Registered);
  }

  // ----- runs -----

  datatype Request =
    | Add(fd: nat, ev: Event, waiter: Waiter, sched: nat, fail: bool)
    | Del(fd: nat, ev: Event, fail: bool)
    | Cancel(fd: nat, ev: Event, fail: bool)
    | CancelEvery(fd: nat, fail: bool)
    | Ready(report: Report, fail: bool)

  /** One request; a report can only concern an fd the table has a context for. */
  function Apply(g: Registry, q: Request): (o: Outcome)
    requires |g.ctxs| >= FIRST_SIZE
    ensures o.Done? ==> |o.reg.ctxs| >= |g.ctxs|
  {
    match q
    case Add(fd, ev, w, sched, fail) => AddEvent(g, fd, ev, w, sched, fail)
    case Del(fd, ev, fail) => DelEvent(g, fd, ev, fail)
    case Cancel(fd, ev, fail) => CancelEvent(g, fd, ev, fail)
    case CancelEvery(fd, fail) => CancelAll(g, fd, fail)
    case Ready(r, fail) => if r.fd < |g.ctxs| then Dispatch(g, r, fail) else Done(g, false, [], [])
  }

  /** The weight the request registers, given how it went. */
  function AddedBy(q: Request, o: Outcome, f: Waiter -> nat): nat {
    if q.Add? && o.Done? && o.ok then f(q.waiter) else 0
  }

  lemma {:induction false} ApplyAccounts(g: Registry, q: Request, f: Waiter -> nat)
    requires Good(g)
    ensures Accounts(g, Apply(g, q), f, AddedBy(q, Apply(g, q), f))
  {
    match q
    case Add(fd, ev, w, sched, fail) => AddEventAccounts(g, fd, ev, w, sched, fail, f);
    case Del(fd, ev, fail) => DelEventAccounts(g, fd, ev, fail, f);
    case Cancel(fd, ev, fail) => CancelEventAccounts(g, fd, ev, fail, f);
    case CancelEvery(fd, fail) => CancelAllAccounts(g, fd, fail, f);
    case Ready(r, fail) => if r.fd < |g.ctxs| { DispatchAccounts(g, r, fail, f); }
  }

  /** A whole run, as far as no assertion fails: the registry it ends in, everything
      handed over, in order, everything deleted, and everything registered. */
  datatype Trace = Trace(reg: Registry, out: seq<Delivery>, gone: seq<Waiter>, added: seq<Waiter>, aborted: bool)

  function Run(t: Trace, qs: seq<Request>): Trace
    requires |t.reg.ctxs| >= FIRST_SIZE
    decreases |qs|
  {
    if qs == [] || t.aborted then t
    else
      var o := Apply(t.reg, qs[0]);
      if o.Abort? then t.(aborted := true)
      else
        var added := if qs[0].Add? && o.ok then [qs[0].waiter] else [];
        Run(Trace(o.reg, t.out + o.out, t.gone + o.gone, t.added + added, false), qs[1..])
  }

  ghost predicate Balanced(t: Trace, v: Waiter) {
    Good(t.reg) && Total(t.added, Counting(v)) == Weight(t.reg, Counting(v)) + Total(t.out, HandedWeight(Counting(v))) + Total(t.gone, Counting(v))
  }

  /** Exactly once, over every run: a waiter has been registered as often as it is in
      a slot, has been handed over, and has been deleted, taken together. */
  lemma {:induction false} RunBalances(t: Trace, qs: seq<Request>, v: Waiter)
    requires Balanced(t, v)
    ensures Balanced(Run(t, qs), v)
    decreases |qs|
  {
    if qs != [] && !t.aborted {
      var o := Apply(t.reg, qs[0]);
      ApplyAccounts(t.reg, qs[0], Counting(v));
      if o.Done? {
        var added := if qs[0].Add? && o.ok then [qs[0].waiter] else [];
        if added != [] { TotalOne(added[0], Counting(v)); }
        TotalAppend(t.added, added, Counting(v));
        TotalAppend(t.out, o.out, HandedWeight(Counting(v)));
        TotalAppend(t.gone, o.gone, Counting(v));
        RunBalances(Trace(o.reg, t.out + o.out, t.gone + o.gone, t.added + added, false), qs[1..], v);
      }
    }
  }

  /** In a run that registers v once, v is in exactly one of the three places. */
  lemma {:induction false} DeliveredExactlyOnce(qs: seq<Request>, v: Waiter)
    ensures var t := Run(Trace(Registry(Resize([], FIRST_SIZE), 0, map[]), [], [], [], false), qs);
      && Good(t.reg)
      && (Total(t.added, Counting(v)) == 1 ==>
           Weight(t.reg, Counting(v)) + Total(t.out, HandedWeight(Counting(v))) + Total(t.gone, Counting(v)) == 1)
  {
    FreshIsGood();
    FreshIsEmpty(ContextWeight(Counting(v)));
    RunBalances(Trace(Registry(Resize([], FIRST_SIZE), 0, map[]), [], [], [], false), qs, v);
  }
}
