/** The timer objects and their manager, with the fields the source updates in place. */
module Timers {
  import opened Common
  import opened TimerSpec

  class Timer {
    const id: nat
    const recurring: bool
    var ms: nat
    var next: nat
    var cb: Option<Job>
    /** When the current period began. */
    ghost var armedAt: nat
    /** Armed with an empty callback. */
    ghost const bornNull: bool

    constructor (id: nat, ms: nat, cb: Option<Job>, recurring: bool, now: nat)
      ensures this.id == id && this.recurring == recurring && this.cb == cb
      ensures this.ms == ms && next == now + ms && armedAt == now && bornNull == cb.None?
    {
      this.id, this.recurring, this.ms, this.cb := id, recurring, ms, cb;
      next, armedAt, bornNull := now + ms, now, cb.None?;
    }

    function Rec(): TimerRec
      reads this
    {
      TimerRec(id, next, ms, recurring, cb)
    }
  }

  function Recs(ts: seq<Timer>): (rs: seq<TimerRec>)
    reads ts
    ensures |rs| == |ts| && forall i :: 0 <= i < |ts| ==> rs[i] == ts[i].Rec()
  {
    if ts == [] then [] else [ts[0].Rec()] + Recs(ts[1..])
  }

  class TimerManager {
    /** The ordered set. */
    var timers: seq<Timer>
    var tickled: bool
    /** Calls of `onTimerInsertedAtFront` since the last `getNextTimer`. */
    var notified: nat
    /** Every timer made by this manager. */
    ghost var created: set<Timer>
    /** Identities tell timers apart. */
    ghost var byId: map<nat, Timer>
    /** The earliest deadline at the last `getNextTimer`; None when the set was empty. */
    ghost var seen: Option<nat>
    /** The latest clock reading a timer was armed at. */
    ghost var clock: nat

    ghost predicate Valid()
      reads this, created, timers
    {
      && Stored()
      && Sorted(View())
      && WakeUp(View())
      && (forall t :: t in created && t.cb.Some? ==> t in timers)
    }

    /** What holds of the stored timers even in the middle of an operation. */
    ghost predicate Stored()
      reads this, created, timers
    {
      && (forall t :: t in timers ==> t in created)
      && (forall t :: t in created ==> t.id in byId && byId[t.id] == t)
      && (forall t :: t in created ==> t.next == t.armedAt + t.ms && t.armedAt <= clock)
      && (forall t :: t in created && t.cb.None? && t in timers ==> t.bornNull)
    }

    /** A front earlier than the last one looked at has been announced, and announced once. */
    ghost predicate WakeUp(v: seq<TimerRec>)
      reads this`tickled, this`notified, this`seen
    {
      && notified == (if tickled then 1 else 0)
      && (!tickled ==> v == [] || (seen.Some? && seen.value <= v[0].next))
    }

    function View(): (v: seq<TimerRec>)
      reads this`timers, timers
      ensures |v| == |timers|
    {
      Recs(timers)
    }

    constructor ()
      ensures Valid() && View() == [] && !tickled && created == {} && clock == 0
    {
      timers, tickled, notified := [], false, 0;
      created, byId, seen, clock := {}, map[], None, 0;
    }

    lemma {:induction false} StoredOnce()
      requires Stored() && Sorted(View())
      ensures DistinctIds(View())
      ensures forall t :: t in created && t !in timers ==> Fresh(View(), t.id)
      ensures forall i, j :: 0 <= i < j < |timers| ==> timers[i] != timers[j]
    {
      var v := View();
      forall i, j | 0 <= i < j < |timers| ensures v[i].id != v[j].id {
        SortedPairs(v, i, j);
        assert timers[i] != timers[j];
      }
      PairsAreDistinct(v);
      forall t | t in created && t !in timers ensures Fresh(v, t.id) {
        forall x | x in v ensures x.id != t.id {
          var i :| 0 <= i < |v| && v[i] == x;
          assert timers[i] in created;
        }
      }
    }

    /** `m_timers.find(timer)`: the position of a stored timer, or the end. */
    method FindTimer(t: Timer) returns (i: nat)
      ensures i <= |timers|
      ensures i < |timers| ==> timers[i] == t
      ensures i < |timers| <==> t in timers
    {
      i := 0;
      while i < |timers| && timers[i] != t
        invariant 0 <= i <= |timers|
        invariant forall j :: 0 <= j < i ==> timers[j] != t
      {
        i := i + 1;
      }
    }

    /** `m_timers.erase(it)`. */
    method Erase(i: nat)
      requires i < |timers|
      requires forall j, k :: 0 <= j < k < |timers| ==> timers[j] != timers[k]
      modifies this`timers
      ensures |timers| == |old(timers)| - 1
      ensures forall t :: t in timers <==> t in old(timers) && t != old(timers)[i]
      ensures View() == old(View())[..i] + old(View())[i + 1..]
    {
      ghost var was, v := timers, View();
      timers := timers[..i] + timers[i + 1..];
      assert View() == v[..i] + v[i + 1..];
      forall t | t in was && t != was[i] ensures t in timers {
        var k :| 0 <= k < |was| && was[k] == t;
        assert timers[if k < i then k else k - 1] == t;
      }
    }

    /** `m_timers.insert(timer)`; p == 0 says that the timer is the new front. */
    method InsertTimer(t: Timer) returns (p: nat)
      modifies this`timers
      ensures forall s :: s in timers <==> s in old(timers) || s == t
      ensures View() == Insert(old(View()), t.Rec())
      ensures p == 0 <==> old(timers) == [] || !Before(old(View())[0], t.Rec())
    {
      p := 0;
      while p < |timers| && Before(timers[p].Rec(), t.Rec())
        invariant 0 <= p <= |timers|
        invariant forall j :: 0 <= j < p ==> Before(View()[j], t.Rec())
      {
        p := p + 1;
      }
      ghost var was, v := timers, View();
      InsertAt(v, t.Rec(), p);
      timers := timers[..p] + [t] + timers[p..];
      assert View() == v[..p] + [t.Rec()] + v[p..];
      assert was == was[..p] + was[p..];
    }

    /** `find` and `erase` of a stored timer, as cancel, refresh and reset use them. */
    method Take(t: Timer)
      requires Stored() && Sorted(View()) && t in timers
      modifies this`timers
      ensures Stored() && t !in timers
      ensures forall s :: s in timers <==> s in old(timers) && s != t
      ensures View() == Remove(old(View()), t.id)
      ensures Sorted(View()) && Fresh(View(), t.id)
      ensures View() != [] ==> old(View())[0].next <= View()[0].next
      ensures old(View()) != [] && old(View())[0].next <= t.next
    {
      StoredOnce();
      ghost var v := View();
      RemoveKeepsOrder(v, t.id);
      FrontIsEarliest(v);
      var i := FindTimer(t);
      assert v[i] == t.Rec();
      RemoveAt(v, i);
      Erase(i);
    }

    /** `addTimer(val, lock)`: insertion, and the announcement of a new front. */
    method Admit(t: Timer)
      requires Sorted(View()) && Fresh(View(), t.id) && WakeUp(View())
      modifies this`timers, this`tickled, this`notified
      ensures View() == Insert(old(View()), t.Rec()) && View() != []
      ensures forall s :: s in timers <==> s in old(timers) || s == t
      ensures Sorted(View()) && WakeUp(View())
      ensures tickled == (old(tickled) || View()[0] == t.Rec())
      ensures notified == old(notified) + (if tickled && !old(tickled) then 1 else 0)
    {
      ghost var v := View();
      InsertKeepsOrder(v, t.Rec());
      var p := InsertTimer(t);
      var atFront := p == 0 && !tickled;
      if atFront {
        tickled := true;
      }
      if atFront {
        notified := notified + 1;
      }
    }

    /** `new hps_Timer(ms, cb, recurring, this)`. */
    method Make(id: nat, ms: nat, cb: Option<Job>, recurring: bool, now: nat) returns (t: Timer)
      requires Valid() && forall s :: s in created ==> s.id != id
      modifies this`created, this`byId, this`clock
      ensures fresh(t) && created == old(created) + {t} && byId == old(byId)[id := t]
      ensures t.Rec() == TimerRec(id, now + ms, ms, recurring, cb)
      ensures t.next == t.armedAt + ms && t.armedAt <= clock && old(clock) <= clock && t.bornNull == cb.None?
      ensures View() == old(View()) && Fresh(View(), id)
    {
      UnusedIsFresh(id);
      ghost var v := View();
      t := new Timer(id, ms, cb, recurring, now);
      assert View() == v;
      created, byId := created + {t}, byId[id := t];
      clock := if clock < now then now else clock;
    }

    /** `addTimer(ms, cb, recurring)`. */
    method AddTimer(id: nat, ms: nat, cb: Option<Job>, recurring: bool, now: nat) returns (t: Timer)
      requires Valid() && forall s :: s in created ==> s.id != id
      modifies this
      ensures Valid() && fresh(t) && created == old(created) + {t}
      ensures t.Rec() == TimerRec(id, now + ms, ms, recurring, cb) && t in timers
      ensures View() == Insert(old(View()), t.Rec()) && View() != []
      ensures tickled == (old(tickled) || View()[0] == t.Rec())
      ensures notified == old(notified) + (if tickled && !old(tickled) then 1 else 0)
    {
      t := Make(id, ms, cb, recurring, now);
      Admit(t);
    }

    lemma {:induction false} UnusedIsFresh(id: nat)
      requires Stored() && forall s :: s in created ==> s.id != id
      ensures Fresh(View(), id)
    {
      forall x | x in View() ensures x.id != id {
        var i :| 0 <= i < |timers| && View()[i] == x;
        assert timers[i] in timers;
      }
    }

    /** `hps_Timer::cancel`; clearing the callback and erasing are one lock section. */
    method Cancel(t: Timer) returns (ok: bool)
      requires Valid() && t in created
      modifies this`timers, t`cb
      ensures Valid()
      ensures ok == old(t.cb).Some?
      ensures View() == if ok then Remove(old(View()), t.id) else old(View())
      ensures ok ==> t !in timers && t.cb == None
      ensures !ok ==> t.cb == old(t.cb) && timers == old(timers)
    {
      if t.cb.Some? {
        Take(t);
        ghost var v := View();
        t.cb := None;
        assert View() == v;
        return true;
      }
      return false;
    }

    /** Takes a timer out of the set and gives it a new period. */
    method Restart(t: Timer, start: nat, ms: nat, now: nat)
      requires Stored() && Sorted(View()) && t in timers && start <= now && clock <= now
      modifies this`timers, this`clock, t`ms, t`next, t`armedAt
      ensures Stored() && t !in timers
      ensures forall s :: s in timers <==> s in old(timers) && s != t
      ensures t.Rec() == old(t.Rec()).(ms := ms, next := start + ms) && t.armedAt == start
      ensures View() == Remove(old(View()), t.id)
      ensures Sorted(View()) && Fresh(View(), t.id)
      ensures old(View()) != [] && old(View())[0].next <= old(t.next)
      ensures View() != [] ==> old(View())[0].next <= View()[0].next
    {
      Take(t);
      Rearm(t, start, ms, now);
    }

    /** Sets the period of a timer that is not stored. */
    method Rearm(t: Timer, start: nat, ms: nat, now: nat)
      requires Stored() && t in created && t !in timers && start <= now && clock <= now
      modifies this`clock, t`ms, t`next, t`armedAt
      ensures Stored() && View() == old(View())
      ensures t.Rec() == old(t.Rec()).(ms := ms, next := start + ms) && t.armedAt == start
    {
      clock := now;
      t.ms, t.next, t.armedAt := ms, start + ms, start;
    }

    /** `hps_Timer::refresh`: one period from now. It bypasses the announcing addTimer,
        and may, because it never brings the front forward. */
    method Refresh(t: Timer, now: nat) returns (ok: bool)
      requires Valid() && t in created && clock <= now
      modifies this`timers, this`clock, t`ms, t`next, t`armedAt
      ensures Valid()
      ensures ok == t.cb.Some?
      ensures !ok ==> View() == old(View())
      ensures ok ==> t.Rec() == old(t.Rec()).(next := now + t.ms)
      ensures ok ==> View() == Insert(Remove(old(View()), t.id), t.Rec())
      ensures View() != [] ==> old(View())[0].next <= View()[0].next
    {
      if t.cb.None? {
        return false;
      }
      Restart(t, now, t.ms, now);
      InsertKeepsOrder(View(), t.Rec());
      var _ := InsertTimer(t);
      return true;
    }

    /** Takes a timer out and lets it in again through the announcing addTimer. */
    method ReAdmit(t: Timer, start: nat, ms: nat, now: nat)
      requires Valid() && t in timers && start <= now && clock <= now
      modifies this`timers, this`tickled, this`notified, this`clock, t`ms, t`next, t`armedAt
      ensures Valid()
      ensures t.Rec() == old(t.Rec()).(ms := ms, next := start + ms) && t.armedAt == start
      ensures View() == Insert(Remove(old(View()), t.id), t.Rec()) && View() != []
      ensures tickled == (old(tickled) || View()[0] == t.Rec())
    {
      Restart(t, start, ms, now);
      Admit(t);
    }

    /** `hps_Timer::reset`; not from now it keeps the start of the current period. */
    method Reset(t: Timer, ms: nat, fromNow: bool, now: nat) returns (ok: bool)
      requires Valid() && t in created && clock <= now
      modifies this`timers, this`tickled, this`notified, this`clock, t`ms, t`next, t`armedAt
      ensures Valid()
      ensures ok == ((ms == old(t.ms) && !fromNow) || t.cb.Some?)
      ensures (ms == old(t.ms) && !fromNow) || !ok ==> View() == old(View()) && tickled == old(tickled)
      ensures ok && (ms != old(t.ms) || fromNow) ==>
        && t.armedAt == (if fromNow then now else old(t.armedAt))
        && t.Rec() == old(t.Rec()).(ms := ms, next := t.armedAt + ms)
        && View() == Insert(Remove(old(View()), t.id), t.Rec()) && View() != []
        && tickled == (old(tickled) || View()[0] == t.Rec())
    {
      if ms == t.ms && !fromNow {
        return true;
      }
      if t.cb.None? {
        return false;
      }
      var start := if fromNow then now else t.next - t.ms;
      ReAdmit(t, start, ms, now);
      return true;
    }

    /** `getNextTimer`: the wait until the front, None for `~0ull`. */
    method GetNextTimer(now: nat) returns (wait: Option<nat>)
      requires Valid()
      modifies this`tickled, this`notified, this`seen
      ensures Valid() && !tickled && notified == 0
      ensures timers == [] ==> wait == None && seen == None
      ensures timers != [] ==> seen == Some(View()[0].next)
      ensures timers != [] ==> wait == Some(if View()[0].next <= now then 0 else View()[0].next - now)
    {
      tickled, notified := false, 0;
      if timers == [] {
        seen := None;
        return None;
      }
      var next := timers[0];
      seen := Some(next.next);
      if now >= next.next {
        return Some(0);
      } else {
        return Some(next.next - now);
      }
    }

    /** The body of the loop over the expired timers. */
    method ExpireOne(t: Timer, now: nat)
      requires Stored() && Sorted(View()) && t in created && t !in timers && now <= clock
      requires t.cb.None? ==> t.bornNull
      modifies this`timers, t`cb, t`next, t`armedAt
      ensures Stored() && Sorted(View())
      ensures View() == PutBack(old(View()), old(t.Rec()), now)
      ensures forall s :: s in timers <==> s in old(timers) || (s == t && t.recurring)
      ensures t.cb == if t.recurring then old(t.cb) else None
    {
      if t.recurring {
        RearmOne(t, now);
      } else {
        ghost var v := View();
        t.cb := None;
        assert View() == v;
      }
    }

    /** A recurring timer goes back for one more period. */
    method RearmOne(t: Timer, now: nat)
      requires Stored() && Sorted(View()) && t in created && t !in timers && now <= clock && (t.cb.None? ==> t.bornNull)
      modifies this`timers, t`next, t`armedAt
      ensures Stored() && Sorted(View()) && View() == Insert(old(View()), t.Rec())
      ensures t.Rec() == old(t.Rec()).(next := now + t.ms)
      ensures forall s :: s in timers <==> s in old(timers) || s == t
    {
      StoredOnce();
      ghost var v := View();
      t.next, t.armedAt := now + t.ms, now;
      assert View() == v;
      InsertKeepsOrder(v, t.Rec());
      var _ := InsertTimer(t);
    }

    /** Where the loop over the expired timers `due`, once `fired`, stands after i of
        them, when the set is to become `goal`. */
    ghost predicate Draining(due: seq<Timer>, fired: seq<TimerRec>, i: nat, now: nat, goal: seq<TimerRec>)
      requires i <= |due| == |fired|
      reads this, created, timers, due
    {
      && Stored() && Sorted(View()) && now <= clock
      && (forall j :: i <= j < |due| ==> due[j] in created && due[j] !in timers && due[j].Rec() == fired[j])
      && (forall j :: i <= j < |due| && due[j].cb.None? ==> due[j].bornNull)
      && (forall t :: t in created && t.cb.Some? ==> t in timers || t in due[i..])
      && Reinsert(View(), fired[i..], now) == goal
    }

    /** The expired timers `due` of the set `v` are out of it, and nothing else has happened. */
    ghost predicate Cut(due: seq<Timer>, v: seq<TimerRec>, now: nat)
      reads this, created, timers, due
    {
      && Stored() && Sorted(View()) && now <= clock
      && |due| == ExpiredCount(v, now) && View() == v[|due|..]
      && (forall j :: 0 <= j < |due| ==> due[j] in created && due[j] !in timers && due[j].Rec() == v[j])
      && (forall j :: 0 <= j < |due| && due[j].cb.None? ==> due[j].bornNull)
      && (forall t :: t in created && t.cb.Some? ==> t in timers || t in due)
    }

    lemma {:induction false} CutStartsDraining(due: seq<Timer>, v: seq<TimerRec>, now: nat)
      requires Cut(due, v, now)
      ensures Draining(due, Fired(v, now), 0, now, AfterExpiry(v, now))
    {
      assert due[0..] == due && Fired(v, now)[0..] == Fired(v, now);
    }

    method DrainStep(due: seq<Timer>, ghost fired: seq<TimerRec>, i: nat, now: nat, ghost goal: seq<TimerRec>)
      requires i < |due| == |fired| && Draining(due, fired, i, now, goal)
      requires forall j, k :: 0 <= j < k < |due| ==> due[j] != due[k]
      modifies this`timers, due
      ensures Draining(due, fired, i + 1, now, goal)
    {
      assert fired[i..][0] == fired[i] && fired[i..][1..] == fired[i + 1..];
      assert due[i..] == [due[i]] + due[i + 1..];
      ExpireOne(due[i], now);
    }

    method ExpireAll(due: seq<Timer>, ghost v: seq<TimerRec>, now: nat) returns (cbs: seq<Option<Job>>)
      requires Cut(due, v, now)
      requires forall i, j :: 0 <= i < j < |due| ==> due[i] != due[j]
      requires Sorted(v) && v != [] && WakeUp(v)
      modifies this`timers, due
      ensures Valid() && View() == AfterExpiry(v, now)
      ensures cbs == Callbacks(Fired(v, now))
    {
      ghost var fired, goal := Fired(v, now), AfterExpiry(v, now);
      CutStartsDraining(due, v, now);
      cbs := [];
      for i := 0 to |due|
        invariant Draining(due, fired, i, now, goal)
        invariant |cbs| == i && forall j :: 0 <= j < i ==> cbs[j] == fired[j].cb
      {
        cbs := cbs + [due[i].cb];
        DrainStep(due, fired, i, now, goal);
      }
      Drained(due, v, now);
    }

    lemma {:induction false} Drained(due: seq<Timer>, v: seq<TimerRec>, now: nat)
      requires |due| == ExpiredCount(v, now) && Sorted(v) && v != [] && WakeUp(v)
      requires Draining(due, Fired(v, now), |due|, now, AfterExpiry(v, now))
      ensures Valid() && View() == AfterExpiry(v, now)
    {
      assert due[|due|..] == [] && Fired(v, now)[|due|..] == [];
      ExpiryKeepsLowerBound(v, now);
    }

    /** `listExpiredCb`. */
    method ListExpired(now: nat) returns (cbs: seq<Option<Job>>)
      requires Valid()
      modifies this`timers, this`clock, timers
      ensures Valid()
      ensures cbs == Callbacks(Fired(old(View()), now))
      ensures View() == AfterExpiry(old(View()), now)
    {
      if timers == [] {
        return [];
      }
      ghost var v := View();
      cbs := ListDue(v, now);
    }

    /** The part under the write lock. */
    method ListDue(ghost v: seq<TimerRec>, now: nat) returns (cbs: seq<Option<Job>>)
      requires Valid() && v == View() && v != []
      modifies this`timers, this`clock, timers
      ensures Valid() && cbs == Callbacks(Fired(v, now)) && View() == AfterExpiry(v, now)
    {
      ReadClock(now);
      var n := CountExpired(now);
      var due := CutFront(n, now);
      cbs := ExpireAll(due, v, now);
    }

    ghost method ReadClock(now: nat)
      requires Valid()
      modifies this`clock
      ensures Valid() && View() == old(View()) && now <= clock
    {
      clock := if clock < now then now else clock;
    }

    /** The loop that moves `it` over the expired timers. */
    method CountExpired(now: nat) returns (n: nat)
      ensures n == ExpiredCount(View(), now) <= |timers|
    {
      n := 0;
      while n < |timers| && timers[n].next == now
        invariant 0 <= n <= |timers|
        invariant forall j :: 0 <= j < n ==> View()[j].next == now
      {
        n := n + 1;
      }
      CountAt(View(), n, now);
    }

    /** `m_timers.erase(m_timers.begin(), it)`. */
    method EraseFront(n: nat)
      requires Stored() && n <= |timers|
      modifies this`timers
      ensures Stored() && timers == old(timers)[n..] && View() == old(View())[n..]
    {
      timers := timers[n..];
    }

    /** Erases the expired timers and keeps them aside. */
    method CutFront(n: nat, now: nat) returns (due: seq<Timer>)
      requires Stored() && Sorted(View()) && n == ExpiredCount(View(), now) <= |timers| && now <= clock
      requires forall t :: t in created && t.cb.Some? ==> t in timers
      modifies this`timers
      ensures forall i, j :: 0 <= i < j < |due| ==> due[i] != due[j]
      ensures forall i :: 0 <= i < |due| ==> due[i] in old(timers)
      ensures Cut(due, old(View()), now)
    {
      StoredOnce();
      FrontOrRest(timers, n);
      SortedSplit(View(), n);
      due := timers[..n];
      EraseFront(n);
    }
  }

  lemma {:induction false} FrontOrRest<T>(was: seq<T>, n: nat)
    requires n <= |was| && forall i, j :: 0 <= i < j < |was| ==> was[i] != was[j]
    ensures forall t :: t in was <==> t in was[..n] || t in was[n..]
    ensures forall i :: 0 <= i < n ==> was[i] !in was[n..]
  {
    assert was == was[..n] + was[n..];
  }

  lemma {:induction false} CountAt(v: seq<TimerRec>, n: nat, now: nat)
    requires n <= |v| && (forall j :: 0 <= j < n ==> v[j].next == now) && (n < |v| ==> v[n].next != now)
    ensures n == ExpiredCount(v, now)
  {
    if n < ExpiredCount(v, now) {
      assert false;
    }
  }

  lemma {:induction false} PairsAreDistinct(v: seq<TimerRec>)
    requires forall i, j :: 0 <= i < j < |v| ==> v[i].id != v[j].id
    ensures DistinctIds(v)
  {
    if v != [] {
      PairsAreDistinct(v[1..]);
      forall x | x in v[1..] ensures x.id != v[0].id {
        var i :| 1 <= i < |v| && v[i] == x;
      }
    }
  }
}
