/** The ordered timer set as a value: what the operations of the timer manager
    do to it, and the laws they obey. The class in Timers.dfy refines these. */
module TimerSpec {
  import opened Common

  /** One timer. `id` is its identity, the address the comparator falls back on. */
  datatype TimerRec = TimerRec(id: nat, next: nat, ms: nat, recurring: bool, cb: Option<Job>)

  // ----- the order -----

  /** By deadline, then by identity: the order a set of timers needs. */
  predicate Before(a: TimerRec, b: TimerRec) {
    a.next < b.next || (a.next == b.next && a.id < b.id)
  }

  /** The comparator of the source, whose second test compares a deadline with itself. */
  predicate LessAsWritten(a: TimerRec, b: TimerRec) {
    if a.next < b.next then true
    else if b.next < b.next then false
    else a.id < b.id
  }

  ghost predicate StrictOrderOn(s: set<TimerRec>, less: (TimerRec, TimerRec) -> bool) {
    && (forall a, b :: a in s && b in s && less(a, b) ==> !less(b, a))
    && (forall a, b, c :: a in s && b in s && c in s && less(a, b) && less(b, c) ==> less(a, c))
  }

  /** No timer with an earlier deadline has a larger identity. */
  ghost predicate NoInversion(s: set<TimerRec>) {
    forall a, b :: a in s && b in s && a.next < b.next ==> a.id <= b.id
  }

  /** The comparator as written orders exactly the populations without an inversion... */
  lemma {:induction false} ComparatorOrdersIffNoInversion(s: set<TimerRec>)
    ensures StrictOrderOn(s, LessAsWritten) <==> NoInversion(s)
  {
    if NoInversion(s) {
      forall a, b | a in s && b in s && LessAsWritten(a, b)
        ensures a.next <= b.next && a.id <= b.id && (a.next < b.next || a.id < b.id)
      {}
    } else {
      var a, b :| a in s && b in s && a.next < b.next && b.id < a.id;
      assert LessAsWritten(a, b) && LessAsWritten(b, a);
    }
  }

  /** ... and exactly on those it is the order by deadline and identity. */
  lemma {:induction false} ComparatorIsDeadlineOrderIffNoInversion(s: set<TimerRec>)
    ensures (forall a, b :: a in s && b in s ==> (LessAsWritten(a, b) <==> Before(a, b))) <==> NoInversion(s)
  {
    if !NoInversion(s) {
      var a, b :| a in s && b in s && a.next < b.next && b.id < a.id;
      assert LessAsWritten(b, a) && !Before(b, a);
    }
  }

  /** Two timers are enough for the comparator to put each before the other. */
  lemma {:induction false} ComparatorCounterexample()
    ensures exists s :: |s| == 2 && !StrictOrderOn(s, LessAsWritten)
  {
    var a := TimerRec(2, 5, 5, false, None);
    var b := TimerRec(1, 10, 10, false, None);
    assert LessAsWritten(a, b) && LessAsWritten(b, a);
    assert |{a, b}| == 2 && !StrictOrderOn({a, b}, LessAsWritten);
  }

  /** t comes before everything in ts. */
  ghost predicate Leads(t: TimerRec, ts: seq<TimerRec>) {
    forall x :: x in ts ==> Before(t, x)
  }

  ghost predicate Sorted(ts: seq<TimerRec>) {
    ts == [] || (Leads(ts[0], ts[1..]) && Sorted(ts[1..]))
  }

  /** No timer of ts has this identity. */
  ghost predicate Fresh(ts: seq<TimerRec>, id: nat) {
    forall x :: x in ts ==> x.id != id
  }

  ghost predicate DistinctIds(ts: seq<TimerRec>) {
    ts == [] || (Fresh(ts[1..], ts[0].id) && DistinctIds(ts[1..]))
  }

  lemma {:induction false} SortedPairs(ts: seq<TimerRec>, i: nat, j: nat)
    requires Sorted(ts) && i < j < |ts|
    ensures Before(ts[i], ts[j])
  {
    if i == 0 {
      assert ts[j] == ts[1..][j - 1];
    } else {
      SortedPairs(ts[1..], i - 1, j - 1);
    }
  }

  lemma {:induction false} SortedSplit(ts: seq<TimerRec>, n: nat)
    requires Sorted(ts) && n <= |ts|
    ensures Sorted(ts[..n]) && Sorted(ts[n..])
  {
    if n > 0 {
      SortedSplit(ts[1..], n - 1);
      assert ts[..n][1..] == ts[1..][..n - 1] && ts[n..] == ts[1..][n - 1..];
    }
  }

  lemma {:induction false} DistinctPairs(ts: seq<TimerRec>, i: nat, j: nat)
    requires DistinctIds(ts) && i < j < |ts|
    ensures ts[i].id != ts[j].id
  {
    if i == 0 {
      assert ts[j] == ts[1..][j - 1];
    } else {
      DistinctPairs(ts[1..], i - 1, j - 1);
    }
  }

  lemma {:induction false} SameTimer(ts: seq<TimerRec>, a: TimerRec, b: TimerRec)
    requires DistinctIds(ts) && a in ts && b in ts && a.id == b.id
    ensures a == b
  {
    var i :| 0 <= i < |ts| && ts[i] == a;
    var j :| 0 <= j < |ts| && ts[j] == b;
    if i < j { DistinctPairs(ts, i, j); } else if j < i { DistinctPairs(ts, j, i); }
  }

  lemma {:induction false} DistinctSplit(ts: seq<TimerRec>, n: nat)
    requires DistinctIds(ts) && n <= |ts|
    ensures DistinctIds(ts[..n]) && DistinctIds(ts[n..])
    ensures forall x :: x in ts[..n] ==> Fresh(ts[n..], x.id)
  {
    if n > 0 {
      DistinctSplit(ts[1..], n - 1);
      assert ts[..n] == [ts[0]] + ts[1..][..n - 1] && ts[n..] == ts[1..][n - 1..];
      assert ts[..n][1..] == ts[1..][..n - 1];
    }
  }

  // ----- insertion and removal -----

  function Insert(ts: seq<TimerRec>, t: TimerRec): seq<TimerRec> {
    if ts == [] || !Before(ts[0], t) then [t] + ts else [ts[0]] + Insert(ts[1..], t)
  }

  lemma {:induction false} InsertAdds(ts: seq<TimerRec>, t: TimerRec)
    ensures multiset(Insert(ts, t)) == multiset(ts) + multiset{t}
    ensures forall x :: x in Insert(ts, t) <==> x in ts || x == t
  {
    if ts != [] && Before(ts[0], t) {
      InsertAdds(ts[1..], t);
      assert ts == [ts[0]] + ts[1..];
    }
  }

  /** Inserting keeps the order; the new timer is at the front iff nothing leads it. */
  lemma {:induction false} InsertKeepsOrder(ts: seq<TimerRec>, t: TimerRec)
    requires Sorted(ts) && Fresh(ts, t.id)
    ensures Sorted(Insert(ts, t))
    ensures Insert(ts, t) != [] && Insert(ts, t)[0] == if ts != [] && Before(ts[0], t) then ts[0] else t
  {
    if ts != [] && Before(ts[0], t) {
      InsertKeepsOrder(ts[1..], t);
      InsertAdds(ts[1..], t);
      var r := Insert(ts, t);
      assert r[1..] == Insert(ts[1..], t);
    } else if ts != [] {
      assert ts == [ts[0]] + ts[1..] && ([t] + ts)[1..] == ts;
    } else {
      assert [t][1..] == [];
    }
  }

  lemma {:induction false} InsertKeepsIds(ts: seq<TimerRec>, t: TimerRec)
    requires Fresh(ts, t.id) && DistinctIds(ts)
    ensures DistinctIds(Insert(ts, t))
  {
    if ts != [] && Before(ts[0], t) {
      InsertKeepsIds(ts[1..], t);
      InsertAdds(ts[1..], t);
      assert Insert(ts, t)[1..] == Insert(ts[1..], t);
    } else {
      assert ([t] + ts)[1..] == ts;
    }
  }

  /** A scan that stops at the first timer not before t has found the place of t. */
  lemma {:induction false} InsertAt(ts: seq<TimerRec>, t: TimerRec, p: nat)
    requires p <= |ts|
    requires forall i :: 0 <= i < p ==> Before(ts[i], t)
    requires p < |ts| ==> !Before(ts[p], t)
    ensures Insert(ts, t) == ts[..p] + [t] + ts[p..]
    ensures p == 0 <==> Insert(ts, t)[0] == t && (ts == [] || !Before(ts[0], t))
  {
    if p > 0 {
      InsertAt(ts[1..], t, p - 1);
      assert ts[..p] + [t] + ts[p..] == [ts[0]] + (ts[1..][..p - 1] + [t] + ts[1..][p - 1..]);
    }
  }

  function Remove(ts: seq<TimerRec>, id: nat): seq<TimerRec> {
    if ts == [] then []
    else if ts[0].id == id then ts[1..]
    else [ts[0]] + Remove(ts[1..], id)
  }

  lemma {:induction false} RemoveDrops(ts: seq<TimerRec>, id: nat)
    requires DistinctIds(ts)
    ensures forall x :: x in Remove(ts, id) <==> x in ts && x.id != id
  {
    if ts != [] {
      assert ts == [ts[0]] + ts[1..];
      if ts[0].id != id { RemoveDrops(ts[1..], id); }
    }
  }

  /** Removing keeps the order and cannot bring the front forward. */
  lemma {:induction false} RemoveKeepsOrder(ts: seq<TimerRec>, id: nat)
    requires Sorted(ts) && DistinctIds(ts)
    ensures Sorted(Remove(ts, id)) && DistinctIds(Remove(ts, id)) && Fresh(Remove(ts, id), id)
    ensures Remove(ts, id) != [] ==> ts[0].next <= Remove(ts, id)[0].next
  {
    RemoveDrops(ts, id);
    if ts != [] && ts[0].id != id {
      RemoveKeepsOrder(ts[1..], id);
      RemoveDrops(ts[1..], id);
      assert Remove(ts, id)[1..] == Remove(ts[1..], id);
    } else if |ts| > 1 {
      assert ts[1] == ts[1..][0];
    }
  }

  lemma {:induction false} RemoveAt(ts: seq<TimerRec>, i: nat)
    requires DistinctIds(ts) && i < |ts|
    ensures Remove(ts, ts[i].id) == ts[..i] + ts[i + 1..]
  {
    if i > 0 {
      DistinctPairs(ts, 0, i);
      RemoveAt(ts[1..], i - 1);
      assert ts[..i] + ts[i + 1..] == [ts[0]] + (ts[1..][..i - 1] + ts[1..][i..]);
    }
  }

  // ----- expiry -----

  /** How many timers the expiry loop of the source takes: the leading ones
      whose deadline is the current millisecond, neither later nor earlier. */
  function ExpiredCount(ts: seq<TimerRec>, now: nat): (n: nat)
    ensures n <= |ts|
    ensures forall i :: 0 <= i < n ==> ts[i].next == now
    ensures n < |ts| ==> ts[n].next != now
  {
    if ts == [] || ts[0].next != now then 0 else 1 + ExpiredCount(ts[1..], now)
  }

  /** What the loop over the expired timers does for one of them. */
  function Rearm(t: TimerRec, now: nat): seq<TimerRec> {
    if t.recurring then [t.(next := now + t.ms)] else []
  }

  function PutBack(rest: seq<TimerRec>, t: TimerRec, now: nat): seq<TimerRec> {
    if t.recurring then Insert(rest, t.(next := now + t.ms)) else rest
  }

  /** The set after that loop. */
  function Reinsert(rest: seq<TimerRec>, due: seq<TimerRec>, now: nat): seq<TimerRec>
    decreases |due|
  {
    if due == [] then rest else Reinsert(PutBack(rest, due[0], now), due[1..], now)
  }

  function Callbacks(due: seq<TimerRec>): (cbs: seq<Option<Job>>)
    ensures |cbs| == |due|
    ensures forall i :: 0 <= i < |due| ==> cbs[i] == due[i].cb
  {
    if due == [] then [] else [due[0].cb] + Callbacks(due[1..])
  }

  function Fired(ts: seq<TimerRec>, now: nat): seq<TimerRec> {
    ts[..ExpiredCount(ts, now)]
  }

  function AfterExpiry(ts: seq<TimerRec>, now: nat): seq<TimerRec> {
    Reinsert(ts[ExpiredCount(ts, now)..], Fired(ts, now), now)
  }

  /** The timers whose deadline has come, in order: what expiry is for. */
  function Due(ts: seq<TimerRec>, now: nat): seq<TimerRec> {
    if ts == [] then []
    else (if ts[0].next <= now then [ts[0]] else []) + Due(ts[1..], now)
  }

  /** The recurring ones among the expired, armed again for one period from now. */
  function Rearmed(due: seq<TimerRec>, now: nat): seq<TimerRec> {
    if due == [] then [] else Rearm(due[0], now) + Rearmed(due[1..], now)
  }

  lemma {:induction false} NoneDue(ts: seq<TimerRec>, now: nat)
    requires forall i :: 0 <= i < |ts| ==> now < ts[i].next
    ensures Due(ts, now) == []
  {
    if ts != [] { NoneDue(ts[1..], now); }
  }

  lemma {:induction false} AllDue(ts: seq<TimerRec>, now: nat)
    requires forall i :: 0 <= i < |ts| ==> ts[i].next <= now
    ensures Due(ts, now) == ts
  {
    if ts != [] { AllDue(ts[1..], now); }
  }

  lemma {:induction false} DueAppend(a: seq<TimerRec>, b: seq<TimerRec>, now: nat)
    ensures Due(a + b, now) == Due(a, now) + Due(b, now)
  {
    if a == [] {
      assert a + b == b;
    } else {
      var first := if a[0].next <= now then [a[0]] else [];
      calc {
        Due(a + b, now);
        { assert (a + b)[1..] == a[1..] + b && (a + b)[0] == a[0]; }
        first + Due(a[1..] + b, now);
        { DueAppend(a[1..], b, now); }
        first + (Due(a[1..], now) + Due(b, now));
        Due(a, now) + Due(b, now);
      }
    }
  }

  /** Expiry fires exactly the due timers, in deadline order, iff the front is not overdue. */
  lemma {:induction false} FiredIsDueIffFrontNotOverdue(ts: seq<TimerRec>, now: nat)
    requires Sorted(ts)
    ensures Fired(ts, now) == Due(ts, now) <==> (ts == [] || now <= ts[0].next)
  {
    var n := ExpiredCount(ts, now);
    if ts != [] && ts[0].next < now {
      assert Due(ts, now)[0] == ts[0];
    } else {
      assert ts == ts[..n] + ts[n..];
      DueAppend(ts[..n], ts[n..], now);
      AllDue(ts[..n], now);
      forall i | n <= i < |ts| ensures now < ts[i].next {
        if n > 0 { SortedPairs(ts, 0, n); }
        if i > n { SortedPairs(ts, n, i); }
      }
      NoneDue(ts[n..], now);
    }
  }

  ghost predicate Apart(a: seq<TimerRec>, b: seq<TimerRec>) {
    forall x :: x in b ==> Fresh(a, x.id)
  }

  lemma {:induction false} PutBackOne(rest: seq<TimerRec>, t: TimerRec, now: nat)
    requires Sorted(rest) && DistinctIds(rest) && Fresh(rest, t.id)
    ensures Sorted(PutBack(rest, t, now)) && DistinctIds(PutBack(rest, t, now))
    ensures multiset(PutBack(rest, t, now)) == multiset(rest) + multiset(Rearm(t, now))
    ensures forall x :: x in PutBack(rest, t, now) ==> x in rest || (x == t.(next := now + t.ms) && t.recurring)
  {
    if t.recurring {
      InsertKeepsOrder(rest, t.(next := now + t.ms));
      InsertKeepsIds(rest, t.(next := now + t.ms));
      InsertAdds(rest, t.(next := now + t.ms));
    }
  }

  lemma {:induction false} ReinsertRefinesRearmed(rest: seq<TimerRec>, due: seq<TimerRec>, now: nat)
    requires Sorted(rest) && DistinctIds(due) && DistinctIds(rest) && Apart(rest, due)
    ensures Sorted(Reinsert(rest, due, now)) && DistinctIds(Reinsert(rest, due, now))
    ensures multiset(Reinsert(rest, due, now)) == multiset(rest) + multiset(Rearmed(due, now))
    decreases |due|
  {
    if due != [] {
      PutBackOne(rest, due[0], now);
      assert due == [due[0]] + due[1..];
      ReinsertRefinesRearmed(PutBack(rest, due[0], now), due[1..], now);
    }
  }

  /** One expiry: the fired callbacks leave the set, the recurring ones are back
      exactly once at now + period, every other timer is untouched. */
  lemma {:induction false} ExpiryMovesOnlyTheFired(ts: seq<TimerRec>, now: nat)
    requires Sorted(ts) && DistinctIds(ts)
    ensures Sorted(AfterExpiry(ts, now)) && DistinctIds(AfterExpiry(ts, now))
    ensures multiset(AfterExpiry(ts, now)) + multiset(Fired(ts, now))
         == multiset(ts) + multiset(Rearmed(Fired(ts, now), now))
  {
    var n := ExpiredCount(ts, now);
    SortedSplit(ts, n);
    DistinctSplit(ts, n);
    assert ts == ts[..n] + ts[n..];
    assert multiset(ts) == multiset(ts[..n]) + multiset(ts[n..]);
    ReinsertRefinesRearmed(ts[n..], ts[..n], now);
  }

  /** x is the timer y of `due` put back for one more period. */
  ghost predicate Again(x: TimerRec, y: TimerRec, due: seq<TimerRec>, now: nat) {
    y in due && y.recurring && x == y.(next := now + y.ms)
  }

  lemma {:induction false} ReinsertSource(rest: seq<TimerRec>, due: seq<TimerRec>, now: nat, x: TimerRec)
    requires x in Reinsert(rest, due, now)
    ensures x in rest || exists y :: Again(x, y, due, now)
    decreases |due|
  {
    if due != [] {
      var t := due[0];
      assert due == [t] + due[1..];
      InsertAdds(rest, t.(next := now + t.ms));
      ReinsertSource(PutBack(rest, t, now), due[1..], now, x);
      if x !in PutBack(rest, t, now) {
        var y :| Again(x, y, due[1..], now);
        assert Again(x, y, due, now);
      } else if x !in rest {
        assert Again(x, t, due, now);
      }
    }
  }

  /** After an expiry every timer is one there was, or a recurring one that fired, one period later. */
  lemma {:induction false} ExpirySource(ts: seq<TimerRec>, now: nat)
    ensures forall x :: x in AfterExpiry(ts, now) ==> x in ts || exists y :: y in ts && Again(x, y, Fired(ts, now), now)
  {
    forall x | x in AfterExpiry(ts, now) ensures x in ts || exists y :: y in ts && Again(x, y, Fired(ts, now), now) {
      ReinsertSource(ts[ExpiredCount(ts, now)..], Fired(ts, now), now, x);
      if x !in ts {
        var y :| Again(x, y, Fired(ts, now), now);
        assert y in ts;
      }
    }
  }

  ghost predicate NotBefore(ts: seq<TimerRec>, low: nat) {
    forall x :: x in ts ==> low <= x.next
  }

  lemma {:induction false} FrontIsEarliest(ts: seq<TimerRec>)
    requires Sorted(ts) && ts != []
    ensures NotBefore(ts, ts[0].next)
  {
    assert ts == [ts[0]] + ts[1..];
  }

  /** No expiry brings the earliest deadline forward. */
  lemma {:induction false} ReinsertKeepsLowerBound(rest: seq<TimerRec>, due: seq<TimerRec>, now: nat, low: nat)
    requires low <= now && NotBefore(rest, low)
    ensures NotBefore(Reinsert(rest, due, now), low)
    decreases |due|
  {
    if due != [] {
      var t := due[0];
      InsertAdds(rest, t.(next := now + t.ms));
      ReinsertKeepsLowerBound(PutBack(rest, t, now), due[1..], now, low);
    }
  }

  lemma {:induction false} ExpiryKeepsLowerBound(ts: seq<TimerRec>, now: nat)
    requires Sorted(ts) && ts != []
    ensures NotBefore(AfterExpiry(ts, now), ts[0].next)
  {
    var n := ExpiredCount(ts, now);
    FrontIsEarliest(ts);
    if n > 0 {
      ReinsertKeepsLowerBound(ts[n..], ts[..n], now, ts[0].next);
    } else {
      assert ts[n..] == ts;
    }
  }

  /** The timers whose deadline is this very millisecond, in order. */
  function DueNow(ts: seq<TimerRec>, now: nat): seq<TimerRec> {
    if ts == [] then []
    else (if ts[0].next == now then [ts[0]] else []) + DueNow(ts[1..], now)
  }

  lemma {:induction false} DueNowIsDue(ts: seq<TimerRec>, now: nat)
    requires NotBefore(ts, now)
    ensures DueNow(ts, now) == Due(ts, now)
    ensures forall x :: x in DueNow(ts, now) <==> x in ts && x.next == now
  {
    if ts != [] {
      assert ts == [ts[0]] + ts[1..];
      DueNowIsDue(ts[1..], now);
    }
  }

  lemma {:induction false} ReinsertHas(rest: seq<TimerRec>, due: seq<TimerRec>, now: nat, x: TimerRec)
    requires x in rest || exists y :: Again(x, y, due, now)
    ensures x in Reinsert(rest, due, now)
    decreases |due|
  {
    if due != [] {
      var t := due[0];
      assert due == [t] + due[1..];
      InsertAdds(rest, t.(next := now + t.ms));
      if x !in rest {
        var y :| Again(x, y, due, now);
        assert y == t || Again(x, y, due[1..], now);
      }
      ReinsertHas(PutBack(rest, t, now), due[1..], now, x);
    }
  }

  /** What an expiry fires: exactly the timers whose deadline is now, or nothing when the
      front is overdue. */
  function Firing(ts: seq<TimerRec>, now: nat): seq<TimerRec> {
    if ts == [] || now <= ts[0].next then DueNow(ts, now) else []
  }

  lemma {:induction false} FiredIsFiring(ts: seq<TimerRec>, now: nat)
    requires Sorted(ts)
    ensures Fired(ts, now) == Firing(ts, now)
    ensures forall x :: x in Firing(ts, now) <==> x in ts && x.next == now && now <= ts[0].next
  {
    FiredIsDueIffFrontNotOverdue(ts, now);
    if ts != [] {
      FrontIsEarliest(ts);
      if now <= ts[0].next {
        DueNowIsDue(ts, now);
      } else {
        assert ExpiredCount(ts, now) == 0;
      }
    }
  }

  /** One expiry, timer by timer: these fire, in the order of the set; the one-shots among
      them are gone, the recurring ones are due again one period from now, and every
      other timer is as it was. */
  lemma {:induction false} ExpiryTimerByTimer(ts: seq<TimerRec>, now: nat)
    requires Sorted(ts) && DistinctIds(ts)
    ensures Fired(ts, now) == Firing(ts, now)
    ensures Sorted(AfterExpiry(ts, now))
    ensures forall x :: x in AfterExpiry(ts, now) <==>
      (x in ts && x !in Firing(ts, now)) || exists y :: Again(x, y, Firing(ts, now), now)
  {
    FiredIsFiring(ts, now);
    ExpiryMovesOnlyTheFired(ts, now);
    var n := ExpiredCount(ts, now);
    var rest, fired := ts[n..], ts[..n];
    assert ts == fired + rest;
    DistinctSplit(ts, n);
    forall x ensures x in AfterExpiry(ts, now) <==> (x in ts && x !in fired) || exists y :: Again(x, y, fired, now) {
      assert x in rest <==> x in ts && x !in fired;
      if x in AfterExpiry(ts, now) { ReinsertSource(rest, fired, now, x); }
      if x in rest || exists y :: Again(x, y, fired, now) { ReinsertHas(rest, fired, now, x); }
    }
  }

  /** A timer that fires, after the expiry: it is there iff it is recurring, and then it is
      due one period from now. */
  lemma {:induction false} FiresOnce(ts: seq<TimerRec>, now: nat, x: TimerRec)
    requires Sorted(ts) && DistinctIds(ts) && x in Firing(ts, now)
    ensures forall y :: y in AfterExpiry(ts, now) && y.id == x.id ==> x.recurring && y == x.(next := now + x.ms)
    ensures x.recurring ==> x.(next := now + x.ms) in AfterExpiry(ts, now)
  {
    ExpiryTimerByTimer(ts, now);
    FiredIsFiring(ts, now);
    var fired := Firing(ts, now);
    if x.recurring { assert Again(x.(next := now + x.ms), x, fired, now); }
    forall y | y in AfterExpiry(ts, now) && y.id == x.id ensures x.recurring && y == x.(next := now + x.ms) {
      if y in ts && y !in fired {
        SameTimer(ts, x, y);
      } else {
        var z :| Again(y, z, fired, now);
        SameTimer(ts, x, z);
      }
    }
  }

  // ----- what an overdue front does to a run -----

  /** Arming a timer, or an expiry pass, `wait` milliseconds after the previous operation. */
  datatype Op = Arm(id: nat, ms: nat, recurring: bool, cb: Option<Job>, wait: nat) | Poll(wait: nat)

  datatype Clocked = Clocked(ts: seq<TimerRec>, now: nat)

  function AfterOp(c: Clocked, op: Op): Clocked {
    var now := c.now + op.wait;
    match op
    case Arm(id, ms, recurring, cb, _) => Clocked(Insert(c.ts, TimerRec(id, now + ms, ms, recurring, cb)), now)
    case Poll(_) => Clocked(AfterExpiry(c.ts, now), now)
  }

  function FiredBy(c: Clocked, op: Op): seq<TimerRec> {
    match op
    case Arm(_, _, _, _, _) => []
    case Poll(wait) => Fired(c.ts, c.now + wait)
  }

  /** The timers fired over a run. */
  function FiredOver(c: Clocked, ops: seq<Op>): seq<TimerRec>
    decreases |ops|
  {
    if ops == [] then [] else FiredBy(c, ops[0]) + FiredOver(AfterOp(c, ops[0]), ops[1..])
  }

  predicate Missed(c: Clocked) {
    c.ts != [] && c.ts[0].next < c.now
  }

  lemma {:induction false} MissedStep(c: Clocked, op: Op)
    requires Missed(c)
    ensures Missed(AfterOp(c, op)) && FiredBy(c, op) == []
  {
    match op
    case Arm(id, ms, recurring, cb, wait) =>
      var t := TimerRec(id, c.now + wait + ms, ms, recurring, cb);
      assert Insert(c.ts, t) == [c.ts[0]] + Insert(c.ts[1..], t);
    case Poll(wait) =>
      assert Fired(c.ts, c.now + wait) == [] && AfterExpiry(c.ts, c.now + wait) == c.ts;
  }

  /** Once the front has been missed, nothing fires in any run that neither cancels nor moves it. */
  lemma {:induction false} MissedFrontBlocksEveryRun(c: Clocked, ops: seq<Op>)
    requires Missed(c)
    ensures FiredOver(c, ops) == []
    decreases |ops|
  {
    if ops != [] {
      MissedStep(c, ops[0]);
      MissedFrontBlocksEveryRun(AfterOp(c, ops[0]), ops[1..]);
    }
  }

  /** One timer polled a millisecond late is never delivered, although it is due. */
  lemma {:induction false} LatePollLosesTimer(job: Job, ops: seq<Op>)
    ensures var ts := [TimerRec(0, 10, 10, false, Some(job))];
            Due(ts, 11) == ts && FiredOver(Clocked(ts, 11), ops) == []
  {
    var ts := [TimerRec(0, 10, 10, false, Some(job))];
    AllDue(ts, 11);
    MissedFrontBlocksEveryRun(Clocked(ts, 11), ops);
  }
}
