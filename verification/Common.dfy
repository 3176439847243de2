/** Values shared by every part of the model, and sums over sequences. */
module Common {

  datatype Option<+T> = None | Some(value: T)

  /** What a `std::function<void()>` of the framework does when it is called:
      something of the user's, or the lambda of a hooked sleep, which schedules
      the fiber that went to sleep. */
  datatype Code = User(id: nat) | Wake(fiber: nat)

  /** A callback together with the number of the obligation it stands for. The
      number is never looked at by the code; it lets the theorems say where an
      obligation is. */
  datatype Job = Job(code: Code, ticket: nat)

  /** A counted fiber pointer, again with the obligation it stands for. */
  datatype Handle = Handle(fiber: nat, ticket: nat)

  lemma Assoc<T>(a: seq<T>, b: seq<T>, c: seq<T>)
    ensures a + b + c == a + (b + c)
  {
  }

  // ----- sums -----

  /** f added up over s. */
  function Total<T>(s: seq<T>, f: T -> nat): nat {
    if s == [] then 0 else f(s[0]) + Total(s[1..], f)
  }

  lemma {:induction false} TotalAppend<T>(a: seq<T>, b: seq<T>, f: T -> nat)
    ensures Total(a + b, f) == Total(a, f) + Total(b, f)
  {
    if a == [] {
      assert a + b == b;
    } else {
      assert (a + b)[1..] == a[1..] + b;
      TotalAppend(a[1..], b, f);
    }
  }

  lemma {:induction false} TotalUpdate<T>(s: seq<T>, i: nat, x: T, f: T -> nat)
    requires i < |s|
    ensures Total(s[i := x], f) + f(s[i]) == Total(s, f) + f(x)
  {
    if i == 0 {
      assert s[i := x][1..] == s[1..];
    } else {
      assert s[i := x][1..] == s[1..][i - 1 := x];
      TotalUpdate(s[1..], i - 1, x, f);
    }
  }

  lemma {:induction false} TotalAtLeast<T>(s: seq<T>, i: nat, f: T -> nat)
    requires i < |s|
    ensures f(s[i]) <= Total(s, f)
  {
    if i > 0 { TotalAtLeast(s[1..], i - 1, f); }
  }

  lemma {:induction false} TwoAtLeast<T>(s: seq<T>, i: nat, j: nat, f: T -> nat)
    requires i < j < |s|
    ensures f(s[i]) + f(s[j]) <= Total(s, f)
  {
    if i == 0 {
      TotalAtLeast(s[1..], j - 1, f);
    } else {
      TwoAtLeast(s[1..], i - 1, j - 1, f);
    }
  }

  lemma {:induction false} TotalZero<T>(s: seq<T>, f: T -> nat)
    ensures Total(s, f) == 0 <==> forall i :: 0 <= i < |s| ==> f(s[i]) == 0
  {
    if s != [] {
      TotalZero(s[1..], f);
      assert forall i :: 1 <= i < |s| ==> s[i] == s[1..][i - 1];
    }
  }

  lemma TotalRemove<T>(s: seq<T>, i: nat, f: T -> nat)
    requires i < |s|
    ensures Total(s[..i] + s[i + 1..], f) + f(s[i]) == Total(s, f)
  {
    TotalAppend(s[..i], s[i + 1..], f);
    assert s == s[..i] + s[i..];
    TotalAppend(s[..i], s[i..], f);
  }

  /** A positive sum has a positive term. */
  lemma {:induction false} TotalSource<T>(s: seq<T>, f: T -> nat) returns (i: nat)
    requires Total(s, f) > 0
    ensures i < |s| && f(s[i]) > 0
  {
    if f(s[0]) > 0 {
      i := 0;
    } else {
      i := TotalSource(s[1..], f);
      i := i + 1;
    }
  }
}
