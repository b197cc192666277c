/** Sums of finite sequences of naturals, used to count threads and to rank runs. */
module Sums {

  /** The sum of weights, which counts the elements of some kind. */
  function Total<T>(s: seq<T>, weight: T -> nat): nat {
    if s == [] then 0 else weight(s[0]) + Total(s[1..], weight)
  }

  lemma TotalOfNothing<T>(weight: T -> nat)
    ensures Total([], weight) == 0
  {
  }

  lemma TotalHead<T>(s: seq<T>, weight: T -> nat)
    requires s != []
    ensures Total(s, weight) == weight(s[0]) + Total(s[1..], weight)
  {
  }

  lemma {:induction false} TotalUpdate<T>(s: seq<T>, i: nat, x: T, weight: T -> nat)
    requires i < |s|
    ensures Total(s[i := x], weight) + weight(s[i]) == Total(s, weight) + weight(x)
  {
    if i == 0 {
      assert s[i := x][1..] == s[1..];
    } else {
      assert s[i := x][1..] == s[1..][i - 1 := x];
      TotalUpdate(s[1..], i - 1, x, weight);
    }
  }

  lemma {:induction false} TotalAppend<T>(s: seq<T>, x: T, weight: T -> nat)
    ensures Total(s + [x], weight) == Total(s, weight) + weight(x)
  {
    if s == [] {
      assert s + [x] == [x];
    } else {
      assert (s + [x])[1..] == s[1..] + [x];
      TotalAppend(s[1..], x, weight);
    }
  }

  lemma {:induction false} TotalAtLeast<T>(s: seq<T>, i: nat, weight: T -> nat)
    requires i < |s|
    ensures weight(s[i]) <= Total(s, weight)
  {
    if i > 0 {
      TotalAtLeast(s[1..], i - 1, weight);
    }
  }

  lemma {:induction false} TotalZero<T>(s: seq<T>, weight: T -> nat)
    ensures Total(s, weight) == 0 <==> forall i :: 0 <= i < |s| ==> weight(s[i]) == 0
  {
    if s != [] {
      TotalZero(s[1..], weight);
      assert forall i :: 0 < i < |s| ==> s[i] == s[1..][i - 1];
    }
  }

  lemma {:induction false} TotalConstant<T>(s: seq<T>, weight: T -> nat, x: nat)
    requires forall i :: 0 <= i < |s| ==> weight(s[i]) == x
    ensures Total(s, weight) == |s| * x
  {
    if s != [] {
      TotalConstant(s[1..], weight, x);
    }
  }

  // ---- Sums of numbers ----

  function Itself(n: nat): nat {
    n
  }

  function Sum(s: seq<nat>): nat {
    Total(s, Itself)
  }

  /** A sum grows with every summand, and strictly when some summand does. */
  lemma {:induction false} SumOrder(a: seq<nat>, b: seq<nat>)
    requires |a| == |b|
    requires forall i :: 0 <= i < |a| ==> a[i] <= b[i]
    ensures Sum(a) <= Sum(b)
    ensures (exists i :: 0 <= i < |a| && a[i] < b[i]) ==> Sum(a) < Sum(b)
  {
    if a != [] {
      SumOrder(a[1..], b[1..]);
      if i :| 0 <= i < |a| && a[i] < b[i] {
        if i > 0 {
          assert a[1..][i - 1] < b[1..][i - 1];
        }
      }
    }
  }
}
