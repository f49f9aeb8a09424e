/** Sums of weights over a sequence. A weight may depend on a key; None asks for the weight of all keys together. */
module Sums {
  import opened Wrappers

  function Sum<T>(s: seq<T>, f: (T, Option<nat>) -> nat, key: Option<nat>): nat {
    if s == [] then 0 else f(s[0], key) + Sum(s[1..], f, key)
  }

  /** Replacing one element exchanges its weight. */
  lemma {:induction false} SumUpdate<T>(s: seq<T>, i: nat, x: T, f: (T, Option<nat>) -> nat, key: Option<nat>)
    requires i < |s|
    ensures Sum(s[i := x], f, key) + f(s[i], key) == Sum(s, f, key) + f(x, key)
  {
    if i == 0 {
      assert s[i := x][1..] == s[1..];
    } else {
      assert s[i := x][1..] == s[1..][i - 1 := x];
      SumUpdate(s[1..], i - 1, x, f, key);
    }
  }

  lemma {:induction false} SumAtLeast<T>(s: seq<T>, i: nat, f: (T, Option<nat>) -> nat, key: Option<nat>)
    requires i < |s|
    ensures f(s[i], key) <= Sum(s, f, key)
  {
    if i > 0 {
      SumAtLeast(s[1..], i - 1, f, key);
    }
  }

  /** A positive sum has an element with a positive weight. */
  lemma {:induction false} SumWitness<T>(s: seq<T>, f: (T, Option<nat>) -> nat, key: Option<nat>) returns (i: nat)
    requires Sum(s, f, key) > 0
    ensures i < |s| && f(s[i], key) > 0
  {
    if f(s[0], key) > 0 {
      i := 0;
    } else {
      var j := SumWitness(s[1..], f, key);
      i := j + 1;
    }
  }

  lemma {:induction false} SumSame<T>(s: seq<T>, t: seq<T>, f: (T, Option<nat>) -> nat, key: Option<nat>)
    requires |s| == |t| && forall i | 0 <= i < |s| :: f(s[i], key) == f(t[i], key)
    ensures Sum(s, f, key) == Sum(t, f, key)
  {
    if s != [] {
      SumSame(s[1..], t[1..], f, key);
    }
  }

  lemma {:induction false} SumZero<T>(s: seq<T>, f: (T, Option<nat>) -> nat, key: Option<nat>)
    requires forall i | 0 <= i < |s| :: f(s[i], key) == 0
    ensures Sum(s, f, key) == 0
  {
    if s != [] {
      SumZero(s[1..], f, key);
    }
  }
}
