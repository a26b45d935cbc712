/** Sums of a weight over a sequence of threads.  The protocols below describe a
    shared counter by "how many threads are at these program points"; each step
    changes one thread, so one update lemma serves them all. */
module Tally {

  function Sum<T>(s: seq<T>, f: T -> nat): nat {
    if s == [] then 0 else f(s[0]) + Sum(s[1..], f)
  }

  /** The weight that counts x. */
  function Is<T(==)>(x: T): T -> nat { (y: T) => if y == x then 1 else 0 }

  /** Replacing one entry moves the sum by the difference of the two weights. */
  lemma {:induction false} SumUpdate<T>(s: seq<T>, i: nat, x: T, f: T -> nat)
    requires i < |s|
    ensures Sum(s[i := x], f) == Sum(s, f) - f(s[i]) + f(x)
  {
    if i == 0 {
      assert s[0 := x][1..] == s[1..];
    } else {
      assert s[i := x][1..] == s[1..][i - 1 := x];
      SumUpdate(s[1..], i - 1, x, f);
    }
  }

  lemma {:induction false} SumAppend<T>(s: seq<T>, x: T, f: T -> nat)
    ensures Sum(s + [x], f) == Sum(s, f) + f(x)
  {
    if s == [] {
      assert s + [x] == [x];
    } else {
      assert (s + [x])[1..] == s[1..] + [x];
      SumAppend(s[1..], x, f);
    }
  }

  lemma {:induction false} SumConcat<T>(a: seq<T>, b: seq<T>, f: T -> nat)
    ensures Sum(a + b, f) == Sum(a, f) + Sum(b, f)
  {
    if a == [] {
      assert a + b == b;
    } else {
      assert (a + b)[1..] == a[1..] + b;
      SumConcat(a[1..], b, f);
    }
  }

  /** A prefix and the entry behind it are part of the whole. */
  lemma {:induction false} SumPrefix<T>(s: seq<T>, k: nat, f: T -> nat)
    requires k < |s|
    ensures Sum(s[..k + 1], f) == Sum(s[..k], f) + f(s[k]) <= Sum(s, f)
  {
    assert s[..k + 1] == s[..k] + [s[k]];
    SumAppend(s[..k], s[k], f);
    assert s == s[..k + 1] + s[k + 1..];
    SumConcat(s[..k + 1], s[k + 1..], f);
  }

  lemma {:induction false} SumAtLeast<T>(s: seq<T>, i: nat, f: T -> nat)
    requires i < |s|
    ensures f(s[i]) <= Sum(s, f)
  {
    if i > 0 {
      SumAtLeast(s[1..], i - 1, f);
    }
  }

  lemma {:induction false} SumPair<T>(s: seq<T>, i: nat, j: nat, f: T -> nat)
    requires i < j < |s|
    ensures f(s[i]) + f(s[j]) <= Sum(s, f)
  {
    if i == 0 {
      SumAtLeast(s[1..], j - 1, f);
    } else {
      SumPair(s[1..], i - 1, j - 1, f);
    }
  }

  lemma {:induction false} SumZero<T>(s: seq<T>, f: T -> nat)
    requires forall i :: 0 <= i < |s| ==> f(s[i]) == 0
    ensures Sum(s, f) == 0
  {
    if s != [] {
      SumZero(s[1..], f);
    }
  }

  lemma {:induction false} SumLe<T>(s: seq<T>, f: T -> nat, g: T -> nat)
    requires forall i :: 0 <= i < |s| ==> f(s[i]) <= g(s[i])
    ensures Sum(s, f) <= Sum(s, g)
  {
    if s != [] {
      SumLe(s[1..], f, g);
    }
  }

  lemma {:induction false} SumWitness<T>(s: seq<T>, f: T -> nat) returns (i: nat)
    requires Sum(s, f) > 0
    ensures i < |s| && f(s[i]) > 0
  {
    if f(s[0]) > 0 {
      i := 0;
    } else {
      var j := SumWitness(s[1..], f);
      i := j + 1;
    }
  }

  lemma {:induction false} SumBound<T>(s: seq<T>, f: T -> nat, k: nat)
    requires forall i :: 0 <= i < |s| ==> f(s[i]) <= k
    ensures Sum(s, f) <= k * |s|
  {
    if s != [] {
      SumBound(s[1..], f, k);
      assert k * |s| == k + k * |s[1..]|;
    }
  }
}
