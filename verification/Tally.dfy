/** Totals over a table of threads: every thread contributes a weight that depends on its own state. */
module Tally {

  function Sum<T>(s: seq<T>, w: T -> nat): nat {
    if s == [] then 0 else w(s[0]) + Sum(s[1..], w)
  }

  /** Moving one thread changes a total by the difference of that thread's weights. */
  lemma {:induction false} SumUpdate<T>(s: seq<T>, i: nat, x: T, w: T -> nat)
    requires i < |s|
    ensures Sum(s[i := x], w) + w(s[i]) == Sum(s, w) + w(x)
  {
    if i == 0 {
      assert s[i := x][1..] == s[1..];
    } else {
      assert s[i := x][1..] == s[1..][i - 1 := x];
      SumUpdate(s[1..], i - 1, x, w);
    }
  }

  /** A total is at least what any one thread contributes. */
  lemma {:induction false} SumAtLeast<T>(s: seq<T>, i: nat, w: T -> nat)
    requires i < |s|
    ensures w(s[i]) <= Sum(s, w)
  {
    if i > 0 {
      SumAtLeast(s[1..], i - 1, w);
    }
  }

  /** A total is at least what any two different threads contribute together. */
  lemma {:induction false} SumAtLeastPair<T>(s: seq<T>, i: nat, j: nat, w: T -> nat)
    requires i < |s| && j < |s| && i != j
    ensures w(s[i]) + w(s[j]) <= Sum(s, w)
  {
    if i == 0 {
      SumAtLeast(s[1..], j - 1, w);
    } else if j == 0 {
      SumAtLeast(s[1..], i - 1, w);
    } else {
      SumAtLeastPair(s[1..], i - 1, j - 1, w);
    }
  }

  /** A positive total has a contributor. */
  lemma {:induction false} SumWitness<T>(s: seq<T>, w: T -> nat) returns (i: nat)
    requires Sum(s, w) > 0
    ensures i < |s| && w(s[i]) > 0
  {
    if w(s[0]) > 0 {
      i := 0;
    } else {
      i := SumWitness(s[1..], w);
      i := i + 1;
    }
  }

  /** When no thread weighs more than `k`, the total is at most `k` for each thread. */
  lemma {:induction false} SumBounded<T>(s: seq<T>, w: T -> nat, k: nat)
    requires forall i :: 0 <= i < |s| ==> w(s[i]) <= k
    ensures Sum(s, w) <= k * |s|
  {
    if s != [] {
      SumBounded(s[1..], w, k);
    }
  }

  /** A total of zeroes is zero. */
  lemma {:induction false} SumZero<T>(s: seq<T>, w: T -> nat)
    requires forall i :: 0 <= i < |s| ==> w(s[i]) == 0
    ensures Sum(s, w) == 0
  {
    if s != [] {
      SumZero(s[1..], w);
    }
  }

  /** When all others weigh nothing, the total is what one thread contributes. */
  lemma {:induction false} SumOnly<T>(s: seq<T>, i: nat, w: T -> nat)
    requires i < |s|
    requires forall j :: 0 <= j < |s| && j != i ==> w(s[j]) == 0
    ensures Sum(s, w) == w(s[i])
  {
    if i == 0 {
      SumZero(s[1..], w);
    } else {
      SumOnly(s[1..], i - 1, w);
    }
  }

  /** Totals compare the way the weights do. */
  lemma {:induction false} SumMonotone<T>(s: seq<T>, v: T -> nat, w: T -> nat)
    requires forall i :: 0 <= i < |s| ==> v(s[i]) <= w(s[i])
    ensures Sum(s, v) <= Sum(s, w)
  {
    if s != [] {
      SumMonotone(s[1..], v, w);
    }
  }
}
