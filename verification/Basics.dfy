/** Option values, sums of a per-thread weight over all threads of a machine, small sets. */
module Basics {

  datatype Option<+T> = None | Some(value: T)

  /** What one step of a thread does: it has to wait, it touches freed memory, or it moves on. */
  datatype Outcome<+S> = Blocked | Fault | Moved(state: S)

  function Sum<A>(w: A -> int, s: seq<A>): int
  {
    if s == [] then 0 else w(s[0]) + Sum(w, s[1..])
  }

  lemma {:induction false} SumUpdate<A>(w: A -> int, s: seq<A>, i: nat, a: A)
    requires i < |s|
    ensures Sum(w, s[i := a]) == Sum(w, s) - w(s[i]) + w(a)
  {
    if i == 0 {
      assert s[0 := a][1..] == s[1..];
    } else {
      assert s[i := a][1..] == s[1..][i - 1 := a];
      SumUpdate(w, s[1..], i - 1, a);
    }
  }

  lemma {:induction false} SumAppend<A>(w: A -> int, s: seq<A>, a: A)
    ensures Sum(w, s + [a]) == Sum(w, s) + w(a)
  {
    if s == [] {
      assert s + [a] == [a];
    } else {
      assert (s + [a])[1..] == s[1..] + [a];
      SumAppend(w, s[1..], a);
    }
  }

  /** With non-negative weights every single weight is at most the sum. */
  lemma {:induction false} SumBounds<A>(w: A -> int, s: seq<A>)
    requires forall i :: 0 <= i < |s| ==> w(s[i]) >= 0
    ensures Sum(w, s) >= 0
    ensures forall i :: 0 <= i < |s| ==> w(s[i]) <= Sum(w, s)
  {
    if s != [] {
      SumBounds(w, s[1..]);
      forall i | 0 <= i < |s| ensures w(s[i]) <= Sum(w, s) {
        if i > 0 { assert s[i] == s[1..][i - 1]; }
      }
    }
  }

  /** All weights zero: the sum is zero. */
  lemma {:induction false} SumZero<A>(w: A -> int, s: seq<A>)
    requires forall i :: 0 <= i < |s| ==> w(s[i]) == 0
    ensures Sum(w, s) == 0
  {
    if s != [] { SumZero(w, s[1..]); }
  }

  lemma OnlyOne<T>(s: set<T>, x: T, y: T)
    requires |s| == 1 && x in s && y in s
    ensures x == y
  {
    assert |s - {x}| == 0;
    assert y !in s - {x};
  }

  lemma SharedByTwo<T>(s: set<T>, x: T, y: T)
    requires x != y && x in s && y in s
    ensures |s| >= 2
  {
    assert {x, y} <= s;
    assert |s - {x}| >= 1 by { assert y in s - {x}; }
  }

  lemma {:induction false} AllTheSame<T>(s: seq<T>, e: T)
    requires forall i :: 0 <= i < |s| ==> s[i] == e
    ensures multiset(s)[e] == |s|
  {
    if s != [] {
      AllTheSame(s[1..], e);
      assert s == [s[0]] + s[1..];
    }
  }
}
