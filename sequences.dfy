/** Python's built-in sum(), min() and max() over sequences of numbers. */
module Sequences {
  /** sum() of integers: a left-to-right fold that starts at 0. */
  function Sum(s: seq<int>): int
  {
    if s == [] then 0 else Sum(s[..|s| - 1]) + s[|s| - 1]
  }

  /** sum() of reals, folded the same way. */
  function SumReal(s: seq<real>): real
  {
    if s == [] then 0.0 else SumReal(s[..|s| - 1]) + s[|s| - 1]
  }

  /** min() of a non-empty sequence: an element that no element is below. */
  function Min(s: seq<int>): (m: int)
    requires s != []
    ensures m in s
    ensures forall x :: x in s ==> m <= x
  {
    if |s| == 1 then s[0]
    else
      var rest := Min(s[1..]);
      assert s == [s[0]] + s[1..];
      if s[0] <= rest then s[0] else rest
  }

  /** max() of a non-empty sequence: an element that no element is above. */
  function Max(s: seq<int>): (m: int)
    requires s != []
    ensures m in s
    ensures forall x :: x in s ==> x <= m
  {
    if |s| == 1 then s[0]
    else
      var rest := Max(s[1..]);
      assert s == [s[0]] + s[1..];
      if rest < s[0] then s[0] else rest
  }

  lemma {:induction false} SumNonNegative(s: seq<int>)
    requires forall i :: 0 <= i < |s| ==> 0 <= s[i]
    ensures 0 <= Sum(s)
  {
    if s != [] {
      SumNonNegative(s[..|s| - 1]);
    }
  }

  /** A sum of non-negative integers is zero exactly when every term is. */
  lemma {:induction false} SumZeroIff(s: seq<int>)
    requires forall i :: 0 <= i < |s| ==> 0 <= s[i]
    ensures Sum(s) == 0 <==> forall i :: 0 <= i < |s| ==> s[i] == 0
  {
    if s != [] {
      SumZeroIff(s[..|s| - 1]);
      SumNonNegative(s[..|s| - 1]);
    }
  }

  lemma {:induction false} SumRealNonNegative(s: seq<real>)
    requires forall i :: 0 <= i < |s| ==> 0.0 <= s[i]
    ensures 0.0 <= SumReal(s)
  {
    if s != [] {
      SumRealNonNegative(s[..|s| - 1]);
    }
  }

  /** A sum of non-negative reals is zero exactly when every term is. */
  lemma {:induction false} SumRealZeroIff(s: seq<real>)
    requires forall i :: 0 <= i < |s| ==> 0.0 <= s[i]
    ensures SumReal(s) == 0.0 <==> forall i :: 0 <= i < |s| ==> s[i] == 0.0
  {
    if s != [] {
      SumRealZeroIff(s[..|s| - 1]);
      SumRealNonNegative(s[..|s| - 1]);
    }
  }

  /** A sum of terms that are each at most `bound` is at most |s| * bound. */
  lemma {:induction false} SumRealAtMost(s: seq<real>, bound: real)
    requires forall i :: 0 <= i < |s| ==> s[i] <= bound
    ensures SumReal(s) <= |s| as real * bound
  {
    if s != [] {
      SumRealAtMost(s[..|s| - 1], bound);
    }
  }

  /** A multiset count never exceeds the length of the sequence it counts in. */
  lemma {:induction false} MultiplicityAtMostLength<T>(s: seq<T>, x: T)
    ensures multiset(s)[x] <= |s|
  {
    if s != [] {
      MultiplicityAtMostLength(s[..|s| - 1], x);
      assert s == s[..|s| - 1] + [s[|s| - 1]];
    }
  }
}
