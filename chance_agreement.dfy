/**
 * pi_k (masterthesis/agreement.py:35-46): a chance-agreement coefficient of
 * two label sequences. For every class k in range(min(a + b), max(a + b))
 * it takes p_k, the mean of k's relative frequencies in a and in b, and
 * returns the sum of p_k * (1 - p_k) divided by (number of classes - 1).
 * The range stops BEFORE max(a + b), so the largest label is never a class.
 */
module ChanceAgreement {
  import opened Results
  import opened Sequences

  /** Counter lookup: the tally of k, or 0 for a value never counted. */
  function CountOf(counts: map<int, nat>, k: int): nat
  {
    if k in counts then counts[k] else 0
  }

  /** Counter(s): one pass over s that adds 1 to the tally of each element. */
  method Tally(s: seq<int>) returns (counts: map<int, nat>)
    ensures counts.Keys == set x | x in s
    ensures forall k :: CountOf(counts, k) == multiset(s)[k]
  {
    counts := map[];
    var i := 0;
    while i < |s|
      invariant 0 <= i <= |s|
      invariant counts.Keys == set x | x in s[..i]
      invariant forall k :: CountOf(counts, k) == multiset(s[..i])[k]
    {
      assert s[..i + 1] == s[..i] + [s[i]];
      counts := counts[s[i] := CountOf(counts, s[i]) + 1];
      i := i + 1;
    }
    assert s[..|s|] == s;
  }

  /** p_k: the mean of the relative frequencies of k in a and in b. */
  function Proportion(a: seq<int>, b: seq<int>, k: int): real
    requires a != [] && b != []
  {
    (multiset(a)[k] as real / |a| as real + multiset(b)[k] as real / |b| as real) / 2.0
  }

  /**
   * The list `pis`: p_k for k = lo, lo + 1, ..., hi - 1, in that order.
   * Computing any p_k needs both inputs non-empty.
   */
  function Proportions(a: seq<int>, b: seq<int>, lo: int, hi: int): (pis: seq<real>)
    requires lo <= hi
    requires lo < hi ==> a != [] && b != []
    decreases hi - lo
    ensures |pis| == hi - lo
    ensures forall i :: 0 <= i < |pis| ==> pis[i] == Proportion(a, b, lo + i)
  {
    if lo == hi then [] else Proportions(a, b, lo, hi - 1) + [Proportion(a, b, hi - 1)]
  }

  /** sum(p * (1 - p) for p in pis), summed left to right. */
  function Spread(pis: seq<real>): real
  {
    if pis == [] then 0.0
    else
      var p := pis[|pis| - 1];
      Spread(pis[..|pis| - 1]) + p * (1.0 - p)
  }

  /** ac = (1 / (num_classes - 1)) * sum(p * (1 - p) for p in pis), for num_classes = len(pis) != 1. */
  function Coefficient(pis: seq<real>): real
    requires |pis| != 1
  {
    (1.0 / (|pis| - 1) as real) * Spread(pis)
  }

  /**
   * What pi_k returns. min() of the empty a + b raises ValueError; with a
   * non-empty class range, a division by len(a) or len(b) == 0 fails; with
   * exactly one class, 1 / (num_classes - 1) fails; with none, the factor is
   * 1 / -1 and the empty sum makes the result 0.
   */
  function PiKOf(a: seq<int>, b: seq<int>): Result<real>
  {
    if a + b == [] then Err(EmptySequence)
    else
      var lo, hi := Min(a + b), Max(a + b);
      if lo < hi && (a == [] || b == []) then Err(ZeroDivision)
      else
        var pis := Proportions(a, b, lo, hi);
        if |pis| == 1 then Err(ZeroDivision)
        else Ok(Coefficient(pis))
  }

  /** pi_k: tally both inputs, collect p_k over the class range, combine. */
  method PiK(a: seq<int>, b: seq<int>) returns (r: Result<real>)
    ensures r == PiKOf(a, b)
  {
    var nA, nB := |a|, |b|;
    var countA := Tally(a);
    var countB := Tally(b);
    if a + b == [] {
      return Err(EmptySequence);
    }
    var lo, hi := Min(a + b), Max(a + b);
    var pis: seq<real> := [];
    var k := lo;
    while k < hi
      invariant lo <= k <= hi
      invariant lo < k ==> nA > 0 && nB > 0
      invariant pis == Proportions(a, b, lo, k)
    {
      if nA == 0 || nB == 0 {
        return Err(ZeroDivision);
      }
      pis := pis + [(CountOf(countA, k) as real / nA as real + CountOf(countB, k) as real / nB as real) / 2.0];
      k := k + 1;
    }
    var numClasses := |pis|;
    if numClasses == 1 {
      return Err(ZeroDivision);
    }
    r := Ok(Coefficient(pis));
  }

  /** Every p_k is a proportion: it lies in [0, 1]. */
  lemma ProportionInUnitInterval(a: seq<int>, b: seq<int>, k: int)
    requires a != [] && b != []
    ensures 0.0 <= Proportion(a, b, k) <= 1.0
  {
    MultiplicityAtMostLength(a, k);
    MultiplicityAtMostLength(b, k);
    var fa := multiset(a)[k] as real / |a| as real;
    var fb := multiset(b)[k] as real / |b| as real;
    assert 0.0 <= fa <= 1.0;
    assert 0.0 <= fb <= 1.0;
  }

  /** A square is never negative. */
  lemma SquareNonNegative(d: real)
    ensures 0.0 <= d * d
  {
    if d < 0.0 {
      calc {
        d * d;
      ==
        (-d) * (-d);
      > { assert 0.0 < -d; }
        0.0;
      }
    } else if d > 0.0 {
      calc {
        d * d;
      >
        0.0;
      }
    }
  }

  /** Each term p * (1 - p) of a proportion lies in [0, 1/4]. */
  lemma TermInRange(p: real)
    requires 0.0 <= p <= 1.0
    ensures 0.0 <= p * (1.0 - p) <= 0.25
  {
    SquareNonNegative(p - 0.5);
    calc {
      p * (1.0 - p);
    ==
      0.25 - (p - 0.5) * (p - 0.5);
    }
    calc {
      p * (1.0 - p);
    >= { assert 0.0 <= 1.0 - p; }
      0.0 * (1.0 - p);
    }
  }

  /** A spread of proportions lies between 0 and a quarter of their number. */
  lemma {:induction false} SpreadInRange(pis: seq<real>)
    requires forall i :: 0 <= i < |pis| ==> 0.0 <= pis[i] <= 1.0
    ensures 0.0 <= Spread(pis) <= |pis| as real * 0.25
  {
    if pis != [] {
      var init, p := pis[..|pis| - 1], pis[|pis| - 1];
      SpreadInRange(init);
      TermInRange(p);
      assert Spread(pis) == Spread(init) + p * (1.0 - p);
      assert |pis| as real * 0.25 == |init| as real * 0.25 + 0.25;
    }
  }

  /** pi_k does not depend on the order of its two arguments. */
  lemma PiKSymmetric(a: seq<int>, b: seq<int>)
    ensures PiKOf(a, b) == PiKOf(b, a)
  {
    if a + b != [] {
      assert forall x :: x in a + b <==> x in b + a;
      var lo, hi := Min(a + b), Max(a + b);
      assert Min(b + a) == lo && Max(b + a) == hi;
      if !(lo < hi && (a == [] || b == [])) {
        assert Proportions(a, b, lo, hi) == Proportions(b, a, lo, hi);
      }
    }
  }

  /**
   * When pi_k has a value: a + b is non-empty, and either every label is the
   * same (no class in range) or both inputs are non-empty and the range holds
   * at least two classes. Every failure other than the empty a + b is a
   * division by zero.
   */
  lemma PiKDefinedIff(a: seq<int>, b: seq<int>)
    ensures PiKOf(a, b) == Err(EmptySequence) <==> a + b == []
    ensures PiKOf(a, b).Ok?
            <==> a + b != []
                 && (Min(a + b) == Max(a + b)
                     || (a != [] && b != [] && Max(a + b) - Min(a + b) >= 2))
  {
  }

  /**
   * The two degenerate class ranges: no class at all gives 0, exactly one
   * class divides by zero.
   */
  lemma PiKDegenerateRanges(a: seq<int>, b: seq<int>)
    ensures a + b != [] && Min(a + b) == Max(a + b) ==> PiKOf(a, b) == Ok(0.0)
    ensures a != [] && b != [] && Max(a + b) - Min(a + b) == 1 ==> PiKOf(a, b) == Err(ZeroDivision)
  {
  }

  /**
   * With at least two classes in range, pi_k lies in [0, K / (4 * (K - 1))]
   * where K = max(a + b) - min(a + b) is the number of classes.
   */
  lemma PiKBounds(a: seq<int>, b: seq<int>)
    requires a != [] && b != []
    requires Max(a + b) - Min(a + b) >= 2
    ensures PiKOf(a, b).Ok?
    ensures var classes := (Max(a + b) - Min(a + b)) as real;
            0.0 <= PiKOf(a, b).value <= classes / (4.0 * (classes - 1.0))
  {
    var lo, hi := Min(a + b), Max(a + b);
    var pis := Proportions(a, b, lo, hi);
    forall i | 0 <= i < |pis| ensures 0.0 <= pis[i] <= 1.0 {
      ProportionInUnitInterval(a, b, lo + i);
    }
    CoefficientInRange(pis);
  }

  /**
   * The coefficient of K >= 2 proportions lies in [0, K / (4 * (K - 1))]:
   * each term p * (1 - p) is at most 1/4.
   */
  lemma CoefficientInRange(pis: seq<real>)
    requires |pis| >= 2
    requires forall i :: 0 <= i < |pis| ==> 0.0 <= pis[i] <= 1.0
    ensures var classes := |pis| as real;
            0.0 <= Coefficient(pis) <= classes / (4.0 * (classes - 1.0))
  {
    SpreadInRange(pis);
    var classes := |pis| as real;
    var d := classes - 1.0;
    var s := Spread(pis);
    var f := 1.0 / d;
    assert (|pis| - 1) as real == d;
    assert Coefficient(pis) == f * s;
    ScaleBounds(f, s, classes * 0.25);
    calc {
      f * (classes * 0.25);
    ==
      (classes * 0.25) / d;
    ==
      classes / (4.0 * d);
    }
  }

  /** Scaling by a positive factor keeps a value between 0 and its bound. */
  lemma ScaleBounds(f: real, s: real, bound: real)
    requires 0.0 < f
    requires 0.0 <= s <= bound
    ensures 0.0 <= f * s <= f * bound
  {
    calc {
      f * bound - f * s;
    ==
      f * (bound - s);
    >= { assert 0.0 <= bound - s; }
      0.0;
    }
    calc {
      f * s;
    >= { assert 0.0 <= s; }
      0.0;
    }
  }

  /**
   * The largest label is not a class: with a == b == [0, 0, 1, 1] the range
   * range(0, 1) holds class 0 alone, and 1 / (num_classes - 1) divides by zero
   * although two labels occur.
   */
  lemma LargestLabelExcluded(a: seq<int>)
    requires a == [0, 0, 1, 1]
    ensures Min(a + a) == 0 && Max(a + a) == 1
    ensures PiKOf(a, a) == Err(ZeroDivision)
  {
    assert 0 in a + a && 1 in a + a;
    assert forall x :: x in a + a ==> 0 <= x <= 1;
  }
}
