/**
 * macro_mae and macro_rmse (masterthesis/agreement.py:17-32): per-class
 * error metrics averaged with equal weight per gold class, so that a
 * majority class does not dominate the score.
 */
module MacroErrors {
  import opened Results
  import opened Sequences
  import opened Grouping

  /** sum(group) / len(group) for a non-empty list of losses. */
  function Mean(s: seq<int>): real
    requires s != []
  {
    Sum(s) as real / |s| as real
  }

  /** sum(values) / len(values): the unweighted average of the per-class values. */
  function Average(vs: seq<real>): real
    requires vs != []
  {
    SumReal(vs) / |vs| as real
  }

  /** The mean loss of the group filed under gold label c. */
  function ClassMean(ps: seq<Pair>, c: int, loss: Loss): real
    requires c in GoldSet(ps)
  {
    GroupNonEmpty(ps, c);
    Mean(Losses(Group(ps, c), loss))
  }

  /** The per-class MAE (loss Absolute) or MSE (loss Squared), one per class in cs. */
  function ClassMeans(ps: seq<Pair>, cs: seq<int>, loss: Loss): (ms: seq<real>)
    requires forall c :: c in cs ==> c in GoldSet(ps)
    ensures |ms| == |cs|
  {
    seq(|cs|, i requires 0 <= i < |cs| => ClassMean(ps, cs[i], loss))
  }

  /** The per-class RMSE: the square root of each class's mean squared error. */
  function ClassRoots(ps: seq<Pair>, cs: seq<int>, sqrt: real -> real): (rs: seq<real>)
    requires forall c :: c in cs ==> c in GoldSet(ps)
    ensures |rs| == |cs|
  {
    seq(|cs|, i requires 0 <= i < |cs| => sqrt(ClassMean(ps, cs[i], Squared)))
  }

  /**
   * math.sqrt on the non-negative reals: a non-negative number whose square
   * is its argument. The model keeps the root abstract: the metric takes it
   * as a parameter, and the lemmas assume only this.
   */
  ghost predicate IsSqrt(sqrt: real -> real)
  {
    forall x :: 0.0 <= x ==> 0.0 <= sqrt(x) && sqrt(x) * sqrt(x) == x
  }

  /**
   * What macro_mae returns: the sum over the distinct gold classes of the
   * class's mean absolute error, divided by the number of classes; with no
   * zipped pairs there are no classes and the final division fails.
   */
  function MacroMaeOf(gold: seq<int>, pred: seq<int>): Result<real>
  {
    var ps := Zip(gold, pred);
    ClassesAreGoldLabels(ps);
    var cs := Classes(ps);
    if cs == [] then Err(ZeroDivision)
    else Ok(Average(ClassMeans(ps, cs, Absolute)))
  }

  /** What macro_rmse returns, for a given square root. */
  function MacroRmseOf(gold: seq<int>, pred: seq<int>, sqrt: real -> real): Result<real>
  {
    var ps := Zip(gold, pred);
    ClassesAreGoldLabels(ps);
    var cs := Classes(ps);
    if cs == [] then Err(ZeroDivision)
    else Ok(Average(ClassRoots(ps, cs, sqrt)))
  }

  /** macro_mae: group the absolute errors, take each group's mean, average the means. */
  method MacroMae(gold: seq<int>, pred: seq<int>) returns (r: Result<real>)
    ensures r == MacroMaeOf(gold, pred)
  {
    ghost var ps := Zip(gold, pred);
    var groups, order := GroupByGold(gold, pred, Absolute);
    GroupsHoldClassLosses(groups, ps, order, Absolute);
    var maes := GroupMeans(groups, order);
    assert maes == ClassMeans(ps, order, Absolute);
    if |maes| == 0 {
      r := Err(ZeroDivision);
    } else {
      r := Ok(Average(maes));
    }
  }

  /** macro_rmse: group the squared errors, take the root of each group's mean, average the roots. */
  method MacroRmse(gold: seq<int>, pred: seq<int>, sqrt: real -> real) returns (r: Result<real>)
    ensures r == MacroRmseOf(gold, pred, sqrt)
  {
    ghost var ps := Zip(gold, pred);
    var groups, order := GroupByGold(gold, pred, Squared);
    GroupsHoldClassLosses(groups, ps, order, Squared);
    var rmses := GroupRootMeans(groups, order, sqrt);
    assert rmses == ClassRoots(ps, order, sqrt);
    if |rmses| == 0 {
      r := Err(ZeroDivision);
    } else {
      r := Ok(Average(rmses));
    }
  }

  /** The loop `for group in groups.values(): maes.append(sum(group) / len(group))`. */
  method GroupMeans(groups: map<int, seq<int>>, order: seq<int>) returns (maes: seq<real>)
    requires forall j :: 0 <= j < |order| ==> order[j] in groups && groups[order[j]] != []
    ensures |maes| == |order|
    ensures forall j :: 0 <= j < |order| ==> maes[j] == Mean(groups[order[j]])
  {
    maes := [];
    var i := 0;
    while i < |order|
      invariant 0 <= i <= |order|
      invariant |maes| == i
      invariant forall j :: 0 <= j < i ==> maes[j] == Mean(groups[order[j]])
    {
      maes := maes + [Mean(groups[order[i]])];
      i := i + 1;
    }
  }

  /** The loop `for group in groups.values(): rmses.append(math.sqrt(sum(group) / len(group)))`. */
  method GroupRootMeans(groups: map<int, seq<int>>, order: seq<int>, sqrt: real -> real) returns (rmses: seq<real>)
    requires forall j :: 0 <= j < |order| ==> order[j] in groups && groups[order[j]] != []
    ensures |rmses| == |order|
    ensures forall j :: 0 <= j < |order| ==> rmses[j] == sqrt(Mean(groups[order[j]]))
  {
    rmses := [];
    var i := 0;
    while i < |order|
      invariant 0 <= i <= |order|
      invariant |rmses| == i
      invariant forall j :: 0 <= j < i ==> rmses[j] == sqrt(Mean(groups[order[j]]))
    {
      rmses := rmses + [sqrt(Mean(groups[order[i]]))];
      i := i + 1;
    }
  }

  /**
   * What GroupByGold returns, read class by class: every class of the
   * insertion order has a non-empty group whose mean is the class mean.
   */
  lemma GroupsHoldClassLosses(groups: map<int, seq<int>>, ps: seq<Pair>, order: seq<int>, loss: Loss)
    requires order == Classes(ps)
    requires groups.Keys == GoldSet(ps)
    requires forall k :: k in groups ==> groups[k] == Losses(Group(ps, k), loss)
    ensures forall j :: 0 <= j < |order| ==>
              order[j] in GoldSet(ps) && order[j] in groups && groups[order[j]] != []
              && Mean(groups[order[j]]) == ClassMean(ps, order[j], loss)
  {
    ClassesAreGoldLabels(ps);
    forall j | 0 <= j < |order|
      ensures order[j] in GoldSet(ps) && order[j] in groups && groups[order[j]] != []
              && Mean(groups[order[j]]) == ClassMean(ps, order[j], loss)
    {
      GroupNonEmpty(ps, order[j]);
    }
  }

  /** A class's mean loss is never negative. */
  lemma ClassMeanNonNegative(ps: seq<Pair>, c: int, loss: Loss)
    requires c in GoldSet(ps)
    ensures 0.0 <= ClassMean(ps, c, loss)
  {
    GroupNonEmpty(ps, c);
    var es := Losses(Group(ps, c), loss);
    LossesNonNegative(Group(ps, c), loss);
    SumNonNegative(es);
    MeanNonNegative(es);
  }

  /** Every loss of a list of pairs is non-negative. */
  lemma LossesNonNegative(g: seq<Pair>, loss: Loss)
    ensures forall i :: 0 <= i < |g| ==> 0 <= Losses(g, loss)[i]
  {
    forall i | 0 <= i < |g| ensures 0 <= Losses(g, loss)[i] {
      LossZeroIff(loss, g[i]);
    }
  }

  /** The mean of a list with a non-negative sum is non-negative, and zero exactly when the sum is. */
  lemma MeanNonNegative(s: seq<int>)
    requires s != [] && 0 <= Sum(s)
    ensures 0.0 <= Mean(s)
    ensures Mean(s) == 0.0 <==> Sum(s) == 0
  {
    var total, n := Sum(s) as real, |s| as real;
    if total / n == 0.0 {
      assert total == (total / n) * n;
    }
  }

  /** A pair's loss is zero exactly when the prediction is exact. */
  lemma LossZeroIff(loss: Loss, x: Pair)
    ensures 0 <= LossOf(loss, x)
    ensures LossOf(loss, x) == 0 <==> x.0 == x.1
  {
    if loss == Squared && x.0 != x.1 {
      assert (x.0 - x.1) * (x.0 - x.1) > 0;
    }
  }

  /** A class's mean loss is zero exactly when every pair of the class is predicted exactly. */
  lemma ClassMeanZeroIff(ps: seq<Pair>, c: int, loss: Loss)
    requires c in GoldSet(ps)
    ensures ClassMean(ps, c, loss) == 0.0 <==> forall x :: x in Group(ps, c) ==> x.0 == x.1
  {
    GroupNonEmpty(ps, c);
    var g := Group(ps, c);
    var es := Losses(g, loss);
    forall i | 0 <= i < |es| ensures 0 <= es[i] && (es[i] == 0 <==> g[i].0 == g[i].1) {
      LossZeroIff(loss, g[i]);
    }
    SumNonNegative(es);
    SumZeroIff(es);
    MeanNonNegative(es);
    assert (forall i :: 0 <= i < |es| ==> es[i] == 0) <==> (forall x :: x in g ==> x.0 == x.1) by {
      if forall i :: 0 <= i < |es| ==> es[i] == 0 {
        forall x | x in g ensures x.0 == x.1 {
          var k :| 0 <= k < |g| && g[k] == x;
        }
      }
    }
  }

  /** Every zipped pair is a member of the group of its own gold label, and only pairs are members. */
  lemma MembersOfGroups(ps: seq<Pair>)
    ensures forall x :: x in ps ==> x in Group(ps, x.0)
    ensures forall x, c :: x in Group(ps, c) ==> x in ps
  {
    forall x | x in ps ensures x in Group(ps, x.0) {
      GroupIsRestriction(ps, x.0);
      assert multiset(Group(ps, x.0))[x] == multiset(ps)[x];
    }
    forall x, c | x in Group(ps, c) ensures x in ps {
      GroupIsRestriction(ps, c);
      assert multiset(Group(ps, c))[x] > 0;
    }
  }

  /** macro_mae is never negative. */
  lemma MacroMaeNonNegative(gold: seq<int>, pred: seq<int>)
    ensures MacroMaeOf(gold, pred).Ok? ==> 0.0 <= MacroMaeOf(gold, pred).value
  {
    var ps := Zip(gold, pred);
    ClassesAreGoldLabels(ps);
    var cs := Classes(ps);
    var ms := ClassMeans(ps, cs, Absolute);
    forall i | 0 <= i < |ms| ensures 0.0 <= ms[i] {
      ClassMeanNonNegative(ps, cs[i], Absolute);
    }
    if cs != [] {
      AverageNonNegative(ms);
    }
  }

  /** macro_rmse is never negative, for a square root that is never negative. */
  lemma MacroRmseNonNegative(gold: seq<int>, pred: seq<int>, sqrt: real -> real)
    requires IsSqrt(sqrt)
    ensures MacroRmseOf(gold, pred, sqrt).Ok? ==> 0.0 <= MacroRmseOf(gold, pred, sqrt).value
  {
    var ps := Zip(gold, pred);
    ClassesAreGoldLabels(ps);
    var cs := Classes(ps);
    var rs := ClassRoots(ps, cs, sqrt);
    forall i | 0 <= i < |rs| ensures 0.0 <= rs[i] {
      ClassMeanNonNegative(ps, cs[i], Squared);
    }
    if cs != [] {
      AverageNonNegative(rs);
    }
  }

  /** The average of non-negative values is non-negative. */
  lemma AverageNonNegative(vs: seq<real>)
    requires vs != []
    requires forall i :: 0 <= i < |vs| ==> 0.0 <= vs[i]
    ensures 0.0 <= Average(vs)
  {
    SumRealNonNegative(vs);
  }

  /**
   * Both metrics fail with a division by zero exactly when zip produces no
   * pairs, that is, when either input is empty; otherwise both have a value.
   */
  lemma MacroErrorsFailOnlyOnEmpty(gold: seq<int>, pred: seq<int>, sqrt: real -> real)
    ensures MacroMaeOf(gold, pred) == Err(ZeroDivision) <==> gold == [] || pred == []
    ensures MacroRmseOf(gold, pred, sqrt) == Err(ZeroDivision) <==> gold == [] || pred == []
    ensures MacroMaeOf(gold, pred).Ok? <==> gold != [] && pred != []
    ensures MacroRmseOf(gold, pred, sqrt).Ok? <==> gold != [] && pred != []
  {
    var ps := Zip(gold, pred);
    ClassesAreGoldLabels(ps);
    if ps != [] {
      assert ps[0].0 in GoldSet(ps);
    }
  }

  /**
   * Every class mean is zero exactly when every zipped pair is predicted
   * exactly, because every pair belongs to the class of its gold label.
   */
  lemma AllClassMeansZeroIff(ps: seq<Pair>, loss: Loss)
    requires forall c :: c in Classes(ps) ==> c in GoldSet(ps)
    ensures (forall c :: c in Classes(ps) ==> ClassMean(ps, c, loss) == 0.0)
            <==> (forall x :: x in ps ==> x.0 == x.1)
  {
    ClassesAreGoldLabels(ps);
    MembersOfGroups(ps);
    forall c | c in Classes(ps)
      ensures ClassMean(ps, c, loss) == 0.0 <==> forall x :: x in Group(ps, c) ==> x.0 == x.1
    {
      ClassMeanZeroIff(ps, c, loss);
    }
    if forall c :: c in Classes(ps) ==> ClassMean(ps, c, loss) == 0.0 {
      forall x | x in ps ensures x.0 == x.1 {
        assert x.0 in GoldSet(ps);
        assert x in Group(ps, x.0);
      }
    }
  }

  /** A positive number of zipped pairs are all exact exactly when the labels agree position by position. */
  lemma ExactPairs(gold: seq<int>, pred: seq<int>)
    ensures (forall x :: x in Zip(gold, pred) ==> x.0 == x.1)
            <==> forall i :: 0 <= i < |gold| && i < |pred| ==> gold[i] == pred[i]
  {
    var ps := Zip(gold, pred);
    if forall x :: x in ps ==> x.0 == x.1 {
      forall i | 0 <= i < |gold| && i < |pred| ensures gold[i] == pred[i] {
        assert ps[i] in ps;
      }
    }
  }

  /** The root of a non-negative number is non-negative, and zero exactly when the number is. */
  lemma RootZeroIff(sqrt: real -> real, m: real)
    requires IsSqrt(sqrt)
    requires 0.0 <= m
    ensures 0.0 <= sqrt(m)
    ensures sqrt(m) == 0.0 <==> m == 0.0
  {
    var r := sqrt(m);
    assert 0.0 <= r && r * r == m;
    if r != 0.0 {
      calc {
        m;
        r * r;
      > { assert 0.0 < r * r; }
        0.0;
      }
    }
  }

  /** An average of non-negative values is zero exactly when every value is. */
  lemma AverageZeroIff(vs: seq<real>)
    requires vs != []
    requires forall i :: 0 <= i < |vs| ==> 0.0 <= vs[i]
    ensures Average(vs) == 0.0 <==> forall i :: 0 <= i < |vs| ==> vs[i] == 0.0
  {
    SumRealZeroIff(vs);
    var total, n := SumReal(vs), |vs| as real;
    if total / n == 0.0 {
      assert total == (total / n) * n;
    }
  }

  /**
   * macro_mae is zero exactly when every zipped pair is predicted exactly
   * (in particular when pred == true).
   */
  lemma MacroMaeZeroIff(gold: seq<int>, pred: seq<int>)
    requires gold != [] && pred != []
    ensures MacroMaeOf(gold, pred) == Ok(0.0)
            <==> forall i :: 0 <= i < |gold| && i < |pred| ==> gold[i] == pred[i]
  {
    var ps := Zip(gold, pred);
    ClassesAreGoldLabels(ps);
    var cs := Classes(ps);
    MacroErrorsFailOnlyOnEmpty(gold, pred, x => x);
    var ms := ClassMeans(ps, cs, Absolute);
    forall i | 0 <= i < |ms| ensures 0.0 <= ms[i] {
      ClassMeanNonNegative(ps, cs[i], Absolute);
    }
    AverageZeroIff(ms);
    AllClassMeansZeroIff(ps, Absolute);
    ExactPairs(gold, pred);
    assert (forall i :: 0 <= i < |ms| ==> ms[i] == 0.0)
           <==> (forall c :: c in cs ==> ClassMean(ps, c, Absolute) == 0.0) by {
      if forall i :: 0 <= i < |ms| ==> ms[i] == 0.0 {
        forall c | c in cs ensures ClassMean(ps, c, Absolute) == 0.0 {
          var k :| 0 <= k < |cs| && cs[k] == c;
          assert ms[k] == ClassMean(ps, c, Absolute);
        }
      }
    }
  }

  /**
   * macro_rmse is zero exactly when every zipped pair is predicted exactly
   * (in particular when pred == true).
   */
  lemma MacroRmseZeroIff(gold: seq<int>, pred: seq<int>, sqrt: real -> real)
    requires IsSqrt(sqrt)
    requires gold != [] && pred != []
    ensures MacroRmseOf(gold, pred, sqrt) == Ok(0.0)
            <==> forall i :: 0 <= i < |gold| && i < |pred| ==> gold[i] == pred[i]
  {
    var ps := Zip(gold, pred);
    ClassesAreGoldLabels(ps);
    var cs := Classes(ps);
    MacroErrorsFailOnlyOnEmpty(gold, pred, sqrt);
    var rs := ClassRoots(ps, cs, sqrt);
    forall i | 0 <= i < |rs| ensures 0.0 <= rs[i] && (rs[i] == 0.0 <==> ClassMean(ps, cs[i], Squared) == 0.0) {
      ClassMeanNonNegative(ps, cs[i], Squared);
      RootZeroIff(sqrt, ClassMean(ps, cs[i], Squared));
    }
    AverageZeroIff(rs);
    AllClassMeansZeroIff(ps, Squared);
    ExactPairs(gold, pred);
    assert (forall i :: 0 <= i < |rs| ==> rs[i] == 0.0)
           <==> (forall c :: c in cs ==> ClassMean(ps, c, Squared) == 0.0) by {
      if forall i :: 0 <= i < |rs| ==> rs[i] == 0.0 {
        forall c | c in cs ensures ClassMean(ps, c, Squared) == 0.0 {
          var k :| 0 <= k < |cs| && cs[k] == c;
          assert rs[k] == 0.0;
        }
      }
    }
  }

  /**
   * With a single gold class among the zipped pairs, macro averaging is the
   * plain mean over all pairs: macro_mae is the MAE of all pairs.
   */
  lemma SingleClassMaeIsMae(gold: seq<int>, pred: seq<int>, c: int)
    requires gold != [] && pred != []
    requires forall i :: 0 <= i < |gold| && i < |pred| ==> gold[i] == c
    ensures MacroMaeOf(gold, pred) == Ok(Mean(Losses(Zip(gold, pred), Absolute)))
  {
    var ps := Zip(gold, pred);
    SingleGroup(ps, c);
    ClassesAreGoldLabels(ps);
    var mae := ClassMean(ps, c, Absolute);
    assert ClassMeans(ps, [c], Absolute) == [mae];
    assert SumReal([mae]) == mae by {
      assert [mae][..0] == [];
    }
  }

  /**
   * With a single gold class among the zipped pairs, macro_rmse is the root
   * of the mean squared error of all pairs, the plain RMSE.
   */
  lemma SingleClassRmseIsRmse(gold: seq<int>, pred: seq<int>, c: int, sqrt: real -> real)
    requires gold != [] && pred != []
    requires forall i :: 0 <= i < |gold| && i < |pred| ==> gold[i] == c
    ensures MacroRmseOf(gold, pred, sqrt) == Ok(sqrt(Mean(Losses(Zip(gold, pred), Squared))))
  {
    var ps := Zip(gold, pred);
    SingleGroup(ps, c);
    ClassesAreGoldLabels(ps);
    var rmse := sqrt(ClassMean(ps, c, Squared));
    assert ClassMean(ps, c, Squared) == Mean(Losses(ps, Squared));
    assert ClassRoots(ps, [c], sqrt) == [rmse];
    assert SumReal([rmse]) == rmse by {
      assert [rmse][..0] == [];
    }
  }

  /**
   * zip stops at the shorter input: labels past the first min(|gold|, |pred|)
   * positions do not affect either metric.
   */
  lemma TruncatedByZip(gold: seq<int>, pred: seq<int>, sqrt: real -> real)
    ensures var n := if |gold| <= |pred| then |gold| else |pred|;
            && MacroMaeOf(gold, pred) == MacroMaeOf(gold[..n], pred[..n])
            && MacroRmseOf(gold, pred, sqrt) == MacroRmseOf(gold[..n], pred[..n], sqrt)
  {
    var n := if |gold| <= |pred| then |gold| else |pred|;
    assert Zip(gold, pred) == Zip(gold[..n], pred[..n]);
  }

  /** The classes of gold labels [0, 0, 1] against predictions [0, 0, 0]. */
  lemma ExampleClasses(ps: seq<Pair>)
    requires ps == [(0, 0), (0, 0), (1, 0)]
    ensures Classes(ps) == [0, 1]
  {
    var p1, p2 := ps[..1], ps[..2];
    assert p2[..1] == p1 && p1[..0] == [];
    assert Classes(p1) == [0];
    assert Classes(p2) == [0];
  }

  /** The losses filed under each gold label of that example. */
  lemma ExampleGroups(ps: seq<Pair>)
    requires ps == [(0, 0), (0, 0), (1, 0)]
    ensures Sum(Losses(Group(ps, 0), Absolute)) == 0
    ensures Sum(Losses(Group(ps, 1), Absolute)) == 1
    ensures |Group(ps, 0)| == 2 && |Group(ps, 1)| == 1
  {
    var p1, p2 := ps[..1], ps[..2];
    assert p2[..1] == p1 && p1[..0] == [];
    assert Group(p1, 0) == [(0, 0)] && Group(p1, 1) == [];
    assert Group(p2, 0) == [(0, 0), (0, 0)] && Group(p2, 1) == [];
    var zeros, one := Losses(Group(ps, 0), Absolute), Losses(Group(ps, 1), Absolute);
    assert zeros == [0, 0] && one == [1];
    assert zeros[..1] == [0] && zeros[..1][..0] == [] && one[..0] == [];
    assert Sum(zeros[..1]) == 0;
  }

  /** The per-class MAEs of that example, 0 and 1, sum to 1. */
  lemma ExampleClassMeans(ps: seq<Pair>)
    requires ps == [(0, 0), (0, 0), (1, 0)]
    requires forall c :: c in [0, 1] ==> c in GoldSet(ps)
    ensures SumReal(ClassMeans(ps, [0, 1], Absolute)) == 1.0
  {
    ExampleGroups(ps);
    var ms := ClassMeans(ps, [0, 1], Absolute);
    assert ms[0] == ClassMean(ps, 0, Absolute) == 0.0 / 2.0;
    assert ms[1] == ClassMean(ps, 1, Absolute) == 1.0 / 1.0;
    assert ms[..1] == [0.0] && ms[..1][..0] == [];
    assert SumReal(ms[..1]) == 0.0;
  }

  /**
   * Each class weighs the same whatever its support: the one wrong
   * prediction, alone in its class, counts as much as the perfect class of
   * two, so macro_mae is 1/2 where the plain MAE over the three pairs is 1/3.
   */
  lemma ClassesWeighEqually(gold: seq<int>, pred: seq<int>)
    requires gold == [0, 0, 1] && pred == [0, 0, 0]
    ensures MacroMaeOf(gold, pred) == Ok(0.5)
    ensures Mean(Losses(Zip(gold, pred), Absolute)) == 1.0 / 3.0
  {
    var ps := Zip(gold, pred);
    assert ps == [(0, 0), (0, 0), (1, 0)];
    assert Mean(Losses(ps, Absolute)) == 1.0 / 3.0 by {
      var all := Losses(ps, Absolute);
      assert all == [0, 0, 1];
      assert all[..2][..1][..0] == [] && all[..2][..1] == [0] && all[..2] == [0, 0];
      assert Sum(all[..2][..1]) == 0;
      assert Sum(all[..2]) == 0;
    }
    ExampleClasses(ps);
    ClassesAreGoldLabels(ps);
    ExampleClassMeans(ps);
  }
}
