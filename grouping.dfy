/**
 * The per-class grouping that macro_mae and macro_rmse share
 * (masterthesis/agreement.py:18-20 and 28-30): the gold and predicted labels
 * are zipped, and each pair's loss is appended to a list kept under the
 * pair's GOLD label in a defaultdict(list).
 */
module Grouping {
  /** One zipped (gold, predicted) pair. */
  type Pair = (int, int)

  /** The per-pair error the two metrics collect. */
  datatype Loss =
    | Absolute  // abs(t - p), macro_mae
    | Squared   // (t - p) ** 2, macro_rmse

  function LossOf(loss: Loss, x: Pair): int
  {
    match loss
    case Absolute => if x.0 < x.1 then x.1 - x.0 else x.0 - x.1
    case Squared => (x.0 - x.1) * (x.0 - x.1)
  }

  /** Python's zip: pairs up elements position by position and stops at the shorter input. */
  function Zip(gold: seq<int>, pred: seq<int>): (ps: seq<Pair>)
    ensures |ps| == if |gold| <= |pred| then |gold| else |pred|
    ensures forall i :: 0 <= i < |ps| ==> ps[i] == (gold[i], pred[i])
  {
    if gold == [] || pred == [] then []
    else [(gold[0], pred[0])] + Zip(gold[1..], pred[1..])
  }

  /** The distinct gold labels among the pairs. */
  function GoldSet(ps: seq<Pair>): set<int>
  {
    set x | x in ps :: x.0
  }

  predicate Distinct(cs: seq<int>)
  {
    forall i, j :: 0 <= i < j < |cs| ==> cs[i] != cs[j]
  }

  /**
   * The keys of the defaultdict in insertion order: each gold label once,
   * in the order of its first occurrence (ClassesAreGoldLabels).
   */
  function Classes(ps: seq<Pair>): seq<int>
  {
    if ps == [] then []
    else
      var cs := Classes(ps[..|ps| - 1]);
      var t := ps[|ps| - 1].0;
      if t in cs then cs else cs + [t]
  }

  /** The pairs filed under gold label c, in input order (GroupIsRestriction). */
  function Group(ps: seq<Pair>, c: int): seq<Pair>
  {
    if ps == [] then []
    else
      var g := Group(ps[..|ps| - 1], c);
      if ps[|ps| - 1].0 == c then g + [ps[|ps| - 1]] else g
  }

  /** The losses of a list of pairs, one per pair, in order. */
  function Losses(g: seq<Pair>, loss: Loss): (es: seq<int>)
    ensures |es| == |g|
    ensures forall i :: 0 <= i < |g| ==> es[i] == LossOf(loss, g[i])
  {
    if g == [] then [] else Losses(g[..|g| - 1], loss) + [LossOf(loss, g[|g| - 1])]
  }

  /**
   * The dictionary the grouping loop builds, one pair at a time: the pair's
   * loss is appended to the list under its gold label, which starts out
   * empty (defaultdict(list)).
   */
  function Filed(ps: seq<Pair>, loss: Loss): map<int, seq<int>>
  {
    if ps == [] then map[]
    else
      var m := Filed(ps[..|ps| - 1], loss);
      var x := ps[|ps| - 1];
      var e := LossOf(loss, x);
      if x.0 in m then m[x.0 := m[x.0] + [e]] else m[x.0 := [e]]
  }

  /**
   * The grouping loop: `for t, p in zip(true, pred): groups[t].append(loss)`.
   * `order` is the dictionary's insertion order, the order in which
   * groups.values() is iterated afterwards. The groups are keyed by the gold
   * labels that occur, and each holds the losses of exactly the pairs with
   * that gold label, in input order.
   */
  method GroupByGold(gold: seq<int>, pred: seq<int>, loss: Loss)
    returns (groups: map<int, seq<int>>, order: seq<int>)
    ensures order == Classes(Zip(gold, pred))
    ensures groups.Keys == GoldSet(Zip(gold, pred))
    ensures forall c :: c in groups ==> groups[c] == Losses(Group(Zip(gold, pred), c), loss)
  {
    ghost var ps := Zip(gold, pred);
    var n := if |gold| <= |pred| then |gold| else |pred|;
    groups, order := map[], [];
    var i := 0;
    while i < n
      invariant 0 <= i <= n
      invariant order == Classes(ps[..i])
      invariant groups == Filed(ps[..i], loss)
    {
      var t, p := gold[i], pred[i];
      var e := LossOf(loss, (t, p));
      assert ps[..i + 1] == ps[..i] + [(t, p)];
      AppendPair(ps[..i], (t, p), loss);
      FiledIsGrouping(ps[..i], loss);
      ClassesAreGoldLabels(ps[..i]);
      if t in groups {
        groups := groups[t := groups[t] + [e]];
      } else {
        groups := groups[t := [e]];
        order := order + [t];
      }
      i := i + 1;
    }
    assert ps[..n] == ps;
    FiledIsGrouping(ps, loss);
  }

  /** The dictionary holds, under each gold label that occurs, the losses of that label's group. */
  lemma {:induction false} FiledIsGrouping(ps: seq<Pair>, loss: Loss)
    ensures Filed(ps, loss).Keys == GoldSet(ps)
    ensures forall c :: c in Filed(ps, loss) ==> Filed(ps, loss)[c] == Losses(Group(ps, c), loss)
  {
    if ps != [] {
      var init := ps[..|ps| - 1];
      var x := ps[|ps| - 1];
      FiledIsGrouping(init, loss);
      assert ps == init + [x];
      AppendPair(init, x, loss);
      forall c | c in Filed(ps, loss)
        ensures Filed(ps, loss)[c] == Losses(Group(ps, c), loss)
      {
        FiledEntry(init, x, c, loss);
      }
    }
  }

  /** One step of FiledIsGrouping: the entry under c after one more pair, given that it held before. */
  lemma FiledEntry(ps: seq<Pair>, x: Pair, c: int, loss: Loss)
    requires Filed(ps, loss).Keys == GoldSet(ps)
    requires c in Filed(ps, loss) ==> Filed(ps, loss)[c] == Losses(Group(ps, c), loss)
    requires c in Filed(ps + [x], loss)
    ensures Filed(ps + [x], loss)[c] == Losses(Group(ps + [x], c), loss)
  {
    AppendPair(ps, x, loss);
    AppendToGroup(ps, x, c, loss);
    if c == x.0 && x.0 !in Filed(ps, loss) {
      GroupNonEmpty(ps, c);
    }
  }

  /** How one more zipped pair changes the classes and the label set. */
  lemma AppendPair(ps: seq<Pair>, x: Pair, loss: Loss)
    ensures Filed(ps + [x], loss)
            == var m := Filed(ps, loss);
               var e := LossOf(loss, x);
               if x.0 in m then m[x.0 := m[x.0] + [e]] else m[x.0 := [e]]
    ensures Classes(ps + [x]) == if x.0 in Classes(ps) then Classes(ps) else Classes(ps) + [x.0]
    ensures GoldSet(ps + [x]) == GoldSet(ps) + {x.0}
  {
    assert (ps + [x])[..|ps|] == ps;
  }

  /** How one more zipped pair changes the losses filed under label c. */
  lemma AppendToGroup(ps: seq<Pair>, x: Pair, c: int, loss: Loss)
    ensures Losses(Group(ps + [x], c), loss)
            == if x.0 == c then Losses(Group(ps, c), loss) + [LossOf(loss, x)]
               else Losses(Group(ps, c), loss)
  {
    assert (ps + [x])[..|ps|] == ps;
    var g := Group(ps, c);
    assert (g + [x])[..|g|] == g;
  }

  /** The groups are keyed by exactly the gold labels that occur, each key once. */
  lemma {:induction false} ClassesAreGoldLabels(ps: seq<Pair>)
    ensures forall c :: c in Classes(ps) <==> c in GoldSet(ps)
    ensures Distinct(Classes(ps))
  {
    if ps != [] {
      var init := ps[..|ps| - 1];
      ClassesAreGoldLabels(init);
      assert ps == init + [ps[|ps| - 1]];
      assert GoldSet(ps) == GoldSet(init) + {ps[|ps| - 1].0};
    }
  }

  /**
   * The multiset of a group is the multiset of the input restricted to the
   * group's gold label: every pair lands in the group of its own gold label,
   * with all its copies, and in no other group.
   */
  lemma {:induction false} GroupIsRestriction(ps: seq<Pair>, c: int)
    ensures forall x :: multiset(Group(ps, c))[x] == if x.0 == c then multiset(ps)[x] else 0
  {
    if ps != [] {
      var init := ps[..|ps| - 1];
      GroupIsRestriction(init, c);
      assert ps == init + [ps[|ps| - 1]];
    }
  }

  /** No group is empty: a group has members exactly when its gold label occurs. */
  lemma {:induction false} GroupNonEmpty(ps: seq<Pair>, c: int)
    ensures |Group(ps, c)| > 0 <==> c in GoldSet(ps)
  {
    if ps != [] {
      var init := ps[..|ps| - 1];
      GroupNonEmpty(init, c);
      assert ps == init + [ps[|ps| - 1]];
      assert GoldSet(ps) == GoldSet(init) + {ps[|ps| - 1].0};
    }
  }

  /** The number of groups is the number of distinct gold labels. */
  lemma {:induction false} ClassCount(ps: seq<Pair>)
    ensures |Classes(ps)| == |GoldSet(ps)|
  {
    if ps != [] {
      var init := ps[..|ps| - 1];
      ClassCount(init);
      ClassesAreGoldLabels(init);
      var t := ps[|ps| - 1].0;
      assert ps == init + [ps[|ps| - 1]];
      assert GoldSet(ps) == GoldSet(init) + {t};
      if t !in Classes(init) {
        assert t !in GoldSet(init);
        assert |GoldSet(init) + {t}| == |GoldSet(init)| + 1;
      } else {
        assert GoldSet(init) + {t} == GoldSet(init);
      }
    }
  }

  /** When every pair has gold label c, there is one group, and it holds every pair. */
  lemma {:induction false} SingleGroup(ps: seq<Pair>, c: int)
    requires ps != []
    requires forall i :: 0 <= i < |ps| ==> ps[i].0 == c
    ensures Classes(ps) == [c]
    ensures Group(ps, c) == ps
  {
    var init := ps[..|ps| - 1];
    if init != [] {
      SingleGroup(init, c);
    }
    assert ps == init + [ps[|ps| - 1]];
  }
}
