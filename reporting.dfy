/**
 * The reporting helpers of masterthesis/agreement.py: the mask of the
 * correlation heatmap (get_corr_mask), the class count recorded for each
 * result (n_class) and the ranking rule of print_top_by_metric.
 */
module Reporting {
  import opened Results
  import opened Sequences

  /** np.ones((n, n), dtype=bool) */
  function Ones(n: nat): seq<seq<bool>>
  {
    seq(n, i => seq(n, j => true))
  }

  /** np.triu(m, k): keeps each entry on or above the k-th diagonal (j - i >= k) and zeroes the rest. */
  function Triu(m: seq<seq<bool>>, k: int): seq<seq<bool>>
  {
    seq(|m|, i requires 0 <= i < |m| =>
      seq(|m[i]|, j requires 0 <= j < |m[i]| => if j - i >= k then m[i][j] else false))
  }

  /**
   * get_corr_mask(n): an n-by-n mask that is True strictly above the
   * diagonal, so the heatmap hides the diagonal and the upper triangle and
   * shows each pair of metrics once.
   */
  function CorrMask(n: nat): (mask: seq<seq<bool>>)
    ensures |mask| == n
    ensures forall i :: 0 <= i < n ==> |mask[i]| == n
    ensures forall i, j :: 0 <= i < n && 0 <= j < n ==> (mask[i][j] <==> i < j)
  {
    Triu(Ones(n), 1)
  }

  /**
   * n_class of one result: max(max(gold), max(pred)) + 1, the least number
   * above every label of either sequence; max() of an empty sequence raises
   * ValueError.
   */
  function NumClasses(gold: seq<int>, pred: seq<int>): (r: Result<int>)
    ensures r.Ok? <==> gold != [] && pred != []
    ensures r.Err? ==> r.error == EmptySequence
    ensures r.Ok? ==> forall x :: x in gold + pred ==> x < r.value
    ensures r.Ok? ==> r.value - 1 in gold + pred
  {
    if gold == [] || pred == [] then Err(EmptySequence)
    else
      var g, p := Max(gold), Max(pred);
      Ok((if g < p then p else g) + 1)
  }

  /** The columns of the metrics table that can be ranked. */
  datatype Metric =
    | NClass | Pearson | Spearman | MacroF1 | MicroF1 | WeightedF1
    | Rmse | Mae | MacroMae | MacroRmse

  /** One row of the metrics table, one per result file that could be read. */
  datatype MetricRow = MetricRow(
    filename: string,
    nClass: int,
    pearson: real,
    spearman: real,
    macroF1: real,
    microF1: real,
    weightedF1: real,
    rmse: real,
    mae: real,
    macroMae: real,
    macroRmse: real)

  function MetricValue(row: MetricRow, metric: Metric): real
  {
    match metric
    case NClass => row.nClass as real
    case Pearson => row.pearson
    case Spearman => row.spearman
    case MacroF1 => row.macroF1
    case MicroF1 => row.microF1
    case WeightedF1 => row.weightedF1
    case Rmse => row.rmse
    case Mae => row.mae
    case MacroMae => row.macroMae
    case MacroRmse => row.macroRmse
  }

  /** One printed line: the filename and the metric's value. */
  datatype Entry = Entry(filename: string, value: real)

  /** .loc[:, ['filename', metric]]: the two printed columns of every row. */
  function Project(rows: seq<MetricRow>, metric: Metric): seq<Entry>
  {
    seq(|rows|, i requires 0 <= i < |rows| => Entry(rows[i].filename, MetricValue(rows[i], metric)))
  }

  predicate Descending(es: seq<Entry>)
  {
    forall i, j :: 0 <= i < j < |es| ==> es[i].value >= es[j].value
  }

  /** Inserts e after every entry whose value is at least e's. */
  function Insert(e: Entry, es: seq<Entry>): (r: seq<Entry>)
    requires Descending(es)
    ensures Descending(r)
    ensures multiset(r) == multiset(es) + multiset{e}
    ensures r[0] == if es == [] || e.value > es[0].value then e else es[0]
  {
    if es == [] then [e]
    else if es[0].value >= e.value then
      var rest := Insert(e, es[1..]);
      assert es == [es[0]] + es[1..];
      ConsDescending(es[0], rest);
      [es[0]] + rest
    else
      ConsDescending(e, es);
      [e] + es
  }

  lemma ConsDescending(x: Entry, es: seq<Entry>)
    requires Descending(es)
    requires es != [] ==> x.value >= es[0].value
    ensures Descending([x] + es)
  {
    var r := [x] + es;
    forall i, j | 0 <= i < j < |r| ensures r[i].value >= r[j].value {
      if i == 0 {
        assert r[j] == es[j - 1];
        assert es[0].value >= es[j - 1].value;
      } else {
        assert r[i] == es[i - 1] && r[j] == es[j - 1];
      }
    }
  }

  /** sort_values(ascending=False): the entries by descending value, a permutation of the input. */
  function SortDescending(es: seq<Entry>): (r: seq<Entry>)
    ensures Descending(r)
    ensures multiset(r) == multiset(es)
  {
    if es == [] then []
    else
      assert es == es[..|es| - 1] + [es[|es| - 1]];
      Insert(es[|es| - 1], SortDescending(es[..|es| - 1]))
  }

  /**
   * print_top_by_metric's table for one metric: the rows sorted by
   * descending value of the metric (for every metric, errors included),
   * the first n of them (the source's default n is 5; here the caller
   * passes n). The result is a sub-multiset of the rows, in
   * descending order, and no row left out has a larger value than a row kept.
   */
  function TopByMetric(rows: seq<MetricRow>, metric: Metric, n: nat): (top: seq<Entry>)
    ensures |top| == if n <= |rows| then n else |rows|
    ensures Descending(top)
    ensures multiset(top) <= multiset(Project(rows, metric))
    ensures forall e :: e in multiset(Project(rows, metric)) - multiset(top) ==>
              forall i :: 0 <= i < |top| ==> e.value <= top[i].value
  {
    var entries := Project(rows, metric);
    var sorted := SortDescending(entries);
    var m := if n <= |sorted| then n else |sorted|;
    DroppedAreSmaller(sorted, m);
    assert multiset(sorted) == multiset(entries);
    sorted[..m]
  }

  /** Cutting a descending sequence after m entries drops only entries no larger than the kept ones. */
  lemma DroppedAreSmaller(sorted: seq<Entry>, m: nat)
    requires Descending(sorted) && m <= |sorted|
    ensures Descending(sorted[..m])
    ensures multiset(sorted[..m]) <= multiset(sorted)
    ensures forall e :: e in multiset(sorted) - multiset(sorted[..m]) ==>
              forall i :: 0 <= i < m ==> e.value <= sorted[..m][i].value
  {
    assert sorted == sorted[..m] + sorted[m..];
    assert multiset(sorted) == multiset(sorted[..m]) + multiset(sorted[m..]);
    forall e | e in multiset(sorted) - multiset(sorted[..m])
      ensures forall i :: 0 <= i < m ==> e.value <= sorted[..m][i].value
    {
      assert e in multiset(sorted[m..]);
      var k :| m <= k < |sorted| && sorted[k] == e;
    }
  }
}
