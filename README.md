# Agreement metrics of the NorskASK thesis code, in Dafny

This project models the evaluation helpers in `masterthesis/agreement.py`.
They score a rating model's predicted labels against gold labels and report the results:

- **macro MAE and macro RMSE** (`macro_mae`, `macro_rmse`). The zipped
  (gold, predicted) pairs are grouped by gold label in a `defaultdict(list)`.
  Each group's mean absolute error, or the root of its mean squared error, is
  computed, and the per-class values are averaged with equal weight per class.
- **pi_k**, a chance-agreement coefficient of two label sequences. It counts
  both sequences with a `Counter`. For every class `k` in
  `range(min(a + b), max(a + b))` it takes `p_k`, the mean of the two relative
  frequencies of `k`. The result is `sum(p_k * (1 - p_k)) / (classes - 1)`.
- **the reporting rules**: the heatmap mask `get_corr_mask`, the `n_class`
  column (`max(max(gold), max(pred)) + 1`), and the per-metric ranking of
  `print_top_by_metric` (sort by the metric, descending, and keep the first `n` rows).

The loops of the source are methods with loop invariants. Each is proved
against a definition of what it computes:

- the grouping loop (`Grouping.GroupByGold`): its keys, their order and its
  entries are the gold labels (`GoldSet`), their first-occurrence order
  (`Classes`) and each label's filtered losses (`Losses(Group(..))`);
- the per-group loops (`MacroErrors.GroupMeans`, `MacroErrors.GroupRootMeans`):
  entry j is the `Mean` of the j-th group (or its root);
- the `Counter` (`ChanceAgreement.Tally`): each count is the value's
  multiplicity in the list;
- the `pis` loop, inside `ChanceAgreement.PiK`.

The three metric methods `MacroMae`, `MacroRmse` and `PiK` are proved equal
to the specification functions `MacroMaeOf`, `MacroRmseOf` and `PiKOf`. The
properties the metrics promise are proved as lemmas about those functions.

Python's run-time errors are values of `Results.Result`:
- a division by zero is `Err(ZeroDivision)`;
- `min` or `max` of an empty sequence is `Err(EmptySequence)`.

`math.sqrt` is a parameter `sqrt: real -> real`. The lemmas that need it
assume only `MacroErrors.IsSqrt`: the root of a non-negative number is
non-negative and squares back to the number.

Modules:
- `results.dfy`: the `Result` and `MathError` types.
- `sequences.dfy`: `sum`, `min`, `max` and their facts.
- `grouping.dfy`: `zip`, the defaultdict grouping shared by both macro metrics.
- `macro_errors.dfy`: `macro_mae`, `macro_rmse`.
- `chance_agreement.dfy`: `pi_k`.
- `reporting.dfy`: the mask, `n_class`, the ranking.

## Model

| member | source | states |
|---|---|---|
| Sequences.Min | masterthesis/agreement.py:40 | `min(a + b)` of a non-empty list is an element of it and no element is smaller |
| Sequences.Max | masterthesis/agreement.py:40 | `max(a + b)` of a non-empty list is an element of it and no element is larger |
| Sequences.SumNonNegative | masterthesis/agreement.py:23 | a sum of non-negative losses is non-negative |
| Sequences.SumZeroIff | masterthesis/agreement.py:31 | a sum of non-negative losses is zero exactly when every loss is zero |
| Sequences.SumRealNonNegative | masterthesis/agreement.py:32 | a sum of non-negative per-class errors is non-negative |
| Sequences.SumRealZeroIff | masterthesis/agreement.py:32 | a sum of non-negative per-class errors is zero exactly when every one is zero |
| Sequences.SumRealAtMost | masterthesis/agreement.py:45 | proof step for `ChanceAgreement.SpreadInRange`: a sum of terms each at most a bound is at most length times the bound |
| Sequences.MultiplicityAtMostLength | masterthesis/agreement.py:43 | a value's count in a list is at most the list's length, so `count / len` is at most 1 |
| Grouping.Zip | masterthesis/agreement.py:19 | zip pairs the inputs position by position and has the length of the shorter input |
| Grouping.Losses | masterthesis/agreement.py:20 | one loss per pair, in order, each the pair's absolute or squared error |
| Grouping.GroupByGold | masterthesis/agreement.py:18-20 | the dictionary's keys are exactly the gold labels that occur; its insertion order is their first-occurrence order; each key holds the losses of exactly the pairs with that gold label, in input order |
| Grouping.FiledIsGrouping | masterthesis/agreement.py:18-20 | appending each pair's loss under its gold label builds the per-label groups |
| Grouping.FiledEntry | masterthesis/agreement.py:20 | one more pair leaves the entry of every label equal to that label's group of losses |
| Grouping.AppendPair | masterthesis/agreement.py:20 | one more pair adds its loss under its gold label, making a new key at the end of the order only when the label is new |
| Grouping.AppendToGroup | masterthesis/agreement.py:20 | one more pair extends only the group of its own gold label |
| Grouping.ClassesAreGoldLabels | masterthesis/agreement.py:22 | `groups.values()` is iterated once per distinct gold label, and only those |
| Grouping.GroupIsRestriction | masterthesis/agreement.py:19-20 | a label's group holds every pair with that gold label as often as it occurs, and no other pair: the groups partition the pairs |
| Grouping.GroupNonEmpty | masterthesis/agreement.py:23 | a group is non-empty exactly when its label occurs, so `len(group)` is never zero |
| Grouping.ClassCount | masterthesis/agreement.py:24 | there are as many per-class values as distinct gold labels |
| Grouping.SingleGroup | masterthesis/agreement.py:18-20 | when every pair has the same gold label, there is one group holding every pair |
| MacroErrors.MacroMae | masterthesis/agreement.py:27-32 | the method computes the macro MAE specification, failing with a division by zero when there are no groups |
| MacroErrors.MacroRmse | masterthesis/agreement.py:17-24 | the method computes the macro RMSE specification, failing with a division by zero when there are no groups |
| MacroErrors.GroupMeans | masterthesis/agreement.py:31 | `maes` holds one mean per group, in dictionary order |
| MacroErrors.GroupRootMeans | masterthesis/agreement.py:21-23 | `rmses` holds the root of each group's mean, in dictionary order |
| MacroErrors.GroupsHoldClassLosses | masterthesis/agreement.py:22-23 | every key in the dictionary's order has a non-empty group whose mean is that class's mean error |
| MacroErrors.ClassMeanNonNegative | masterthesis/agreement.py:23 | a class's mean error is never negative |
| MacroErrors.LossesNonNegative | masterthesis/agreement.py:20 | every collected loss is non-negative |
| MacroErrors.MeanNonNegative | masterthesis/agreement.py:23 | proof step for `MacroErrors.ClassMeanNonNegative` and `MacroErrors.ClassMeanZeroIff`: `sum(group) / len(group)` is non-negative and zero exactly when the sum is |
| MacroErrors.LossZeroIff | masterthesis/agreement.py:20 | `abs(t - p)` and `(t - p) ** 2` are non-negative and zero exactly when `t == p` |
| MacroErrors.ClassMeanZeroIff | masterthesis/agreement.py:23 | a class's mean error is zero exactly when every pair of that class is exact |
| MacroErrors.MembersOfGroups | masterthesis/agreement.py:19-20 | every pair lands in the group of its gold label, and groups hold only pairs |
| MacroErrors.MacroMaeNonNegative | masterthesis/agreement.py:27-32 | macro MAE is at least 0 |
| MacroErrors.MacroRmseNonNegative | masterthesis/agreement.py:17-24 | macro RMSE is at least 0 |
| MacroErrors.AverageNonNegative | masterthesis/agreement.py:32 | proof step for `MacroErrors.MacroMaeNonNegative` and `MacroErrors.MacroRmseNonNegative`: the average of non-negative per-class values is non-negative |
| MacroErrors.MacroErrorsFailOnlyOnEmpty | masterthesis/agreement.py:24 | both metrics raise a division by zero exactly when either input is empty, and otherwise return a value |
| MacroErrors.AllClassMeansZeroIff | masterthesis/agreement.py:22-23 | every class mean is zero exactly when every zipped pair is exact |
| MacroErrors.ExactPairs | masterthesis/agreement.py:19 | every zipped pair is exact exactly when the inputs agree on their common prefix |
| MacroErrors.RootZeroIff | masterthesis/agreement.py:23 | the root of a non-negative mean is non-negative and zero exactly when the mean is |
| MacroErrors.AverageZeroIff | masterthesis/agreement.py:32 | the average of non-negative values is zero exactly when every value is |
| MacroErrors.MacroMaeZeroIff | masterthesis/agreement.py:27-32 | for non-empty inputs, macro MAE is 0 exactly when pred equals gold on every zipped position |
| MacroErrors.MacroRmseZeroIff | masterthesis/agreement.py:17-24 | for non-empty inputs, macro RMSE is 0 exactly when pred equals gold on every zipped position |
| MacroErrors.SingleClassMaeIsMae | masterthesis/agreement.py:27-32 | with a single gold class, macro MAE is the plain MAE of the zipped pairs |
| MacroErrors.SingleClassRmseIsRmse | masterthesis/agreement.py:17-24 | with a single gold class, macro RMSE is the plain RMSE of the zipped pairs |
| MacroErrors.TruncatedByZip | masterthesis/agreement.py:19 | both metrics read only the common prefix of the inputs: the longer input's tail is ignored |
| MacroErrors.ExampleClasses | masterthesis/agreement.py:18-20 | gold `[0, 0, 1]`: the dictionary has keys 0 then 1 |
| MacroErrors.ExampleGroups | masterthesis/agreement.py:18-20 | gold `[0, 0, 1]` against pred `[0, 0, 0]`: class 0 has two exact pairs, class 1 one pair with error 1 |
| MacroErrors.ExampleClassMeans | masterthesis/agreement.py:31 | the two class means of that example sum to 1 |
| MacroErrors.ClassesWeighEqually | masterthesis/agreement.py:27-32 | each class weighs equally: that example's macro MAE is 1/2 while its plain MAE is 1/3 |
| ChanceAgreement.Tally | masterthesis/agreement.py:38-39 | the Counter holds the distinct values of the list, each with its number of occurrences |
| ChanceAgreement.Proportions | masterthesis/agreement.py:40-43 | `pis` holds one `p_k` per k from min up to but excluding max, in order |
| ChanceAgreement.PiK | masterthesis/agreement.py:35-46 | the method computes the pi_k specification, including all its error cases |
| ChanceAgreement.ProportionInUnitInterval | masterthesis/agreement.py:43 | every `p_k` lies in [0, 1] |
| ChanceAgreement.SquareNonNegative | masterthesis/agreement.py:45 | proof step for `ChanceAgreement.TermInRange`: a real square is non-negative |
| ChanceAgreement.TermInRange | masterthesis/agreement.py:45 | for p in [0, 1], `p * (1 - p)` lies in [0, 1/4] |
| ChanceAgreement.SpreadInRange | masterthesis/agreement.py:45 | the sum of the terms lies in [0, K/4] for K proportions |
| ChanceAgreement.PiKSymmetric | masterthesis/agreement.py:35-46 | `pi_k(a, b) == pi_k(b, a)`, errors included |
| ChanceAgreement.PiKDefinedIff | masterthesis/agreement.py:35-46 | an empty `a + b` is exactly the `min()` error; a value is returned exactly when min equals max, or both inputs are non-empty and the range holds at least two classes |
| ChanceAgreement.PiKDegenerateRanges | masterthesis/agreement.py:44-45 | no class in range gives 0; exactly one class divides by zero |
| ChanceAgreement.PiKBounds | masterthesis/agreement.py:35-46 | with K >= 2 classes, pi_k lies in [0, K / (4 (K - 1))] |
| ChanceAgreement.CoefficientInRange | masterthesis/agreement.py:45 | the coefficient of K >= 2 proportions lies in [0, K / (4 (K - 1))] |
| ChanceAgreement.ScaleBounds | masterthesis/agreement.py:45 | proof step for `ChanceAgreement.CoefficientInRange`: scaling by the positive factor `1 / (K - 1)` keeps the bounds in order |
| ChanceAgreement.LargestLabelExcluded | masterthesis/agreement.py:40 | for `a = b = [0, 0, 1, 1]` the range is `[0, 1)`, a single class, so pi_k divides by zero: the largest label is never counted |
| Reporting.CorrMask | masterthesis/agreement.py:56-58 | the n-by-n mask is True exactly strictly above the diagonal (`i < j`) |
| Reporting.NumClasses | masterthesis/agreement.py:78 | `n_class` exceeds every label of gold and pred and is one more than a label that occurs; it fails exactly when either list is empty |
| Reporting.Insert | masterthesis/agreement.py:96 | inserting into a descending list keeps it descending and adds exactly that entry |
| Reporting.ConsDescending | masterthesis/agreement.py:96 | putting an entry at least as large as the head in front keeps a list descending |
| Reporting.SortDescending | masterthesis/agreement.py:96 | `sort_values(metric, ascending=False)` gives a descending permutation of the rows |
| Reporting.TopByMetric | masterthesis/agreement.py:93-98 | the printed table for a metric has `min(n, rows)` entries, is descending, is drawn from the rows, and no row left out has a larger value than a row shown |
| Reporting.DroppedAreSmaller | masterthesis/agreement.py:98 | `head(n)` of a descending list keeps it descending and drops only entries no larger than those kept |

## Left out

- Floating point: values are exact reals. Rounding, NaN and infinities are not modelled, and Python's `-0.0` (pi_k with no class in range) is `0.0`.
- `math.sqrt` is a parameter. Only its defining property (`MacroErrors.IsSqrt`) is assumed, in the lemmas that need it.
- `files_to_dataframe` reads pickled result files and calls scipy and scikit-learn (`pearsonr`, `spearmanr`, `f1_score`, `mean_squared_error`, `mean_absolute_error`). That is file I/O and foreign code. Only its `n_class` expression (`Reporting.NumClasses`) is modelled, and a metrics row is a `Reporting.MetricRow` of given values.
- `plot_corrs`, `plot_regs` and the command-line entry point (`parse_args`, `main`) are plotting and I/O.
- Only the mask that `plot_corrs` passes to the heatmap is modelled.
- `print_top_by_metric` prints one table per metric. The model computes the table for one metric (`Reporting.TopByMetric`); the printing and the loop over metrics are left out.
- `Reporting.TopByMetric` does not model pandas' tie order: `sort_values` uses an unstable quicksort by default. The model's insertion sort keeps input order on ties. The contract holds for any tie order and does not state one.
- `Reporting.TopByMetric` takes `n` as a natural number and has no default. `print_top_by_metric` defaults `n` to 5, and the command-line entry point relies on that default; a caller of the model passes 5 itself. `head(n)` with a negative `n` (all but the last rows) is not modelled.
- The ranking sorts descending for every metric, as the code does. This includes the error metrics (MAE, RMSE, macro MAE, macro RMSE), for which a smaller value is better.
- The pi_k class range is `range(min(a + b), max(a + b))`, as the code has it. The largest observed label is never a class (`ChanceAgreement.LargestLabelExcluded`).
- Labels are unbounded integers; Python's integers are unbounded too, so no wrap-around arises.
