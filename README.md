# SemiSupervisedBOW: annealing scheduler, epoch gate and topic extractor

A Dafny model of the deterministic bookkeeping inside `SemiSupervisedBOW`, the
neural variational topic model of `vae/modules/semi_supervised_base.py`:

- **KL-weight annealing** (modules `Annealing`, `TopicModel`): the weight multiplying
  the KL term. The constructor picks it from the schedule name ("linear", "sigmoid",
  "constant" or none, anything else raising a configuration error), and
  `update_kld_weight` re-derives it each time the epoch number it is given differs from
  the last one seen (`_kl_epoch_tracker`), after counting one more epoch (`_cur_epoch`).
  The linear schedule is exact rational arithmetic (`real`). The sigmoid schedule's
  floating-point value is kept symbolic as `LogisticAt(n)`.
- **Once-per-epoch gate** (modules `EpochGate`, `TopicModel`):
  `compute_custom_metrics_once_per_epoch` compares the epoch number with
  `_metric_epoch_tracker`. On a new number it dumps the topics (if `track_topics`), then
  updates NPMI (if `ref_directory` is truthy), then records the number. The two side
  effects are events appended to a trace, so "fires exactly once per new epoch" is a
  statement about the trace. "New" means a change of the epoch number: a number seen
  before fires again after a different one (from 0, the calls 3, 4, 3 fire three times).
- **Topic extractor** (modules `Ranking`, `Topics`): `extract_topics` returns a "bg"
  row followed by rows labelled "0".."K-1". Each row lists vocabulary indices in a
  stable descending sort by weight, cut by Python's `[:k]`.
- Both trackers follow the same rule: react only to a value that differs from the last
  one seen. Module `EpochTracker` describes which values of a sequence of calls
  trigger a reaction (`ChangePoints`).

The class `TopicModel.SemiSupervisedBOW` holds the fields the source updates in place.
Its two methods are proved equal to the pure steps `Annealing.UpdateKl` and
`EpochGate.GateStep`. The properties are proved as lemmas about those steps and about
runs of them (`RunKl`, `GateRun`).

Three behaviours of the code worth stating plainly:
- The constructor stores the schedule's value at epoch counter 1. That is the same
  value the first epoch transition stores, because `_cur_epoch` goes from 0 to 1
  (`Annealing.InitialKldWeight`).
- `update_kld_weight` raises for an unknown schedule name only when the epoch number
  differs from `_kl_epoch_tracker`, and only after updating the tracker and `_cur_epoch`
  (semi_supervised_base.py:139-142, 151-152).
- The NPMI branch tests the truth value of `ref_directory`, so an empty path disables it
  (`EpochGate.Truthy`).

## Model

| member | source | states |
|---|---|---|
| `Annealing.LinearWeight` | vae/modules/semi_supervised_base.py:143-144 | the linear weight `min(1, n/50)` lies in [0, 1], is positive once `n > 0`, and equals 1 exactly from `n = 50` on |
| `Annealing.LinearWeightMonotone` | vae/modules/semi_supervised_base.py:144 | the linear weight never decreases as the epoch counter grows |
| `Annealing.ScheduledWeight` | vae/modules/semi_supervised_base.py:143-152 | an update yields a weight exactly when the schedule name is "linear", "sigmoid", "constant" or none |
| `Annealing.InitialKldWeight` | vae/modules/semi_supervised_base.py:94-103 | the constructor's weight equals what the first update's formula gives at counter 1; it raises, with the name, exactly for an unknown schedule |
| `Annealing.UpdateKl` | vae/modules/semi_supervised_base.py:138-152 | same epoch number: no state change and no error; new number: tracker set to it and counter +1; a known schedule stores its value at the new counter, whatever schedule produced the old state; an error exactly when the number is new and the schedule unknown, and then the weight is unchanged |
| `Annealing.RunKlFollowsSchedule` | vae/modules/semi_supervised_base.py:138-152 | over any sequence of calls under a known schedule: no error, the counter grows by the number of epoch-number changes, the tracker holds the last number, and the weight stays the schedule's value at the counter |
| `Annealing.InitialFollowsSchedule` | vae/modules/semi_supervised_base.py:94-108 | the constructor's state (trackers 0, weight as chosen) is consistent with its schedule |
| `Annealing.LinearFromStart` | vae/modules/semi_supervised_base.py:95 | from construction under "linear": after n changes the weight is `min(1, n/50)` (1/50 before the first), in (0, 1], and 1 from the 50th change on |
| `Annealing.LinearNeverDecreases` | vae/modules/semi_supervised_base.py:143-144 | under "linear" a run of updates never lowers the weight |
| `Annealing.ConstantFromStart` | vae/modules/semi_supervised_base.py:98-101 | under "constant" or no schedule the weight is 1.0 after any sequence of calls |
| `Annealing.SigmoidFromStart` | vae/modules/semi_supervised_base.py:96-97 | under "sigmoid" the weight is the logistic curve at the epoch counter (at 1 before the first change) |
| `Annealing.UnknownScheduleRaisesAtFirstChange` | vae/modules/semi_supervised_base.py:139-152 | an unknown name goes unnoticed while the epoch number repeats; at the first change it raises, with the tracker already set and the counter incremented but the weight untouched |
| `EpochTracker.ChangePoints` | vae/modules/semi_supervised_base.py:139 | the values a tracker reacts to are no more than the calls and are among the values given |
| `EpochTracker.NoConsecutiveRepeats` | vae/modules/semi_supervised_base.py:139-141 | a tracker never reacts to the value it holds, nor twice in a row to the same value |
| `EpochTracker.RepeatedValue` | vae/modules/semi_supervised_base.py:155 | n calls with one value react once if the value is new and never otherwise, and leave the tracker at that value |
| `EpochTracker.EveryChangeReacts` | vae/modules/semi_supervised_base.py:155 | when each value differs from the one before it, every call reacts, including a value seen before a different one |
| `EpochGate.EpochActions` | vae/modules/semi_supervised_base.py:158-163 | a firing dumps topics iff `track_topics` and updates NPMI iff the reference directory is set, topics first |
| `EpochGate.GateStep` | vae/modules/semi_supervised_base.py:155-165 | a call fires only on a non-empty list whose number differs from the tracker, and the tracker changes only to that number |
| `EpochGate.RepeatIsNoOp` | vae/modules/semi_supervised_base.py:165 | repeating a call right after itself fires nothing and changes nothing |
| `EpochGate.GateRunFiresAtChanges` | vae/modules/semi_supervised_base.py:154-165 | over any sequence of calls the trace is one firing per change of the epoch number, empty calls skipped, and the tracker ends at the last number seen |
| `EpochGate.OneFiringCounts` | vae/modules/semi_supervised_base.py:158-163 | one firing dumps topics for its epoch exactly when topics are tracked, and updates NPMI exactly once when the reference directory is set |
| `EpochGate.ActionsAtCounts` | vae/modules/semi_supervised_base.py:158-163 | firing at a list of epochs dumps topics for exactly those epochs in order, and updates NPMI once per firing |
| `EpochGate.RepeatedCallsFireOnce` | vae/modules/semi_supervised_base.py:155-165 | any number of calls with one epoch number fire exactly once if it differs from the tracker, never otherwise; with the tracker at its starting value 0 (lines 106-108), epoch 0 never fires |
| `EpochGate.OncePerNewEpoch` | vae/modules/semi_supervised_base.py:154-165 | over any run, topic dumps are for the changed epoch numbers, one each, never twice in a row for the same epoch; NPMI updates equal the number of changes |
| `Ranking.Insert` | vae/modules/semi_supervised_base.py:201-203 | inserting an index into a ranking adds exactly that index |
| `Ranking.InsertOrdered` | vae/modules/semi_supervised_base.py:201-203 | inserting a new index keeps the stable descending order |
| `Ranking.Rank` | vae/modules/semi_supervised_base.py:200-203 | the stable descending sort lists each index `0..n-1` exactly once, by non-increasing weight, ties by ascending index |
| `Ranking.RankIsPermutation` | vae/modules/semi_supervised_base.py:195-203 | the full ranking is a permutation of the vocabulary indices |
| `Ranking.TopKCorrect` | vae/modules/semi_supervised_base.py:208-212 | the computed row is a top-k row (length, distinct valid indices, stable descending order, every left-out index ranked after every kept one) and a prefix of the full ranking |
| `Ranking.TopKMeaning` | vae/modules/semi_supervised_base.py:209-212 | a top-k row has length `min(k, V)` (Python slicing for negative `k`), no repeats, non-increasing weights, equal weights by ascending index, and no left-out index weighs more than a kept one |
| `Ranking.TopKUnique` | vae/modules/semi_supervised_base.py:209-212 | any row meeting the top-k definition is the computed row |
| `Ranking.AgreeFrom` | vae/modules/semi_supervised_base.py:209-212 | two top-k rows that agree up to a position agree everywhere |
| `Ranking.NotRankedFirst` | vae/modules/semi_supervised_base.py:209-212 | where two top-k rows first differ, neither entry can rank before the other |
| `Ranking.Examples` | vae/modules/semi_supervised_base.py:200-212 | weights [1, 3, 2] and [0.1, 0.9, 0.5] with k = 2 keep indices [1, 2]; ties keep index order; `k = -1` drops the last entry |
| `Topics.DecimalString` | vae/modules/semi_supervised_base.py:213 | `str(i)` is a non-empty string of decimal digits with no leading zero |
| `Topics.DecimalRoundTrip` | vae/modules/semi_supervised_base.py:213 | reading a label back yields the topic index |
| `Topics.LabelsDistinct` | vae/modules/semi_supervised_base.py:205-213 | topic labels are pairwise distinct and never "bg" |
| `Topics.ExtractTopics` | vae/modules/semi_supervised_base.py:184-215 | K+1 rows: "bg" first with the top-k of the background vector, then row i+1 labelled `str(i)` with the top-k of weight row i |
| `TopicModel.SemiSupervisedBOW.New` | vae/modules/semi_supervised_base.py:94-109 | raises exactly for an unknown schedule name; otherwise a fresh model with the initial weight of its schedule and all trackers 0 |
| `TopicModel.SemiSupervisedBOW.UpdateKldWeight` | vae/modules/semi_supervised_base.py:134-152 | the scheduler's fields and the error raised are those of `UpdateKl` on the old fields; the gate's fields are unchanged |
| `TopicModel.SemiSupervisedBOW.ComputeCustomMetricsOncePerEpoch` | vae/modules/semi_supervised_base.py:154-165 | the metric tracker and the events appended are those of `GateStep` on the old tracker; the scheduler's fields are unchanged |

## Left out

- The sigmoid schedule's numeric value `1/(1 + exp(-0.25 (n - 15)))` is floating point and is kept as the symbol `LogisticAt(n)`. The linear weight is modelled as an exact rational, not a float.
- `print(self._kld_weight)` in `update_kld_weight` is console output.
- `bow_reconstruction_loss`: `log_softmax` and tensor sums are floating-point numerics.
- `get_metrics` and the `Average` accumulators: allennlp's running averages are not part of this model.
- `initialize_bg_from_file`: the background vector is an input of length V (`Topics.Shaped`). Its loading and the gradient flag are external.
- The reference-corpus loading in the constructor (`get_files`, `read_json`, `load_sparse`) and `update_npmi` (`compute_npmi_during_train`) are foreign calls. An NPMI update is only an event in the trace. `_cur_npmi` is not kept.
- `update_topics`: directory creation, the file `topics_<epoch>.txt` and its `tabulate` text are I/O. A topic dump is the event `TopicsWritten(epoch)`, which does not carry the extracted rows. The covariate dump at its end is not modelled.
- BatchNorm setup, `Model.register`, the initializer and the VAE itself are framework plumbing.
- `Topics.ExtractTopics` returns vocabulary indices, not tokens. `get_token_from_index` is the vocabulary's lookup, which is injective, so order and distinctness carry over to the tokens.
- `Topics.ExtractTopics` requires every weight row to have the background vector's length. A (K x V) tensor and the length-V background vector guarantee this. The truncation `zip` would apply to mismatched lengths is not modelled.
- Weights are reals: NaN, which breaks the total order Python's `sorted` relies on, is not modelled.
- `TopicModel.SemiSupervisedBOW.UpdateKldWeight` requires a non-empty epoch list, because the source indexes `epoch_num[0]` without a check and would raise an IndexError.
- The schedule name passed to `update_kld_weight` is a parameter of each call, as in the source. Nothing ties it to the name given to the constructor. It defaults to `'constant'` (semi_supervised_base.py:134), so a call that omits it resets the weight to 1.0 whatever the constructor chose. The model has no default: callers pass the name explicitly.
