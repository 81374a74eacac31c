/**
 * The KL-weight annealing scheduler: the weight that multiplies the KL term,
 * chosen at construction and re-derived by `update_kld_weight` each time the
 * incoming epoch number differs from the last one seen.
 */
module Annealing {
  import opened Common
  import opened EpochTracker

  /** The stored KL weight. `LogisticAt(n)` stands for the floating-point value
      1 / (1 + exp(-0.25 * (n - 15))) of the sigmoid schedule, kept symbolic. */
  datatype Weight = Ratio(value: real) | LogisticAt(epoch: int)

  /** allennlp's ConfigurationError "anneal type <name> not found". */
  datatype ConfigurationError = AnnealTypeNotFound(name: string)

  /** Number of epochs over which the linear schedule ramps up to 1. */
  const LinearEpochs: nat := 50

  /** The schedule names the source accepts; `None` means no schedule. */
  predicate IsKnownSchedule(annealing: Option<string>)
  {
    annealing.None? || annealing.value == "linear" || annealing.value == "sigmoid" || annealing.value == "constant"
  }

  function Min(a: real, b: real): real
  {
    if a <= b then a else b
  }

  /** The linear schedule's weight once the epoch counter is `n`: `min(1, n/50)`. */
  function LinearWeight(n: nat): (r: real)
    ensures 0.0 <= r <= 1.0
    ensures n > 0 ==> r > 0.0
    ensures r == 1.0 <==> n >= LinearEpochs
  {
    Min(1.0, n as real / LinearEpochs as real)
  }

  /** More epochs never give the linear schedule a smaller weight. */
  lemma LinearWeightMonotone(n: nat, m: nat)
    requires n <= m
    ensures LinearWeight(n) <= LinearWeight(m)
  {
  }

  /** The weight `update_kld_weight` stores once the epoch counter is `n`,
      or the error it raises for an unknown schedule name. */
  function ScheduledWeight(annealing: Option<string>, n: nat): (r: Result<Weight, ConfigurationError>)
    ensures r.Success? <==> IsKnownSchedule(annealing)
  {
    match annealing
    case None => Success(Ratio(1.0))
    case Some(name) =>
      if name == "linear" then Success(Ratio(LinearWeight(n)))
      else if name == "sigmoid" then Success(LogisticAt(n))
      else if name == "constant" then Success(Ratio(1.0))
      else Failure(AnnealTypeNotFound(name))
  }

  /** The weight the constructor starts with, computed on its own in the
      source; it is the weight the first epoch transition assigns. */
  function InitialKldWeight(annealing: Option<string>): (r: Result<Weight, ConfigurationError>)
    ensures r == ScheduledWeight(annealing, 1)
    ensures r.Failure? <==> !IsKnownSchedule(annealing)
    ensures r.Failure? ==> r.error == AnnealTypeNotFound(annealing.value)
  {
    if annealing == Some("linear") then Success(Ratio(Min(1.0, 1.0 / 50.0)))
    else if annealing == Some("sigmoid") then Success(LogisticAt(1))
    else if annealing == Some("constant") then Success(Ratio(1.0))
    else if annealing.None? then Success(Ratio(1.0))
    else Failure(AnnealTypeNotFound(annealing.value))
  }

  /** The scheduler's fields: `_kl_epoch_tracker`, `_cur_epoch`, `_kld_weight`. */
  datatype KlState = KlState(tracker: int, curEpoch: nat, weight: Weight)

  /** The state after one call, and the error it raised, if any. */
  datatype KlUpdate = KlUpdate(state: KlState, error: Option<ConfigurationError>)

  /** One call of `update_kld_weight` with epoch number `epoch`. */
  function UpdateKl(s: KlState, epoch: int, annealing: Option<string>): (r: KlUpdate)
    ensures epoch == s.tracker ==> r == KlUpdate(s, None)
    ensures epoch != s.tracker ==> r.state.tracker == epoch && r.state.curEpoch == s.curEpoch + 1
    ensures r.error.Some? <==> epoch != s.tracker && !IsKnownSchedule(annealing)
    ensures r.error.Some? ==> r.state.weight == s.weight
    ensures epoch != s.tracker && IsKnownSchedule(annealing) ==>
      r.state.weight == ScheduledWeight(annealing, s.curEpoch + 1).value
  {
    if epoch == s.tracker then KlUpdate(s, None)
    else
      var n := s.curEpoch + 1;
      match ScheduledWeight(annealing, n)
      case Success(w) => KlUpdate(KlState(epoch, n, w), None)
      case Failure(e) => KlUpdate(KlState(epoch, n, s.weight), Some(e))
  }

  /** Successive calls with the epoch numbers `epochs`; an error ends the run. */
  function RunKl(s: KlState, epochs: seq<int>, annealing: Option<string>): KlUpdate
    decreases |epochs|
  {
    if epochs == [] then KlUpdate(s, None)
    else
      var u := UpdateKl(s, epochs[0], annealing);
      if u.error.Some? then u else RunKl(u.state, epochs[1..], annealing)
  }

  /** The state a freshly constructed model starts from. */
  function InitialKlState(annealing: Option<string>): KlState
    requires IsKnownSchedule(annealing)
  {
    KlState(0, 0, InitialKldWeight(annealing).value)
  }

  /** The stored weight is the schedule's value at the epoch counter (at 1
      before the first transition). */
  predicate FollowsSchedule(s: KlState, annealing: Option<string>)
  {
    var w := ScheduledWeight(annealing, if s.curEpoch == 0 then 1 else s.curEpoch);
    w.Success? && s.weight == w.value
  }

  /** Under a known schedule a run never fails, counts one epoch per change of
      the epoch number, and keeps the weight equal to the schedule's value. */
  lemma {:induction false} RunKlFollowsSchedule(s: KlState, epochs: seq<int>, annealing: Option<string>)
    requires FollowsSchedule(s, annealing)
    ensures var r := RunKl(s, epochs, annealing);
      r.error.None? &&
      r.state.curEpoch == s.curEpoch + |ChangePoints(s.tracker, epochs)| &&
      r.state.tracker == LastSeen(s.tracker, epochs) &&
      FollowsSchedule(r.state, annealing)
    decreases |epochs|
  {
    if epochs != [] {
      var u := UpdateKl(s, epochs[0], annealing);
      RunKlFollowsSchedule(u.state, epochs[1..], annealing);
      assert epochs[1..] == [] ==> LastSeen(s.tracker, epochs) == epochs[0];
      assert epochs[1..] != [] ==> epochs[1..][|epochs[1..]| - 1] == epochs[|epochs| - 1];
    }
  }

  /** The constructor's state follows its schedule. */
  lemma InitialFollowsSchedule(annealing: Option<string>)
    requires IsKnownSchedule(annealing)
    ensures FollowsSchedule(InitialKlState(annealing), annealing)
  {
  }

  /** Linear annealing from construction: after `n` epoch transitions the weight
      is `min(1, n/50)` (1/50 before the first), so it lies in (0, 1] and is 1
      from the 50th transition on. */
  lemma LinearFromStart(epochs: seq<int>)
    ensures var r := RunKl(InitialKlState(Some("linear")), epochs, Some("linear"));
      var n := |ChangePoints(0, epochs)|;
      r.error.None? && r.state.curEpoch == n &&
      r.state.weight == Ratio(LinearWeight(if n == 0 then 1 else n)) &&
      0.0 < r.state.weight.value <= 1.0 &&
      (n >= LinearEpochs ==> r.state.weight.value == 1.0)
  {
    RunKlFollowsSchedule(InitialKlState(Some("linear")), epochs, Some("linear"));
  }

  /** Linear annealing never lowers the weight over a run. */
  lemma LinearNeverDecreases(s: KlState, epochs: seq<int>)
    requires FollowsSchedule(s, Some("linear"))
    ensures var r := RunKl(s, epochs, Some("linear"));
      r.state.weight.Ratio? && s.weight.Ratio? && s.weight.value <= r.state.weight.value
  {
    RunKlFollowsSchedule(s, epochs, Some("linear"));
    var r := RunKl(s, epochs, Some("linear"));
    LinearWeightMonotone(if s.curEpoch == 0 then 1 else s.curEpoch, if r.state.curEpoch == 0 then 1 else r.state.curEpoch);
  }

  /** With "constant" or no schedule the weight is 1 throughout. */
  lemma ConstantFromStart(epochs: seq<int>, annealing: Option<string>)
    requires annealing == None || annealing == Some("constant")
    ensures var r := RunKl(InitialKlState(annealing), epochs, annealing);
      r.error.None? && r.state.weight == Ratio(1.0)
  {
    RunKlFollowsSchedule(InitialKlState(annealing), epochs, annealing);
  }

  /** The sigmoid schedule stores the logistic curve at the epoch counter. */
  lemma SigmoidFromStart(epochs: seq<int>)
    ensures var r := RunKl(InitialKlState(Some("sigmoid")), epochs, Some("sigmoid"));
      var n := |ChangePoints(0, epochs)|;
      r.error.None? && r.state.weight == LogisticAt(if n == 0 then 1 else n)
  {
    RunKlFollowsSchedule(InitialKlState(Some("sigmoid")), epochs, Some("sigmoid"));
  }

  /** An unknown schedule name goes unnoticed while the epoch number does not
      change, and raises at the first change, after the tracker and the epoch
      counter were updated and with the weight left as it was. */
  lemma {:induction false} UnknownScheduleRaisesAtFirstChange(s: KlState, epochs: seq<int>, annealing: Option<string>)
    requires !IsKnownSchedule(annealing)
    ensures var r := RunKl(s, epochs, annealing);
      var cps := ChangePoints(s.tracker, epochs);
      (cps == [] ==> r == KlUpdate(s, None)) &&
      (cps != [] ==> r == KlUpdate(KlState(cps[0], s.curEpoch + 1, s.weight), Some(AnnealTypeNotFound(annealing.value))))
    decreases |epochs|
  {
    if epochs != [] && epochs[0] == s.tracker {
      UnknownScheduleRaisesAtFirstChange(s, epochs[1..], annealing);
    }
  }
}
