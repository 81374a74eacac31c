/**
 * The stateful part of `SemiSupervisedBOW`: the fields the KL scheduler and the
 * once-per-epoch gate compare against and overwrite, and the two methods that
 * do so, each proved against the pure step it performs.
 */
module TopicModel {
  import opened Common
  import opened Annealing
  import opened EpochGate

  class SemiSupervisedBOW {
    /** `track_topics`: dump the topics at each new epoch. */
    const trackTopics: bool
    /** `ref_directory`: the reference corpus for NPMI, if any. */
    const refDirectory: Option<string>

    var kldWeight: Weight
    var klEpochTracker: int
    var curEpoch: nat
    var metricEpochTracker: int
    /** The side effects of the gate so far, oldest first. */
    var events: seq<Event>

    /** The scheduler's fields as one value. */
    function Kl(): KlState
      reads this
    {
      KlState(klEpochTracker, curEpoch, kldWeight)
    }

    /** Sets the fields to their starting values with the given weight. Only
        `New`, which chooses the weight from the schedule name, models the
        source's constructor. */
    constructor (trackTopics: bool, refDirectory: Option<string>, weight: Weight)
      ensures this.trackTopics == trackTopics && this.refDirectory == refDirectory
      ensures Kl() == KlState(0, 0, weight)
      ensures metricEpochTracker == 0 && events == []
    {
      this.trackTopics := trackTopics;
      this.refDirectory := refDirectory;
      kldWeight := weight;
      klEpochTracker := 0;
      curEpoch := 0;
      metricEpochTracker := 0;
      events := [];
    }

    /** The source's constructor: picks the initial KL weight for the schedule
        name, or raises for an unknown one; all trackers start at 0. */
    static method New(annealing: Option<string>, trackTopics: bool, refDirectory: Option<string>)
      returns (r: Result<SemiSupervisedBOW, ConfigurationError>)
      ensures r.Failure? <==> !IsKnownSchedule(annealing)
      ensures r.Failure? ==> r.error == AnnealTypeNotFound(annealing.value)
      ensures r.Success? ==> (
        fresh(r.value) &&
        r.value.Kl() == InitialKlState(annealing) &&
        r.value.metricEpochTracker == 0 && r.value.events == [] &&
        r.value.trackTopics == trackTopics && r.value.refDirectory == refDirectory)
    {
      match InitialKldWeight(annealing)
      case Failure(e) =>
        r := Failure(e);
      case Success(w) =>
        var m := new SemiSupervisedBOW(trackTopics, refDirectory, w);
        r := Success(m);
    }

    /** `update_kld_weight`: on a new epoch number, records it, counts one more
        epoch and re-derives the weight; an unknown schedule name raises after
        the first two updates. The source indexes `epoch_num[0]` unguarded. */
    method UpdateKldWeight(epochNum: seq<int>, annealing: Option<string>)
      returns (error: Option<ConfigurationError>)
      requires |epochNum| > 0
      modifies this
      ensures KlUpdate(Kl(), error) == UpdateKl(old(Kl()), epochNum[0], annealing)
      ensures metricEpochTracker == old(metricEpochTracker) && events == old(events)
    {
      error := None;
      var epoch := epochNum[0];
      if epoch != klEpochTracker {
        klEpochTracker := epoch;
        curEpoch := curEpoch + 1;
        if annealing == Some("linear") {
          kldWeight := Ratio(Min(1.0, curEpoch as real / 50.0));
        } else if annealing == Some("sigmoid") {
          kldWeight := LogisticAt(curEpoch);
        } else if annealing == Some("constant") {
          kldWeight := Ratio(1.0);
        } else if annealing.None? {
          kldWeight := Ratio(1.0);
        } else {
          error := Some(AnnealTypeNotFound(annealing.value));
        }
      }
    }

    /** `compute_custom_metrics_once_per_epoch`: on a non-empty epoch-number
        list whose number differs from the metric tracker, dumps the topics
        (if tracked), updates NPMI (if a reference directory is set), and
        then records the number. */
    method ComputeCustomMetricsOncePerEpoch(epochNum: seq<int>)
      modifies this
      ensures var o := GateStep(old(metricEpochTracker), epochNum, trackTopics, Truthy(refDirectory));
        metricEpochTracker == o.tracker && events == old(events) + o.fired
      ensures Kl() == old(Kl())
    {
      if |epochNum| > 0 && epochNum[0] != metricEpochTracker {
        if trackTopics {
          events := events + [TopicsWritten(epochNum[0])];
        }
        if refDirectory.Some? && refDirectory.value != "" {
          events := events + [NpmiUpdated];
        }
        metricEpochTracker := epochNum[0];
      }
    }
  }

  /** A client: five mini-batches of epoch 3 then one of epoch 4 dump topics
      twice and raise the linear weight twice. */
  method EpochScenario()
  {
    var r := SemiSupervisedBOW.New(Some("linear"), true, None);
    var m := r.value;
    var calls := 0;
    while calls < 5
      invariant 0 <= calls <= 5
      invariant calls > 0 ==> m.events == [TopicsWritten(3)] && m.Kl() == KlState(3, 1, Ratio(1.0 / 50.0))
      invariant calls == 0 ==> m.events == [] && m.Kl() == KlState(0, 0, Ratio(1.0 / 50.0)) && m.metricEpochTracker == 0
      invariant calls > 0 ==> m.metricEpochTracker == 3
    {
      var e := m.UpdateKldWeight([3], Some("linear"));
      m.ComputeCustomMetricsOncePerEpoch([3]);
      calls := calls + 1;
    }
    var e := m.UpdateKldWeight([4], Some("linear"));
    m.ComputeCustomMetricsOncePerEpoch([4]);
    assert m.events == [TopicsWritten(3), TopicsWritten(4)];
    assert m.kldWeight == Ratio(2.0 / 50.0);
  }
}
