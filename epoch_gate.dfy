/**
 * `compute_custom_metrics_once_per_epoch`: on a new epoch number it writes the
 * topics (when topics are tracked), then updates NPMI (when a reference corpus
 * is configured), then remembers the epoch number. The two side effects are
 * recorded as events in a trace.
 */
module EpochGate {
  import opened Common
  import opened EpochTracker

  /** A side effect of the gate: the topic dump for an epoch (the file
      topics_<epoch>.txt), or an NPMI update. */
  datatype Event = TopicsWritten(epoch: int) | NpmiUpdated

  /** Python's truth value of an optional path: set and not empty. */
  predicate Truthy(path: Option<string>)
  {
    path.Some? && path.value != ""
  }

  /** What one firing does, in order: topics first, then NPMI. */
  function EpochActions(epoch: int, trackTopics: bool, npmi: bool): (r: seq<Event>)
    ensures |r| <= 2
    ensures TopicsWritten(epoch) in r <==> trackTopics
    ensures NpmiUpdated in r <==> npmi
    ensures trackTopics && npmi ==> r == [TopicsWritten(epoch), NpmiUpdated]
  {
    (if trackTopics then [TopicsWritten(epoch)] else []) + (if npmi then [NpmiUpdated] else [])
  }

  /** The metric tracker after a call, and the events the call produced. */
  datatype GateOutcome = GateOutcome(tracker: int, fired: seq<Event>)

  /** One call with the (possibly empty) epoch-number list `epochNum`. */
  function GateStep(tracker: int, epochNum: seq<int>, trackTopics: bool, npmi: bool): (r: GateOutcome)
    ensures r.fired != [] ==> |epochNum| > 0 && epochNum[0] != tracker
    ensures r.tracker != tracker ==> |epochNum| > 0 && r.tracker == epochNum[0]
  {
    if |epochNum| > 0 && epochNum[0] != tracker then
      GateOutcome(epochNum[0], EpochActions(epochNum[0], trackTopics, npmi))
    else GateOutcome(tracker, [])
  }

  /** Right after a call, the same call does nothing. */
  lemma RepeatIsNoOp(tracker: int, epochNum: seq<int>, trackTopics: bool, npmi: bool)
    ensures var o := GateStep(tracker, epochNum, trackTopics, npmi);
      GateStep(o.tracker, epochNum, trackTopics, npmi) == GateOutcome(o.tracker, [])
  {
  }

  /** Successive calls; the events of all of them, in order. */
  function GateRun(tracker: int, calls: seq<seq<int>>, trackTopics: bool, npmi: bool): GateOutcome
    decreases |calls|
  {
    if calls == [] then GateOutcome(tracker, [])
    else
      var o := GateStep(tracker, calls[0], trackTopics, npmi);
      var rest := GateRun(o.tracker, calls[1..], trackTopics, npmi);
      GateOutcome(rest.tracker, o.fired + rest.fired)
  }

  /** The epoch numbers carried by the non-empty calls. */
  function Signals(calls: seq<seq<int>>): (r: seq<int>)
    ensures |r| <= |calls|
    decreases |calls|
  {
    if calls == [] then []
    else (if |calls[0]| > 0 then [calls[0][0]] else []) + Signals(calls[1..])
  }

  /** The events of firing once at each of `epochs`. */
  function ActionsAt(epochs: seq<int>, trackTopics: bool, npmi: bool): seq<Event>
    decreases |epochs|
  {
    if epochs == [] then [] else EpochActions(epochs[0], trackTopics, npmi) + ActionsAt(epochs[1..], trackTopics, npmi)
  }

  /** The gate fires exactly at the changes of the epoch number, empty calls
      being skipped, and ends holding the last epoch number seen. */
  lemma {:induction false} GateRunFiresAtChanges(tracker: int, calls: seq<seq<int>>, trackTopics: bool, npmi: bool)
    ensures var r := GateRun(tracker, calls, trackTopics, npmi);
      r.fired == ActionsAt(ChangePoints(tracker, Signals(calls)), trackTopics, npmi) &&
      r.tracker == LastSeen(tracker, Signals(calls))
    decreases |calls|
  {
    if calls != [] {
      var o := GateStep(tracker, calls[0], trackTopics, npmi);
      GateRunFiresAtChanges(o.tracker, calls[1..], trackTopics, npmi);
      var rest := Signals(calls[1..]);
      var sig := Signals(calls);
      if |calls[0]| > 0 {
        var c := calls[0][0];
        assert sig == [c] + rest;
        assert sig[0] == c && sig[1..] == rest;
        assert rest != [] ==> sig[|sig| - 1] == rest[|rest| - 1];
        if c != tracker {
          var cps := ChangePoints(c, rest);
          assert ChangePoints(tracker, sig) == [c] + cps;
          assert ([c] + cps)[0] == c && ([c] + cps)[1..] == cps;
        }
      } else {
        assert sig == rest;
      }
    }
  }

  /** The epochs of the topic dumps in a trace. */
  function TopicEpochs(events: seq<Event>): seq<int>
    decreases |events|
  {
    if events == [] then []
    else (if events[0].TopicsWritten? then [events[0].epoch] else []) + TopicEpochs(events[1..])
  }

  /** The number of NPMI updates in a trace. */
  function NpmiCount(events: seq<Event>): nat
    decreases |events|
  {
    if events == [] then 0
    else (if events[0].NpmiUpdated? then 1 else 0) + NpmiCount(events[1..])
  }

  lemma {:induction false} CountsDistribute(a: seq<Event>, b: seq<Event>)
    ensures TopicEpochs(a + b) == TopicEpochs(a) + TopicEpochs(b)
    ensures NpmiCount(a + b) == NpmiCount(a) + NpmiCount(b)
    decreases |a|
  {
    if a == [] {
      assert a + b == b;
    } else {
      assert (a + b)[0] == a[0] && (a + b)[1..] == a[1..] + b;
      CountsDistribute(a[1..], b);
    }
  }

  /** One firing dumps topics for its epoch (when tracked) and updates NPMI
      once (when enabled). */
  lemma OneFiringCounts(epoch: int, trackTopics: bool, npmi: bool)
    ensures TopicEpochs(EpochActions(epoch, trackTopics, npmi)) == if trackTopics then [epoch] else []
    ensures NpmiCount(EpochActions(epoch, trackTopics, npmi)) == if npmi then 1 else 0
  {
    var acts := EpochActions(epoch, trackTopics, npmi);
    if trackTopics && npmi {
      assert acts[0] == TopicsWritten(epoch) && acts[1..] == [NpmiUpdated] && acts[1..][1..] == [];
      assert TopicEpochs(acts[1..]) == [] + TopicEpochs(acts[1..][1..]);
    } else if trackTopics {
      assert acts == [TopicsWritten(epoch)] && acts[1..] == [];
    } else if npmi {
      assert acts == [NpmiUpdated] && acts[1..] == [];
    }
  }

  /** Firing at `epochs` dumps topics for exactly those epochs, in order (when
      topics are tracked), and updates NPMI once per firing (when enabled). */
  lemma {:induction false} ActionsAtCounts(epochs: seq<int>, trackTopics: bool, npmi: bool)
    ensures TopicEpochs(ActionsAt(epochs, trackTopics, npmi)) == if trackTopics then epochs else []
    ensures NpmiCount(ActionsAt(epochs, trackTopics, npmi)) == if npmi then |epochs| else 0
    decreases |epochs|
  {
    if epochs != [] {
      var head := EpochActions(epochs[0], trackTopics, npmi);
      ActionsAtCounts(epochs[1..], trackTopics, npmi);
      CountsDistribute(head, ActionsAt(epochs[1..], trackTopics, npmi));
      OneFiringCounts(epochs[0], trackTopics, npmi);
      assert epochs == [epochs[0]] + epochs[1..];
    }
  }

  /** Called any number of times with the same epoch number, the gate fires
      once if the number is new and never otherwise; from a fresh model
      (tracker 0), epoch 0 never fires. */
  lemma RepeatedCallsFireOnce(tracker: int, v: int, n: nat, trackTopics: bool, npmi: bool)
    requires n > 0
    ensures GateRun(tracker, seq(n, _ => [v]), trackTopics, npmi).fired ==
      if v != tracker then EpochActions(v, trackTopics, npmi) else []
  {
    var calls := seq(n, _ => [v]);
    GateRunFiresAtChanges(tracker, calls, trackTopics, npmi);
    SignalsOfRepeat(v, n);
    RepeatedValue(tracker, v, n);
    if v != tracker {
      assert ActionsAt([v], trackTopics, npmi) == EpochActions(v, trackTopics, npmi) + [];
    }
  }

  lemma {:induction false} SignalsOfRepeat(v: int, n: nat)
    ensures Signals(seq(n, _ => [v])) == seq(n, _ => v)
    decreases n
  {
    if n > 0 {
      var calls := seq(n, _ => [v]);
      assert calls[1..] == seq(n - 1, _ => [v]);
      SignalsOfRepeat(v, n - 1);
      assert seq(n, _ => v) == [v] + seq(n - 1, _ => v);
    }
  }

  /** Over any run, the topic dumps are for the changed epoch numbers, one each,
      never twice in a row for the same epoch; NPMI is updated once per change. */
  lemma OncePerNewEpoch(tracker: int, calls: seq<seq<int>>, trackTopics: bool, npmi: bool)
    ensures var fired := GateRun(tracker, calls, trackTopics, npmi).fired;
      var cps := ChangePoints(tracker, Signals(calls));
      TopicEpochs(fired) == (if trackTopics then cps else []) &&
      NpmiCount(fired) == (if npmi then |cps| else 0) &&
      (|cps| > 0 ==> cps[0] != tracker) &&
      (forall i :: 0 <= i < |cps| - 1 ==> cps[i] != cps[i + 1])
  {
    GateRunFiresAtChanges(tracker, calls, trackTopics, npmi);
    ActionsAtCounts(ChangePoints(tracker, Signals(calls)), trackTopics, npmi);
    NoConsecutiveRepeats(tracker, Signals(calls));
  }
}
