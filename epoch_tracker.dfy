/**
 * Both epoch trackers of the model (the KL tracker and the metric tracker)
 * follow one rule: remember the last epoch number seen and react only when the
 * incoming number differs from it. This module describes which calls react.
 */
module EpochTracker {

  /** The values of `values` at which a tracker that starts at `last` reacts,
      in order: every value that differs from the one seen just before it.
      A value seen earlier reacts again after a different one: from 0, the
      values [3, 4, 3] react three times. */
  function ChangePoints(last: int, values: seq<int>): (r: seq<int>)
    ensures |r| <= |values|
    ensures forall e :: e in r ==> e in values
    decreases |values|
  {
    if values == [] then []
    else if values[0] != last then [values[0]] + ChangePoints(values[0], values[1..])
    else ChangePoints(last, values[1..])
  }

  /** The tracker's value after seeing `values`. */
  function LastSeen(last: int, values: seq<int>): int
  {
    if values == [] then last else values[|values| - 1]
  }

  /** A tracker never reacts twice in a row to the same value, and never to
      the value it already holds. */
  lemma {:induction false} NoConsecutiveRepeats(last: int, values: seq<int>)
    ensures var r := ChangePoints(last, values);
      (|r| > 0 ==> r[0] != last) &&
      forall i :: 0 <= i < |r| - 1 ==> r[i] != r[i + 1]
    decreases |values|
  {
    if values != [] {
      if values[0] != last {
        NoConsecutiveRepeats(values[0], values[1..]);
      } else {
        NoConsecutiveRepeats(last, values[1..]);
      }
    }
  }

  /** `n` calls with the same value `v` react exactly once when `v` is new,
      and never when the tracker already holds `v`. */
  lemma {:induction false} RepeatedValue(last: int, v: int, n: nat)
    ensures ChangePoints(last, seq(n, _ => v)) == if n > 0 && v != last then [v] else []
    ensures LastSeen(last, seq(n, _ => v)) == if n > 0 then v else last
    decreases n
  {
    var vs := seq(n, _ => v);
    if n > 0 {
      assert vs[0] == v && vs[1..] == seq(n - 1, _ => v);
      RepeatedValue(v, v, n - 1);
      if v == last {
        RepeatedValue(last, v, n - 1);
      }
    }
  }

  /** When every value differs from the one before it (and the first from
      the tracker), the tracker reacts to every value. */
  lemma {:induction false} EveryChangeReacts(last: int, values: seq<int>)
    requires |values| > 0 ==> values[0] != last
    requires forall i :: 0 <= i < |values| - 1 ==> values[i] != values[i + 1]
    ensures ChangePoints(last, values) == values
    decreases |values|
  {
    if values != [] {
      var rest := values[1..];
      assert forall i :: 0 <= i < |rest| - 1 ==> rest[i] != rest[i + 1] by {
        forall i | 0 <= i < |rest| - 1 ensures rest[i] != rest[i + 1] {
          assert rest[i] == values[i + 1] && rest[i + 1] == values[i + 2];
        }
      }
      EveryChangeReacts(values[0], rest);
    }
  }
}
