/**
 * Ranking of vocabulary indices by weight, as `extract_topics` obtains it from
 * Python's `sorted(..., key=weight, reverse=True)` followed by `[:k]`.
 * `sorted` is stable also under `reverse=True`, so indices of equal weight
 * keep their ascending original order.
 */
module Ranking {

  /** `a` is listed before `b`: a larger weight, or an equal weight and a
      smaller index. A strict total order on distinct indices. */
  predicate Before(w: seq<real>, a: nat, b: nat)
    requires a < |w| && b < |w|
  {
    w[a] > w[b] || (w[a] == w[b] && a < b)
  }

  /** Every entry of `s` is an index of `w`. */
  predicate InRange(w: seq<real>, s: seq<nat>)
  {
    forall p :: 0 <= p < |s| ==> s[p] < |w|
  }

  /** `s` lists its indices in the order of a stable descending sort by weight. */
  predicate Ordered(w: seq<real>, s: seq<nat>)
    requires InRange(w, s)
  {
    forall p, q :: 0 <= p < q < |s| ==> Before(w, s[p], s[q])
  }

  /** Where Python's slice `s[:k]` ends on a list of length `n`; a negative
      `k` counts from the end. */
  function SliceEnd(n: nat, k: int): (e: nat)
    ensures e <= n
    ensures k < 0 ==> n - e == if -k < n then -k else n
  {
    if k >= 0 then (if k < n then k else n)
    else if n + k > 0 then n + k else 0
  }

  /** Inserts index `i` into the ranking `s` of other indices, after every
      index listed before it. */
  function Insert(w: seq<real>, s: seq<nat>, i: nat): (r: seq<nat>)
    requires InRange(w, s) && i < |w|
    ensures InRange(w, r)
    ensures |r| == |s| + 1
    ensures forall x :: x in r <==> x in s || x == i
  {
    if s == [] then [i]
    else if s[0] != i && Before(w, s[0], i) then [s[0]] + Insert(w, s[1..], i)
    else [i] + s
  }

  /** Inserting a new index keeps a ranking ordered. */
  lemma {:induction false} InsertOrdered(w: seq<real>, s: seq<nat>, i: nat)
    requires InRange(w, s) && i < |w| && i !in s
    requires Ordered(w, s)
    ensures Ordered(w, Insert(w, s, i))
  {
    var r := Insert(w, s, i);
    if s == [] {
    } else if Before(w, s[0], i) {
      var tail := s[1..];
      InsertOrdered(w, tail, i);
      var rest := Insert(w, tail, i);
      assert r == [s[0]] + rest;
      forall q | 0 <= q < |rest| ensures Before(w, s[0], rest[q]) {
        assert rest[q] in rest;
        if rest[q] != i {
          var j :| 0 <= j < |tail| && tail[j] == rest[q];
          assert s[j + 1] == tail[j];
        }
      }
    } else {
      assert r == [i] + s;
      assert Before(w, i, s[0]);
      forall q | 0 < q < |s| ensures Before(w, i, s[q]) {
        assert Before(w, s[0], s[q]);
      }
    }
  }

  /** The stable descending ranking of the indices `0 .. n-1` of `w`. */
  function Rank(w: seq<real>, n: nat): (r: seq<nat>)
    requires n <= |w|
    ensures InRange(w, r) && Ordered(w, r)
    ensures |r| == n
    ensures forall x :: x in r <==> 0 <= x < n
  {
    if n == 0 then []
    else
      var prev := Rank(w, n - 1);
      InsertOrdered(w, prev, n - 1);
      Insert(w, prev, n - 1)
  }

  /** The row `extract_topics` keeps for the weights `w`: the full ranking,
      cut by Python's `[:k]`. */
  function TopK(w: seq<real>, k: int): seq<nat>
  {
    Rank(w, |w|)[..SliceEnd(|w|, k)]
  }

  /** Every index of `w` left out of `r` comes after every index kept. */
  predicate LeftOutAfter(w: seq<real>, r: seq<nat>)
    requires InRange(w, r)
  {
    forall p, x :: 0 <= p < |r| && 0 <= x < |w| && x !in r ==> Before(w, r[p], x)
  }

  /** What a top-k row is, independently of how it is computed: the length
      Python's `[:k]` leaves, indices of `w` in stable descending order, and
      every index left out ranked after every index kept. */
  predicate IsTopK(w: seq<real>, k: int, r: seq<nat>)
  {
    |r| == SliceEnd(|w|, k) && InRange(w, r) && Ordered(w, r) && LeftOutAfter(w, r)
  }

  /** A top-k row in terms of weights alone: distinct indices, non-increasing
      weights, equal weights in ascending index order, and every index left
      out weighs no more than any kept one (and, if equal, has a larger index). */
  lemma TopKMeaning(w: seq<real>, k: int, r: seq<nat>)
    requires IsTopK(w, k, r)
    ensures |r| == if k < 0 then (if |w| + k > 0 then |w| + k else 0) else if k < |w| then k else |w|
    ensures forall p :: 0 <= p < |r| ==> r[p] < |w|
    ensures forall p, q :: 0 <= p < q < |r| ==> r[p] != r[q]
    ensures forall p, q :: 0 <= p < q < |r| ==> w[r[p]] >= w[r[q]]
    ensures forall p, q :: 0 <= p < q < |r| && w[r[p]] == w[r[q]] ==> r[p] < r[q]
    ensures forall p, x :: 0 <= p < |r| && 0 <= x < |w| && x !in r ==>
      w[r[p]] >= w[x] && (w[r[p]] == w[x] ==> r[p] < x)
  {
  }

  /** The full ranking is a permutation of the indices of `w`. */
  lemma RankIsPermutation(w: seq<real>)
    ensures var r := Rank(w, |w|);
      |r| == |w| &&
      (forall p, q :: 0 <= p < q < |r| ==> r[p] != r[q]) &&
      (forall x :: 0 <= x < |w| ==> x in r)
  {
  }

  /** The computed row meets the definition of a top-k row, and is a prefix
      of a permutation of the indices. */
  lemma TopKCorrect(w: seq<real>, k: int)
    ensures IsTopK(w, k, TopK(w, k))
    ensures TopK(w, k) <= Rank(w, |w|)
  {
    var full := Rank(w, |w|);
    var r := TopK(w, k);
    var m := SliceEnd(|w|, k);
    forall p, x | 0 <= p < |r| && 0 <= x < |w| && x !in r
      ensures w[r[p]] >= w[x] && (w[r[p]] == w[x] ==> r[p] < x)
    {
      assert x in full;
      var j :| 0 <= j < |full| && full[j] == x;
      if j < m {
        assert false;
      }
      assert Before(w, full[p], full[j]);
    }
  }

  /** The definition pins the row down: any top-k row is the computed one. */
  lemma {:induction false} TopKUnique(w: seq<real>, k: int, r: seq<nat>)
    requires IsTopK(w, k, r)
    ensures r == TopK(w, k)
  {
    var t := TopK(w, k);
    TopKCorrect(w, k);
    AgreeFrom(w, k, r, t, 0);
  }

  /** Two top-k rows agree on every position from `p` on, given that they
      agree before `p`. */
  lemma {:induction false} AgreeFrom(w: seq<real>, k: int, r: seq<nat>, t: seq<nat>, p: nat)
    requires IsTopK(w, k, r) && IsTopK(w, k, t)
    requires p <= |r|
    requires r[..p] == t[..p]
    ensures r == t
    decreases |r| - p
  {
    if p == |r| {
      assert r == r[..p] && t == t[..p];
    } else {
      if r[p] != t[p] {
        NotRankedFirst(w, k, r, t, p);
        NotRankedFirst(w, k, t, r, p);
        assert false;
      }
      assert r[..p + 1] == r[..p] + [r[p]] && t[..p + 1] == t[..p] + [t[p]];
      AgreeFrom(w, k, r, t, p + 1);
    }
  }

  /** Where two top-k rows first differ, the entry of `r` cannot rank before
      the entry of `t`. */
  lemma NotRankedFirst(w: seq<real>, k: int, r: seq<nat>, t: seq<nat>, p: nat)
    requires IsTopK(w, k, r) && IsTopK(w, k, t)
    requires p < |r| && r[..p] == t[..p] && r[p] != t[p]
    ensures !Before(w, r[p], t[p])
  {
    if r[p] in t {
      var j :| 0 <= j < |t| && t[j] == r[p];
      if j > p {
        assert Before(w, t[p], t[j]);
      }
    } else {
      assert Before(w, t[p], r[p]);
    }
  }

  /** Worked rows: weights [1, 3, 2] and [0.1, 0.9, 0.5] keep indices 1 and 2
      for k = 2; equal weights keep ascending index order; a negative k drops
      entries from the end. */
  lemma Examples()
    ensures TopK([1.0, 3.0, 2.0], 2) == [1, 2]
    ensures TopK([0.1, 0.9, 0.5], 2) == [1, 2]
    ensures TopK([1.0, 2.0, 2.0, 1.0], 3) == [1, 2, 0]
    ensures TopK([1.0, 3.0, 2.0], -1) == [1, 2]
  {
    var w := [1.0, 2.0, 2.0, 1.0];
    assert Rank(w, 1) == [0];
    assert Rank(w, 2) == [1, 0];
    assert Rank(w, 3) == [1, 2, 0];
    assert Rank(w, 4) == [1, 2, 0, 3];
    var v := [1.0, 3.0, 2.0];
    assert Rank(v, 2) == [1, 0];
    assert Rank(v, 3) == [1, 2, 0];
    var u := [0.1, 0.9, 0.5];
    assert Rank(u, 2) == [1, 0];
    assert Rank(u, 3) == [1, 2, 0];
  }
}
