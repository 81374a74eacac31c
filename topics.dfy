/**
 * `extract_topics`: a background row labelled "bg", then one row per topic
 * labelled by the topic's index, each the top-k vocabulary indices of its
 * weights.
 */
module Topics {
  import opened Ranking

  /** One (label, words) pair of the returned list; words are vocabulary indices. */
  datatype Topic = Topic(name: string, words: seq<nat>)

  /** A (K x V) weight matrix together with a background vector of length V. */
  predicate Shaped(weights: seq<seq<real>>, background: seq<real>)
  {
    forall i :: 0 <= i < |weights| ==> |weights[i]| == |background|
  }

  function Digit(d: nat): (c: char)
    requires d < 10
    ensures '0' <= c <= '9' && (c as int) - ('0' as int) == d
  {
    (('0' as int) + d) as char
  }

  /** Python's `str(n)` for a non-negative integer: decimal digits, no leading zero. */
  function DecimalString(n: nat): (s: string)
    ensures |s| > 0
    ensures forall c :: c in s ==> '0' <= c <= '9'
    ensures |s| > 1 ==> s[0] != '0'
  {
    if n < 10 then [Digit(n)] else DecimalString(n / 10) + [Digit(n % 10)]
  }

  /** Reads a string of decimal digits back as a number. */
  function ParseDecimal(s: string): nat
  {
    if s == [] then 0
    else
      var d := (s[|s| - 1] as int) - ('0' as int);
      ParseDecimal(s[..|s| - 1]) * 10 + (if 0 <= d then d else 0)
  }

  /** Reading a label back gives the topic index, so the labels of distinct
      topics are distinct. */
  lemma {:induction false} DecimalRoundTrip(n: nat)
    ensures ParseDecimal(DecimalString(n)) == n
  {
    if n >= 10 {
      var s := DecimalString(n);
      assert s[..|s| - 1] == DecimalString(n / 10);
      DecimalRoundTrip(n / 10);
    }
  }

  /** Topic labels are pairwise distinct and never "bg". */
  lemma LabelsDistinct(i: nat, j: nat)
    ensures DecimalString(i) != "bg"
    ensures i != j ==> DecimalString(i) != DecimalString(j)
  {
    var s := DecimalString(i);
    assert s[0] in s;
    DecimalRoundTrip(i);
    DecimalRoundTrip(j);
  }

  /** The topics of the (K x V) matrix `weights`, after the background row
      ranked by `background`; `k` is the number of words per row. */
  method ExtractTopics(weights: seq<seq<real>>, background: seq<real>, k: int) returns (topics: seq<Topic>)
    requires Shaped(weights, background)
    ensures |topics| == |weights| + 1
    ensures topics[0].name == "bg" && IsTopK(background, k, topics[0].words)
    ensures forall i :: 0 <= i < |weights| ==>
      topics[i + 1].name == DecimalString(i) && IsTopK(weights[i], k, topics[i + 1].words)
  {
    topics := [Topic("bg", TopK(background, k))];
    var i := 0;
    while i < |weights|
      invariant 0 <= i <= |weights|
      invariant |topics| == i + 1
      invariant topics[0] == Topic("bg", TopK(background, k))
      invariant forall j :: 0 <= j < i ==> topics[j + 1] == Topic(DecimalString(j), TopK(weights[j], k))
    {
      topics := topics + [Topic(DecimalString(i), TopK(weights[i], k))];
      i := i + 1;
    }
    TopKCorrect(background, k);
    forall j | 0 <= j < |weights|
      ensures IsTopK(weights[j], k, topics[j + 1].words)
    {
      TopKCorrect(weights[j], k);
    }
  }
}
