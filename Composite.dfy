/**
  `CompositeStringMetric`: a metric that simplifies both of its arguments
  before handing them to an inner metric. It is an immutable pair fixed when
  it is built, so there is no state for `Compare` to change.
 */
module Composite {
  import opened Metrics
  import StringMetrics

  datatype CompositeStringMetric = CompositeStringMetric(metric: StringMetric, simplifier: Simplifier)
  {
    /** The inner metric applied to the two simplified strings. */
    function Compare(a: string, b: string): Score
    {
      metric.compare(simplifier.simplify(a), simplifier.simplify(b))
    }

    /** The inner metric's text, then " [", the simplifier's text and "]". */
    function ToString(): (s: string)
      ensures |s| == |metric.text| + |simplifier.text| + 3
      ensures s[..|metric.text|] == metric.text
      ensures s[|metric.text|..|metric.text| + 2] == " ["
      ensures s[|metric.text| + 2..|s| - 1] == simplifier.text
      ensures s[|s| - 1] == ']'
    {
      metric.text + " [" + simplifier.text + "]"
    }

    /** The composite seen as a string metric in its own right. */
    function AsStringMetric(): StringMetric
    {
      StringMetric((a, b) => Compare(a, b), ToString())
    }
  }

  /** The composite keeps the inner metric's bounds unchanged. */
  lemma CompareBounded(c: CompositeStringMetric, lo: Score, hi: Score)
    requires Bounded(c.metric, lo, hi)
    ensures Bounded(c.AsStringMetric(), lo, hi)
  {
  }

  /** A symmetric inner metric makes a symmetric composite. */
  lemma CompareSymmetric(c: CompositeStringMetric)
    requires Symmetric(c.metric)
    ensures Symmetric(c.AsStringMetric())
  {
  }

  /** With a simplifier that changes nothing, the composite scores exactly as
      the inner metric does. */
  lemma IdentityTransparent(c: CompositeStringMetric)
    requires IsIdentity(c.simplifier)
    ensures SameScores(c.AsStringMetric(), c.metric)
  {
  }

  /** First arguments the simplifier maps to the same string are
      indistinguishable to the composite. */
  lemma SimplifiedEqualFirst(c: CompositeStringMetric, a: string, a': string, b: string)
    requires c.simplifier.simplify(a) == c.simplifier.simplify(a')
    ensures c.Compare(a, b) == c.Compare(a', b)
  {
  }

  /** Second arguments the simplifier maps to the same string are
      indistinguishable to the composite. */
  lemma SimplifiedEqualSecond(c: CompositeStringMetric, a: string, b: string, b': string)
    requires c.simplifier.simplify(b) == c.simplifier.simplify(b')
    ensures c.Compare(a, b) == c.Compare(a, b')
  {
  }

  /** Each string simplified, in order. */
  function SimplifyAll(simplifier: Simplifier, strings: seq<string>): (r: seq<string>)
    ensures |r| == |strings|
    ensures forall i :: 0 <= i < |strings| ==> r[i] == simplifier.simplify(strings[i])
  {
    if strings == [] then []
    else [simplifier.simplify(strings[0])] + SimplifyAll(simplifier, strings[1..])
  }

  /** Batch comparison through a composite is batch comparison of the
      simplified string against the simplified candidates by the inner metric. */
  lemma ScoresThroughComposite(c: CompositeStringMetric, x: string, strings: seq<string>)
    ensures StringMetrics.Scores(c.AsStringMetric(), x, strings)
            == StringMetrics.Scores(c.metric, c.simplifier.simplify(x), SimplifyAll(c.simplifier, strings))
  {
  }
}
