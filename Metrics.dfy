/**
  The capabilities the composition layer is written against. A string metric
  and a simplifier are seen only through what they do: a metric maps an
  ordered pair of strings to a score, a simplifier maps a string to a string.
  Each also carries the text its `toString` produces, which is all the
  composite needs of it besides its behaviour.
 */
module Metrics {

  /** A similarity score. The source returns a Java `float`; the model keeps
      scores exact and never does arithmetic on them. */
  type Score = real

  /** A metric: a total, deterministic comparison of two strings. */
  datatype StringMetric = StringMetric(compare: (string, string) -> Score, text: string)

  /** A simplifier: a total, deterministic normalization of a string. */
  datatype Simplifier = Simplifier(simplify: string -> string, text: string)

  /** Every score the metric produces lies in [lo, hi]. */
  ghost predicate Bounded(metric: StringMetric, lo: Score, hi: Score)
  {
    forall a: string, b: string :: lo <= metric.compare(a, b) <= hi
  }

  /** The metric does not depend on the order of its arguments. */
  ghost predicate Symmetric(metric: StringMetric)
  {
    forall a: string, b: string :: metric.compare(a, b) == metric.compare(b, a)
  }

  /** The simplifier leaves every string as it is. */
  ghost predicate IsIdentity(simplifier: Simplifier)
  {
    forall s: string :: simplifier.simplify(s) == s
  }

  /** Two metrics give the same score on every pair of strings. */
  ghost predicate SameScores(m1: StringMetric, m2: StringMetric)
  {
    forall a: string, b: string :: m1.compare(a, b) == m2.compare(a, b)
  }
}
