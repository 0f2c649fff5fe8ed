/**
  The batch helpers of `StringMetrics`: apply one metric to one fixed string
  and many candidates, or to two arrays of strings element by element. Each
  helper allocates a fresh result array and fills it in a loop; what it
  computes is given by the functions `Scores` and `PairScores`.

  Each method promises that its result array is freshly allocated. None of
  them has a `modifies` clause, so none can write to an object that existed
  before the call: the input arrays are left as they were, and only the new
  result array is filled.
 */
module StringMetrics {
  import opened Metrics

  /** The exception the source throws for unequal array sizes. */
  datatype Error = IllegalArgument(message: string)

  datatype Result<T> = Ok(value: T) | Err(error: Error)

  const SizeMismatchMessage: string := "arrays must have the same size"

  /** The scores of `c` against each candidate, in candidate order. */
  function Scores(metric: StringMetric, c: string, strings: seq<string>): (r: seq<Score>)
    ensures |r| == |strings|
    ensures forall i :: 0 <= i < |strings| ==> r[i] == metric.compare(c, strings[i])
  {
    if strings == [] then []
    else [metric.compare(c, strings[0])] + Scores(metric, c, strings[1..])
  }

  /** The scores of `a[i]` against `b[i]`, for each position `i`. */
  function PairScores(metric: StringMetric, a: seq<string>, b: seq<string>): (r: seq<Score>)
    requires |a| == |b|
    ensures |r| == |a|
    ensures forall i :: 0 <= i < |a| ==> r[i] == metric.compare(a[i], b[i])
  {
    if a == [] then []
    else [metric.compare(a[0], b[0])] + PairScores(metric, a[1..], b[1..])
  }

  /** `compare(metric, c, List)`: walks the list once, as the source's
      for-each loop with its own counter does. */
  method CompareList(metric: StringMetric, c: string, strings: seq<string>)
    returns (results: array<Score>)
    ensures fresh(results)
    ensures results.Length == |strings|
    ensures forall i :: 0 <= i < |strings| ==> results[i] == metric.compare(c, strings[i])
    ensures results[..] == Scores(metric, c, strings)
  {
    results := new Score[|strings|];
    var i := 0;
    var rest := strings;
    while rest != []
      invariant 0 <= i <= |strings| && rest == strings[i..]
      invariant forall k :: 0 <= k < i ==> results[k] == metric.compare(c, strings[k])
      decreases |rest|
    {
      results[i] := metric.compare(c, rest[0]);
      i := i + 1;
      rest := rest[1..];
    }
  }

  /** `compare(metric, c, String...)`: the varargs form, an indexed loop over
      the argument array. */
  method CompareVarargs(metric: StringMetric, c: string, strings: array<string>)
    returns (results: array<Score>)
    ensures fresh(results)
    ensures results.Length == strings.Length
    ensures forall i :: 0 <= i < strings.Length ==> results[i] == metric.compare(c, strings[i])
    ensures results[..] == Scores(metric, c, strings[..])
  {
    results := new Score[strings.Length];
    for i := 0 to strings.Length
      invariant forall k :: 0 <= k < i ==> results[k] == metric.compare(c, strings[k])
    {
      results[i] := metric.compare(c, strings[i]);
    }
  }

  /** `compareArrays(metric, a, b)`: fails with `IllegalArgument` when the
      sizes differ, and otherwise zips the two arrays. */
  method CompareArrays(metric: StringMetric, a: array<string>, b: array<string>)
    returns (r: Result<array<Score>>)
    ensures r.Err? <==> a.Length != b.Length
    ensures r.Err? ==> r.error == IllegalArgument(SizeMismatchMessage)
    ensures r.Ok? ==> fresh(r.value)
    ensures r.Ok? ==> r.value.Length == a.Length
    ensures r.Ok? ==> forall i :: 0 <= i < a.Length ==> r.value[i] == metric.compare(a[i], b[i])
    ensures r.Ok? ==> r.value[..] == PairScores(metric, a[..], b[..])
  {
    if a.Length != b.Length {
      return Err(IllegalArgument(SizeMismatchMessage));
    }
    var results := new Score[a.Length];
    for i := 0 to a.Length
      invariant forall k :: 0 <= k < i ==> results[k] == metric.compare(a[k], b[k])
    {
      results[i] := metric.compare(a[i], b[i]);
    }
    r := Ok(results);
  }

  /** No candidates give no scores, and two empty arrays zip to no scores. */
  lemma EmptyInputs(metric: StringMetric, c: string)
    ensures Scores(metric, c, []) == []
    ensures PairScores(metric, [], []) == []
  {
  }

  /** Comparing against one fixed string is zipping with a sequence that
      repeats that string. */
  lemma ScoresArePairScores(metric: StringMetric, c: string, strings: seq<string>)
    ensures Scores(metric, c, strings) == PairScores(metric, seq(|strings|, _ => c), strings)
  {
  }

  /** Scores over a concatenation of candidate lists are the concatenation
      of the scores. */
  lemma ScoresAppend(metric: StringMetric, c: string, xs: seq<string>, ys: seq<string>)
    ensures Scores(metric, c, xs + ys) == Scores(metric, c, xs) + Scores(metric, c, ys)
  {
  }

  /** A bounded metric gives bounded batch scores. */
  lemma ScoresBounded(metric: StringMetric, c: string, strings: seq<string>, lo: Score, hi: Score)
    requires Bounded(metric, lo, hi)
    ensures forall x :: x in Scores(metric, c, strings) ==> lo <= x <= hi
  {
  }

  /** A bounded metric gives bounded zipped scores. */
  lemma PairScoresBounded(metric: StringMetric, a: seq<string>, b: seq<string>, lo: Score, hi: Score)
    requires |a| == |b|
    requires Bounded(metric, lo, hi)
    ensures forall x :: x in PairScores(metric, a, b) ==> lo <= x <= hi
  {
  }
}
