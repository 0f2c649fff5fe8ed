# SimMetrics composition layer in Dafny

This project models three small pieces of the SimMetrics string-similarity library:

- the batch helpers of `StringMetrics`. Two of them apply one metric to a fixed string and many candidates, one taking a `List` and one taking varargs. The third, `compareArrays`, zips two arrays of strings and rejects arrays of different sizes;
- the substitution cost function `SubCost1_Minus2`. It gives 1 for equal characters, −2 for different ones, and 0 when an index is out of range. It declares the bounds −2 and 1;
- `CompositeStringMetric`, which simplifies both strings and then passes them to an inner metric.

The metric and the simplifier are never concrete here. `Metrics.StringMetric` pairs a total
function `(string, string) -> Score` with the text its `toString` prints, and
`Metrics.Simplifier` pairs a total function `string -> string` with its text. A score is a `real`.

Module layout, one module per source file plus the shared capabilities:

- `Metrics.dfy`: the `StringMetric` and `Simplifier` capabilities, and the predicates `Bounded`, `Symmetric`, `IsIdentity` and `SameScores` used to state properties.
- `StringMetrics.dfy`: the three batch methods. Each allocates a result array and fills it in a loop, and is proved equal to the functions `Scores` or `PairScores`. The size-mismatch exception is the `Err(IllegalArgument(...))` case of a `Result`.
- `SubCost1Minus2.dfy`: `GetCost`, `GetMaxCost` and `GetMinCost`, plus lemmas for each branch, symmetry and self-match.
- `Composite.dfy`: the immutable `CompositeStringMetric` datatype, its `Compare` and `ToString`, and lemmas showing that bounds, symmetry and identity simplifiers carry through the composite.

Each batch method's contract says its result array is freshly allocated, so it is distinct from every array the caller already holds. The batch methods have no `modifies` clause, so they cannot write to any object that existed before the call, and the input arrays are unchanged.

The class comment of `SubCost1_Minus2` (src/main/java/org/simmetrics/metrics/costfunctions/SubCost1_Minus2.java:25-26) says the opposite: 1 for unequal characters and −2 for equal ones. The model follows the code at lines 44-48: equal characters cost 1 and different ones cost −2.

## Model

| member | source | states |
|---|---|---|
| StringMetrics.Scores | src/main/java/org/simmetrics/StringMetrics.java:73-85 | there is one score per candidate, and score i is the metric applied to the fixed string and candidate i, in list order |
| StringMetrics.PairScores | src/main/java/org/simmetrics/StringMetrics.java:133-138 | for equal-length inputs there is one score per position, and score i is the metric applied to a[i] and b[i] |
| StringMetrics.CompareList | src/main/java/org/simmetrics/StringMetrics.java:73-85 | the result array has the list's size, and element i is metric.compare(c, strings[i]); it equals `Scores` of the list; the array is freshly allocated |
| StringMetrics.CompareVarargs | src/main/java/org/simmetrics/StringMetrics.java:100-110 | the result array has strings.length elements, and element i is metric.compare(c, strings[i]); it equals `Scores` of the same sequence, so it agrees with the list version; the array is freshly allocated |
| StringMetrics.CompareArrays | src/main/java/org/simmetrics/StringMetrics.java:126-139 | returns the IllegalArgument error "arrays must have the same size" exactly when the lengths differ; otherwise the result has a.length elements, element i is metric.compare(a[i], b[i]), and it equals `PairScores`; the array is freshly allocated |
| StringMetrics.EmptyInputs | src/main/java/org/simmetrics/StringMetrics.java:76-133 | no candidates, or two empty sequences, give an empty score sequence; that two empty arrays are not an error follows from CompareArrays, which fails exactly when the lengths differ |
| StringMetrics.ScoresArePairScores | src/main/java/org/simmetrics/StringMetrics.java:79-82 | comparing a fixed string against candidates gives the same scores as zipping a sequence that repeats the fixed string with the candidates |
| StringMetrics.ScoresAppend | src/main/java/org/simmetrics/StringMetrics.java:79-82 | the scores of a concatenated candidate list are the scores of the first part followed by the scores of the second |
| StringMetrics.ScoresBounded | src/main/java/org/simmetrics/StringMetrics.java:81 | if every metric score lies in [lo, hi], so does every score in the batch result |
| StringMetrics.PairScoresBounded | src/main/java/org/simmetrics/StringMetrics.java:136 | if every metric score lies in [lo, hi], so does every score in the zipped result |
| SubCost1Minus2.GetCost | src/main/java/org/simmetrics/metrics/costfunctions/SubCost1_Minus2.java:34-49 | every cost lies between GetMinCost() = −2 and GetMaxCost() = 1 |
| SubCost1Minus2.BoundsAttained | src/main/java/org/simmetrics/metrics/costfunctions/SubCost1_Minus2.java:51-57 | the declared minimum −2 is below the declared maximum 1, and GetCost reaches both |
| SubCost1Minus2.FirstIndexOutOfRange | src/main/java/org/simmetrics/metrics/costfunctions/SubCost1_Minus2.java:37-39 | a first index below 0 or at least str1's length gives cost 0, whatever the other arguments are |
| SubCost1Minus2.SecondIndexOutOfRange | src/main/java/org/simmetrics/metrics/costfunctions/SubCost1_Minus2.java:40-42 | a second index below 0 or at least str2's length gives cost 0 |
| SubCost1Minus2.InRangeCost | src/main/java/org/simmetrics/metrics/costfunctions/SubCost1_Minus2.java:44-48 | with both indices in range, the cost is 1 exactly when the characters are equal, −2 exactly when they differ, and never 0 |
| SubCost1Minus2.ZeroIffOutOfRange | src/main/java/org/simmetrics/metrics/costfunctions/SubCost1_Minus2.java:37-48 | the cost is 0 exactly when at least one index is out of range |
| SubCost1Minus2.Symmetric | src/main/java/org/simmetrics/metrics/costfunctions/SubCost1_Minus2.java:37-48 | swapping the two (string, index) pairs leaves the cost unchanged |
| SubCost1Minus2.SelfMatch | src/main/java/org/simmetrics/metrics/costfunctions/SubCost1_Minus2.java:44-45 | a character matched against itself costs the declared maximum 1 |
| Composite.CompositeStringMetric.ToString | src/main/java/org/simmetrics/metrics/CompositeStringMetric.java:41-44 | the text is the inner metric's text, then " [", then the simplifier's text, then "]"; each part can be read back at its position |
| Composite.CompareBounded | src/main/java/org/simmetrics/metrics/CompositeStringMetric.java:37-39 | if the inner metric's scores lie in [lo, hi] on every input, so do the composite's |
| Composite.CompareSymmetric | src/main/java/org/simmetrics/metrics/CompositeStringMetric.java:37-39 | if the inner metric is symmetric, so is the composite |
| Composite.IdentityTransparent | src/main/java/org/simmetrics/metrics/CompositeStringMetric.java:37-39 | with a simplifier that changes no string, the composite gives the inner metric's score on every pair |
| Composite.SimplifiedEqualFirst | src/main/java/org/simmetrics/metrics/CompositeStringMetric.java:38 | first arguments that simplify to the same string get the same composite score |
| Composite.SimplifiedEqualSecond | src/main/java/org/simmetrics/metrics/CompositeStringMetric.java:38 | second arguments that simplify to the same string get the same composite score |
| Composite.ScoresThroughComposite | src/main/java/org/simmetrics/metrics/CompositeStringMetric.java:38 | a batch comparison through a composite equals the inner metric's batch comparison of the simplified fixed string against the simplified candidates |

Some members model source members but have no row, because no contract of their own states a property:

- The datatype constructor `Composite.CompositeStringMetric` models the Java constructor (CompositeStringMetric.java:32-35). A datatype value is immutable, so the metric and simplifier are fixed once it exists and `Compare` cannot change them.
- `Composite.CompositeStringMetric.Compare` models `compare` (CompositeStringMetric.java:37-39). It applies the inner metric to the two simplified strings. Its properties are stated by `Composite.CompareBounded`, `Composite.CompareSymmetric`, `Composite.IdentityTransparent`, `Composite.SimplifiedEqualFirst`, `Composite.SimplifiedEqualSecond` and `Composite.ScoresThroughComposite`.
- `Composite.CompositeStringMetric.AsStringMetric` models `implements StringMetric` (CompositeStringMetric.java:26). It presents the composite as a `StringMetric` whose scores are `Compare` and whose text is `ToString`, so the lemmas about metrics apply to it.
- `SubCost1Minus2.GetMaxCost` and `SubCost1Minus2.GetMinCost` model `getMaxCost` and `getMinCost` (SubCost1_Minus2.java:51-57), the constants 1 and −2. Their properties are stated by `SubCost1Minus2.GetCost` (every cost lies between them), `SubCost1Minus2.BoundsAttained` and `SubCost1Minus2.SelfMatch`.

## Left out

- The factory methods of `StringMetrics` (StringMetrics.java:141-263). They only wire up builders, tokenizers, simplifiers and concrete metrics, and none of those are part of this model.
- The concrete metrics, `StringMetricBuilder` and `AbstractSubstitutionCost` are not part of this model. Metrics and simplifiers appear only as abstract functions.
- Floating-point behaviour: scores and costs are exact `real`s, and `float` rounding is not modelled.
- Java `null` arguments and the `NullPointerException` they cause. A Dafny `seq` or array reference is never null.
- The `List` iterator. The list is a `seq<string>`, and `CompareList` consumes it from the front, as the for-each loop does.
- StringMetrics.CompareArrays: the contract does not state that the size check happens before the metric is called, because a metric is a pure function here. On the error path the body returns before it allocates an array or calls the metric.
- Concurrency: sharing a metric between threads is not modelled. Nothing in these files is concurrent.
- Character detail of `charAt`: strings are `seq<char>`, and characters are compared by equality.
