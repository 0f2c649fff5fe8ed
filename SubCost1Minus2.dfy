/**
  The substitution cost function `SubCost1_Minus2`: a reward of 1 for two
  equal characters, a penalty of -2 for two different ones, and the neutral
  cost 0 whenever either index falls outside its string.
 */
module SubCost1Minus2 {

  /** The largest cost `GetCost` can return. */
  function GetMaxCost(): real
  {
    1.0
  }

  /** The smallest cost `GetCost` can return. */
  function GetMinCost(): real
  {
    -2.0
  }

  /** True when `index` names a character of `s`. */
  predicate InRange(s: string, index: int)
  {
    0 <= index < |s|
  }

  /** The cost of substituting `str1[string1Index]` by `str2[string2Index]`. */
  function GetCost(str1: string, string1Index: int, str2: string, string2Index: int): (r: real)
    ensures GetMinCost() <= r <= GetMaxCost()
  {
    if |str1| <= string1Index || string1Index < 0 then 0.0
    else if |str2| <= string2Index || string2Index < 0 then 0.0
    else if str1[string1Index] == str2[string2Index] then 1.0
    else -2.0
  }

  /** The declared bounds are ordered, and each is attained. */
  lemma BoundsAttained()
    ensures GetMinCost() < GetMaxCost()
    ensures GetCost("a", 0, "a", 0) == GetMaxCost()
    ensures GetCost("a", 0, "b", 0) == GetMinCost()
  {
  }

  /** Out of range first index: cost 0, whatever the other arguments. */
  lemma FirstIndexOutOfRange(str1: string, string1Index: int, str2: string, string2Index: int)
    requires !InRange(str1, string1Index)
    ensures GetCost(str1, string1Index, str2, string2Index) == 0.0
  {
  }

  /** Out of range second index: cost 0. */
  lemma SecondIndexOutOfRange(str1: string, string1Index: int, str2: string, string2Index: int)
    requires !InRange(str2, string2Index)
    ensures GetCost(str1, string1Index, str2, string2Index) == 0.0
  {
  }

  /** Both indices in range: 1 exactly when the characters are equal, -2
      exactly when they differ, and never the neutral 0. */
  lemma InRangeCost(str1: string, string1Index: int, str2: string, string2Index: int)
    requires InRange(str1, string1Index) && InRange(str2, string2Index)
    ensures GetCost(str1, string1Index, str2, string2Index) == 1.0
            <==> str1[string1Index] == str2[string2Index]
    ensures GetCost(str1, string1Index, str2, string2Index) == -2.0
            <==> str1[string1Index] != str2[string2Index]
    ensures GetCost(str1, string1Index, str2, string2Index) != 0.0
  {
  }

  /** The cost is 0 exactly when some index is out of range. */
  lemma ZeroIffOutOfRange(str1: string, string1Index: int, str2: string, string2Index: int)
    ensures GetCost(str1, string1Index, str2, string2Index) == 0.0
            <==> !InRange(str1, string1Index) || !InRange(str2, string2Index)
  {
  }

  /** Swapping the two (string, index) pairs does not change the cost. */
  lemma Symmetric(str1: string, string1Index: int, str2: string, string2Index: int)
    ensures GetCost(str1, string1Index, str2, string2Index)
            == GetCost(str2, string2Index, str1, string1Index)
  {
  }

  /** A character matched against itself costs the declared maximum. */
  lemma SelfMatch(s: string, i: int)
    requires InRange(s, i)
    ensures GetCost(s, i, s, i) == GetMaxCost()
  {
  }
}
