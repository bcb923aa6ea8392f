// The maximum-value scan: `max_value` is seeded with the first element and
// replaced by every later element that is strictly greater.

module MaximumNumberList {

  /** Reference definition: the largest element of a non-empty list. */
  function Max(s: seq<int>): int
    requires |s| > 0
    decreases |s|
  {
    if |s| == 1 then s[0]
    else
      var m := Max(s[..|s| - 1]);
      if s[|s| - 1] > m then s[|s| - 1] else m
  }

  lemma {:induction false} MaxIsElement(s: seq<int>)
    requires |s| > 0
    ensures Max(s) in s
    decreases |s|
  {
    if |s| > 1 {
      MaxIsElement(s[..|s| - 1]);
    }
  }

  lemma {:induction false} MaxIsUpperBound(s: seq<int>)
    requires |s| > 0
    ensures forall i :: 0 <= i < |s| ==> s[i] <= Max(s)
    decreases |s|
  {
    if |s| > 1 {
      MaxIsUpperBound(s[..|s| - 1]);
    }
  }

  /** What the scan loop leaves in `max_value` after visiting `s` when it
      starts from an arbitrary `seed` (the loop body uses a strict `>`). */
  function ScanFrom(seed: int, s: seq<int>): (r: int)
    ensures r == seed || r in s
    ensures seed <= r
    ensures forall i :: 0 <= i < |s| ==> s[i] <= r
    decreases |s|
  {
    if s == [] then seed
    else
      var m := ScanFrom(seed, s[..|s| - 1]);
      if s[|s| - 1] > m then s[|s| - 1] else m
  }

  /** A scan from any seed ends at the larger of the seed and the true maximum. */
  lemma {:induction false} ScanFromIsMaxWithSeed(seed: int, s: seq<int>)
    requires |s| > 0
    ensures ScanFrom(seed, s) == if seed >= Max(s) then seed else Max(s)
    decreases |s|
  {
    if |s| > 1 {
      ScanFromIsMaxWithSeed(seed, s[..|s| - 1]);
    }
  }

  /** Seeding with the first element, as the program does, yields the maximum. */
  lemma FirstElementSeedIsCorrect(s: seq<int>)
    requires |s| > 0
    ensures ScanFrom(s[0], s) == Max(s)
  {
    ScanFromIsMaxWithSeed(s[0], s);
    MaxIsUpperBound(s);
  }

  /** The earlier zero seed: on a list of negative numbers it reports 0,
      which is not even an element of the list. */
  lemma ZeroSeedFailsOnNegatives(s: seq<int>)
    requires |s| > 0
    requires forall i :: 0 <= i < |s| ==> s[i] < 0
    ensures ScanFrom(0, s) == 0
    ensures ScanFrom(0, s) !in s
    ensures ScanFrom(0, s) != Max(s)
  {
    ScanFromIsMaxWithSeed(0, s);
    MaxIsElement(s);
  }

  /** `range(len(s))`: the indices of a list of length `n`. */
  function Indices(n: nat): (ix: seq<int>)
    ensures |ix| == n
    ensures forall i :: 0 <= i < n ==> ix[i] == i
  {
    seq(n, i => i)
  }

  lemma MaxOfIndices(n: nat)
    requires n > 0
    ensures Max(Indices(n)) == n - 1
  {
    MaxIsElement(Indices(n));
    MaxIsUpperBound(Indices(n));
  }

  /** The earlier loop over `range(len(my_list))` compared the indices, not
      the elements: from any seed it ends at the larger of the seed and the
      last index, whatever the list holds. */
  lemma IndexScanIgnoresElements(seed: int, s: seq<int>)
    requires |s| > 0
    ensures ScanFrom(seed, Indices(|s|)) == if seed >= |s| - 1 then seed else |s| - 1
  {
    ScanFromIsMaxWithSeed(seed, Indices(|s|));
    MaxOfIndices(|s|);
  }

  /** On the program's own list the index-comparing loop reports 6, the last
      index, instead of the maximum 34; this holds for the zero seed and for
      the first-element seed alike. */
  lemma IndexScanFailsOnSampleList()
    ensures ScanFrom(0, Indices(7)) == 6
    ensures ScanFrom(3, Indices(7)) == 6
    ensures Max([3, 5, 19, 34, 12, 32, 12]) == 34
    ensures 6 !in [3, 5, 19, 34, 12, 32, 12]
  {
    var myList := [3, 5, 19, 34, 12, 32, 12];
    IndexScanIgnoresElements(0, myList);
    IndexScanIgnoresElements(3, myList);
    MaxIsUpperBound(myList);
    MaxIsElement(myList);
    assert myList[3] <= Max(myList);
  }

  /** The scan: seed with `my_list[0]`, then visit every element (the first
      one included) and keep the larger value. The list is a value, so the
      scan cannot modify it. */
  method MaxValue(myList: seq<int>) returns (maxValue: int)
    requires |myList| > 0
    ensures maxValue == Max(myList)
    ensures maxValue in myList
    ensures forall i :: 0 <= i < |myList| ==> myList[i] <= maxValue
  {
    maxValue := myList[0];
    for i := 0 to |myList|
      invariant i == 0 ==> maxValue == myList[0]
      invariant i > 0 ==> maxValue == Max(myList[..i])
    {
      var currentElement := myList[i];
      assert myList[..i + 1][..i] == myList[..i];
      if currentElement > maxValue {
        maxValue := currentElement;
      }
    }
    assert myList[..|myList|] == myList;
    MaxIsElement(myList);
    MaxIsUpperBound(myList);
  }

  /** The program's own list. */
  method SampleList() returns (maxValue: int)
    ensures maxValue == 34
  {
    var myList := [3, 5, 19, 34, 12, 32, 12];
    maxValue := MaxValue(myList);
    assert myList[3] <= maxValue;
  }

  /** The all-negative regression case: no zero seed, so the answer is -1. */
  method AllNegativeList() returns (maxValue: int)
    ensures maxValue == -1
  {
    maxValue := MaxValue([-5, -1, -9]);
  }
}
