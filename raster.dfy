// Brightness rasters and the numpy operations the two rainfall pipelines
// apply to them: rectangular slicing, counting the cells a mask selects,
// averaging, percentages, and Python's `int()` on a float.

module Raster {

  /** A brightness image: |g| rows, each `width` cells wide (numpy's shape). */
  predicate IsGrid(g: seq<seq<real>>, width: nat)
  {
    forall r :: 0 <= r < |g| ==> |g[r]| == width
  }

  /** Python's `int()` applied to a float: truncation toward zero. */
  function Trunc(x: real): (n: int)
    ensures 0.0 <= x ==> n as real <= x < n as real + 1.0
    ensures x < 0.0 ==> n as real - 1.0 < x <= n as real
  {
    if x >= 0.0 then x.Floor else -((-x).Floor)
  }

  lemma TruncMonotone(a: real, b: real)
    requires a <= b
    ensures Trunc(a) <= Trunc(b)
  {
  }

  lemma TruncOfInt(n: int)
    ensures Trunc(n as real) == n
  {
  }

  /** `g[y1:y2, x1:x2]` flattened row by row. */
  function Crop(g: seq<seq<real>>, width: nat, y1: nat, y2: nat, x1: nat, x2: nat): (s: seq<real>)
    requires IsGrid(g, width)
    requires y1 <= y2 <= |g| && x1 <= x2 <= width
    ensures |s| == (y2 - y1) * (x2 - x1)
    decreases y2 - y1
  {
    if y1 == y2 then []
    else
      var rest := Crop(g, width, y1 + 1, y2, x1, x2);
      assert (y2 - y1) * (x2 - x1) == (x2 - x1) + (y2 - (y1 + 1)) * (x2 - x1);
      g[y1][x1..x2] + rest
  }

  /** If a mask holds on every cell of a window, it holds on every element
      of the window's crop. */
  lemma {:induction false} CropAll(g: seq<seq<real>>, width: nat, y1: nat, y2: nat, x1: nat, x2: nat, p: real -> bool)
    requires IsGrid(g, width)
    requires y1 <= y2 <= |g| && x1 <= x2 <= width
    requires forall y, x :: y1 <= y < y2 && x1 <= x < x2 ==> p(g[y][x])
    ensures forall k :: 0 <= k < |Crop(g, width, y1, y2, x1, x2)| ==> p(Crop(g, width, y1, y2, x1, x2)[k])
    decreases y2 - y1
  {
    if y1 < y2 {
      CropAll(g, width, y1 + 1, y2, x1, x2, p);
      var row := g[y1][x1..x2];
      var rest := Crop(g, width, y1 + 1, y2, x1, x2);
      assert Crop(g, width, y1, y2, x1, x2) == row + rest;
      forall k | 0 <= k < |row + rest|
        ensures p((row + rest)[k])
      {
        if k < |row| {
          assert (row + rest)[k] == g[y1][x1 + k];
        } else {
          assert (row + rest)[k] == rest[k - |row|];
        }
      }
    }
  }

  function Indicator(b: bool): nat
  {
    if b then 1 else 0
  }

  /** `np.sum(mask)`: the number of elements of `s` that the mask selects. */
  function Count(s: seq<real>, p: real -> bool): (n: nat)
    ensures n <= |s|
  {
    if s == [] then 0 else Indicator(p(s[0])) + Count(s[1..], p)
  }

  lemma {:induction false} CountAll(s: seq<real>, p: real -> bool)
    requires forall k :: 0 <= k < |s| ==> p(s[k])
    ensures Count(s, p) == |s|
  {
    if s != [] {
      CountAll(s[1..], p);
    }
  }

  lemma {:induction false} CountNone(s: seq<real>, p: real -> bool)
    requires forall k :: 0 <= k < |s| ==> !p(s[k])
    ensures Count(s, p) == 0
  {
    if s != [] {
      CountNone(s[1..], p);
    }
  }

  /** Two masks that never select the same cell together count at most every
      cell once. */
  lemma {:induction false} CountDisjoint(s: seq<real>, p: real -> bool, q: real -> bool)
    requires forall k :: 0 <= k < |s| ==> !(p(s[k]) && q(s[k]))
    ensures Count(s, p) + Count(s, q) <= |s|
  {
    if s != [] {
      CountDisjoint(s[1..], p, q);
    }
  }

  /** Masks that select every cell exactly once count every cell exactly once. */
  lemma {:induction false} CountPartition(s: seq<real>, p: real -> bool, q: real -> bool, r: real -> bool, u: real -> bool)
    requires forall k :: 0 <= k < |s| ==>
      Indicator(p(s[k])) + Indicator(q(s[k])) + Indicator(r(s[k])) + Indicator(u(s[k])) == 1
    ensures Count(s, p) + Count(s, q) + Count(s, r) + Count(s, u) == |s|
  {
    if s != [] {
      CountPartition(s[1..], p, q, r, u);
    }
  }

  function Sum(s: seq<real>): real
  {
    if s == [] then 0.0 else s[0] + Sum(s[1..])
  }

  lemma {:induction false} SumWithin(s: seq<real>, lo: real, hi: real)
    requires forall k :: 0 <= k < |s| ==> lo <= s[k] <= hi
    ensures lo * |s| as real <= Sum(s) <= hi * |s| as real
  {
    if s != [] {
      SumWithin(s[1..], lo, hi);
      assert lo * |s| as real == lo + lo * |s[1..]| as real;
      assert hi * |s| as real == hi + hi * |s[1..]| as real;
    }
  }

  /** `np.mean`, in exact arithmetic. */
  function Mean(s: seq<real>): real
    requires |s| > 0
  {
    Sum(s) / |s| as real
  }

  /** The mean times the number of values is their total. */
  lemma MeanScalesToSum(s: seq<real>)
    requires |s| > 0
    ensures Mean(s) * |s| as real == Sum(s)
  {
  }

  /** The mean of values within a range is within that range. */
  lemma MeanWithin(s: seq<real>, lo: real, hi: real)
    requires |s| > 0
    requires forall k :: 0 <= k < |s| ==> lo <= s[k] <= hi
    ensures lo <= Mean(s) <= hi
  {
    SumWithin(s, lo, hi);
    var n := |s| as real;
    assert (Sum(s) - lo * n) / n >= 0.0;
    assert (hi * n - Sum(s)) / n >= 0.0;
    assert (Sum(s) - lo * n) / n == Sum(s) / n - lo;
    assert (hi * n - Sum(s)) / n == hi - Sum(s) / n;
  }

  /** `count / total * 100` in exact arithmetic. */
  function Percent(count: nat, total: nat): (pct: real)
    requires total > 0
    ensures 0.0 <= pct
    ensures count <= total ==> pct <= 100.0
    ensures pct == 0.0 <==> count == 0
    ensures pct == 100.0 <==> count == total
  {
    var t := total as real;
    assert count as real / t * t == count as real;
    count as real / t * 100.0
  }

  /** Percentages of the same total add up like their counts. */
  lemma PercentAdd(a: nat, b: nat, total: nat)
    requires total > 0
    ensures Percent(a, total) + Percent(b, total) == Percent(a + b, total)
  {
    var t := total as real;
    assert (a as real + b as real) / t == a as real / t + b as real / t;
  }
}
