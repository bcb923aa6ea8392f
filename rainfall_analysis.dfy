// The first pipeline (`analyze_satellite_image`): the data region below an
// 80-row header is classified into four brightness tiers, ten declared
// regions are cropped through a clamped lat/lon -> pixel map, each crop's
// tier percentages decide a likelihood label, and the results are sorted by
// (label rank, -dense%) and filtered into the HIGH and MODERATE summaries.

module RainfallAnalysis {
  import opened Raster
  import opened Sorting
  import opened Rain

  const HeaderHeight: nat := 80

  // Declared geographic extent of the image.
  const LatMin: real := -5.0
  const LatMax: real := 45.0
  const LonMin: real := 50.0
  const LonMax: real := 105.0

  // Brightness thresholds of the three cloud tiers.
  const DenseCloud: real := 200.0
  const MediumCloud: real := 160.0
  const LightCloud: real := 120.0

  // The masks `data_region >= DENSE_CLOUD`, `(>= MEDIUM) & (< DENSE)`,
  // `(>= LIGHT) & (< MEDIUM)`, and what is left over.
  predicate IsDense(v: real) { v >= DenseCloud }
  predicate IsMedium(v: real) { v >= MediumCloud && v < DenseCloud }
  predicate IsLight(v: real) { v >= LightCloud && v < MediumCloud }
  predicate IsClear(v: real) { v < LightCloud }

  /** `gray[header_height:, :]` (empty when the image has no more rows). */
  function DataRegion(gray: seq<seq<real>>): (d: seq<seq<real>>)
    ensures |d| == if |gray| <= HeaderHeight then 0 else |gray| - HeaderHeight
    ensures forall i :: 0 <= i < |d| ==> d[i] == gray[HeaderHeight + i]
  {
    if |gray| <= HeaderHeight then [] else gray[HeaderHeight..]
  }

  lemma DataRegionIsGrid(gray: seq<seq<real>>, width: nat)
    requires IsGrid(gray, width)
    ensures IsGrid(DataRegion(gray), width)
  {
  }

  // ---------------------------------------------------------------------
  // Tier map

  /** The tier the classification map holds for brightness `v`: exactly one of
      0 (clear), 1 (light), 2 (medium), 3 (dense). */
  function Tier(v: real): (t: int)
    ensures 0 <= t <= 3
    ensures t == 3 <==> v >= 200.0
    ensures t == 2 <==> 160.0 <= v < 200.0
    ensures t == 1 <==> 120.0 <= v < 160.0
    ensures t == 0 <==> v < 120.0
  {
    if IsDense(v) then 3 else if IsMedium(v) then 2 else if IsLight(v) then 1 else 0
  }

  /** A brighter pixel never gets a lower tier. */
  lemma TierMonotone(v1: real, v2: real)
    requires v1 <= v2
    ensures Tier(v1) <= Tier(v2)
  {
  }

  /** `cloud_class[mask] = tier`: one masked assignment, in place. */
  method AssignWhere(cloudClass: array2<int>, data: seq<seq<real>>, mask: real -> bool, tier: int)
    requires cloudClass.Length0 == |data| && IsGrid(data, cloudClass.Length1)
    modifies cloudClass
    ensures forall i, j :: 0 <= i < cloudClass.Length0 && 0 <= j < cloudClass.Length1 ==>
      cloudClass[i, j] == if mask(data[i][j]) then tier else old(cloudClass[i, j])
  {
    for i := 0 to cloudClass.Length0
      invariant forall r, c :: 0 <= r < i && 0 <= c < cloudClass.Length1 ==>
        cloudClass[r, c] == if mask(data[r][c]) then tier else old(cloudClass[r, c])
      invariant forall r, c :: i <= r < cloudClass.Length0 && 0 <= c < cloudClass.Length1 ==>
        cloudClass[r, c] == old(cloudClass[r, c])
    {
      for j := 0 to cloudClass.Length1
        invariant forall r, c :: 0 <= r < i && 0 <= c < cloudClass.Length1 ==>
          cloudClass[r, c] == if mask(data[r][c]) then tier else old(cloudClass[r, c])
        invariant forall c :: 0 <= c < j ==>
          cloudClass[i, c] == if mask(data[i][c]) then tier else old(cloudClass[i, c])
        invariant forall c :: j <= c < cloudClass.Length1 ==> cloudClass[i, c] == old(cloudClass[i, c])
        invariant forall r, c :: i < r < cloudClass.Length0 && 0 <= c < cloudClass.Length1 ==>
          cloudClass[r, c] == old(cloudClass[r, c])
      {
        if mask(data[i][j]) {
          cloudClass[i, j] := tier;
        }
      }
    }
  }

  /** `cloud_class`: zero-filled with the shape of the data region, then the
      dense, medium and light masks are assigned 3, 2 and 1 in turn. */
  method ClassifyCloud(data: seq<seq<real>>, width: nat) returns (cloudClass: array2<int>)
    requires IsGrid(data, width)
    ensures fresh(cloudClass)
    ensures cloudClass.Length0 == |data| && cloudClass.Length1 == width
    ensures forall i, j :: 0 <= i < |data| && 0 <= j < width ==> cloudClass[i, j] == Tier(data[i][j])
  {
    cloudClass := new int[|data|, width]((i, j) => 0);
    AssignWhere(cloudClass, data, IsDense, 3);
    AssignWhere(cloudClass, data, IsMedium, 2);
    AssignWhere(cloudClass, data, IsLight, 1);
  }

  // ---------------------------------------------------------------------
  // Geographic mapping

  /** `max(0, min(n, hi))`. */
  function Clamp(n: int, hi: int): (c: int)
    ensures 0 <= c
    ensures 0 <= hi ==> c <= hi
    ensures 0 <= n <= hi ==> c == n
    ensures n < 0 || hi < 0 ==> c == 0
    ensures 0 <= hi < n ==> c == hi
  {
    if n > hi then (if hi < 0 then 0 else hi) else if n < 0 then 0 else n
  }

  /** The column before clamping: `int((lon - lon_min) / (lon_max - lon_min) * width)`. */
  function RawColumn(lon: real, width: nat): (x: int)
    ensures lon == LonMin ==> x == 0
    ensures lon == LonMax ==> x == width
  {
    Trunc((lon - LonMin) / (LonMax - LonMin) * width as real)
  }

  /** The row before clamping: `int((lat_max - lat) / (lat_max - lat_min) * height)`. */
  function RawRow(lat: real, height: nat): (y: int)
    ensures lat == LatMax ==> y == 0
    ensures lat == LatMin ==> y == height
  {
    Trunc((LatMax - lat) / (LatMax - LatMin) * height as real)
  }

  /** `latlon_to_pixel`: a point of the data region for every (lat, lon), also
      outside the declared extent; out-of-range points go to the nearest edge. */
  function LatLonToPixel(lat: real, lon: real, width: nat, height: nat): (p: Pixel)
    ensures 0 <= p.x && (width > 0 ==> p.x <= width - 1) && (width == 0 ==> p.x == 0)
    ensures 0 <= p.y && (height > 0 ==> p.y <= height - 1) && (height == 0 ==> p.y == 0)
    ensures 0 <= RawColumn(lon, width) < width ==> p.x == RawColumn(lon, width)
    ensures RawColumn(lon, width) < 0 ==> p.x == 0
    ensures width > 0 && RawColumn(lon, width) >= width ==> p.x == width - 1
    ensures 0 <= RawRow(lat, height) < height ==> p.y == RawRow(lat, height)
    ensures RawRow(lat, height) < 0 ==> p.y == 0
    ensures height > 0 && RawRow(lat, height) >= height ==> p.y == height - 1
  {
    Pixel(Clamp(RawColumn(lon, width), width - 1), Clamp(RawRow(lat, height), height - 1))
  }

  /** Scaling by a non-negative factor keeps the order. */
  lemma ScaleMonotone(a: real, b: real, k: real)
    requires a <= b && 0.0 <= k
    ensures a * k <= b * k
  {
    assert b * k - a * k == (b - a) * k;
  }

  lemma RawColumnMonotone(lon1: real, lon2: real, width: nat)
    requires lon1 <= lon2
    ensures RawColumn(lon1, width) <= RawColumn(lon2, width)
  {
    ScaleMonotone((lon1 - LonMin) / (LonMax - LonMin), (lon2 - LonMin) / (LonMax - LonMin), width as real);
    TruncMonotone((lon1 - LonMin) / (LonMax - LonMin) * width as real, (lon2 - LonMin) / (LonMax - LonMin) * width as real);
  }

  lemma RawRowAntitone(lat1: real, lat2: real, height: nat)
    requires lat1 <= lat2
    ensures RawRow(lat2, height) <= RawRow(lat1, height)
  {
    ScaleMonotone((LatMax - lat2) / (LatMax - LatMin), (LatMax - lat1) / (LatMax - LatMin), height as real);
    TruncMonotone((LatMax - lat2) / (LatMax - LatMin) * height as real, (LatMax - lat1) / (LatMax - LatMin) * height as real);
  }

  /** Moving east never moves left; moving north never moves down. */
  lemma LatLonToPixelMonotone(lat1: real, lon1: real, lat2: real, lon2: real, width: nat, height: nat)
    ensures lon1 <= lon2 ==> LatLonToPixel(lat1, lon1, width, height).x <= LatLonToPixel(lat2, lon2, width, height).x
    ensures lat1 <= lat2 ==> LatLonToPixel(lat1, lon1, width, height).y >= LatLonToPixel(lat2, lon2, width, height).y
  {
    if lon1 <= lon2 {
      RawColumnMonotone(lon1, lon2, width);
    }
    if lat1 <= lat2 {
      RawRowAntitone(lat1, lat2, height);
    }
  }

  // ---------------------------------------------------------------------
  // Regions

  datatype Region = Region(name: string, latLo: real, latHi: real, lonLo: real, lonHi: real)

  /** The declared regions, in declaration order. */
  const Regions: seq<Region> := [
    Region("North India (J&K, HP, Uttarakhand)", 30.0, 40.0, 70.0, 82.0),
    Region("Northwest India (Punjab, Haryana, Rajasthan)", 25.0, 32.0, 70.0, 78.0),
    Region("Northeast India", 22.0, 30.0, 88.0, 98.0),
    Region("Central India (MP, Chhattisgarh)", 18.0, 26.0, 76.0, 85.0),
    Region("Western India (Gujarat, Maharashtra)", 15.0, 25.0, 68.0, 76.0),
    Region("South India (Karnataka, TN, Kerala)", 8.0, 18.0, 74.0, 82.0),
    Region("Eastern India (Odisha, WB)", 18.0, 25.0, 82.0, 90.0),
    Region("Arabian Sea", 5.0, 20.0, 55.0, 72.0),
    Region("Bay of Bengal", 5.0, 20.0, 80.0, 95.0),
    Region("Pakistan/Afghanistan", 25.0, 38.0, 60.0, 72.0)
  ]

  /** The slice bounds `y1:y2, x1:x2` of a region: its north-west corner and
      its south-east corner, both through the clamped map. The upper bounds
      are at most `width-1` / `height-1`, so a slice never reaches the last
      column or the last row. */
  function RegionWindow(r: Region, width: nat, height: nat): (w: (Pixel, Pixel))
    ensures 0 <= w.0.x && 0 <= w.0.y && 0 <= w.1.x && 0 <= w.1.y
    ensures w.1.x < width || width == 0
    ensures w.1.y < height || height == 0
    ensures w.0 == LatLonToPixel(r.latHi, r.lonLo, width, height)
    ensures w.1 == LatLonToPixel(r.latLo, r.lonHi, width, height)
  {
    (LatLonToPixel(r.latHi, r.lonLo, width, height), LatLonToPixel(r.latLo, r.lonHi, width, height))
  }

  /** Tier percentages of a region: dense, medium and light. */
  datatype Cover = Cover(high: real, medium: real, low: real)

  /** The three percentages of a non-empty crop. */
  function CoverOf(s: seq<real>): (c: Cover)
    requires |s| > 0
    ensures 0.0 <= c.high <= 100.0 && 0.0 <= c.medium <= 100.0 && 0.0 <= c.low <= 100.0
    ensures c.high + c.medium + c.low <= 100.0
    ensures c.high + c.medium + c.low + Percent(Count(s, IsClear), |s|) == 100.0
    ensures c.high == Percent(Count(s, IsDense), |s|)
    ensures c.medium == Percent(Count(s, IsMedium), |s|)
    ensures c.low == Percent(Count(s, IsLight), |s|)
  {
    var total := |s|;
    var dense, medium, light, clear := Count(s, IsDense), Count(s, IsMedium), Count(s, IsLight), Count(s, IsClear);
    CountPartition(s, IsDense, IsMedium, IsLight, IsClear);
    PercentAdd(dense, medium, total);
    PercentAdd(dense + medium, light, total);
    PercentAdd(dense + medium + light, clear, total);
    Cover(Percent(dense, total), Percent(medium, total), Percent(light, total))
  }

  /** `analyze_region`: zeros for an empty slice, otherwise the tier
      percentages of the slice. */
  function AnalyzeRegion(data: seq<seq<real>>, width: nat, r: Region): (c: Cover)
    requires IsGrid(data, width)
    ensures 0.0 <= c.high <= 100.0 && 0.0 <= c.medium <= 100.0 && 0.0 <= c.low <= 100.0
    ensures c.high + c.medium + c.low <= 100.0
    ensures
      var w := RegionWindow(r, width, |data|);
      w.1.x <= w.0.x || w.1.y <= w.0.y ==> c == Cover(0.0, 0.0, 0.0)
    ensures
      var w := RegionWindow(r, width, |data|);
      w.0.x < w.1.x && w.0.y < w.1.y ==>
        var s := Crop(data, width, w.0.y, w.1.y, w.0.x, w.1.x);
        && c.high == Percent(Count(s, IsDense), |s|)
        && c.medium == Percent(Count(s, IsMedium), |s|)
        && c.low == Percent(Count(s, IsLight), |s|)
        && c.high + c.medium + c.low + Percent(Count(s, IsClear), |s|) == 100.0
  {
    var w := RegionWindow(r, width, |data|);
    var x1, y1, x2, y2 := w.0.x, w.0.y, w.1.x, w.1.y;
    if x2 <= x1 || y2 <= y1 then Cover(0.0, 0.0, 0.0)
    else CoverOf(Crop(data, width, y1, y2, x1, x2))
  }

  /** A region whose whole window is dense cloud is 100% dense. */
  lemma UniformDenseRegion(data: seq<seq<real>>, width: nat, r: Region)
    requires IsGrid(data, width)
    requires
      var w := RegionWindow(r, width, |data|);
      && w.0.x < w.1.x && w.0.y < w.1.y
      && forall y, x :: w.0.y <= y < w.1.y && w.0.x <= x < w.1.x ==> data[y][x] >= DenseCloud
    ensures AnalyzeRegion(data, width, r) == Cover(100.0, 0.0, 0.0)
  {
    var w := RegionWindow(r, width, |data|);
    var s := Crop(data, width, w.0.y, w.1.y, w.0.x, w.1.x);
    CropAll(data, width, w.0.y, w.1.y, w.0.x, w.1.x, IsDense);
    CountAll(s, IsDense);
    CountPartition(s, IsDense, IsMedium, IsLight, IsClear);
  }

  // ---------------------------------------------------------------------
  // Likelihood

  /** The decision table: exactly one label, the first rule that fires. */
  function LikelihoodOf(c: Cover): (l: Likelihood)
    ensures l == High <==> c.high > 30.0
    ensures l == Moderate <==> c.high <= 30.0 && (c.high > 15.0 || c.high + c.medium > 40.0)
    ensures l == Low <==> c.high <= 15.0 && c.high + c.medium <= 40.0 && c.high + c.medium + c.low > 30.0
    ensures l == Unlikely <==> c.high <= 15.0 && c.high + c.medium <= 40.0 && c.high + c.medium + c.low <= 30.0
  {
    var totalCloud := c.high + c.medium + c.low;
    if c.high > 30.0 then High
    else if c.high > 15.0 || c.high + c.medium > 40.0 then Moderate
    else if totalCloud > 30.0 then Low
    else Unlikely
  }

  /** More cloud of any tier never lowers the label. */
  lemma LikelihoodMonotone(c1: Cover, c2: Cover)
    requires c1.high <= c2.high && c1.medium <= c2.medium && c1.low <= c2.low
    ensures Rank(LikelihoodOf(c2)) <= Rank(LikelihoodOf(c1))
  {
  }

  datatype RegionReport = RegionReport(region: string, high: real, medium: real, low: real, likelihood: Likelihood)

  /** One entry of `results`: the region's name, the tier shares of its
      window (zeros for an empty window) and the label the table assigns. */
  function Assess(data: seq<seq<real>>, width: nat, r: Region): (e: RegionReport)
    requires IsGrid(data, width)
    ensures e.region == r.name
    ensures 0.0 <= e.high <= 100.0 && 0.0 <= e.medium <= 100.0 && 0.0 <= e.low <= 100.0
    ensures e.high + e.medium + e.low <= 100.0
    ensures
      var w := RegionWindow(r, width, |data|);
      w.1.x <= w.0.x || w.1.y <= w.0.y ==> e.high == e.medium == e.low == 0.0 && e.likelihood == Unlikely
    ensures
      var w := RegionWindow(r, width, |data|);
      w.0.x < w.1.x && w.0.y < w.1.y ==>
        var s := Crop(data, width, w.0.y, w.1.y, w.0.x, w.1.x);
        && e.high == Percent(Count(s, IsDense), |s|)
        && e.medium == Percent(Count(s, IsMedium), |s|)
        && e.low == Percent(Count(s, IsLight), |s|)
    ensures e.likelihood == High <==> e.high > 30.0
    ensures e.likelihood == Moderate <==> e.high <= 30.0 && (e.high > 15.0 || e.high + e.medium > 40.0)
    ensures e.likelihood == Low <==> e.high <= 15.0 && e.high + e.medium <= 40.0 && e.high + e.medium + e.low > 30.0
    ensures e.likelihood == Unlikely <==> e.high <= 15.0 && e.high + e.medium <= 40.0 && e.high + e.medium + e.low <= 30.0
  {
    var c := AnalyzeRegion(data, width, r);
    RegionReport(r.name, c.high, c.medium, c.low, LikelihoodOf(c))
  }

  /** The region loop: one entry per declared region, in declaration order. */
  method AssessRegions(data: seq<seq<real>>, width: nat, regions: seq<Region>) returns (results: seq<RegionReport>)
    requires IsGrid(data, width)
    ensures |results| == |regions|
    ensures forall i :: 0 <= i < |regions| ==> results[i] == Assess(data, width, regions[i])
  {
    results := [];
    for i := 0 to |regions|
      invariant |results| == i
      invariant forall k :: 0 <= k < i ==> results[k] == Assess(data, width, regions[k])
    {
      var c := AnalyzeRegion(data, width, regions[i]);
      var totalCloud := c.high + c.medium + c.low;
      var likelihood;
      if c.high > 30.0 {
        likelihood := High;
      } else if c.high > 15.0 || c.high + c.medium > 40.0 {
        likelihood := Moderate;
      } else if totalCloud > 30.0 {
        likelihood := Low;
      } else {
        likelihood := Unlikely;
      }
      results := results + [RegionReport(regions[i].name, c.high, c.medium, c.low, likelihood)];
    }
  }

  // ---------------------------------------------------------------------
  // Ordering and summaries

  /** The sort key `(rank, -high)`, compared as Python compares tuples. */
  predicate ReportLe(a: RegionReport, b: RegionReport)
  {
    Rank(a.likelihood) < Rank(b.likelihood)
    || (Rank(a.likelihood) == Rank(b.likelihood) && a.high >= b.high)
  }

  lemma ReportLeIsTotalPreorder()
    ensures TotalPreorder(ReportLe)
  {
  }

  /** `results.sort(key=...)`: Python's sort is stable. */
  function SortResults(results: seq<RegionReport>): (sorted: seq<RegionReport>)
    ensures |sorted| == |results|
    ensures multiset(sorted) == multiset(results)
  {
    SortBy(results, ReportLe)
  }

  function HasLabel(l: Likelihood): RegionReport -> bool
  {
    (e: RegionReport) => e.likelihood == l
  }

  /** Reports with the same key `(rank, high)`. */
  function SameKey(l: Likelihood, high: real): RegionReport -> bool
  {
    (e: RegionReport) => Rank(e.likelihood) == Rank(l) && e.high == high
  }

  /** The sorted results are a permutation of the results, ordered by rank and
      then by dense percentage, highest first, and entries with equal keys
      keep their order. */
  lemma SortResultsSpec(results: seq<RegionReport>)
    ensures multiset(SortResults(results)) == multiset(results)
    ensures forall i, j :: 0 <= i < j < |SortResults(results)| ==>
      var a, b := SortResults(results)[i], SortResults(results)[j];
      Rank(a.likelihood) < Rank(b.likelihood) || (Rank(a.likelihood) == Rank(b.likelihood) && a.high >= b.high)
    ensures forall l, h :: Filter(SortResults(results), SameKey(l, h)) == Filter(results, SameKey(l, h))
  {
    ReportLeIsTotalPreorder();
    SortBySorted(results, ReportLe);
    forall l, h
      ensures Filter(SortResults(results), SameKey(l, h)) == Filter(results, SameKey(l, h))
    {
      SortByStable(results, ReportLe, SameKey(l, h));
    }
  }

  /** `high_rain` / `moderate_rain`: the entries of one label in the sorted
      list are exactly the entries of that label in the results, highest
      dense percentage first. */
  lemma LabelSummarySpec(results: seq<RegionReport>, l: Likelihood)
    ensures multiset(Filter(SortResults(results), HasLabel(l))) == multiset(Filter(results, HasLabel(l)))
    ensures forall i, j :: 0 <= i < j < |Filter(SortResults(results), HasLabel(l))| ==>
      Filter(SortResults(results), HasLabel(l))[i].high >= Filter(SortResults(results), HasLabel(l))[j].high
  {
    SortResultsSpec(results);
    FilterPermutation(SortResults(results), results, HasLabel(l));
    ReportLeIsTotalPreorder();
    SortBySorted(results, ReportLe);
    FilterSorted(SortResults(results), ReportLe, HasLabel(l));
  }

  /** `analyze_satellite_image` on a grayscale image of the given width:
      the tier map, the sorted per-region results and the two summaries. */
  method AnalyzeSatelliteImage(gray: seq<seq<real>>, width: nat)
    returns (cloudClass: array2<int>, results: seq<RegionReport>,
             highRain: seq<RegionReport>, moderateRain: seq<RegionReport>)
    requires IsGrid(gray, width)
    ensures fresh(cloudClass)
    ensures cloudClass.Length0 == |DataRegion(gray)| && cloudClass.Length1 == width
    ensures forall i, j :: 0 <= i < cloudClass.Length0 && 0 <= j < width ==>
      cloudClass[i, j] == Tier(DataRegion(gray)[i][j])
    ensures |results| == |Regions| == 10
    ensures results == SortResults(seq(|Regions|, i requires 0 <= i < |Regions| => Assess(DataRegion(gray), width, Regions[i])))
    ensures highRain == Filter(results, HasLabel(High))
    ensures moderateRain == Filter(results, HasLabel(Moderate))
  {
    var dataRegion := DataRegion(gray);
    cloudClass := ClassifyCloud(dataRegion, width);
    results := AssessRegions(dataRegion, width, Regions);
    ghost var assessed := seq(|Regions|, i requires 0 <= i < |Regions| => Assess(dataRegion, width, Regions[i]));
    assert results == assessed;
    results := SortResults(results);
    highRain := Filter(results, HasLabel(High));
    moderateRain := Filter(results, HasLabel(Moderate));
  }
}
