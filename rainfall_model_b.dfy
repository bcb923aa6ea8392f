// The second pipeline: an explicit bounds record with forward and inverse
// coordinate maps, whole-image cloud statistics with strict thresholds,
// six declared regions cropped through `coords_to_pixel` (truncated toward
// zero) and then clamped to the image (a degenerate crop drops the region),
// and the report's stable sort by label rank with its three summary lists.

module RainfallModelB {
  import opened Raster
  import opened Sorting
  import opened Rain
  import opened Wrappers

  const HeaderHeight: nat := 80
  const ThresholdHigh: real := 180.0
  const ThresholdMedium: real := 140.0

  // ---------------------------------------------------------------------
  // Geographic bounds and the two coordinate maps

  datatype GeoBounds = GeoBounds(
    headerHeight: nat,
    lonMin: real, lonMax: real,
    latMin: real, latMax: real,
    pixelsPerDegreeLon: real,
    pixelsPerDegreeLat: real)

  /** `define_geographic_bounds` for an image of `rows` x `cols` pixels: the
      declared 50..105 E, -5..45 N extent spread over the columns and over the
      rows below the header. */
  function DefineGeographicBounds(rows: nat, cols: nat): (b: GeoBounds)
    ensures b.headerHeight == 80
    ensures b.lonMin == 50.0 && b.lonMax == 105.0 && b.latMin == -5.0 && b.latMax == 45.0
    ensures b.pixelsPerDegreeLon * (b.lonMax - b.lonMin) == cols as real
    ensures b.pixelsPerDegreeLat * (b.latMax - b.latMin) == rows as real - 80.0
    ensures cols > 0 <==> b.pixelsPerDegreeLon > 0.0
    ensures rows > 80 <==> b.pixelsPerDegreeLat > 0.0
  {
    var height, width := rows - HeaderHeight, cols;
    GeoBounds(HeaderHeight, 50.0, 105.0, -5.0, 45.0, width as real / 55.0, height as real / 50.0)
  }

  datatype Coords = Coords(lat: real, lon: real)
  datatype Point = Point(x: real, y: real)

  /** `pixel_to_coords`; None where Python raises ZeroDivisionError
      (a zero pixels-per-degree scale). */
  function PixelToCoords(x: real, y: real, b: GeoBounds): (c: Option<Coords>)
    ensures c.None? <==> b.pixelsPerDegreeLon == 0.0 || b.pixelsPerDegreeLat == 0.0
  {
    if b.pixelsPerDegreeLon == 0.0 || b.pixelsPerDegreeLat == 0.0 then None
    else
      var lon := b.lonMin + x / b.pixelsPerDegreeLon;
      var lat := b.latMax - (y - b.headerHeight as real) / b.pixelsPerDegreeLat;
      Some(Coords(lat, lon))
  }

  /** `coords_to_pixel` before its `int()` truncation. */
  function CoordsToPoint(lat: real, lon: real, b: GeoBounds): (q: Point)
    ensures lon == b.lonMin ==> q.x == 0.0
    ensures lat == b.latMax ==> q.y == b.headerHeight as real
  {
    Point((lon - b.lonMin) * b.pixelsPerDegreeLon,
          b.headerHeight as real + (b.latMax - lat) * b.pixelsPerDegreeLat)
  }

  /** `coords_to_pixel`: both coordinates truncated toward zero. */
  function CoordsToPixel(lat: real, lon: real, b: GeoBounds): Pixel
  {
    var p := CoordsToPoint(lat, lon, b);
    Pixel(Trunc(p.x), Trunc(p.y))
  }

  /** The pixel is the exact point moved toward zero by less than one in each
      coordinate. */
  lemma CoordsToPixelTruncates(lat: real, lon: real, b: GeoBounds)
    ensures
      var q, p := CoordsToPoint(lat, lon, b), CoordsToPixel(lat, lon, b);
      && -1.0 < q.x - p.x as real < 1.0 && -1.0 < q.y - p.y as real < 1.0
      && (0.0 <= q.x ==> p.x as real <= q.x) && (q.x < 0.0 ==> q.x <= p.x as real)
      && (0.0 <= q.y ==> p.y as real <= q.y) && (q.y < 0.0 ==> q.y <= p.y as real)
  {
  }

  /** geo -> pixel -> geo is the identity (exact arithmetic, before `int()`). */
  lemma CoordsRoundTrip(lat: real, lon: real, b: GeoBounds)
    requires b.pixelsPerDegreeLon != 0.0 && b.pixelsPerDegreeLat != 0.0
    ensures PixelToCoords(CoordsToPoint(lat, lon, b).x, CoordsToPoint(lat, lon, b).y, b) == Some(Coords(lat, lon))
  {
    var p := CoordsToPoint(lat, lon, b);
    assert p.x / b.pixelsPerDegreeLon == lon - b.lonMin;
    assert (p.y - b.headerHeight as real) / b.pixelsPerDegreeLat == b.latMax - lat;
  }

  /** pixel -> geo -> pixel is the identity (exact arithmetic, before `int()`). */
  lemma PixelRoundTrip(x: real, y: real, b: GeoBounds)
    requires b.pixelsPerDegreeLon != 0.0 && b.pixelsPerDegreeLat != 0.0
    ensures PixelToCoords(x, y, b).Some?
    ensures CoordsToPoint(PixelToCoords(x, y, b).value.lat, PixelToCoords(x, y, b).value.lon, b) == Point(x, y)
  {
    var c := PixelToCoords(x, y, b).value;
    assert (c.lon - b.lonMin) * b.pixelsPerDegreeLon == x;
    assert (b.latMax - c.lat) * b.pixelsPerDegreeLat == y - b.headerHeight as real;
  }

  /** With non-negative scales, moving east never moves left and moving north
      never moves down. */
  lemma CoordsToPixelMonotone(lat1: real, lon1: real, lat2: real, lon2: real, b: GeoBounds)
    requires b.pixelsPerDegreeLon >= 0.0 && b.pixelsPerDegreeLat >= 0.0
    ensures lon1 <= lon2 ==> CoordsToPixel(lat1, lon1, b).x <= CoordsToPixel(lat2, lon2, b).x
    ensures lat1 <= lat2 ==> CoordsToPixel(lat1, lon1, b).y >= CoordsToPixel(lat2, lon2, b).y
  {
    var p1, p2 := CoordsToPoint(lat1, lon1, b), CoordsToPoint(lat2, lon2, b);
    if lon1 <= lon2 {
      assert p2.x - p1.x == (lon2 - lon1) * b.pixelsPerDegreeLon;
      TruncMonotone(p1.x, p2.x);
    }
    if lat1 <= lat2 {
      assert p1.y - p2.y == (lat2 - lat1) * b.pixelsPerDegreeLat;
      TruncMonotone(p2.y, p1.y);
    }
  }

  /** The bounds calibrate the image: the north-west corner of the declared
      extent is the first pixel below the header, and the south-east corner is
      one past the last column and row. */
  lemma BoundsCalibration(rows: nat, cols: nat)
    ensures CoordsToPixel(45.0, 50.0, DefineGeographicBounds(rows, cols)) == Pixel(0, 80)
    ensures CoordsToPixel(-5.0, 105.0, DefineGeographicBounds(rows, cols)) == Pixel(cols, rows)
  {
    var b := DefineGeographicBounds(rows, cols);
    assert CoordsToPoint(45.0, 50.0, b) == Point(0.0, 80.0);
    assert CoordsToPoint(-5.0, 105.0, b) == Point(cols as real, rows as real);
    TruncOfInt(0);
    TruncOfInt(80);
    TruncOfInt(cols);
    TruncOfInt(rows);
  }

  // ---------------------------------------------------------------------
  // Whole-image cloud cover

  /** The rows from `header` down (`gray[header:, :]`). */
  function BelowHeader(gray: seq<seq<real>>, header: nat): (data: seq<seq<real>>)
    ensures |data| == if |gray| <= header then 0 else |gray| - header
    ensures forall i :: 0 <= i < |data| ==> data[i] == gray[header + i]
  {
    if |gray| <= header then [] else gray[header..]
  }

  /** `v > t`. */
  function Above(t: real): real -> bool
  {
    v => v > t
  }

  /** `(v > lo) & (v <= hi)`. */
  function Within(lo: real, hi: real): real -> bool
  {
    v => v > lo && v <= hi
  }

  /** A boolean mask of the same shape as `g`. */
  function Mask(g: seq<seq<real>>, p: real -> bool): (m: seq<seq<bool>>)
    ensures |m| == |g|
    ensures forall i :: 0 <= i < |g| ==> |m[i]| == |g[i]|
    ensures forall i, j :: 0 <= i < |g| && 0 <= j < |g[i]| ==> m[i][j] == p(g[i][j])
  {
    seq(|g|, i requires 0 <= i < |g| => seq(|g[i]|, j requires 0 <= j < |g[i]| => p(g[i][j])))
  }

  /** The statistics; a percentage or mean is None where numpy produces NaN
      (an empty data region). */
  datatype CloudCover = CloudCover(
    highCloudMask: seq<seq<bool>>,
    mediumCloudMask: seq<seq<bool>>,
    highCloudPercent: Option<real>,
    mediumCloudPercent: Option<real>,
    meanBrightness: Option<real>)

  /** `analyze_cloud_cover`. */
  function AnalyzeCloudCover(gray: seq<seq<real>>, width: nat, b: GeoBounds, thresholdHigh: real, thresholdMedium: real)
    : (c: CloudCover)
    requires IsGrid(gray, width)
    ensures |c.highCloudMask| == |c.mediumCloudMask| == |BelowHeader(gray, b.headerHeight)|
    ensures forall i, j :: 0 <= i < |c.highCloudMask| && 0 <= j < width ==>
      && |c.highCloudMask[i]| == |c.mediumCloudMask[i]| == width
      && (c.highCloudMask[i][j] <==> gray[b.headerHeight + i][j] > thresholdHigh)
      && (c.mediumCloudMask[i][j] <==> thresholdMedium < gray[b.headerHeight + i][j] <= thresholdHigh)
      && !(c.highCloudMask[i][j] && c.mediumCloudMask[i][j])
    ensures c.highCloudPercent.None? <==> |gray| <= b.headerHeight || width == 0
    ensures c.mediumCloudPercent.None? <==> c.highCloudPercent.None?
    ensures c.meanBrightness.None? <==> c.highCloudPercent.None?
    ensures c.highCloudPercent.Some? ==>
      && 0.0 <= c.highCloudPercent.value <= 100.0
      && 0.0 <= c.mediumCloudPercent.value <= 100.0
      && c.highCloudPercent.value + c.mediumCloudPercent.value <= 100.0
    ensures c.highCloudPercent.Some? ==>
      var data := BelowHeader(gray, b.headerHeight);
      var cells := Crop(data, width, 0, |data|, 0, width);
      && |cells| == |data| * width
      && c.highCloudPercent.value == Percent(Count(cells, Above(thresholdHigh)), |cells|)
      && c.mediumCloudPercent.value == Percent(Count(cells, Within(thresholdMedium, thresholdHigh)), |cells|)
      && c.meanBrightness.value == Mean(cells)
  {
    var data := BelowHeader(gray, b.headerHeight);
    var highMask := Mask(data, Above(thresholdHigh));
    var mediumMask := Mask(data, Within(thresholdMedium, thresholdHigh));
    var cells := Crop(data, width, 0, |data|, 0, width);
    var size := |cells|;
    if size == 0 then
      CloudCover(highMask, mediumMask, None, None, None)
    else
      var high, medium := Count(cells, Above(thresholdHigh)), Count(cells, Within(thresholdMedium, thresholdHigh));
      CountDisjoint(cells, Above(thresholdHigh), Within(thresholdMedium, thresholdHigh));
      PercentAdd(high, medium, size);
      CloudCover(highMask, mediumMask, Some(Percent(high, size)), Some(Percent(medium, size)), Some(Mean(cells)))
  }

  /** The header band does not take part in the statistics. */
  lemma CloudCoverIgnoresHeader(gray1: seq<seq<real>>, gray2: seq<seq<real>>, width: nat, b: GeoBounds, th: real, tm: real)
    requires IsGrid(gray1, width) && IsGrid(gray2, width)
    requires |gray1| == |gray2|
    requires forall i :: b.headerHeight <= i < |gray1| ==> gray1[i] == gray2[i]
    ensures AnalyzeCloudCover(gray1, width, b, th, tm) == AnalyzeCloudCover(gray2, width, b, th, tm)
  {
    assert BelowHeader(gray1, b.headerHeight) == BelowHeader(gray2, b.headerHeight);
  }

  // ---------------------------------------------------------------------
  // Regions

  datatype RegionDecl = RegionDecl(name: string, latLo: real, latHi: real, lonLo: real, lonHi: real, description: string)

  /** The declared regions, in declaration order. */
  const Regions: seq<RegionDecl> := [
    RegionDecl("Northern India (Western Disturbance)", 28.0, 40.0, 70.0, 95.0, "J&K, Himachal, Uttarakhand, Punjab"),
    RegionDecl("Arabian Sea (Southwest)", 5.0, 15.0, 55.0, 72.0, "Kerala coast, Lakshadweep"),
    RegionDecl("Bay of Bengal (East)", 10.0, 22.0, 85.0, 100.0, "Andaman Islands, Coastal Odisha/Andhra"),
    RegionDecl("Southern Indian Ocean", -5.0, 5.0, 70.0, 95.0, "Sri Lanka, Southern Tamil Nadu"),
    RegionDecl("Central India", 18.0, 26.0, 74.0, 84.0, "Maharashtra, MP, Chhattisgarh"),
    RegionDecl("Western Rajasthan", 24.0, 30.0, 68.0, 76.0, "Rajasthan desert region")
  ]

  datatype Box = Box(x1: int, y1: int, x2: int, y2: int)

  predicate NonEmpty(bx: Box)
  {
    bx.x2 > bx.x1 && bx.y2 > bx.y1
  }

  function Max(a: int, b: int): int { if a >= b then a else b }
  function Min(a: int, b: int): int { if a <= b then a else b }

  /** The crop of a region: its corners through `coords_to_pixel`, then
      `x1, x2 = max(0, x1), min(cols, x2)` and
      `y1, y2 = max(header, y1), min(rows, y2)`. */
  function ClampedBox(rows: nat, cols: nat, b: GeoBounds, r: RegionDecl): (bx: Box)
    ensures 0 <= bx.x1 && bx.x2 <= cols
    ensures b.headerHeight <= bx.y1 && bx.y2 <= rows
    ensures bx.x1 == Max(0, CoordsToPixel(r.latHi, r.lonLo, b).x)
    ensures bx.y1 == Max(b.headerHeight, CoordsToPixel(r.latHi, r.lonLo, b).y)
    ensures bx.x2 == Min(cols, CoordsToPixel(r.latLo, r.lonHi, b).x)
    ensures bx.y2 == Min(rows, CoordsToPixel(r.latLo, r.lonHi, b).y)
  {
    var nw, se := CoordsToPixel(r.latHi, r.lonLo, b), CoordsToPixel(r.latLo, r.lonHi, b);
    Box(Max(0, nw.x), Max(b.headerHeight, nw.y), Min(cols, se.x), Min(rows, se.y))
  }

  /** The decision table of this pipeline: exactly one label, the first rule
      that fires. */
  function LikelihoodOf(high: real, medium: real): (l: Likelihood)
    ensures l == High <==> high > 30.0
    ensures l == Moderate <==> high <= 30.0 && (high > 15.0 || high + medium > 40.0)
    ensures l == Low <==> high <= 15.0 && high + medium <= 40.0 && (high > 5.0 || medium > 20.0)
    ensures l == Unlikely <==> high <= 5.0 && medium <= 20.0
  {
    if high > 30.0 then High
    else if high > 15.0 || high + medium > 40.0 then Moderate
    else if high > 5.0 || medium > 20.0 then Low
    else Unlikely
  }

  /** More cloud never lowers the label. */
  lemma LikelihoodMonotone(high1: real, medium1: real, high2: real, medium2: real)
    requires high1 <= high2 && medium1 <= medium2
    ensures Rank(LikelihoodOf(high2, medium2)) <= Rank(LikelihoodOf(high1, medium1))
  {
  }

  datatype RainRegion = RainRegion(
    region: string,
    description: string,
    highCloudPct: real,
    mediumCloudPct: real,
    meanBrightness: real,
    rainLikelihood: Likelihood,
    bounds: Box)

  /** Predicates for the region masks `> 180` and `(> 140) & (<= 180)`. */
  function HighCloud(): real -> bool { Above(ThresholdHigh) }
  function MediumCloud(): real -> bool { Within(ThresholdMedium, ThresholdHigh) }

  /** An entry's statistics are those of the pixels `px` of its crop: the
      shares of `> 180` and of `(> 140) & (<= 180)`, and the mean. */
  predicate Measures(px: seq<real>, e: RainRegion)
    requires |px| > 0
  {
    && e.highCloudPct == Percent(Count(px, Above(180.0)), |px|)
    && e.mediumCloudPct == Percent(Count(px, Within(140.0, 180.0)), |px|)
    && e.meanBrightness == Mean(px)
  }

  /** The entry a declared region contributes: none for a degenerate crop. */
  function AssessRegion(gray: seq<seq<real>>, width: nat, b: GeoBounds, r: RegionDecl): (o: Option<RainRegion>)
    requires IsGrid(gray, width)
    ensures o.Some? <==> NonEmpty(ClampedBox(|gray|, width, b, r))
    ensures o.Some? ==>
      var e := o.value;
      && e.region == r.name && e.description == r.description
      && e.bounds == ClampedBox(|gray|, width, b, r)
      && 0 <= e.bounds.x1 < e.bounds.x2 <= width
      && b.headerHeight <= e.bounds.y1 < e.bounds.y2 <= |gray|
      && 0.0 <= e.highCloudPct <= 100.0 && 0.0 <= e.mediumCloudPct <= 100.0
      && e.highCloudPct + e.mediumCloudPct <= 100.0
      && e.rainLikelihood == LikelihoodOf(e.highCloudPct, e.mediumCloudPct)
  {
    var bx := ClampedBox(|gray|, width, b, r);
    if !NonEmpty(bx) then None
    else
      var px := Crop(gray, width, bx.y1, bx.y2, bx.x1, bx.x2);
      var high, medium := Count(px, HighCloud()), Count(px, MediumCloud());
      CountDisjoint(px, HighCloud(), MediumCloud());
      PercentAdd(high, medium, |px|);
      var highPct, mediumPct := Percent(high, |px|), Percent(medium, |px|);
      Some(RainRegion(r.name, r.description, highPct, mediumPct, Mean(px), LikelihoodOf(highPct, mediumPct), bx))
  }

  /** What an entry's statistics measure: the shares of `> 180` and of
      `(> 140) & (<= 180)` among the pixels of its own crop, and their mean. */
  lemma AssessRegionMeasures(gray: seq<seq<real>>, width: nat, b: GeoBounds, r: RegionDecl)
    requires IsGrid(gray, width)
    ensures AssessRegion(gray, width, b, r).Some? ==>
      var e := AssessRegion(gray, width, b, r).value;
      Measures(Crop(gray, width, e.bounds.y1, e.bounds.y2, e.bounds.x1, e.bounds.x2), e)
  {
  }

  /** A region whose whole crop is brighter than 180 is 100% dense and HIGH. */
  lemma UniformDenseRegion(gray: seq<seq<real>>, width: nat, b: GeoBounds, r: RegionDecl)
    requires IsGrid(gray, width)
    requires NonEmpty(ClampedBox(|gray|, width, b, r))
    requires
      var bx := ClampedBox(|gray|, width, b, r);
      forall y, x :: bx.y1 <= y < bx.y2 && bx.x1 <= x < bx.x2 ==> gray[y][x] > ThresholdHigh
    ensures AssessRegion(gray, width, b, r).value.highCloudPct == 100.0
    ensures AssessRegion(gray, width, b, r).value.mediumCloudPct == 0.0
    ensures AssessRegion(gray, width, b, r).value.rainLikelihood == High
  {
    var bx := ClampedBox(|gray|, width, b, r);
    var px := Crop(gray, width, bx.y1, bx.y2, bx.x1, bx.x2);
    CropAll(gray, width, bx.y1, bx.y2, bx.x1, bx.x2, HighCloud());
    CountAll(px, HighCloud());
    CountDisjoint(px, HighCloud(), MediumCloud());
  }

  /** A region whose whole crop is at most 140 shows no cloud and is UNLIKELY. */
  lemma ClearRegionIsUnlikely(gray: seq<seq<real>>, width: nat, b: GeoBounds, r: RegionDecl)
    requires IsGrid(gray, width)
    requires NonEmpty(ClampedBox(|gray|, width, b, r))
    requires
      var bx := ClampedBox(|gray|, width, b, r);
      forall y, x :: bx.y1 <= y < bx.y2 && bx.x1 <= x < bx.x2 ==> gray[y][x] <= ThresholdMedium
    ensures AssessRegion(gray, width, b, r).value.highCloudPct == 0.0
    ensures AssessRegion(gray, width, b, r).value.mediumCloudPct == 0.0
    ensures AssessRegion(gray, width, b, r).value.rainLikelihood == Unlikely
  {
    var bx := ClampedBox(|gray|, width, b, r);
    var px := Crop(gray, width, bx.y1, bx.y2, bx.x1, bx.x2);
    var clear := (v: real) => v <= ThresholdMedium;
    CropAll(gray, width, bx.y1, bx.y2, bx.x1, bx.x2, clear);
    CountNone(px, HighCloud());
    CountNone(px, MediumCloud());
  }

  /** The mean brightness of an entry lies within any range that holds every
      pixel of the image (for an 8-bit image, 0..255). */
  lemma RegionMeanWithin(gray: seq<seq<real>>, width: nat, b: GeoBounds, r: RegionDecl, lo: real, hi: real)
    requires IsGrid(gray, width)
    requires forall y, x :: 0 <= y < |gray| && 0 <= x < width ==> lo <= gray[y][x] <= hi
    ensures AssessRegion(gray, width, b, r).Some? ==>
      lo <= AssessRegion(gray, width, b, r).value.meanBrightness <= hi
  {
    var bx := ClampedBox(|gray|, width, b, r);
    if NonEmpty(bx) {
      var px := Crop(gray, width, bx.y1, bx.y2, bx.x1, bx.x2);
      var inRange := (v: real) => lo <= v <= hi;
      CropAll(gray, width, bx.y1, bx.y2, bx.x1, bx.x2, inRange);
      MeanWithin(px, lo, hi);
    }
  }

  /** The entries of `results` for a list of declared regions, in order. */
  function RainRegions(gray: seq<seq<real>>, width: nat, b: GeoBounds, regions: seq<RegionDecl>): (rs: seq<RainRegion>)
    requires IsGrid(gray, width)
    ensures |rs| <= |regions|
    decreases |regions|
  {
    if regions == [] then []
    else
      var last := regions[|regions| - 1];
      RainRegions(gray, width, b, regions[..|regions| - 1])
        + match AssessRegion(gray, width, b, last) { case Some(e) => [e] case None => [] }
  }

  /** The index of the declared region each entry comes from. */
  ghost function Origins(gray: seq<seq<real>>, width: nat, b: GeoBounds, regions: seq<RegionDecl>): seq<nat>
    requires IsGrid(gray, width)
    decreases |regions|
  {
    if regions == [] then []
    else
      var n := |regions| - 1;
      Origins(gray, width, b, regions[..n])
        + if AssessRegion(gray, width, b, regions[n]).Some? then [n] else []
  }

  /** Each entry comes from its own declared region, in declaration order, and
      a declared region is left out exactly when its crop is degenerate. */
  lemma {:induction false} RainRegionsSpec(gray: seq<seq<real>>, width: nat, b: GeoBounds, regions: seq<RegionDecl>)
    requires IsGrid(gray, width)
    ensures
      var rs, os := RainRegions(gray, width, b, regions), Origins(gray, width, b, regions);
      && |os| == |rs|
      && (forall k :: 0 <= k < |os| ==> os[k] < |regions| && AssessRegion(gray, width, b, regions[os[k]]) == Some(rs[k]))
      && (forall k, l :: 0 <= k < l < |os| ==> os[k] < os[l])
      && (forall i :: 0 <= i < |regions| && NonEmpty(ClampedBox(|gray|, width, b, regions[i])) ==> i in os)
    decreases |regions|
  {
    if regions != [] {
      var n := |regions| - 1;
      var pre := regions[..n];
      RainRegionsSpec(gray, width, b, pre);
      forall i | 0 <= i < n
        ensures regions[i] == pre[i]
      {
      }
      var rsPre, osPre := RainRegions(gray, width, b, pre), Origins(gray, width, b, pre);
      var o := AssessRegion(gray, width, b, regions[n]);
      if o.Some? {
        var rs, os := rsPre + [o.value], osPre + [n];
        assert RainRegions(gray, width, b, regions) == rs;
        assert Origins(gray, width, b, regions) == os;
        forall k | 0 <= k < |os|
          ensures os[k] < |regions| && AssessRegion(gray, width, b, regions[os[k]]) == Some(rs[k])
        {
          if k < |osPre| {
            assert os[k] == osPre[k] && rs[k] == rsPre[k];
          }
        }
      } else {
        assert RainRegions(gray, width, b, regions) == rsPre;
        assert Origins(gray, width, b, regions) == osPre;
      }
    }
  }

  /** Every reported crop lies inside the image, below the header. */
  lemma RainRegionsInImage(gray: seq<seq<real>>, width: nat, b: GeoBounds, regions: seq<RegionDecl>)
    requires IsGrid(gray, width)
    ensures forall e :: e in RainRegions(gray, width, b, regions) ==>
      && 0 <= e.bounds.x1 < e.bounds.x2 <= width
      && b.headerHeight <= e.bounds.y1 < e.bounds.y2 <= |gray|
  {
    RainRegionsSpec(gray, width, b, regions);
    var rs, os := RainRegions(gray, width, b, regions), Origins(gray, width, b, regions);
    forall e | e in rs
      ensures 0 <= e.bounds.x1 < e.bounds.x2 <= width && b.headerHeight <= e.bounds.y1 < e.bounds.y2 <= |gray|
    {
      var k :| 0 <= k < |rs| && rs[k] == e;
      assert AssessRegion(gray, width, b, regions[os[k]]) == Some(e);
    }
  }

  lemma RainRegionsStep(gray: seq<seq<real>>, width: nat, b: GeoBounds, regions: seq<RegionDecl>, i: nat)
    requires IsGrid(gray, width)
    requires i < |regions|
    ensures RainRegions(gray, width, b, regions[..i + 1])
      == RainRegions(gray, width, b, regions[..i])
         + match AssessRegion(gray, width, b, regions[i]) { case Some(e) => [e] case None => [] }
  {
    assert regions[..i + 1][..i] == regions[..i];
  }

  /** The body of the region loop for one declared region: the two corners
      through `coords_to_pixel`, the clamping, and for a non-empty crop the
      statistics and the label. */
  method RegionEntry(gray: seq<seq<real>>, width: nat, b: GeoBounds, r: RegionDecl) returns (entry: Option<RainRegion>)
    requires IsGrid(gray, width)
    ensures entry == AssessRegion(gray, width, b, r)
  {
    var nw := CoordsToPixel(r.latHi, r.lonLo, b);
    var se := CoordsToPixel(r.latLo, r.lonHi, b);
    var x1, y1, x2, y2 := nw.x, nw.y, se.x, se.y;
    x1, x2 := Max(0, x1), Min(width, x2);
    y1, y2 := Max(b.headerHeight, y1), Min(|gray|, y2);
    assert Box(x1, y1, x2, y2) == ClampedBox(|gray|, width, b, r);
    if x2 > x1 && y2 > y1 {
      var regionPixels := Crop(gray, width, y1, y2, x1, x2);
      var highCloudPct := Percent(Count(regionPixels, HighCloud()), |regionPixels|);
      var mediumCloudPct := Percent(Count(regionPixels, MediumCloud()), |regionPixels|);
      var meanBrightness := Mean(regionPixels);
      var rainLikelihood;
      if highCloudPct > 30.0 {
        rainLikelihood := High;
      } else if highCloudPct > 15.0 || highCloudPct + mediumCloudPct > 40.0 {
        rainLikelihood := Moderate;
      } else if highCloudPct > 5.0 || mediumCloudPct > 20.0 {
        rainLikelihood := Low;
      } else {
        rainLikelihood := Unlikely;
      }
      entry := Some(RainRegion(r.name, r.description, highCloudPct, mediumCloudPct,
                               meanBrightness, rainLikelihood, Box(x1, y1, x2, y2)));
    } else {
      entry := None;
    }
  }

  /** `identify_rain_regions`: the region loop, appending an entry for every
      region whose clamped crop is non-empty. */
  method IdentifyRainRegions(gray: seq<seq<real>>, width: nat, b: GeoBounds, regions: seq<RegionDecl>)
    returns (results: seq<RainRegion>)
    requires IsGrid(gray, width)
    ensures results == RainRegions(gray, width, b, regions)
    ensures |results| <= |regions|
    ensures forall k :: 0 <= k < |results| ==>
      && 0 <= results[k].bounds.x1 < results[k].bounds.x2 <= width
      && b.headerHeight <= results[k].bounds.y1 < results[k].bounds.y2 <= |gray|
  {
    results := [];
    for i := 0 to |regions|
      invariant results == RainRegions(gray, width, b, regions[..i])
    {
      var entry := RegionEntry(gray, width, b, regions[i]);
      RainRegionsStep(gray, width, b, regions, i);
      if entry.Some? {
        results := results + [entry.value];
      }
    }
    assert regions[..|regions|] == regions;
    RainRegionsInImage(gray, width, b, regions);
  }

  /** With the six declared regions, at most six entries. */
  lemma AtMostOneEntryPerRegion(gray: seq<seq<real>>, width: nat, b: GeoBounds)
    requires IsGrid(gray, width)
    ensures |RainRegions(gray, width, b, Regions)| <= 6
  {
  }

  // ---------------------------------------------------------------------
  // The report's ordering and summaries

  /** The sort key: the label's rank only. */
  predicate RankLe(a: RainRegion, b: RainRegion)
  {
    Rank(a.rainLikelihood) <= Rank(b.rainLikelihood)
  }

  lemma RankLeIsTotalPreorder()
    ensures TotalPreorder(RankLe)
  {
  }

  function HasLabel(l: Likelihood): RainRegion -> bool
  {
    (e: RainRegion) => e.rainLikelihood == l
  }

  /** `[r['region'] for r in ...]`. */
  function Names(rs: seq<RainRegion>): (names: seq<string>)
    ensures |names| == |rs|
    ensures forall i :: 0 <= i < |rs| ==> names[i] == rs[i].region
  {
    seq(|rs|, i requires 0 <= i < |rs| => rs[i].region)
  }

  datatype Report = Report(
    sortedResults: seq<RainRegion>,
    highRain: seq<string>,
    moderateRain: seq<string>,
    dryRegions: seq<string>)

  /** The ordering and the list comprehensions of `print_report`. */
  function Summarize(results: seq<RainRegion>): (rep: Report)
    ensures |rep.sortedResults| == |results|
  {
    var sorted := SortBy(results, RankLe);
    Report(sorted,
           Names(Filter(sorted, HasLabel(High))),
           Names(Filter(sorted, HasLabel(Moderate))),
           Names(Filter(sorted, HasLabel(Unlikely))))
  }

  /** The sorted results are a permutation of the results ordered by rank,
      stable within a rank, and each summary lists the regions of its label
      in the order the regions were reported. */
  lemma SummarizeSpec(results: seq<RainRegion>)
    ensures multiset(Summarize(results).sortedResults) == multiset(results)
    ensures forall i, j :: 0 <= i < j < |Summarize(results).sortedResults| ==>
      Rank(Summarize(results).sortedResults[i].rainLikelihood) <= Rank(Summarize(results).sortedResults[j].rainLikelihood)
    ensures forall l :: Filter(Summarize(results).sortedResults, HasLabel(l)) == Filter(results, HasLabel(l))
    ensures Summarize(results).highRain == Names(Filter(results, HasLabel(High)))
    ensures Summarize(results).moderateRain == Names(Filter(results, HasLabel(Moderate)))
    ensures Summarize(results).dryRegions == Names(Filter(results, HasLabel(Unlikely)))
  {
    RankLeIsTotalPreorder();
    SortBySorted(results, RankLe);
    forall l
      ensures Filter(SortBy(results, RankLe), HasLabel(l)) == Filter(results, HasLabel(l))
    {
      SortByStable(results, RankLe, HasLabel(l));
    }
  }

  // ---------------------------------------------------------------------
  // The pipeline

  /** `main` without the image loading, the printing and the drawing: bounds
      from the image's shape, the whole-image statistics with the default
      thresholds, the regional results and the report's lists. */
  method AnalyzeImage(gray: seq<seq<real>>, width: nat)
    returns (regionResults: seq<RainRegion>, cloudStats: CloudCover, report: Report)
    requires IsGrid(gray, width)
    ensures regionResults == RainRegions(gray, width, DefineGeographicBounds(|gray|, width), Regions)
    ensures |regionResults| <= 6
    ensures cloudStats == AnalyzeCloudCover(gray, width, DefineGeographicBounds(|gray|, width), ThresholdHigh, ThresholdMedium)
    ensures report == Summarize(regionResults)
    ensures multiset(report.sortedResults) == multiset(regionResults)
    ensures forall i, j :: 0 <= i < j < |report.sortedResults| ==>
      Rank(report.sortedResults[i].rainLikelihood) <= Rank(report.sortedResults[j].rainLikelihood)
    ensures report.highRain == Names(Filter(regionResults, HasLabel(High)))
    ensures report.moderateRain == Names(Filter(regionResults, HasLabel(Moderate)))
    ensures report.dryRegions == Names(Filter(regionResults, HasLabel(Unlikely)))
  {
    var bounds := DefineGeographicBounds(|gray|, width);
    cloudStats := AnalyzeCloudCover(gray, width, bounds, ThresholdHigh, ThresholdMedium);
    regionResults := IdentifyRainRegions(gray, width, bounds, Regions);
    report := Summarize(regionResults);
    SummarizeSpec(regionResults);
  }
}
