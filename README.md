# Rainfall analysis and maximum scan, modelled in Dafny

This project models three small Python scripts and proves properties of the
models.

- **Maximum scan** (`maximum_number_list.py`). `max_value` starts as the
  first element of the list. A `for` loop then replaces it with every later
  element that is strictly greater.
- **First rainfall pipeline** (`rainfall_analysis.py`,
  `analyze_satellite_image`). The rows below an 80-row header form the data
  region, and every pixel is classified into a tier: 3 for brightness at
  least 200, 2 for at least 160, 1 for at least 120, 0 otherwise. Ten
  declared regions are each cropped through a lat/lon -> pixel map that is
  clamped to the grid. A crop's dense, medium and light percentages are
  `(0, 0, 0)` for an empty crop, and they choose a label: HIGH, MODERATE,
  LOW or UNLIKELY. The results are sorted by `(rank, -dense%)` and filtered
  into the HIGH and MODERATE summaries.
- **Second rainfall pipeline** (`rainfall_analysis_model_b.py`). An explicit
  bounds record gives a forward and an inverse coordinate map. Whole-image
  statistics use strict thresholds: dense is `> 180`, medium is
  `140 < v <= 180`. Six declared regions take their corners through
  `coords_to_pixel`, which truncates toward zero, and are then clamped to
  `[0, cols]` x `[header, rows]`. A degenerate
  crop drops its region: nothing is reported for it. The labels use their own
  LOW rule, `high > 5 or medium > 20`. The report sorts stably by rank only
  and lists the HIGH, MODERATE and UNLIKELY region names.

The grayscale image is an input: a `seq<seq<real>>` whose rows all have the
same width (`Raster.IsGrid`). All arithmetic is exact. Percentages are
`count / total * 100` in `real`, and Python's `int()` is written out as
truncation toward zero (`Raster.Trunc`). The region tables are constants
listed in declaration order, which is the order Python iterates the dicts.
A list that the source mutates in place (`results.append`, `results.sort`)
is a `seq` variable that the method reassigns. The tier map, which the source
fills in place with masked assignments, is an `array2<int>`.

Files:

- `raster.dfy`: grid slicing, mask counting, mean, percentage, truncation.
- `sorting.dfy`: list-comprehension filters and a stable key sort.
- `rain.dfy`: the labels and their report order.
- `wrappers.dfy`: `Option`.
- `maximum.dfy`: the maximum scan.
- `rainfall_analysis.dfy`: the first pipeline.
- `rainfall_model_b.dfy`: the second pipeline.

Three properties of the code are worth stating plainly:

- The second pipeline drops a degenerate region; it does not report zeros for it.
- The second pipeline's coordinate maps are exact inverses in real
  arithmetic. Only the `int()` truncation loses precision.
- The tier percentages count disjoint brightness bands. They do not count
  the pixels "at or above" each threshold.

## Model

| member | source | states |
|---|---|---|
| `MaximumNumberList.MaxValue` | maximum_number_list.py:27-49 | For a non-empty list, the scan returns the list's maximum: an element of the list that is at least every element. The loop invariant is that after a prefix, `max_value` is the maximum of that prefix. The list is a value, so the scan cannot modify it. |
| `MaximumNumberList.MaxIsElement` | maximum_number_list.py:38-49 | The reference maximum is an element of the list. |
| `MaximumNumberList.MaxIsUpperBound` | maximum_number_list.py:38-49 | The reference maximum is at least every element. |
| `MaximumNumberList.ScanFrom` | maximum_number_list.py:38-49 | The loop from any seed ends at a value that is the seed or an element, at least the seed, and at least every element. |
| `MaximumNumberList.ScanFromIsMaxWithSeed` | maximum_number_list.py:38-49 | Running the loop from any seed ends with the larger of the seed and the true maximum. |
| `MaximumNumberList.FirstElementSeedIsCorrect` | maximum_number_list.py:21-27 | Seeding with the first element gives exactly the maximum. |
| `MaximumNumberList.ZeroSeedFailsOnNegatives` | maximum_number_list.py:21-27 | The old zero seed returns 0 on an all-negative list. That value is not in the list and is not its maximum. |
| `MaximumNumberList.IndexScanIgnoresElements` | maximum_number_list.py:33-36 | The earlier loop over `range(len(my_list))` compared indices: from any seed it ends at the larger of the seed and the last index, whatever the list holds. |
| `MaximumNumberList.IndexScanFailsOnSampleList` | maximum_number_list.py:44-45 | On the program's list the index-comparing loop reports 6 (from seed 0 or seed 3), which is not in the list, while the maximum is 34. |
| `MaximumNumberList.SampleList` | maximum_number_list.py:16 | The program's list `[3, 5, 19, 34, 12, 32, 12]` gives 34. |
| `MaximumNumberList.AllNegativeList` | maximum_number_list.py:21-27 | `[-5, -1, -9]` gives -1. |
| `Raster.Trunc` | rainfall_analysis_model_b.py:52 | `int()` of a float rounds toward zero: down for a non-negative value, up for a negative one. The result is within 1 of the value. |
| `Raster.Crop` | rainfall_analysis.py:64 | The slice `g[y1:y2, x1:x2]`, flattened row by row, has `(y2-y1)*(x2-x1)` cells, which is numpy's `size`. |
| `Raster.Count` | rainfall_analysis.py:69-71 | `np.sum(mask)` is at most the number of cells. |
| `Raster.CountPartition` | rainfall_analysis.py:69-71 | When exactly one of four masks selects each cell, their counts add up to the number of cells. |
| `Raster.CountDisjoint` | rainfall_analysis_model_b.py:61-62 | When two masks never select the same cell, their counts together are at most the number of cells. |
| `Raster.Percent` | rainfall_analysis.py:69-71 | `count / total * 100` is non-negative. It is at most 100 when `count <= total`. It is 0 exactly when the count is 0, and 100 exactly when the count is the total. |
| `Raster.PercentAdd` | rainfall_analysis.py:85 | Percentages of the same total add up like their counts. |
| `Raster.MeanScalesToSum` | rainfall_analysis_model_b.py:67 | `np.mean` times the number of values is their sum. |
| `Raster.MeanWithin` | rainfall_analysis_model_b.py:127 | The mean of values inside a range is inside that range. |
| `Sorting.Filter` | rainfall_analysis.py:120-121 | The list comprehension keeps only selected elements, and from the input's multiset. |
| `Sorting.FilterPermutation` | rainfall_analysis.py:120-121 | Filtering two permutations of one another gives permutations of one another. |
| `Sorting.SortBy` | rainfall_analysis.py:107 | The sorted list is a permutation of the input. |
| `Sorting.SortBySorted` | rainfall_analysis.py:107 | For a total preorder on keys, the sorted list is ordered by key. |
| `Sorting.SortByStable` | rainfall_analysis_model_b.py:221-222 | Stability: for any class of elements with equal keys, filtering the sorted list by that class gives the input's subsequence, in the input's order. |
| `Sorting.FilterSorted` | rainfall_analysis.py:120-121 | Filtering a sorted list leaves it sorted. |
| `Rain.Rank` | rainfall_analysis.py:106 | The report order maps each label to a rank in 0..3. |
| `RainfallAnalysis.DataRegion` | rainfall_analysis.py:23-24 | `gray[80:, :]`: the rows from row 80 down, in order; empty when the image has at most 80 rows. |
| `RainfallAnalysis.DataRegionIsGrid` | rainfall_analysis.py:24 | The data region below the header has the image's width. |
| `RainfallAnalysis.Tier` | rainfall_analysis.py:29-37 | Each pixel gets exactly one tier in 0..3: 3 iff `v >= 200`, 2 iff `160 <= v < 200`, 1 iff `120 <= v < 160`, otherwise 0. |
| `RainfallAnalysis.TierMonotone` | rainfall_analysis.py:34-37 | `v1 <= v2` implies `tier(v1) <= tier(v2)`. |
| `RainfallAnalysis.AssignWhere` | rainfall_analysis.py:35-37 | A masked assignment writes the tier exactly on the cells the mask selects and leaves every other cell unchanged. |
| `RainfallAnalysis.ClassifyCloud` | rainfall_analysis.py:34-37 | The zero-filled map, after the three masked assignments, has the data region's shape and holds `Tier` of every pixel. |
| `RainfallAnalysis.LatLonToPixel` | rainfall_analysis.py:53-57 | Every (lat, lon) maps into `[0, width-1] x [0, height-1]`, including points outside the declared extent. An in-range raw value is kept. A raw value below the range goes to 0 and one above goes to the last index. On a zero-width or zero-height grid the coordinate is 0. |
| `RainfallAnalysis.Clamp` | rainfall_analysis.py:57 | `max(0, min(n, hi))` is at least 0 and at most `hi` (if `hi >= 0`). It keeps an in-range value. It sends a negative value, or any value when `hi < 0`, to 0, and a value above `hi` to `hi`. |
| `RainfallAnalysis.RawColumn` | rainfall_analysis.py:55 | The unclamped column is 0 at the western edge (50 E) and `width` at the eastern edge (105 E). |
| `RainfallAnalysis.RawRow` | rainfall_analysis.py:56 | The unclamped row is 0 at the northern edge (45 N) and `height` at the southern edge (5 S). |
| `RainfallAnalysis.LatLonToPixelMonotone` | rainfall_analysis.py:55-56 | x is non-decreasing in lon, and y is non-increasing in lat. |
| `RainfallAnalysis.RawColumnMonotone` | rainfall_analysis.py:55 | The unclamped column is non-decreasing in lon. |
| `RainfallAnalysis.RawRowAntitone` | rainfall_analysis.py:56 | The unclamped row is non-increasing in lat. |
| `RainfallAnalysis.RegionWindow` | rainfall_analysis.py:61-62 | The slice runs from the region's north-west corner to its south-east corner. Its upper bounds are below `width`/`height`, so the slice never includes the last column or the last row. |
| `RainfallAnalysis.CoverOf` | rainfall_analysis.py:68-73 | For a non-empty slice, the three values are the shares of the `>= 200`, `[160, 200)` and `[120, 160)` masks, as percentages of the slice's size. Each is in [0, 100], they sum to at most 100, and with the clear share they sum to exactly 100. |
| `RainfallAnalysis.AnalyzeRegion` | rainfall_analysis.py:59-73 | An empty slice gives `(0, 0, 0)`. Otherwise the dense, medium and light values are the shares of the dense, medium and light masks over the slice, and with the clear share they sum to 100. Every value is in [0, 100], and the three sum to at most 100. |
| `RainfallAnalysis.UniformDenseRegion` | rainfall_analysis.py:59-73 | A region whose window is all dense cloud is 100% dense, 0% medium and 0% light. |
| `RainfallAnalysis.LikelihoodOf` | rainfall_analysis.py:85-95 | Exactly one label applies. HIGH iff `high > 30`. Otherwise MODERATE iff `high > 15` or `high+medium > 40`. Otherwise LOW iff `high+medium+low > 30`. Otherwise UNLIKELY. |
| `RainfallAnalysis.LikelihoodMonotone` | rainfall_analysis.py:88-95 | More cloud of any tier never lowers the label. |
| `RainfallAnalysis.Assess` | rainfall_analysis.py:84-103 | A result entry carries the region's name. Its percentages are in [0, 100] with a sum of at most 100. They are the dense, medium and light shares of the region's slice, or zeros with the label UNLIKELY for an empty slice. The label is HIGH iff dense > 30; otherwise MODERATE iff dense > 15 or dense+medium > 40; otherwise LOW iff the three sum to more than 30; otherwise UNLIKELY. |
| `RainfallAnalysis.AssessRegions` | rainfall_analysis.py:82-103 | The loop appends exactly one entry per declared region, in declaration order. |
| `RainfallAnalysis.ReportLeIsTotalPreorder` | rainfall_analysis.py:107 | The key `(rank, -high)`, compared as a tuple, is a total preorder. |
| `RainfallAnalysis.SortResults` | rainfall_analysis.py:107 | `results.sort(...)` keeps the length and the entries: the sorted list is a permutation. |
| `RainfallAnalysis.SortResultsSpec` | rainfall_analysis.py:105-107 | The sorted results are a permutation of the results. They are ordered by rank ascending, then by `high` descending, and entries with equal keys keep their order. |
| `RainfallAnalysis.LabelSummarySpec` | rainfall_analysis.py:120-121 | `high_rain` / `moderate_rain` hold exactly the entries with that label, and they are in the sorted order (highest dense share first). |
| `RainfallAnalysis.AnalyzeSatelliteImage` | rainfall_analysis.py:18-166 | The whole function gives the tier map with the data region's shape. It gives 10 results: the sorted assessments of the declared regions. It also gives the HIGH and MODERATE filters of the sorted results. |
| `RainfallModelB.DefineGeographicBounds` | rainfall_analysis_model_b.py:23-40 | The header is 80 rows, and the extent is 50..105 E by -5..45 N. `pixels_per_degree_lon * 55 = cols` and `pixels_per_degree_lat * 50 = rows - 80`. Each scale is positive exactly when the image has columns, or rows below the header. |
| `RainfallModelB.PixelToCoords` | rainfall_analysis_model_b.py:42-46 | The inverse map is undefined exactly when a scale is zero, where Python raises ZeroDivisionError. |
| `RainfallModelB.CoordsToPoint` | rainfall_analysis_model_b.py:48-51 | Before `int()`, the western edge of the extent is column 0 and the northern edge is the first row below the header. |
| `RainfallModelB.CoordsToPixelTruncates` | rainfall_analysis_model_b.py:48-52 | `coords_to_pixel` moves the exact point toward zero by less than one pixel in each coordinate. |
| `RainfallModelB.CoordsRoundTrip` | rainfall_analysis_model_b.py:42-52 | With nonzero scales, mapping geo -> pixel before `int()` and then pixel -> geo returns the original (lat, lon). |
| `RainfallModelB.PixelRoundTrip` | rainfall_analysis_model_b.py:42-52 | With nonzero scales, mapping pixel -> geo and then geo -> pixel before `int()` returns the original (x, y). |
| `RainfallModelB.CoordsToPixelMonotone` | rainfall_analysis_model_b.py:48-52 | With non-negative scales, `coords_to_pixel` is non-decreasing in lon and non-increasing in lat. |
| `RainfallModelB.BoundsCalibration` | rainfall_analysis_model_b.py:23-52 | For any image, `(45, 50)` maps to `(0, 80)` and `(-5, 105)` maps to `(cols, rows)`. |
| `RainfallModelB.BelowHeader` | rainfall_analysis_model_b.py:59 | `gray[header:, :]` holds exactly the rows from the header down. |
| `RainfallModelB.Mask` | rainfall_analysis_model_b.py:61-62 | A mask has its grid's shape and holds the predicate at every cell. |
| `RainfallModelB.AnalyzeCloudCover` | rainfall_analysis_model_b.py:54-72 | The high mask is `> threshold_high` and the medium mask is `threshold_medium < v <= threshold_high`. The masks are disjoint and cover only the rows from the header down. The statistics are NaN (None) exactly for an empty data region. Otherwise both percentages are the shares of their thresholds among the cells below the header, and the mean is those cells' mean. Each percentage is in [0, 100], and their sum is at most 100. |
| `RainfallModelB.CloudCoverIgnoresHeader` | rainfall_analysis_model_b.py:59 | Changing the header band does not change the statistics. |
| `RainfallModelB.ClampedBox` | rainfall_analysis_model_b.py:116-120 | The clamped crop lies in `[0, cols] x [header, rows]` and comes from the region's two corners. |
| `RainfallModelB.LikelihoodOf` | rainfall_analysis_model_b.py:129-136 | Exactly one label applies. HIGH iff `high > 30`. Otherwise MODERATE iff `high > 15` or `high+medium > 40`. Otherwise LOW iff `high > 5` or `medium > 20`. Otherwise UNLIKELY. |
| `RainfallModelB.LikelihoodMonotone` | rainfall_analysis_model_b.py:129-136 | More dense or medium cloud never lowers the label. |
| `RainfallModelB.AssessRegion` | rainfall_analysis_model_b.py:113-146 | A region yields an entry exactly when its clamped crop is non-empty. The entry carries the region's name, description and clamped box, with `0 <= x1 < x2 <= cols` and `header <= y1 < y2 <= rows`. Its percentages are in [0, 100] with a sum of at most 100, and its label is the table's. |
| `RainfallModelB.AssessRegionMeasures` | rainfall_analysis_model_b.py:122-127 | An entry's percentages are the shares of `> 180` and of `140 < v <= 180` among the pixels of its own box, and its mean brightness is those pixels' mean. |
| `RainfallModelB.UniformDenseRegion` | rainfall_analysis_model_b.py:122-136 | A crop that is all brighter than 180 gives 100% dense, 0% medium and the label HIGH. |
| `RainfallModelB.ClearRegionIsUnlikely` | rainfall_analysis_model_b.py:122-136 | A crop with no pixel above 140 gives 0% dense, 0% medium and the label UNLIKELY. |
| `RainfallModelB.RegionMeanWithin` | rainfall_analysis_model_b.py:127 | An entry's mean brightness lies within any range that holds every pixel of the image (0..255 for an 8-bit image). |
| `RainfallModelB.RainRegions` | rainfall_analysis_model_b.py:110-148 | The results have at most one entry per declared region. |
| `RainfallModelB.RainRegionsSpec` | rainfall_analysis_model_b.py:110-148 | Each entry comes from its own declared region, in strictly increasing declaration order. A region is missing exactly when its crop is degenerate. |
| `RainfallModelB.RainRegionsStep` | rainfall_analysis_model_b.py:122-146 | One more region adds its entry at the end, or adds nothing. |
| `RainfallModelB.RainRegionsInImage` | rainfall_analysis_model_b.py:116-123 | Every reported box lies inside the image and below the header. |
| `RainfallModelB.RegionEntry` | rainfall_analysis_model_b.py:113-146 | The loop body for one region (corners, clamping, and for a non-empty crop the statistics and the `if`/`elif` label chain) computes exactly that region's entry, or none. |
| `RainfallModelB.IdentifyRainRegions` | rainfall_analysis_model_b.py:74-148 | The loop builds exactly the specified results. Every emitted box satisfies `0 <= x1 < x2 <= cols` and `header <= y1 < y2 <= rows`. |
| `RainfallModelB.AtMostOneEntryPerRegion` | rainfall_analysis_model_b.py:77-108 | With the six declared regions there are at most six results. |
| `RainfallModelB.RankLeIsTotalPreorder` | rainfall_analysis_model_b.py:221-222 | Sorting by rank alone is a total preorder. |
| `RainfallModelB.Names` | rainfall_analysis_model_b.py:234-235 | `[r['region'] for r in ...]` keeps one name per entry, in order. |
| `RainfallModelB.Summarize` | rainfall_analysis_model_b.py:221-247 | The report's sorted list has one entry per result; its full contract is `SummarizeSpec`. |
| `RainfallModelB.SummarizeSpec` | rainfall_analysis_model_b.py:221-247 | `sorted_results` is a permutation of the results, ordered by rank and stable within a rank. `high_rain`, `moderate_rain` and `dry_regions` are exactly the names of the HIGH, MODERATE and UNLIKELY results, in reporting order. |
| `RainfallModelB.AnalyzeImage` | rainfall_analysis_model_b.py:253-269 | `main`: the bounds come from the image's shape, and the statistics use the default thresholds 180 and 140. There are at most six regional results. The report is the summary of those results: a rank-ordered permutation whose three lists are the label filters of the results. |

## Left out

- Image loading, `np.array` and the RGB -> grayscale channel mean (lines 9-16 of the first script, `load_and_preprocess` in the second): the model takes the grayscale grid as an input.
- The matplotlib renderings (`create_visualization`, the color map, legends, `savefig`): output only.
- All `print` output and its formatting (`:.1f`, column widths), including the overall statistics block of `print_report`: presentation only.
- IEEE floating point: percentages, scales, the mean and the pixel coordinates before `int()` are exact rationals, so the model does not claim bit-exact agreement with the floats close to a threshold or to an integer. In doubles, `(105 - 50) * (cols / 55)` can fall just below `cols` (for example for 7, 14 or 15 columns), so `int()` gives `cols - 1`. `RainfallModelB.BoundsCalibration` therefore holds in exact arithmetic only.
- The `__main__` entry points and the image file names: the region tables are constants and the image is a parameter.
- `RainfallAnalysis.AnalyzeSatelliteImage`: `results.sort` mutates the list in place. The model reassigns the `seq` variable with the stable sort of its old value, so aliasing of the list is not modelled.
- `MaximumNumberList.MaxValue`: on an empty list `my_list[0]` raises IndexError; the model requires a non-empty list instead of modelling the exception.
- `MaximumNumberList.MaxValue`: the list holds integers. A list of floats, which the script's comment allows, is not modelled.
- `RainfallModelB.PixelToCoords`: arguments are reals. The script never calls it, so their Python type is not fixed.
