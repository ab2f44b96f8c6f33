# Mineral-hotspot analysis: the backend decision layer in Dafny

This project models the decision layer of the mineral-hotspot analysis
service. Given the four Sentinel-2 bands of an area of interest (red, NIR,
SWIR1, SWIR2), the service works in these steps:

1. It computes four clipped mineral indices: iron oxide, clay, silica and
   K-feldspar (`backend/mineral_indices.py`).
2. It combines them into copper and gold potential scores in percent.
3. It thresholds the scores into hotspot masks at 65
   (`backend/hotspot_detector.py`).
4. It summarises the result as a geological analysis with tiered
   assessments, mineral signature statuses and fixed recommendations
   (`backend/analysis.py`).
5. It picks at most 50 hotspots per mineral, highest score first, and
   assembles the response: copper hotspots before gold ones, and heatmap
   bounds equal to the request's bounds (`routes/analyze.py`).

The helper that crops a raster to a geographic window is modelled as well.

Modules:

- `Reals` (`reals.dfy`): `Option`, `Clip` (numpy's `clip`), and the maximum,
  sum and mean of a non-empty array, with the bounds relating them.
- `MineralIndices` (`mineral_indices.dfy`): the band guard, the four indices
  and their ranges and signs.
- `HotspotDetector` (`hotspot_detector.dfy`): the
  two potentials, their bounds and monotonicity, the masks and
  `detect_hotspots`.
- `Analysis` (`analysis.dfy`): the assessment ladders, the signature
  statuses and `generate_geological_analysis`.
- `TopK` (`top_k.dfy`): `np.argsort(scores)[-k:][::-1]` as a selection
  function. It is proved ordered, free of repeats, and dominating every
  candidate left out.
- `AnalyzeRoute` (`analyze_route.dfy`): covers these parts of
  `routes/analyze.py`:
  - `np.where` over a mask;
  - `extract_hotspots_from_mask`, as a method with its loop;
  - `crop_array_to_bounds`, both as written and corrected;
  - the `analyze_aoi` pipeline, from the loaded bands to the response.

Modelling conventions:

- numpy arrays are flat, row-major sequences of reals. A raster `width`
  pixels wide maps flat index `p` to row `p / width` and column
  `p % width`.
- The crop works on a `seq<seq<real>>`, because it slices rows and columns
  separately.
- Floats are mathematical reals, so there is no NaN, infinity or rounding.
- Both affine transforms are function parameters:
  - `pixelToLatLon`, for `rasterio.transform.xy`;
  - `rowcol`, for `rasterio.transform.rowcol`. It returns `None` where the
    call raises.
  `NorthUp` gives one concrete north-up transform, for the findings below.
- `None` stands for a raised exception:
  - `GenerateGeologicalAnalysis` is `None` on an empty array, where
    `np.nanmax` raises.
  - `AnalyzeAoi` is `None` exactly when the raster has no pixels.
- Depth ranges are integers, as the route's tuples `(250, 750)` and
  `(100, 300)` are (routes/analyze.py:406, 416).

## Model

| member | source | states |
|---|---|---|
| Reals.Clip | backend/hotspot_detector.py:36 | the result lies in [lo, hi]; it is the input when the input is inside, lo below and hi above |
| Reals.ClipMonotone | backend/hotspot_detector.py:36 | clipping preserves order |
| Reals.Max | backend/analysis.py:33 | `nanmax` of a non-empty array: an element of the array that no element exceeds |
| Reals.Mean | backend/analysis.py:34 | `nanmean` of a non-empty array: the mean times the length is the sum |
| Reals.MeanAtMostMax | backend/analysis.py:33-36 | the mean of a non-empty array is at most its maximum |
| Reals.MeanWithin | backend/analysis.py:33-36 | the mean of an array whose elements lie in [lo, hi] lies in [lo, hi] |
| MineralIndices.GuardReading | backend/mineral_indices.py:34-37 | a guarded reading is strictly positive: 0.0001 for a non-positive reading, the reading itself otherwise |
| MineralIndices.GuardBand | backend/mineral_indices.py:34-37 | the guard over a band keeps its length and applies the reading guard element by element |
| MineralIndices.IronOxideValue | backend/mineral_indices.py:40-41 | the iron-oxide index lies in [-1, 1] |
| MineralIndices.IronOxideSign | backend/mineral_indices.py:40-41 | the iron-oxide index is positive iff SWIR1 > NIR and zero iff they are equal; the clip never acts, because the normalised difference lies strictly inside (-1, 1) |
| MineralIndices.ClayValue | backend/mineral_indices.py:45-46 | the clay index lies in [0, 2] |
| MineralIndices.SilicaValue | backend/mineral_indices.py:50-51 | the silica index lies in [0, 2] |
| MineralIndices.KfeldsparValue | backend/mineral_indices.py:55-56 | the K-feldspar index lies in [0, 3] |
| MineralIndices.ClaySilicaReciprocal | backend/mineral_indices.py:45-51 | where neither ratio is clipped, clay × silica = 1 |
| MineralIndices.CalculateMineralIndices | backend/mineral_indices.py:7-64 | the four indices have the bands' length and lie in their ranges; iron oxide is positive iff the guarded SWIR1 exceeds the guarded NIR; each element is the index of the guarded readings at that pixel |
| HotspotDetector.CopperWeighted | backend/hotspot_detector.py:29-34 | the copper weights sum to one: on indices inside their ranges the weighted sum lies in [0, 1] |
| HotspotDetector.GoldWeighted | backend/hotspot_detector.py:59-64 | on indices inside their ranges, with silica at most its scale 1.183, the gold weighted sum lies in [0, 1] |
| HotspotDetector.CopperValue | backend/hotspot_detector.py:29-36 | the copper score of a pixel lies in [0, 100] |
| HotspotDetector.GoldValue | backend/hotspot_detector.py:59-66 | the gold score of a pixel lies in [0, 100] |
| HotspotDetector.CopperPotential | backend/hotspot_detector.py:8-36 | the copper score array has the input length, lies in [0, 100] and is the per-pixel score element by element |
| HotspotDetector.GoldPotential | backend/hotspot_detector.py:38-66 | the gold score array has the input length, lies in [0, 100] and is the per-pixel score element by element |
| HotspotDetector.CopperExactOnIndexRanges | backend/hotspot_detector.py:29-36 | on indices inside their documented ranges the weighted sum lies in [0, 1], so the clip never acts and the score is 100 × the weighted sum |
| HotspotDetector.CopperMonotone | backend/hotspot_detector.py:29-36 | the copper score never decreases when any of its inputs grows |
| HotspotDetector.GoldMonotone | backend/hotspot_detector.py:59-66 | the gold score is non-increasing in K-feldspar and non-decreasing in silica, clay and iron oxide |
| HotspotDetector.Mask | backend/hotspot_detector.py:87 | `mask[i]` holds iff `score[i] >= threshold` |
| HotspotDetector.DetectHotspots | backend/hotspot_detector.py:68-101 | both masks follow the threshold rule; the score arrays come back unchanged; the cluster counts are the labeller's counts of the masks at the raster's width |
| Analysis.CopperAssessment | backend/analysis.py:42 | HIGH iff peak > 85; MODERATE iff 70 < peak <= 85; LOW iff peak <= 70 |
| Analysis.GoldAssessment | backend/analysis.py:50 | HIGH iff peak > 80; MODERATE-HIGH iff 65 < peak <= 80; MODERATE iff peak <= 65 |
| Analysis.LabelsDistinct | backend/analysis.py:42-50 | distinct tiers have distinct labels |
| Analysis.CopperAssessmentMonotone | backend/analysis.py:42 | raising the copper peak never lowers the tier |
| Analysis.GoldAssessmentMonotone | backend/analysis.py:50 | raising the gold peak never lowers the tier |
| Analysis.SignatureStatus | backend/analysis.py:59-77 | STRONG iff the index maximum exceeds its threshold |
| Analysis.SummariseIndex | backend/analysis.py:55-80 | a mineral summary's max is the array's maximum; its mean is the array's mean, at most that max; its status is STRONG iff max > threshold; its interpretation is the fixed text |
| Analysis.GenerateGeologicalAnalysis | backend/analysis.py:7-107 | `None` iff some array is empty. Otherwise: copper/gold max is the array maximum, mean is the array mean and mean <= max; each mineral summary is `SummariseIndex` of its index with its threshold and note; assessments follow the ladders; depth fields are "250-750" and "100-300"; each status is STRONG iff the index max exceeds 2.5, 1.8, 0.6 or 1.0 respectively; action is "PROCEED WITH DRILLING" |
| Analysis.StatisticsArePercentages | backend/analysis.py:33-36 | with scores in [0, 100], 0 <= mean <= max <= 100 for copper and for gold |
| TopK.BestPosition | routes/analyze.py:145 | the position of a candidate that no other candidate outscores |
| TopK.Without | routes/analyze.py:145 | removing one position removes that candidate and keeps every other one |
| TopK.Top | routes/analyze.py:144-145 | the selection has min(k, \|candidates\|) entries, all of them candidates |
| TopK.TopNonIncreasing | routes/analyze.py:145 | the selection is ordered highest score first |
| TopK.TopDistinct | routes/analyze.py:144-145 | distinct candidates give a selection without repeats |
| TopK.TopDominates | routes/analyze.py:144-145 | no candidate left out scores above any selected one |
| AnalyzeRoute.MaskedFrom | routes/analyze.py:139 | every masked pixel from `start` on, each exactly once, in increasing order |
| AnalyzeRoute.MaskedPixels | routes/analyze.py:139 | `np.where(mask)`: exactly the masked pixels, each once, in row-major order |
| AnalyzeRoute.HotspotAt | routes/analyze.py:147-162 | the hotspot of flat pixel p: the given mineral and depth range, the score at p as confidence, and the transform of the row and column that p is in (row × width + col = p) as location |
| AnalyzeRoute.SelectedPixels | routes/analyze.py:143-145 | every selected pixel indexes the score array |
| AnalyzeRoute.Stamp | routes/analyze.py:147-163 | one hotspot per pixel, in the same order |
| AnalyzeRoute.SelectedPixelsSpec | routes/analyze.py:139-145 | min(50, #masked) pixels; all masked; all distinct; highest score first; no masked pixel left out scores above a selected one; none for an all-false mask |
| AnalyzeRoute.ExtractedHotspotsSpec | routes/analyze.py:136-165 | at most 50 hotspots. Each carries the mineral name and depth range, the score of its own pixel as confidence, and the transform of its row and column as location. Confidences never increase; unselected masked pixels score no higher; an all-false mask gives none |
| AnalyzeRoute.ExtractHotspotsFromMask | routes/analyze.py:113-165 | the method returns exactly the hotspots of the selected pixels, at most 50 |
| AnalyzeRoute.AppendHotspots | routes/analyze.py:147-163 | the loop appends one hotspot per pixel, in order, to the list it is given |
| AnalyzeRoute.ExtractedHotspotsWithin | routes/analyze.py:143-162 | with a `score >= threshold` mask over scores in [0, 100], every hotspot has confidence in [threshold, 100], the given mineral and depth range |
| AnalyzeRoute.CopperThenGold | routes/analyze.py:398-418 | copper hotspots (250-750) followed by gold hotspots (100-300) form a valid response list: no copper hotspot after a gold one |
| AnalyzeRoute.SliceBound | routes/analyze.py:257 | Python's slice-bound normalisation: a bound in range is kept; a negative one counts from the end; the result is clamped to [0, n] |
| AnalyzeRoute.PySlice | routes/analyze.py:257 | Python slicing: equals the Dafny slice for in-range bounds; its length is the difference of the normalised bounds, or 0 |
| AnalyzeRoute.ClampAsWritten | routes/analyze.py:251-254 | after clamping, 0 <= row_min, 0 <= col_min, row_max <= rows, col_max <= cols, and each index changes only when it was out of range |
| AnalyzeRoute.CropAsWritten | routes/analyze.py:222-264 | the crop as written never has more rows than the raster, and is the raster itself when the transform raises |
| AnalyzeRoute.CropAsWrittenKeepsRowsOutsideWindow | routes/analyze.py:251-257 | for a window whose stop row is negative, the window holds no row, yet the code keeps \|grid\| + stop rows |
| AnalyzeRoute.CropAsWrittenCounterexample | routes/analyze.py:247-257 | a 10 x 10 north-up raster and a window wholly north-west of it: the intended crop is empty, yet a 5 x 7 block of raster cells is kept |
| AnalyzeRoute.NorthUp | routes/analyze.py:247-248 | a north-up inverse transform maps a coordinate to the pixel containing it |
| AnalyzeRoute.CropAsWrittenSwapsColumns | routes/analyze.py:247-248 | under a north-up transform, a 6 x 6 window inside a 10 x 10 raster comes back as six empty rows |
| AnalyzeRoute.Intersect | routes/analyze.py:251-254 | the clamped interval holds exactly the indices in both [0, n) and [lo, hi) |
| AnalyzeRoute.CropWindow | routes/analyze.py:222-264 | the intended crop: exactly the cells whose row and column lie in the window, in place |
| AnalyzeRoute.CropAsWrittenAgrees | routes/analyze.py:247-257 | when the stop row and column are not negative, the code as written crops exactly the window of its corners |
| AnalyzeRoute.CropArrayToBounds | routes/analyze.py:222-264 | corrected crop: the raster unchanged when the transform raises; otherwise exactly the window from the pixel of (lon_min, lat_max) to that of (lon_max, lat_min) |
| AnalyzeRoute.CropArrayToBoundsKeepsWindow | routes/analyze.py:247-257 | on the counterexample's raster, the corrected corners span a 6 x 6 crop |
| AnalyzeRoute.CollectHotspots | routes/analyze.py:395-418 | the response's hotspot list is the copper hotspots followed by the gold hotspots: at most 100, each in [65, 100] with its mineral's depth range, no copper after gold |
| AnalyzeRoute.ScoreRaster | routes/analyze.py:334-361 | the indices and potentials of the bands: in range, of the raster's length, scores in [0, 100] |
| AnalyzeRoute.BuildResponse | routes/analyze.py:363-433 | `None` iff there are no pixels. Otherwise: status "success"; the analysis's summaries and recommendations; the rendered heatmaps; heatmap bounds equal to the request's bounds; hotspots as extracted from the masks at 65, copper before gold |
| AnalyzeRoute.AnalyzeAoi | routes/analyze.py:334-436 | `None` iff the raster is empty. Otherwise: "success"; heatmap bounds equal to the request's bounds; at most 100 hotspots, copper (250-750) before gold (100-300), all in [65, 100]; assessments follow the ladders; 0 <= mean <= max <= 100; action "PROCEED WITH DRILLING"; summaries, recommendations and heatmaps are those of the potentials computed from the bands; hotspots are those extracted from those potentials' masks at 65 |

## Left out

- Raster I/O (`rasterio.open`, band reads, routes/analyze.py:312-332): the bands come in as a `Raster` value.
- Lithology (`backend/lithology.py`): its `nanmax` normalisation has no zero guard, so it depends on IEEE infinities and NaN. Its granite index is an input of `AnalyzeAoi`.
- `rasterio.transform.xy` and `rasterio.transform.rowcol` are foreign affine transforms. They are the parameters `pixelToLatLon` and `rowcol`; `NorthUp` is one concrete instance.
- `array_to_heatmap_image` (matplotlib rendering, PNG, base64) is the parameter `renderHeatmap`.
- `scipy.ndimage.label` cluster counting is the parameter `countClusters`.
- FastAPI routing, the mapping of exceptions to HTTP 400/500, the health endpoints, `main.py`, `config.py` and `format_analysis_report`: web plumbing and display formatting.
- AnalyzeRoute.ExtractHotspotsFromMask: does not model `round(confidence, 2)` or `round(lat/lon, 6)`. Confidences are the exact scores.
- MineralIndices.CalculateMineralIndices: does not model the `float32` casts or `nan_to_num`. Over reals with guarded denominators no NaN arises.
- Analysis.GenerateGeologicalAnalysis: NaN-skipping by `nanmax`/`nanmean` is not modelled, because reals have no NaN. An empty array gives `None`.
- TopK.Top: `argsort` is not stable. Among equal scores the model takes the first best candidate, and no property proved depends on that choice.
- AnalyzeRoute.AnalyzeAoi: numpy broadcasting is not modelled; the four bands and the granite index must have equal lengths.
- AnalyzeRoute.CropArrayToBounds: no call site in the route uses the crop, so the corrected crop does not feed the analysis pipeline.

## Findings

| source | as written | input that shows it | evidently intended | confidence | as-written member | corrected member |
|---|---|---|---|---|---|---|
| routes/analyze.py:253-257 | `row_max` and `col_max` are clamped only from above, then used as Python slice stops, so a negative stop counts from the end of the raster | north-up 10 x 10 raster with its top-left corner at (0, 10), window lat 15-20, lon -3 to -2: the stops are row -5 and column -3, so `array[0:-5, 0:-3]` keeps a 5 x 7 block of cells | a window off the raster crops to nothing | not executed | AnalyzeRoute.CropAsWrittenCounterexample | AnalyzeRoute.CropArrayToBounds |
| routes/analyze.py:247-248 | the start corner is the pixel of (lon_max, lat_max) and the stop corner that of (lon_min, lat_min), so under a north-up transform `col_min` is the window's east column and `col_max` its west column | north-up 10 x 10 raster, window lat 2-8, lon 2-8: columns 8 to 2 are sliced, so six empty rows come back | the window from the pixel of (lon_min, lat_max) to that of (lon_max, lat_min): a 6 x 6 crop | not executed | AnalyzeRoute.CropAsWrittenSwapsColumns | AnalyzeRoute.CropArrayToBoundsKeepsWindow |
