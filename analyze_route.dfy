/**
 * The decision layer of the analysis route (routes/analyze.py): picking the
 * hotspots out of a mask, cropping a raster to a window, and assembling the
 * analysis response from the backend stages.
 *
 * Rasters are flat, row-major arrays of `width` columns: flat index `p` is
 * the pixel at row `p / width`, column `p % width`. The affine transforms
 * of the raster are parameters: `pixelToLatLon` (pixel to geographic
 * coordinates) and `rowcol` (geographic coordinates to pixel, `None` when it
 * raises).
 */
module AnalyzeRoute {
  import opened Reals
  import opened MineralIndices
  import opened HotspotDetector
  import opened Analysis
  import opened TopK

  /** At most this many hotspots are reported per mineral. */
  const MaxHotspots: nat := 50

  /** The threshold the route hands to `detect_hotspots`: 65, the detector's default. */
  const RouteThreshold: real := DefaultThreshold

  datatype LatLon = LatLon(lat: real, lon: real)

  datatype Hotspot = Hotspot(
    mineral: string, confidence: real, lat: real, lon: real, depthMin: int, depthMax: int)

  datatype Bounds = Bounds(latMin: real, latMax: real, lonMin: real, lonMax: real)

  datatype AoiRequest = AoiRequest(
    latMin: real, latMax: real, lonMin: real, lonMax: real, satelliteDataPath: string)

  /** The four bands read from the satellite raster, each `width` pixels wide. */
  datatype Raster = Raster(red: seq<real>, nir: seq<real>, swir1: seq<real>, swir2: seq<real>, width: nat)

  datatype AnalysisResponse = AnalysisResponse(
    status: string,
    hotspots: seq<Hotspot>,
    copperPotential: CopperSummary,
    goldPotential: GoldSummary,
    minerals: Minerals,
    recommendations: Recommendations,
    copperHeatmap: string,
    goldHeatmap: string,
    heatmapBounds: Bounds)

  // ---------------------------------------------------------------------
  // Hotspot extraction
  // ---------------------------------------------------------------------

  /** Row of flat pixel `p` in a raster `width` pixels wide. */
  function RowOf(p: nat, width: nat): nat
    requires width > 0
  {
    p / width
  }

  /** Column of flat pixel `p` in a raster `width` pixels wide. */
  function ColOf(p: nat, width: nat): (c: nat)
    requires width > 0
    ensures c < width
  {
    p % width
  }

  /** `np.where(mask)` from flat index `start` on: the masked pixels in row-major order. */
  function MaskedFrom(mask: seq<bool>, start: nat): (r: seq<nat>)
    requires start <= |mask|
    ensures forall i :: 0 <= i < |r| ==> start <= r[i] < |mask| && mask[r[i]]
    ensures forall x :: x in r ==> start <= x < |mask| && mask[x]
    ensures forall p :: start <= p < |mask| && mask[p] ==> p in r
    ensures forall i, j :: 0 <= i < j < |r| ==> r[i] < r[j]
    decreases |mask| - start
  {
    if start == |mask| then []
    else if mask[start] then [start] + MaskedFrom(mask, start + 1)
    else MaskedFrom(mask, start + 1)
  }

  /** `np.where(mask)`: every masked pixel exactly once, in row-major order. */
  function MaskedPixels(mask: seq<bool>): (r: seq<nat>)
    ensures forall i :: 0 <= i < |r| ==> r[i] < |mask| && mask[r[i]]
    ensures forall x :: x in r ==> x < |mask| && mask[x]
    ensures forall p :: 0 <= p < |mask| && mask[p] ==> p in r
    ensures forall i, j :: 0 <= i < j < |r| ==> r[i] < r[j]
  {
    MaskedFrom(mask, 0)
  }

  /** The hotspot reported for flat pixel `p`. */
  function HotspotAt(p: nat, score: seq<real>, width: nat, pixelToLatLon: (nat, nat) -> LatLon,
                     mineral: string, depthRange: (int, int)): (h: Hotspot)
    requires p < |score| && width > 0
    ensures h.mineral == mineral && h.confidence == score[p]
    ensures h.depthMin == depthRange.0 && h.depthMax == depthRange.1
    ensures var row, col := RowOf(p, width), ColOf(p, width);
            && row * width + col == p && col < width
            && LatLon(h.lat, h.lon) == pixelToLatLon(row, col)
  {
    var location := pixelToLatLon(RowOf(p, width), ColOf(p, width));
    Hotspot(mineral, score[p], location.lat, location.lon, depthRange.0, depthRange.1)
  }

  /** The pixels reported for a mask: `np.argsort(scores)[-50:][::-1]` over `np.where(mask)`. */
  function SelectedPixels(mask: seq<bool>, score: seq<real>): (r: seq<nat>)
    requires |mask| == |score|
    ensures InScores(r, score)
  {
    Top(MaskedPixels(mask), score, MaxHotspots)
  }

  /** One hotspot per pixel, in the same order. */
  function Stamp(pixels: seq<nat>, score: seq<real>, width: nat, pixelToLatLon: (nat, nat) -> LatLon,
                 mineral: string, depthRange: (int, int)): (r: seq<Hotspot>)
    requires InScores(pixels, score) && width > 0
    ensures |r| == |pixels|
    ensures forall i :: 0 <= i < |r| ==> r[i] == HotspotAt(pixels[i], score, width, pixelToLatLon, mineral, depthRange)
  {
    seq(|pixels|, i requires 0 <= i < |pixels| => HotspotAt(pixels[i], score, width, pixelToLatLon, mineral, depthRange))
  }

  /**
   * The selected pixels: at most 50 of them (all the masked pixels when
   * there are fewer), each a distinct masked pixel, highest score first, and
   * no masked pixel left out scoring above any selected one. An all-false
   * mask selects none.
   */
  lemma SelectedPixelsSpec(mask: seq<bool>, score: seq<real>)
    requires |mask| == |score|
    ensures var pixels := SelectedPixels(mask, score);
            var n := |MaskedPixels(mask)|;
            && |pixels| == (if n < MaxHotspots then n else MaxHotspots)
            && (forall i :: 0 <= i < |pixels| ==> pixels[i] < |mask| && mask[pixels[i]])
            && (forall i, j :: 0 <= i < j < |pixels| ==> pixels[i] != pixels[j])
            && (forall i, j :: 0 <= i < j < |pixels| ==> score[pixels[i]] >= score[pixels[j]])
            && (forall p, i :: 0 <= p < |mask| && mask[p] && p !in pixels && 0 <= i < |pixels| ==>
                  score[p] <= score[pixels[i]])
            && ((forall p :: 0 <= p < |mask| ==> !mask[p]) ==> pixels == [])
  {
    var masked := MaskedPixels(mask);
    var pixels := SelectedPixels(mask, score);
    TopNonIncreasing(masked, score, MaxHotspots);
    TopDistinct(masked, score, MaxHotspots);
    forall p, i | 0 <= p < |mask| && mask[p] && p !in pixels && 0 <= i < |pixels|
      ensures score[p] <= score[pixels[i]]
    {
      TopDominates(masked, score, MaxHotspots, p);
      assert pixels[i] in pixels;
    }
    if forall p :: 0 <= p < |mask| ==> !mask[p] {
      assert masked == [];
    }
  }

  /**
   * What the hotspots extracted from a mask promise: one per selected pixel,
   * in the same order, each with that pixel's score as its confidence, its
   * location from the transform, and the given mineral name and depth range.
   */
  lemma ExtractedHotspotsSpec(mask: seq<bool>, score: seq<real>, width: nat,
                              pixelToLatLon: (nat, nat) -> LatLon,
                              mineral: string, depthRange: (int, int))
    requires |mask| == |score| && width > 0
    ensures var pixels := SelectedPixels(mask, score);
            var hotspots := Stamp(pixels, score, width, pixelToLatLon, mineral, depthRange);
            && |hotspots| == |pixels| <= MaxHotspots
            && (forall i :: 0 <= i < |hotspots| ==>
                  && hotspots[i].mineral == mineral
                  && hotspots[i].confidence == score[pixels[i]]
                  && LatLon(hotspots[i].lat, hotspots[i].lon) ==
                       pixelToLatLon(RowOf(pixels[i], width), ColOf(pixels[i], width))
                  && hotspots[i].depthMin == depthRange.0
                  && hotspots[i].depthMax == depthRange.1)
            && (forall i, j :: 0 <= i < j < |hotspots| ==> hotspots[i].confidence >= hotspots[j].confidence)
            && (forall p, i :: 0 <= p < |mask| && mask[p] && p !in pixels && 0 <= i < |hotspots| ==>
                  score[p] <= hotspots[i].confidence)
            && ((forall p :: 0 <= p < |mask| ==> !mask[p]) ==> hotspots == [])
  {
    SelectedPixelsSpec(mask, score);
  }

  /**
   * `extract_hotspots_from_mask`: no hotspots for an all-false mask,
   * otherwise one per selected pixel, highest score first.
   */
  method ExtractHotspotsFromMask(mask: seq<bool>, score: seq<real>, width: nat,
                                 pixelToLatLon: (nat, nat) -> LatLon,
                                 mineral: string, depthRange: (int, int))
    returns (hotspots: seq<Hotspot>)
    requires |mask| == |score| && width > 0
    ensures hotspots == Stamp(SelectedPixels(mask, score), score, width, pixelToLatLon, mineral, depthRange)
    ensures |hotspots| <= MaxHotspots
  {
    hotspots := [];
    var masked := MaskedPixels(mask);
    if |masked| > 0 {
      var top := Top(masked, score, MaxHotspots);
      hotspots := AppendHotspots(hotspots, top, score, width, pixelToLatLon, mineral, depthRange);
    }
  }

  /** The loop of `extract_hotspots_from_mask`: append the hotspot of each pixel of `top`, in order. */
  method AppendHotspots(hotspots: seq<Hotspot>, top: seq<nat>, score: seq<real>, width: nat,
                        pixelToLatLon: (nat, nat) -> LatLon,
                        mineral: string, depthRange: (int, int))
    returns (extended: seq<Hotspot>)
    requires InScores(top, score) && width > 0
    ensures extended == hotspots + Stamp(top, score, width, pixelToLatLon, mineral, depthRange)
  {
    extended := hotspots;
    for j := 0 to |top|
      invariant extended == hotspots + Stamp(top[..j], score, width, pixelToLatLon, mineral, depthRange)
    {
      var p := top[j];
      var confidence := score[p];
      var location := pixelToLatLon(RowOf(p, width), ColOf(p, width));
      extended := extended + [Hotspot(mineral, confidence, location.lat, location.lon, depthRange.0, depthRange.1)];
      assert top[..j + 1] == top[..j] + [p];
    }
    assert top[..|top|] == top;
  }

  /**
   * Hotspots extracted from a `score >= threshold` mask over scores in
   * [0, 100] all carry a confidence between the threshold and 100.
   */
  lemma ExtractedHotspotsWithin(mask: seq<bool>, score: seq<real>, threshold: real, width: nat,
                                pixelToLatLon: (nat, nat) -> LatLon,
                                mineral: string, depthRange: (int, int))
    requires |mask| == |score| && width > 0
    requires forall i :: 0 <= i < |score| ==> (mask[i] <==> score[i] >= threshold)
    requires forall i :: 0 <= i < |score| ==> 0.0 <= score[i] <= 100.0
    ensures Labelled(Stamp(SelectedPixels(mask, score), score, width, pixelToLatLon, mineral, depthRange),
                     mineral, depthRange, threshold)
  {
    ExtractedHotspotsSpec(mask, score, width, pixelToLatLon, mineral, depthRange);
  }

  /** Every hotspot carries `mineral` and `depthRange`, and a confidence in [threshold, 100]. */
  ghost predicate Labelled(hotspots: seq<Hotspot>, mineral: string, depthRange: (int, int), threshold: real)
  {
    forall i :: 0 <= i < |hotspots| ==>
      && hotspots[i].mineral == mineral
      && hotspots[i].depthMin == depthRange.0 && hotspots[i].depthMax == depthRange.1
      && threshold <= hotspots[i].confidence <= 100.0
  }

  /**
   * The hotspot list of a response: each hotspot is a copper one (250-750 m)
   * or a gold one (100-300 m) with a confidence in [65, 100], and no copper
   * hotspot follows a gold one.
   */
  ghost predicate RouteHotspots(hotspots: seq<Hotspot>)
  {
    && (forall i :: 0 <= i < |hotspots| ==> RouteThreshold <= hotspots[i].confidence <= 100.0)
    && (forall i :: 0 <= i < |hotspots| ==>
          || (hotspots[i].mineral == "copper" && hotspots[i].depthMin == 250 && hotspots[i].depthMax == 750)
          || (hotspots[i].mineral == "gold" && hotspots[i].depthMin == 100 && hotspots[i].depthMax == 300))
    && (forall i, j :: 0 <= i < j < |hotspots| && hotspots[i].mineral == "gold" ==>
          hotspots[j].mineral == "gold")
  }

  /** Copper hotspots followed by gold hotspots form a response's hotspot list. */
  lemma CopperThenGold(copper: seq<Hotspot>, gold: seq<Hotspot>)
    requires Labelled(copper, "copper", (250, 750), RouteThreshold)
    requires Labelled(gold, "gold", (100, 300), RouteThreshold)
    ensures RouteHotspots(copper + gold)
  {
    var all := copper + gold;
    forall i | 0 <= i < |all|
      ensures all[i] == (if i < |copper| then copper[i] else gold[i - |copper|])
    {
    }
    assert "copper" != "gold" by {
      assert "copper"[0] == 'c';
    }
  }

  // ---------------------------------------------------------------------
  // Cropping a raster to a geographic window
  // ---------------------------------------------------------------------

  datatype Pixel = Pixel(row: int, col: int)

  /** Every row of `grid` has `cols` columns. */
  ghost predicate Rectangular(grid: seq<seq<real>>, cols: nat)
  {
    forall i :: 0 <= i < |grid| ==> |grid[i]| == cols
  }

  ghost predicate Between(x: int, lo: int, hi: int)
  {
    lo <= x < hi
  }

  /** Python's normalisation of a slice bound for a sequence of length `n`. */
  function SliceBound(x: int, n: nat): (b: nat)
    ensures b <= n
    ensures 0 <= x <= n ==> b == x
    ensures x < 0 && x + n < 0 ==> b == 0
    ensures x < 0 && 0 <= x + n ==> b == x + n
  {
    if x < 0 then (if x + n < 0 then 0 else x + n)
    else if x > n then n else x
  }

  /** Python's `s[start:stop]`: a negative bound counts from the end. */
  function PySlice<T>(s: seq<T>, start: int, stop: int): (r: seq<T>)
    ensures |r| <= |s|
    ensures 0 <= start <= stop <= |s| ==> r == s[start..stop]
    ensures |r| == if SliceBound(start, |s|) < SliceBound(stop, |s|)
                   then SliceBound(stop, |s|) - SliceBound(start, |s|) else 0
  {
    var a, b := SliceBound(start, |s|), SliceBound(stop, |s|);
    if a < b then s[a..b] else []
  }

  function MaxInt(a: int, b: int): int { if a < b then b else a }
  function MinInt(a: int, b: int): int { if a < b then a else b }

  /**
   * The index clamping of `crop_array_to_bounds` as written: the start
   * indices are raised to 0 and the stop indices lowered to the raster's
   * size, and nothing else.
   */
  function ClampAsWritten(upperLeft: Pixel, lowerRight: Pixel, rows: nat, cols: nat): (w: (int, int, int, int))
    ensures 0 <= w.0 && 0 <= w.1 && w.2 <= rows && w.3 <= cols
    ensures w.0 == (if upperLeft.row < 0 then 0 else upperLeft.row)
    ensures w.1 == (if upperLeft.col < 0 then 0 else upperLeft.col)
    ensures w.2 == (if lowerRight.row > rows then rows else lowerRight.row)
    ensures w.3 == (if lowerRight.col > cols then cols else lowerRight.col)
  {
    (MaxInt(0, upperLeft.row), MaxInt(0, upperLeft.col), MinInt(rows, lowerRight.row), MinInt(cols, lowerRight.col))
  }

  /**
   * `crop_array_to_bounds` as written: the corners are the pixels of
   * (lon_max, lat_max) and (lon_min, lat_min), the indices are clamped, and
   * then Python slicing applies, so a negative stop index counts from the far
   * end of the raster. When the transform raises, the grid comes back
   * unchanged.
   */
  function CropAsWritten(grid: seq<seq<real>>, cols: nat, crop: Bounds,
                         rowcol: (real, real) -> Option<Pixel>): (r: seq<seq<real>>)
    requires Rectangular(grid, cols)
    ensures |r| <= |grid|
    ensures rowcol(crop.lonMax, crop.latMax).None? || rowcol(crop.lonMin, crop.latMin).None? ==> r == grid
  {
    match (rowcol(crop.lonMax, crop.latMax), rowcol(crop.lonMin, crop.latMin))
    case (Some(upperLeft), Some(lowerRight)) =>
      var (rowMin, colMin, rowMax, colMax) := ClampAsWritten(upperLeft, lowerRight, |grid|, cols);
      var rows := PySlice(grid, rowMin, rowMax);
      seq(|rows|, i requires 0 <= i < |rows| => PySlice(rows[i], colMin, colMax))
    case _ => grid
  }

  /**
   * A crop window whose lower-right corner falls above the raster (a negative
   * stop row) selects no raster row, yet the code as written keeps
   * `|grid| + stop` rows of it.
   */
  lemma CropAsWrittenKeepsRowsOutsideWindow(grid: seq<seq<real>>, cols: nat, crop: Bounds,
                                            rowcol: (real, real) -> Option<Pixel>)
    requires Rectangular(grid, cols)
    requires rowcol(crop.lonMax, crop.latMax).Some? && rowcol(crop.lonMin, crop.latMin).Some?
    requires rowcol(crop.lonMax, crop.latMax).value.row <= 0
    requires -|grid| < rowcol(crop.lonMin, crop.latMin).value.row < 0
    ensures |CropAsWritten(grid, cols, crop, rowcol)| == |grid| + rowcol(crop.lonMin, crop.latMin).value.row > 0
    ensures |CropWindow(grid, cols, rowcol(crop.lonMax, crop.latMax).value,
                        rowcol(crop.lonMin, crop.latMin).value)| == 0
  {
  }

  /**
   * The inverse of a north-up affine transform with its top-left corner at
   * (`left`, `top`) and square pixels `res` degrees wide: rows grow
   * southward, columns eastward, and a coordinate maps to the pixel that
   * contains it (rounding down).
   */
  function NorthUp(left: real, top: real, res: real): (rowcol: (real, real) -> Option<Pixel>)
    requires res > 0.0
    ensures forall lon, lat :: rowcol(lon, lat) == Some(Pixel(((top - lat) / res).Floor, ((lon - left) / res).Floor))
  {
    (lon: real, lat: real) => Some(Pixel(((top - lat) / res).Floor, ((lon - left) / res).Floor))
  }

  /**
   * A concrete instance under a north-up transform: a 10 x 10 raster whose
   * top-left corner is at (0, 10), and a window from latitude 15 to 20 and
   * longitude -3 to -2, wholly north-west of it. The window between the
   * intended corners holds no cell; the code as written keeps a 5 x 7 block
   * of real raster cells, its top-left part.
   */
  lemma CropAsWrittenCounterexample()
    ensures var grid := seq(10, i => seq(10, j => 0.0));
            var rowcol := NorthUp(0.0, 10.0, 1.0);
            var crop := Bounds(15.0, 20.0, -3.0, -2.0);
            var asWritten := CropAsWritten(grid, 10, crop, rowcol);
            && rowcol(crop.lonMin, crop.latMax) == Some(Pixel(-10, -3))
            && rowcol(crop.lonMax, crop.latMin) == Some(Pixel(-5, -2))
            && CropWindow(grid, 10, Pixel(-10, -3), Pixel(-5, -2)) == []
            && |asWritten| == 5 && Rectangular(asWritten, 7)
            && forall i, j :: 0 <= i < 5 && 0 <= j < 7 ==> asWritten[i][j] == grid[i][j]
  {
    var grid := seq(10, i => seq(10, j => 0.0));
    var rowcol := NorthUp(0.0, 10.0, 1.0);
    var crop := Bounds(15.0, 20.0, -3.0, -2.0);
    assert rowcol(crop.lonMax, crop.latMax) == Some(Pixel(-10, -2));
    assert rowcol(crop.lonMin, crop.latMin) == Some(Pixel(-5, -3));
    assert ClampAsWritten(Pixel(-10, -2), Pixel(-5, -3), 10, 10) == (0, 0, -5, -3);
    var asWritten := CropAsWritten(grid, 10, crop, rowcol);
    assert asWritten == seq(5, i requires 0 <= i < 5 => PySlice(grid[..5][i], 0, -3));
    forall i | 0 <= i < 5
      ensures asWritten[i] == grid[i][..7]
    {
      assert PySlice(grid[..5][i], 0, -3) == grid[i][0..7];
    }
  }

  /**
   * Under a north-up transform, the corner (lon_max, lat_max) lies in the
   * east column of the window, so the code as written slices the columns
   * from east to west and keeps none: a 6 x 6 window inside a 10 x 10
   * raster comes back as six empty rows.
   */
  lemma CropAsWrittenSwapsColumns()
    ensures var grid := seq(10, i => seq(10, j => 0.0));
            var crop := Bounds(2.0, 8.0, 2.0, 8.0);
            var asWritten := CropAsWritten(grid, 10, crop, NorthUp(0.0, 10.0, 1.0));
            && |asWritten| == 6
            && (forall i :: 0 <= i < 6 ==> asWritten[i] == [])
  {
    var grid := seq(10, i => seq(10, j => 0.0));
    var rowcol := NorthUp(0.0, 10.0, 1.0);
    assert rowcol(8.0, 8.0) == Some(Pixel(2, 8));
    assert rowcol(2.0, 2.0) == Some(Pixel(8, 2));
    assert Rectangular(grid, 10);
  }

  /** The part of [lo, hi) that lies inside [0, n). */
  function Intersect(lo: int, hi: int, n: nat): (w: (nat, nat))
    ensures w.0 <= w.1 <= n
    ensures forall x :: Between(x, w.0, w.1) <==> Between(x, 0, n) && Between(x, lo, hi)
  {
    var a := if lo < 0 then 0 else if lo > n then n else lo;
    var b := if hi < a then a else if hi > n then n else hi;
    (a, b)
  }

  /**
   * The intended crop: exactly the raster cells whose row and column lie in
   * the window spanned by the two corner pixels.
   */
  function CropWindow(grid: seq<seq<real>>, cols: nat, upperLeft: Pixel, lowerRight: Pixel): (r: seq<seq<real>>)
    requires Rectangular(grid, cols)
    ensures var (r0, r1) := Intersect(upperLeft.row, lowerRight.row, |grid|);
            var (c0, c1) := Intersect(upperLeft.col, lowerRight.col, cols);
            && |r| == r1 - r0
            && Rectangular(r, c1 - c0)
            && forall i, j :: 0 <= i < |r| && 0 <= j < c1 - c0 ==> r[i][j] == grid[r0 + i][c0 + j]
  {
    var (r0, r1) := Intersect(upperLeft.row, lowerRight.row, |grid|);
    var (c0, c1) := Intersect(upperLeft.col, lowerRight.col, cols);
    seq(r1 - r0, i requires 0 <= i < r1 - r0 => grid[r0 + i][c0..c1])
  }

  /** Where the window's stop row and column are not negative, the code as written crops as intended. */
  lemma CropAsWrittenAgrees(grid: seq<seq<real>>, cols: nat, crop: Bounds,
                            rowcol: (real, real) -> Option<Pixel>)
    requires Rectangular(grid, cols)
    requires rowcol(crop.lonMax, crop.latMax).Some? && rowcol(crop.lonMin, crop.latMin).Some?
    requires rowcol(crop.lonMin, crop.latMin).value.row >= 0 && rowcol(crop.lonMin, crop.latMin).value.col >= 0
    ensures CropAsWritten(grid, cols, crop, rowcol) ==
            CropWindow(grid, cols, rowcol(crop.lonMax, crop.latMax).value, rowcol(crop.lonMin, crop.latMin).value)
  {
    var upperLeft, lowerRight := rowcol(crop.lonMax, crop.latMax).value, rowcol(crop.lonMin, crop.latMin).value;
    var rows := PySlice(grid, MaxInt(0, upperLeft.row), MinInt(|grid|, lowerRight.row));
    var (r0, r1) := Intersect(upperLeft.row, lowerRight.row, |grid|);
    var (c0, c1) := Intersect(upperLeft.col, lowerRight.col, cols);
    assert rows == grid[r0..r1];
    var asWritten := CropAsWritten(grid, cols, crop, rowcol);
    var intended := CropWindow(grid, cols, upperLeft, lowerRight);
    assert |asWritten| == |intended|;
    forall i | 0 <= i < |asWritten|
      ensures asWritten[i] == intended[i]
    {
      assert asWritten[i] == PySlice(rows[i], MaxInt(0, upperLeft.col), MinInt(cols, lowerRight.col));
      assert rows[i] == grid[r0 + i];
    }
  }

  /**
   * `crop_array_to_bounds` as evidently intended: the window runs from the
   * pixel of (lon_min, lat_max) to that of (lon_max, lat_min), and the stop
   * indices are clamped from below as well as from above, so that a window
   * off the raster crops to nothing. When the transform raises, the grid
   * comes back unchanged.
   */
  method CropArrayToBounds(grid: seq<seq<real>>, cols: nat, crop: Bounds,
                           rowcol: (real, real) -> Option<Pixel>)
    returns (cropped: seq<seq<real>>)
    requires Rectangular(grid, cols)
    ensures rowcol(crop.lonMin, crop.latMax).None? || rowcol(crop.lonMax, crop.latMin).None? ==>
              cropped == grid
    ensures rowcol(crop.lonMin, crop.latMax).Some? && rowcol(crop.lonMax, crop.latMin).Some? ==>
              cropped == CropWindow(grid, cols, rowcol(crop.lonMin, crop.latMax).value,
                                    rowcol(crop.lonMax, crop.latMin).value)
  {
    var upperLeft := rowcol(crop.lonMin, crop.latMax);
    var lowerRight := rowcol(crop.lonMax, crop.latMin);
    if upperLeft.None? || lowerRight.None? {
      return grid;
    }
    var rowMin, colMin := upperLeft.value.row, upperLeft.value.col;
    var rowMax, colMax := lowerRight.value.row, lowerRight.value.col;
    // keep the indices within the raster, and each stop at or after its start
    rowMin := if rowMin < 0 then 0 else if rowMin > |grid| then |grid| else rowMin;
    colMin := if colMin < 0 then 0 else if colMin > cols then cols else colMin;
    rowMax := if rowMax < rowMin then rowMin else if rowMax > |grid| then |grid| else rowMax;
    colMax := if colMax < colMin then colMin else if colMax > cols then cols else colMax;
    cropped := seq(rowMax - rowMin, i requires 0 <= i < rowMax - rowMin => grid[rowMin + i][colMin..colMax]);
  }

  /** Under a north-up transform, the 6 x 6 window of the counterexample crops to a 6 x 6 grid. */
  lemma CropArrayToBoundsKeepsWindow()
    ensures var grid := seq(10, i => seq(10, j => 0.0));
            var rowcol := NorthUp(0.0, 10.0, 1.0);
            var crop := Bounds(2.0, 8.0, 2.0, 8.0);
            && rowcol(crop.lonMin, crop.latMax) == Some(Pixel(2, 2))
            && rowcol(crop.lonMax, crop.latMin) == Some(Pixel(8, 8))
            && |CropWindow(grid, 10, Pixel(2, 2), Pixel(8, 8))| == 6
            && Rectangular(CropWindow(grid, 10, Pixel(2, 2), Pixel(8, 8)), 6)
  {
    var grid := seq(10, i => seq(10, j => 0.0));
    assert Rectangular(grid, 10);
  }

  // ---------------------------------------------------------------------
  // The analysis pipeline and the response
  // ---------------------------------------------------------------------

  /**
   * The hotspot list of the response: the copper hotspots (250-750 m) and
   * then the gold hotspots (100-300 m), each extracted from its own mask.
   * With masks at 65 over scores in [0, 100], that list is a well-formed
   * response hotspot list of at most 100 entries.
   */
  method CollectHotspots(detection: Detection, width: nat, pixelToLatLon: (nat, nat) -> LatLon)
    returns (allHotspots: seq<Hotspot>)
    requires |detection.copperMask| == |detection.copperScore| && |detection.goldMask| == |detection.goldScore|
    requires width > 0
    requires forall i :: 0 <= i < |detection.copperScore| ==>
               (detection.copperMask[i] <==> detection.copperScore[i] >= RouteThreshold)
    requires forall i :: 0 <= i < |detection.goldScore| ==>
               (detection.goldMask[i] <==> detection.goldScore[i] >= RouteThreshold)
    requires forall i :: 0 <= i < |detection.copperScore| ==> 0.0 <= detection.copperScore[i] <= 100.0
    requires forall i :: 0 <= i < |detection.goldScore| ==> 0.0 <= detection.goldScore[i] <= 100.0
    ensures allHotspots ==
              Stamp(SelectedPixels(detection.copperMask, detection.copperScore), detection.copperScore,
                    width, pixelToLatLon, "copper", (250, 750)) +
              Stamp(SelectedPixels(detection.goldMask, detection.goldScore), detection.goldScore,
                    width, pixelToLatLon, "gold", (100, 300))
    ensures |allHotspots| <= 2 * MaxHotspots
    ensures RouteHotspots(allHotspots)
  {
    allHotspots := [];
    var copperHotspots := ExtractHotspotsFromMask(
      detection.copperMask, detection.copperScore, width, pixelToLatLon, "copper", (250, 750));
    allHotspots := allHotspots + copperHotspots;
    assert allHotspots == copperHotspots;
    var goldHotspots := ExtractHotspotsFromMask(
      detection.goldMask, detection.goldScore, width, pixelToLatLon, "gold", (100, 300));
    allHotspots := allHotspots + goldHotspots;
    ExtractedHotspotsWithin(detection.copperMask, detection.copperScore, RouteThreshold,
                            width, pixelToLatLon, "copper", (250, 750));
    ExtractedHotspotsWithin(detection.goldMask, detection.goldScore, RouteThreshold,
                            width, pixelToLatLon, "gold", (100, 300));
    CopperThenGold(copperHotspots, goldHotspots);
  }

  /**
   * Steps 2 to 4 of `analyze_aoi`: the mineral indices of the bands, then
   * the copper and gold potentials from them and the granite index.
   */
  method ScoreRaster(raster: Raster, granite: seq<real>)
    returns (indices: Indices, copperScore: seq<real>, goldScore: seq<real>)
    requires |raster.nir| == |raster.red| && |raster.swir1| == |raster.red| && |raster.swir2| == |raster.red|
    requires |granite| == |raster.red|
    ensures indices == CalculateMineralIndices(raster.red, raster.nir, raster.swir1, raster.swir2)
    ensures copperScore == CopperPotential(indices.kfeldspar, indices.clay, indices.ironOxide, granite)
    ensures goldScore == GoldPotential(indices.silica, indices.clay, indices.kfeldspar, indices.ironOxide)
    ensures InRange(indices, |raster.red|)
    ensures |copperScore| == |raster.red| && |goldScore| == |raster.red|
    ensures forall i :: 0 <= i < |copperScore| ==> 0.0 <= copperScore[i] <= 100.0
    ensures forall i :: 0 <= i < |goldScore| ==> 0.0 <= goldScore[i] <= 100.0
  {
    indices := CalculateMineralIndices(raster.red, raster.nir, raster.swir1, raster.swir2);
    copperScore := CopperPotential(indices.kfeldspar, indices.clay, indices.ironOxide, granite);
    goldScore := GoldPotential(indices.silica, indices.clay, indices.kfeldspar, indices.ironOxide);
  }

  /**
   * Steps 5 to 9 of `analyze_aoi`: hotspot masks at 65, the geological
   * analysis, the heatmaps, the hotspot list and the response. `None` when
   * the analysis raises, which happens exactly when there are no pixels.
   */
  method BuildResponse(request: AoiRequest, indices: Indices, copperScore: seq<real>, goldScore: seq<real>,
                       width: nat, pixelToLatLon: (nat, nat) -> LatLon,
                       renderHeatmap: (seq<real>, string) -> string,
                       countClusters: (seq<bool>, nat) -> nat)
    returns (response: Option<AnalysisResponse>)
    requires InRange(indices, |copperScore|) && |goldScore| == |copperScore| && width > 0
    requires forall i :: 0 <= i < |copperScore| ==> 0.0 <= copperScore[i] <= 100.0
    requires forall i :: 0 <= i < |goldScore| ==> 0.0 <= goldScore[i] <= 100.0
    ensures response.None? <==> |copperScore| == 0
    ensures response.Some? ==>
              var r := response.value;
              var a := GenerateGeologicalAnalysis(copperScore, goldScore, indices.kfeldspar, indices.clay,
                                                  indices.ironOxide, indices.silica).value;
              && r.status == "success"
              && r.copperPotential == a.copper && r.goldPotential == a.gold
              && r.minerals == a.minerals && r.recommendations == a.recommendations
              && r.copperHeatmap == renderHeatmap(copperScore, "copper")
              && r.goldHeatmap == renderHeatmap(goldScore, "gold")
              && r.heatmapBounds == Bounds(request.latMin, request.latMax, request.lonMin, request.lonMax)
              && r.hotspots ==
                   Stamp(SelectedPixels(Mask(copperScore, RouteThreshold), copperScore), copperScore,
                         width, pixelToLatLon, "copper", (250, 750)) +
                   Stamp(SelectedPixels(Mask(goldScore, RouteThreshold), goldScore), goldScore,
                         width, pixelToLatLon, "gold", (100, 300))
              && |r.hotspots| <= 2 * MaxHotspots
              && RouteHotspots(r.hotspots)
  {
    var detection := DetectHotspots(copperScore, goldScore, RouteThreshold, width, countClusters);
    var analysis := GenerateGeologicalAnalysis(copperScore, goldScore, indices.kfeldspar, indices.clay,
                                               indices.ironOxide, indices.silica);
    if analysis.None? {
      return None;
    }
    var copperHeatmap := renderHeatmap(detection.copperScore, "copper");
    var goldHeatmap := renderHeatmap(detection.goldScore, "gold");
    var heatmapBounds := Bounds(request.latMin, request.latMax, request.lonMin, request.lonMax);
    var allHotspots := CollectHotspots(detection, width, pixelToLatLon);
    var a := analysis.value;
    response := Some(AnalysisResponse("success", allHotspots, a.copper, a.gold, a.minerals, a.recommendations,
                                      copperHeatmap, goldHeatmap, heatmapBounds));
  }

  /**
   * `analyze_aoi` from the loaded bands on: indices and potentials, then
   * the response. Its hotspot list holds at most 50 copper hotspots and then
   * at most 50 gold ones, every one at or above the threshold 65, and its
   * heatmap bounds are the request's own. `None` exactly when the raster has
   * no pixels. `granite` is the lithology stage's granite index;
   * `renderHeatmap` and `countClusters` stand for the image rendering and
   * the cluster labelling.
   */
  method AnalyzeAoi(request: AoiRequest, raster: Raster, granite: seq<real>,
                    pixelToLatLon: (nat, nat) -> LatLon,
                    renderHeatmap: (seq<real>, string) -> string,
                    countClusters: (seq<bool>, nat) -> nat)
    returns (response: Option<AnalysisResponse>)
    requires |raster.nir| == |raster.red| && |raster.swir1| == |raster.red| && |raster.swir2| == |raster.red|
    requires |granite| == |raster.red| && raster.width > 0
    ensures response.None? <==> |raster.red| == 0
    ensures response.Some? ==>
              var r := response.value;
              && r.status == "success"
              && r.heatmapBounds == Bounds(request.latMin, request.latMax, request.lonMin, request.lonMax)
              && |r.hotspots| <= 2 * MaxHotspots
              && RouteHotspots(r.hotspots)
              && r.copperPotential.assessment == CopperAssessment(r.copperPotential.max)
              && r.goldPotential.assessment == GoldAssessment(r.goldPotential.max)
              && 0.0 <= r.copperPotential.mean <= r.copperPotential.max <= 100.0
              && 0.0 <= r.goldPotential.mean <= r.goldPotential.max <= 100.0
              && r.recommendations.action == "PROCEED WITH DRILLING"
    ensures response.Some? ==>
              var r := response.value;
              var ix := CalculateMineralIndices(raster.red, raster.nir, raster.swir1, raster.swir2);
              var cs := CopperPotential(ix.kfeldspar, ix.clay, ix.ironOxide, granite);
              var gs := GoldPotential(ix.silica, ix.clay, ix.kfeldspar, ix.ironOxide);
              var a := GenerateGeologicalAnalysis(cs, gs, ix.kfeldspar, ix.clay, ix.ironOxide, ix.silica).value;
              && r.copperPotential == a.copper && r.goldPotential == a.gold
              && r.minerals == a.minerals && r.recommendations == a.recommendations
              && r.copperHeatmap == renderHeatmap(cs, "copper") && r.goldHeatmap == renderHeatmap(gs, "gold")
              && r.hotspots ==
                   Stamp(SelectedPixels(Mask(cs, RouteThreshold), cs), cs,
                         raster.width, pixelToLatLon, "copper", (250, 750)) +
                   Stamp(SelectedPixels(Mask(gs, RouteThreshold), gs), gs,
                         raster.width, pixelToLatLon, "gold", (100, 300))
  {
    var indices, copperScore, goldScore := ScoreRaster(raster, granite);
    response := BuildResponse(request, indices, copperScore, goldScore, raster.width,
                              pixelToLatLon, renderHeatmap, countClusters);
    if response.Some? {
      StatisticsArePercentages(copperScore, goldScore, indices.kfeldspar, indices.clay,
                               indices.ironOxide, indices.silica);
    }
  }
}
