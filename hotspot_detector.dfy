/**
 * Copper and gold potential scores and the hotspot masks
 * (backend/hotspot_detector.py). Scores are flat arrays in percent.
 */
module HotspotDetector {
  import opened Reals

  /** The threshold `detect_hotspots` uses when the caller gives none. */
  const DefaultThreshold: real := 65.0

  /**
   * Raw copper weighting of one pixel, before clipping. Its weights sum to
   * one, so on indices inside their documented ranges it is a fraction.
   */
  function CopperWeighted(kfeldspar: real, clay: real, ironOxide: real, granite: real): (r: real)
    ensures 0.0 <= kfeldspar <= 3.0 && 0.0 <= clay <= 2.0 && -1.0 <= ironOxide <= 1.0 && 0.0 <= granite <= 1.0
            ==> 0.0 <= r <= 1.0
  {
    (kfeldspar / 3.0) * 0.4 + (clay / 2.0) * 0.3 + (ironOxide + 1.0) / 2.0 * 0.15 + granite * 0.15
  }

  /**
   * Raw gold weighting of one pixel, before clipping. Silica is scaled by
   * 1.183, so the weighting is a fraction while silica stays at or below
   * that value and the other indices inside their ranges.
   */
  function GoldWeighted(silica: real, clay: real, kfeldspar: real, ironOxide: real): (r: real)
    ensures 0.0 <= silica <= 1.183 && 0.0 <= clay <= 2.0 && 0.0 <= kfeldspar <= 3.0 && -1.0 <= ironOxide <= 1.0
            ==> 0.0 <= r <= 1.0
  {
    (silica / 1.183) * 0.4 + (clay / 2.0) * 0.3 + (1.0 - kfeldspar / 3.0) * 0.15 + (ironOxide + 1.0) / 2.0 * 0.15
  }

  /** Copper potential of one pixel, in percent. */
  function CopperValue(kfeldspar: real, clay: real, ironOxide: real, granite: real): (r: real)
    ensures 0.0 <= r <= 100.0
  {
    Clip(CopperWeighted(kfeldspar, clay, ironOxide, granite), 0.0, 1.0) * 100.0
  }

  /** Gold potential of one pixel, in percent. */
  function GoldValue(silica: real, clay: real, kfeldspar: real, ironOxide: real): (r: real)
    ensures 0.0 <= r <= 100.0
  {
    Clip(GoldWeighted(silica, clay, kfeldspar, ironOxide), 0.0, 1.0) * 100.0
  }

  /** `calculate_copper_potential`, element by element over equal-length index arrays. */
  function CopperPotential(kfeldspar: seq<real>, clay: seq<real>, ironOxide: seq<real>, granite: seq<real>): (r: seq<real>)
    requires |clay| == |kfeldspar| && |ironOxide| == |kfeldspar| && |granite| == |kfeldspar|
    ensures |r| == |kfeldspar|
    ensures forall i :: 0 <= i < |r| ==> 0.0 <= r[i] <= 100.0
    ensures forall i :: 0 <= i < |r| ==> r[i] == CopperValue(kfeldspar[i], clay[i], ironOxide[i], granite[i])
  {
    seq(|kfeldspar|, i requires 0 <= i < |kfeldspar| => CopperValue(kfeldspar[i], clay[i], ironOxide[i], granite[i]))
  }

  /** `calculate_gold_potential`, element by element over equal-length index arrays. */
  function GoldPotential(silica: seq<real>, clay: seq<real>, kfeldspar: seq<real>, ironOxide: seq<real>): (r: seq<real>)
    requires |clay| == |silica| && |kfeldspar| == |silica| && |ironOxide| == |silica|
    ensures |r| == |silica|
    ensures forall i :: 0 <= i < |r| ==> 0.0 <= r[i] <= 100.0
    ensures forall i :: 0 <= i < |r| ==> r[i] == GoldValue(silica[i], clay[i], kfeldspar[i], ironOxide[i])
  {
    seq(|silica|, i requires 0 <= i < |silica| => GoldValue(silica[i], clay[i], kfeldspar[i], ironOxide[i]))
  }

  /**
   * The copper weights sum to one, so on indices inside their documented
   * ranges (granite in [0, 1]) the clip never acts and the score is exactly
   * the weighted sum in percent.
   */
  lemma CopperExactOnIndexRanges(kfeldspar: real, clay: real, ironOxide: real, granite: real)
    requires 0.0 <= kfeldspar <= 3.0 && 0.0 <= clay <= 2.0
    requires -1.0 <= ironOxide <= 1.0 && 0.0 <= granite <= 1.0
    ensures 0.0 <= CopperWeighted(kfeldspar, clay, ironOxide, granite) <= 1.0
    ensures CopperValue(kfeldspar, clay, ironOxide, granite) == 100.0 * CopperWeighted(kfeldspar, clay, ironOxide, granite)
  {
  }

  /** Copper potential never decreases when any of its four inputs grows. */
  lemma CopperMonotone(k: real, c: real, io: real, g: real, k': real, c': real, io': real, g': real)
    requires k <= k' && c <= c' && io <= io' && g <= g'
    ensures CopperValue(k, c, io, g) <= CopperValue(k', c', io', g')
  {
    ClipMonotone(CopperWeighted(k, c, io, g), CopperWeighted(k', c', io', g'), 0.0, 1.0);
  }

  /**
   * Gold potential never decreases when silica, clay or iron oxide grows,
   * and never increases when K-feldspar grows (its term `1 - k/3` has a
   * positive weight).
   */
  lemma GoldMonotone(s: real, c: real, k: real, io: real, s': real, c': real, k': real, io': real)
    requires s <= s' && c <= c' && k' <= k && io <= io'
    ensures GoldValue(s, c, k, io) <= GoldValue(s', c', k', io')
  {
    ClipMonotone(GoldWeighted(s, c, k, io), GoldWeighted(s', c', k', io'), 0.0, 1.0);
  }

  /** The hotspot mask `score >= threshold`, element by element. */
  function Mask(score: seq<real>, threshold: real): (m: seq<bool>)
    ensures |m| == |score|
    ensures forall i :: 0 <= i < |m| ==> (m[i] <==> score[i] >= threshold)
  {
    seq(|score|, i requires 0 <= i < |score| => score[i] >= threshold)
  }

  /** What `detect_hotspots` returns. */
  datatype Detection = Detection(
    copperClusters: nat,
    goldClusters: nat,
    copperMask: seq<bool>,
    goldMask: seq<bool>,
    copperScore: seq<real>,
    goldScore: seq<real>)

  /**
   * `detect_hotspots`: the two masks at `threshold`, the cluster counts from
   * the connected-component labeller `countClusters` (given the mask and the
   * raster width, the mask's 2-D shape), and the two score
   * arrays handed back unchanged.
   */
  function DetectHotspots(copperScore: seq<real>, goldScore: seq<real>, threshold: real, width: nat,
                          countClusters: (seq<bool>, nat) -> nat): (d: Detection)
    ensures d.copperScore == copperScore && d.goldScore == goldScore
    ensures |d.copperMask| == |copperScore| && |d.goldMask| == |goldScore|
    ensures forall i :: 0 <= i < |copperScore| ==> (d.copperMask[i] <==> copperScore[i] >= threshold)
    ensures forall i :: 0 <= i < |goldScore| ==> (d.goldMask[i] <==> goldScore[i] >= threshold)
    ensures d.copperClusters == countClusters(d.copperMask, width) && d.goldClusters == countClusters(d.goldMask, width)
  {
    var copperMask := Mask(copperScore, threshold);
    var goldMask := Mask(goldScore, threshold);
    Detection(countClusters(copperMask, width), countClusters(goldMask, width), copperMask, goldMask, copperScore, goldScore)
  }
}
