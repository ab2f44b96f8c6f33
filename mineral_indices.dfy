/**
 * The four mineral indices computed from the Sentinel-2 red, NIR, SWIR1 and
 * SWIR2 bands (backend/mineral_indices.py). Bands are flat arrays of equal
 * length; every step works element by element.
 */
module MineralIndices {
  import opened Reals

  /** The value that replaces a non-positive band reading. */
  const BandFloor: real := 0.0001

  /** The small constant added to the iron-oxide denominator. */
  const Epsilon: real := 0.00000001

  /** The band guard on one reading: strictly positive, and unchanged when it already was. */
  function GuardReading(x: real): (r: real)
    ensures r > 0.0
    ensures x <= 0.0 ==> r == BandFloor
    ensures x > 0.0 ==> r == x
  {
    if x <= 0.0 then BandFloor else x
  }

  /** The band guard over a whole band. */
  function GuardBand(band: seq<real>): (r: seq<real>)
    ensures |r| == |band|
    ensures forall i :: 0 <= i < |r| ==> r[i] > 0.0
    ensures forall i :: 0 <= i < |r| ==> r[i] == GuardReading(band[i])
  {
    seq(|band|, i requires 0 <= i < |band| => GuardReading(band[i]))
  }

  lemma DivSign(a: real, d: real)
    requires d > 0.0
    ensures a / d > 0.0 <==> a > 0.0
    ensures a / d == 0.0 <==> a == 0.0
  {
    assert a / d * d == a;
  }

  lemma DivStrictlyInside(a: real, d: real)
    requires d > 0.0 && -d < a < d
    ensures -1.0 < a / d < 1.0
  {
    assert a / d * d == a;
  }

  /** Iron-oxide index of one pixel from guarded SWIR1 and NIR readings. */
  function IronOxideValue(swir1: real, nir: real): (r: real)
    requires swir1 > 0.0 && nir > 0.0
    ensures -1.0 <= r <= 1.0
  {
    Clip((swir1 - nir) / (swir1 + nir + Epsilon), -1.0, 1.0)
  }

  /**
   * The iron-oxide index has the sign of SWIR1 - NIR, and the clip to [-1, 1]
   * never changes it: the normalised difference already lies strictly inside.
   */
  lemma IronOxideSign(swir1: real, nir: real)
    requires swir1 > 0.0 && nir > 0.0
    ensures IronOxideValue(swir1, nir) > 0.0 <==> swir1 > nir
    ensures IronOxideValue(swir1, nir) == 0.0 <==> swir1 == nir
    ensures -1.0 < IronOxideValue(swir1, nir) < 1.0
    ensures IronOxideValue(swir1, nir) == (swir1 - nir) / (swir1 + nir + Epsilon)
  {
    var d := swir1 + nir + Epsilon;
    DivSign(swir1 - nir, d);
    DivStrictlyInside(swir1 - nir, d);
  }

  /** Clay index of one pixel: SWIR1 / SWIR2 clipped to [0, 2]. */
  function ClayValue(swir1: real, swir2: real): (r: real)
    requires swir1 > 0.0 && swir2 > 0.0
    ensures 0.0 <= r <= 2.0
  {
    Clip(swir1 / swir2, 0.0, 2.0)
  }

  /** Silica index of one pixel: SWIR2 / SWIR1 clipped to [0, 2]. */
  function SilicaValue(swir1: real, swir2: real): (r: real)
    requires swir1 > 0.0 && swir2 > 0.0
    ensures 0.0 <= r <= 2.0
  {
    Clip(swir2 / swir1, 0.0, 2.0)
  }

  /** K-feldspar index of one pixel: NIR / red clipped to [0, 3]. */
  function KfeldsparValue(nir: real, red: real): (r: real)
    requires nir > 0.0 && red > 0.0
    ensures 0.0 <= r <= 3.0
  {
    Clip(nir / red, 0.0, 3.0)
  }

  /** Where neither ratio is clipped, the clay and silica indices are reciprocal. */
  lemma ClaySilicaReciprocal(swir1: real, swir2: real)
    requires swir1 > 0.0 && swir2 > 0.0
    requires swir1 / swir2 <= 2.0 && swir2 / swir1 <= 2.0
    ensures ClayValue(swir1, swir2) * SilicaValue(swir1, swir2) == 1.0
  {
    DivSign(swir1, swir2);
    DivSign(swir2, swir1);
    assert swir1 / swir2 * (swir2 / swir1) == 1.0;
  }

  /** The four index arrays; the record has exactly these four keys. */
  datatype Indices = Indices(
    ironOxide: seq<real>,
    clay: seq<real>,
    silica: seq<real>,
    kfeldspar: seq<real>)

  /** Every index within its documented range, all of length `n`. */
  ghost predicate InRange(ix: Indices, n: nat)
  {
    && |ix.ironOxide| == n && |ix.clay| == n && |ix.silica| == n && |ix.kfeldspar| == n
    && (forall i :: 0 <= i < n ==> -1.0 <= ix.ironOxide[i] <= 1.0)
    && (forall i :: 0 <= i < n ==> 0.0 <= ix.clay[i] <= 2.0)
    && (forall i :: 0 <= i < n ==> 0.0 <= ix.silica[i] <= 2.0)
    && (forall i :: 0 <= i < n ==> 0.0 <= ix.kfeldspar[i] <= 3.0)
  }

  /** `calculate_mineral_indices`: guard the four bands, then form the four clipped indices. */
  function CalculateMineralIndices(red: seq<real>, nir: seq<real>, swir1: seq<real>, swir2: seq<real>): (r: Indices)
    requires |nir| == |red| && |swir1| == |red| && |swir2| == |red|
    ensures InRange(r, |red|)
    ensures forall i :: 0 <= i < |red| ==>
              (r.ironOxide[i] > 0.0 <==> GuardReading(swir1[i]) > GuardReading(nir[i]))
    ensures forall i :: 0 <= i < |red| ==>
              r.ironOxide[i] == IronOxideValue(GuardReading(swir1[i]), GuardReading(nir[i]))
    ensures forall i :: 0 <= i < |red| ==>
              r.clay[i] == ClayValue(GuardReading(swir1[i]), GuardReading(swir2[i])) &&
              r.silica[i] == SilicaValue(GuardReading(swir1[i]), GuardReading(swir2[i])) &&
              r.kfeldspar[i] == KfeldsparValue(GuardReading(nir[i]), GuardReading(red[i]))
  {
    var red, nir, swir1, swir2 := GuardBand(red), GuardBand(nir), GuardBand(swir1), GuardBand(swir2);
    var n := |red|;
    var result := Indices(
      seq(n, i requires 0 <= i < n => IronOxideValue(swir1[i], nir[i])),
      seq(n, i requires 0 <= i < n => ClayValue(swir1[i], swir2[i])),
      seq(n, i requires 0 <= i < n => SilicaValue(swir1[i], swir2[i])),
      seq(n, i requires 0 <= i < n => KfeldsparValue(nir[i], red[i])));
    assert forall i :: 0 <= i < n ==> (result.ironOxide[i] > 0.0 <==> swir1[i] > nir[i]) by {
      forall i | 0 <= i < n
        ensures result.ironOxide[i] > 0.0 <==> swir1[i] > nir[i]
      {
        IronOxideSign(swir1[i], nir[i]);
      }
    }
    result
  }
}
