/**
  Pixel size of a satellite and the conversion of the user's metre-based
  settings to pixels, made once per satellite before its images are processed.

  `metadata[sat]['acc_georef']` is given as a map from satellite name to one
  vector per image. A missing key or an empty vector, which make Python raise,
  give `None`. A zero pixel size makes the conversions of
  Toolshed/VegetationLine.py:131-132 fail: Python raises ZeroDivisionError for
  a plain number, and a numpy float gives an infinite or undefined size.
  Either way the size is `None`.
*/
module PixelScale {
  import opened Wrappers

  /** Pixel size, in metres, of the pan-sharpened Landsat bands. */
  const LandsatPixel: real := 15.0

  /** Pixel size, in metres, of the Sentinel-2 bands used. */
  const SentinelPixel: real := 10.0

  predicate IsLandsat(satname: string)
  {
    satname in ["L5", "L7", "L8", "L9"]
  }

  /** `metadata[sat]['acc_georef']` for each satellite of the run. */
  type Georef = map<string, seq<seq<real>>>

  /** `metadata[sat]['acc_georef'][0][0]`, or None where Python raises. */
  function FirstGeoref(georef: Georef, sat: string): (r: Option<real>)
    ensures r.Some? <==> sat in georef && |georef[sat]| > 0 && |georef[sat][0]| > 0
  {
    if sat in georef && |georef[sat]| > 0 && |georef[sat][0]| > 0 then Some(georef[sat][0][0]) else None
  }

  /**
    The pixel size as written: for a satellite that is neither Landsat nor
    Sentinel-2 it is read from the first image of the first satellite of
    the user's satellite list, whichever satellite is being processed.
  */
  function PixelSizeAsWritten(satname: string, satList: seq<string>, georef: Georef): (r: Option<real>)
    ensures IsLandsat(satname) ==> r == Some(LandsatPixel)
    ensures !IsLandsat(satname) && satname == "S2" ==> r == Some(SentinelPixel)
    ensures !IsLandsat(satname) && satname != "S2" ==>
      r == (if satList == [] then None else FirstGeoref(georef, satList[0]))
  {
    if IsLandsat(satname) then Some(LandsatPixel)
    else if satname == "S2" then Some(SentinelPixel)
    else if satList == [] then None
    else FirstGeoref(georef, satList[0])
  }

  /**
    The pixel size as intended: for any other satellite, read from the first
    image of the satellite being processed.
  */
  function PixelSize(satname: string, georef: Georef): (r: Option<real>)
    ensures IsLandsat(satname) ==> r == Some(LandsatPixel)
    ensures !IsLandsat(satname) && satname == "S2" ==> r == Some(SentinelPixel)
    ensures !IsLandsat(satname) && satname != "S2" ==>
      (r.Some? <==> satname in georef && |georef[satname]| > 0 && |georef[satname][0]| > 0)
      && (r.Some? ==> r.value == georef[satname][0][0])
  {
    if IsLandsat(satname) then Some(LandsatPixel)
    else if satname == "S2" then Some(SentinelPixel)
    else FirstGeoref(georef, satname)
  }

  /**
    The two agree for Landsat and Sentinel-2, and for any satellite that is
    the first one of the list (in particular a run over a single satellite).
  */
  lemma PixelSizeAgrees(satname: string, satList: seq<string>, georef: Georef)
    requires IsLandsat(satname) || satname == "S2" || (satList != [] && satList[0] == satname)
    ensures PixelSizeAsWritten(satname, satList, georef) == PixelSize(satname, georef)
  {
  }

  /**
    A run over Sentinel-2 and PlanetScope: the PlanetScope images get the
    value recorded for the first Sentinel-2 image instead of their own.
  */
  lemma PixelSizeFromWrongSatellite()
    ensures var georef: Georef := map["S2" := [[12.0]], "PSScene4Band" := [[3.0]]];
      && PixelSizeAsWritten("PSScene4Band", ["S2", "PSScene4Band"], georef) == Some(12.0)
      && PixelSize("PSScene4Band", georef) == Some(3.0)
  {
    var georef: Georef := map["S2" := [[12.0]], "PSScene4Band" := [[3.0]]];
    assert !IsLandsat("PSScene4Band");
    assert FirstGeoref(georef, "S2") == Some(12.0);
    assert FirstGeoref(georef, "PSScene4Band") == Some(3.0);
  }

  /** `np.ceil`: the least integer not below x. */
  function Ceil(x: real): (c: int)
    ensures c as real - 1.0 < x <= c as real
  {
    -((-x).Floor)
  }

  /** Only one integer lies in [x, x + 1). */
  lemma CeilUnique(x: real, c: int)
    requires c as real - 1.0 < x <= c as real
    ensures c == Ceil(x)
  {
  }

  /** `np.ceil(m / p)`, None when p is 0. */
  function MetresToPixels(m: real, p: real): (r: Option<int>)
    ensures r.Some? <==> p != 0.0
    ensures r.Some? ==> r.value as real - 1.0 < m / p <= r.value as real
  {
    if p == 0.0 then None else Some(Ceil(m / p))
  }

  /** `buffer_size_pixels`: the buffer width in whole pixels, rounded up. */
  function BufferSizePixels(bufferSize: real, pixelSize: real): (r: Option<int>)
  {
    MetresToPixels(bufferSize, pixelSize)
  }

  /** `min_beach_area_pixels`: the minimum beach area in whole pixels, rounded up. */
  function MinBeachAreaPixels(minBeachArea: real, pixelSize: real): (r: Option<int>)
  {
    MetresToPixels(minBeachArea, pixelSize * pixelSize)
  }

  /** Dividing by a positive p and rounding up gives the least count of p-sized pieces covering m. */
  lemma PixelsCover(m: real, p: real)
    requires p > 0.0
    ensures var n := MetresToPixels(m, p).value;
      (n - 1) as real * p < m <= n as real * p
  {
    var q := m / p;
    var n := Ceil(q);
    assert m == q * p;
    MulMonotone(q, n as real, p);
    MulStrict((n - 1) as real, q, p);
  }

  lemma MulMonotone(a: real, b: real, p: real)
    requires a <= b && p > 0.0
    ensures a * p <= b * p
  {
  }

  lemma MulStrict(a: real, b: real, p: real)
    requires a < b && p > 0.0
    ensures a * p < b * p
  {
  }

  /** A 150 m buffer is 10 Landsat pixels and 15 Sentinel-2 pixels; a 1000 m² beach is 5 Landsat pixels. */
  lemma ExampleConversions()
    ensures BufferSizePixels(150.0, LandsatPixel) == Some(10)
    ensures BufferSizePixels(150.0, SentinelPixel) == Some(15)
    ensures MinBeachAreaPixels(1000.0, LandsatPixel) == Some(5)
  {
    CeilUnique(150.0 / 15.0, 10);
    CeilUnique(150.0 / 10.0, 15);
    CeilUnique(1000.0 / 225.0, 5);
  }
}
