/**
  Per-image quality gate of the batch loop: the checks that skip an image before
  it is classified, and the class-variety check that skips it after.

  Fractions are computed as numpy computes them with all floating-point errors
  ignored: a count divided by zero is +inf (or nan for 0/0), and Python's `>`
  and `<` are false when one side is nan.
*/
module QualityGate {
  import opened Masking

  /** Result of `np.divide` on two counts. */
  datatype Ratio = Finite(value: real) | PosInf | NaN

  function Divide(num: nat, den: nat): (r: Ratio)
    ensures r.Finite? <==> den > 0
    ensures r.PosInf? <==> den == 0 && num > 0
  {
    if den > 0 then Finite(num as real / den as real)
    else if num > 0 then PosInf
    else NaN
  }

  /** Python `r > bound` on a float that may be inf or nan. */
  predicate Above(r: Ratio, bound: real)
  {
    match r
    case Finite(v) => v > bound
    case PosInf => true
    case NaN => false
  }

  /** Python `r < bound` on a float that may be inf or nan. */
  predicate Below(r: Ratio, bound: real)
  {
    match r
    case Finite(v) => v < bound
    case PosInf => false
    case NaN => false
  }

  datatype SkipReason =
    | EmptyRaster          // preprocessing returned no image
    | NoCloudMask          // preprocessing returned `[]` for the cloud mask
    | CloudOver95          // combined cloud fraction above the fixed ceiling
    | CloudOverThreshold   // cloud fraction over valid pixels above the user's cloud_thresh
    | TooFewClasses        // one of the two classes covers less than 5% of the image

  datatype Gate = Accept(cloudCover: Ratio) | Reject(reason: SkipReason)

  /** The fixed ceiling on the combined cloud fraction. */
  const MaxCombinedCloud: real := 0.95

  /** The fixed floor on the fraction of the image each class must cover. */
  const MinClassFraction: real := 0.05

  /** Cloud fraction over the pixels that are not no-data, with the no-data pixels removed from the mask by XOR. */
  function AdjustedCloudCover(cloud: seq<bool>, nodata: seq<bool>): Ratio
    requires |nodata| == |cloud|
  {
    Divide(Count(Xor(cloud, nodata)), Count(Not(nodata)))
  }

  /**
    The checks of the image loop, in the order the source makes them. `cloud`
    and `nodata` are the row-major masks of one image; an absent mask is `[]`.
    An accepted image carries the cloud cover the batch records for it.
  */
  function CheckImage(raster: bool, cloud: seq<bool>, nodata: seq<bool>, cloudThresh: real): Gate
    requires |nodata| == |cloud|
  {
    if !raster then Reject(EmptyRaster)
    else if cloud == [] then Reject(NoCloudMask)
    else if Above(Divide(Count(cloud), |cloud|), MaxCombinedCloud) then Reject(CloudOver95)
    else
      var cover := AdjustedCloudCover(cloud, nodata);
      if Above(cover, cloudThresh) then Reject(CloudOverThreshold) else Accept(cover)
  }

  /** When every pixel is no-data, the XOR mask is the complement of the cloud mask. */
  lemma AllNoDataCover(cloud: seq<bool>, nodata: seq<bool>)
    requires |nodata| == |cloud| && Count(Not(nodata)) == 0
    ensures Count(Xor(cloud, nodata)) == |cloud| - Count(cloud)
  {
    CountExtremes(Not(nodata));
    assert Xor(cloud, nodata) == Not(cloud);
    CountNot(cloud);
  }

  /**
    An image is accepted exactly when the raster is present, the mask is not
    empty, at most 95% of its pixels are cloud, some pixel holds data, and the
    cloud fraction over the data pixels is at most the user's threshold. The
    recorded cloud cover is then that finite fraction.
  */
  lemma AcceptExactly(raster: bool, cloud: seq<bool>, nodata: seq<bool>, cloudThresh: real)
    requires |nodata| == |cloud|
    ensures CheckImage(raster, cloud, nodata, cloudThresh).Accept? <==>
      && raster
      && |cloud| > 0
      && Count(cloud) as real / |cloud| as real <= MaxCombinedCloud
      && Count(Not(nodata)) > 0
      && Count(Xor(cloud, nodata)) as real / Count(Not(nodata)) as real <= cloudThresh
    ensures CheckImage(raster, cloud, nodata, cloudThresh).Accept? ==>
      CheckImage(raster, cloud, nodata, cloudThresh).cloudCover
        == Finite(Count(Xor(cloud, nodata)) as real / Count(Not(nodata)) as real)
  {
    if raster && |cloud| > 0 {
      var combined := Count(cloud) as real / |cloud| as real;
      assert Divide(Count(cloud), |cloud|) == Finite(combined);
      var valid := Count(Not(nodata));
      var flagged := Count(Xor(cloud, nodata));
      if valid == 0 {
        AllNoDataCover(cloud, nodata);
        if flagged == 0 {
          assert Count(cloud) == |cloud|;
          FullFraction(|cloud|);
        } else {
          assert AdjustedCloudCover(cloud, nodata) == PosInf;
        }
      } else {
        assert AdjustedCloudCover(cloud, nodata) == Finite(flagged as real / valid as real);
      }
    }
  }

  /** Each skip reason is reported exactly when its own check is the first one to fail. */
  lemma RejectReasons(raster: bool, cloud: seq<bool>, nodata: seq<bool>, cloudThresh: real)
    requires |nodata| == |cloud|
    ensures CheckImage(raster, cloud, nodata, cloudThresh) == Reject(EmptyRaster) <==> !raster
    ensures CheckImage(raster, cloud, nodata, cloudThresh) == Reject(NoCloudMask) <==> raster && cloud == []
    ensures CheckImage(raster, cloud, nodata, cloudThresh) == Reject(CloudOver95) <==>
      raster && cloud != [] && Count(cloud) as real / |cloud| as real > MaxCombinedCloud
    ensures CheckImage(raster, cloud, nodata, cloudThresh) == Reject(CloudOverThreshold) <==>
      && raster && cloud != [] && Count(cloud) as real / |cloud| as real <= MaxCombinedCloud
      && Above(AdjustedCloudCover(cloud, nodata), cloudThresh)
  {
  }

  /** An image whose pixels are all no-data never passes, whatever the user's threshold. */
  lemma AllNoDataRejected(raster: bool, cloud: seq<bool>, nodata: seq<bool>, cloudThresh: real)
    requires |nodata| == |cloud| && (forall i :: 0 <= i < |nodata| ==> nodata[i])
    ensures CheckImage(raster, cloud, nodata, cloudThresh).Reject?
  {
    CountExtremes(Not(nodata));
    AcceptExactly(raster, cloud, nodata, cloudThresh);
  }

  /**
    When the no-data pixels are already part of the cloud mask (as preprocessing
    produces them), the XOR removes exactly those pixels from it.
  */
  lemma XorRemovesNoData(cloud: seq<bool>, nodata: seq<bool>)
    requires |nodata| == |cloud| && forall i :: 0 <= i < |cloud| && nodata[i] ==> cloud[i]
    ensures Xor(cloud, nodata) == And(cloud, Not(nodata))
  {
  }

  /**
    The class-variety check after classification: too few when either class
    covers strictly less than 5% of all pixels (so exactly 5% passes), with
    Python's true division on the counts.
  */
  function LacksClassVariety(veg: seq<bool>, nonveg: seq<bool>): (tooFew: bool)
    requires |veg| == |nonveg| > 0
    ensures tooFew <==>
      Count(veg) as real < MinClassFraction * |veg| as real
      || Count(nonveg) as real < MinClassFraction * |veg| as real
  {
    var total := |veg| as real;
    FractionBelow(Count(veg) as real, total, MinClassFraction);
    FractionBelow(Count(nonveg) as real, total, MinClassFraction);
    Count(veg) as real / total < MinClassFraction || Count(nonveg) as real / total < MinClassFraction
  }

  lemma FullFraction(n: nat)
    requires n > 0
    ensures n as real / n as real == 1.0
  {
  }

  /** A fraction over a positive total is below a bound exactly when the count is below bound * total. */
  lemma FractionBelow(count: real, total: real, bound: real)
    requires total > 0.0
    ensures count / total < bound <==> count < bound * total
  {
    assert count == (count / total) * total;
  }
}
