/**
  The per-image part of `extract_veglines`: quality gate, classification,
  class-variety check, weighted-peaks threshold, contouring and line cleaning,
  and the operator's check or adjustment of the detection.

  Everything the module cannot see is a collaborator in `Toolkit`: the two
  trained classifiers, small-object removal, the disk dilation of the
  reference buffer, numpy's random choice, the kernel-density estimate,
  `find_peaks`, marching squares, the Otsu threshold of the water detection,
  the pixel-to-world transform, shapely's line length and the two
  reprojections. What preprocessing and the index computations give for one
  image, and what the operator does in its window, make up a `Scene`.
*/
module Pipeline {
  import opened Wrappers
  import opened Masking
  import opened QualityGate
  import opened Classification
  import opened ClipIndex
  import opened WeightedPeaks
  import opened Contours
  import opened Shoreline
  import opened Operator

  /** The settings read while one image is processed. */
  datatype Settings = Settings(
    cloudThresh: real,       // `cloud_thresh`
    minLength: real,         // `min_length_sl`, in metres
    wetdry: bool,            // also map the waterline
    adjustDetection: bool,   // let the operator move the threshold
    checkDetection: bool,    // let the operator keep or skip the detection
    maxRelax: nat)           // how many relaxed prominence searches the model makes

  /**
    One image, all grids flattened row-major with `cols` columns: whether
    preprocessing returned a raster, the cloud and no-data masks, the feature
    rows of the two classifiers, the NDVI and NDWI images (None for NaN),
    the reference-line buffer, and the operator's key presses and clicks.
  */
  datatype Scene = Scene(
    raster: bool,
    cols: nat,
    cloud: seq<bool>,
    nodata: seq<bool>,
    vegFeatures: seq<seq<Feature>>,
    shoreFeatures: seq<seq<Feature>>,
    ndvi: seq<Option<real>>,
    ndwi: seq<Option<real>>,
    refBuffer: seq<bool>,
    keys: seq<Press>,
    clicks: seq<ClickEvent>)

  /** All the grids of a scene describe the same pixels. */
  predicate Shaped(sc: Scene)
  {
    && sc.cols > 0
    && |sc.nodata| == |sc.cloud|
    && |sc.vegFeatures| == |sc.cloud|
    && |sc.shoreFeatures| == |sc.cloud|
    && |sc.ndvi| == |sc.cloud|
    && |sc.ndwi| == |sc.cloud|
    && |sc.refBuffer| == |sc.cloud|
  }

  datatype Toolkit = Toolkit(
    predict: seq<seq<Feature>> -> seq<int>,               // vegetation classifier
    predictShore: seq<seq<Feature>> -> seq<int>,          // sand/swash/water classifier
    removeSmall: (seq<bool>, nat, Option<int>) -> seq<bool>,  // remove_small_objects on the image of that many columns
    dilate: (seq<bool>, nat) -> seq<bool>,                // binary_dilation by disk(5) on the image of that many columns
    choice: (nat, nat) -> seq<nat>,                       // np.random.choice without replacement
    kde: seq<real> -> seq<real>,                          // density of a sample on the 200 bins
    findPeaks: (seq<real>, real) -> seq<nat>,             // scipy.signal.find_peaks at a prominence
    findContours: (seq<Option<real>>, nat, real) -> seq<Contour>,  // marching squares on the image of that many columns
    waterThreshold: (seq<Option<real>>, seq<bool>, seq<bool>) -> real,  // Otsu on water and sand samples
    pixToWorld: Point -> Point,                           // convert_pix2world with the image's georef
    length: Line -> real,                                 // LineString.length
    toLatLon: Line -> Line,                               // to_crs(ref_epsg)
    toProj: Line -> Line)                                 // to_crs(projection_epsg)

  /** What the model assumes of the collaborators: the documented shapes of their results. */
  ghost predicate Sound(tk: Toolkit)
  {
    && (forall rows :: |tk.predict(rows)| == |rows|)
    && (forall rows :: |tk.predictShore(rows)| == |rows|)
    && (forall g, cols, minSize :: |tk.removeSmall(g, cols, minSize)| == |g|)
    && (forall g, cols :: |tk.dilate(g, cols)| == |g|)
    && SamplesWithoutReplacement(tk.choice)
    && (forall sample :: |tk.kde(sample)| == BinCount)
    && PeaksInside(tk.findPeaks)
  }

  /** How processing one image ends. A recorded image carries its cloud cover and the thresholds its lines were mapped at. */
  datatype Outcome =
    | Skipped(reason: SkipReason)          // one of the quality checks failed; the run goes on
    | RejectedByOperator                   // the operator pressed 'left'; the run goes on
    | Kept(cloudCover: Ratio, tNdvi: real, tNdwi: Option<real>)
    | InfiniteFeature                      // a clear pixel's vegetation features hold an infinity: `clf.predict` raises ValueError
    | ShoreRefused                         // `wetdry`: no clear pixel has finite shore features, and `clf.predict` raises ValueError on zero rows
    | SampleRefused                        // a class sample is empty or holds NaN: `KernelDensity.fit` raises ValueError
    | NoPeakFound                          // no strong peak within the search bound (the source searches forever)
    | Cancelled                            // 'escape': StopIteration ends the run
    | Stalled                              // the operator's events ran out: the window waits forever
    | ShorelineUnbound                     // the waterline is appended but was never computed: NameError

  /** A detected waterline and the threshold it was mapped at. */
  datatype Waterline = Waterline(lines: LineSet, tNdwi: real)

  /** What is appended for a recorded image: the vegetation lines, the NDVI threshold, and the waterline when `wetdry` is set. */
  datatype Detection = Detection(veg: LineSet, tNdvi: real, water: Option<Waterline>)

  /** Outcomes that end the whole run instead of moving to the next image. */
  predicate Ends(o: Outcome)
  {
    o.InfiniteFeature? || o.ShoreRefused? || o.SampleRefused? || o.NoPeakFound? || o.Cancelled? || o.Stalled? || o.ShorelineUnbound?
  }

  // ---------------------------------------------------------------------------
  // Specification of the stages.

  /** `im_ndi_buffer[~im_ref_buffer] = np.nan`. */
  function Buffered(ndi: seq<Option<real>>, buffer: seq<bool>): (r: seq<Option<real>>)
    requires |buffer| == |ndi|
    ensures |r| == |ndi| && forall i :: 0 <= i < |ndi| ==> r[i] == (if buffer[i] then ndi[i] else None)
  {
    seq(|ndi|, i requires 0 <= i < |ndi| => if buffer[i] then ndi[i] else None)
  }

  /** (row, column) of every cell of an image with `cols` columns, in row-major order. */
  function PixelCoords(n: nat, cols: nat): (r: seq<Point>)
    requires cols > 0
    ensures |r| == n && forall k :: 0 <= k < n ==> r[k] == ((k / cols) as real, (k % cols) as real)
  {
    seq(n, k requires 0 <= k < n => ((k / cols) as real, (k % cols) as real))
  }

  function MapPoints(f: Point -> Point, pts: seq<Point>): (r: seq<Point>)
    ensures |r| == |pts| && forall k :: 0 <= k < |pts| ==> r[k] == f(pts[k])
  {
    seq(|pts|, k requires 0 <= k < |pts| => f(pts[k]))
  }

  /** `np.where(cloud_mask)` converted to world coordinates: one point per cloud pixel, in row-major order. */
  function CloudPoints(tk: Toolkit, sc: Scene): (r: seq<Point>)
    requires Shaped(sc)
    ensures |r| == Count(sc.cloud)
  {
    MapPoints(tk.pixToWorld, Compress(PixelCoords(|sc.cloud|, sc.cols), sc.cloud))
  }

  /** A NaN-free contour converted to world coordinates. */
  function WorldLine(f: Point -> Point, c: Contour): (l: Line)
    requires forall j :: 0 <= j < |c| ==> c[j].Some?
    ensures |l| == |c| && forall j :: 0 <= j < |c| ==> l[j] == f(c[j].value)
  {
    seq(|c|, j requires 0 <= j < |c| => f(c[j].value))
  }

  function WorldLines(f: Point -> Point, cs: seq<Contour>): (r: seq<Line>)
    requires forall k, j :: 0 <= k < |cs| && 0 <= j < |cs[k]| ==> cs[k][j].Some?
    ensures |r| == |cs| && forall k :: 0 <= k < |cs| ==> r[k] == WorldLine(f, cs[k])
  {
    seq(|cs|, k requires 0 <= k < |cs| => WorldLine(f, cs[k]))
  }

  /** Raw contours through `process_contours`, converted to world coordinates. */
  function World(tk: Toolkit, raw: seq<Contour>): (r: seq<Line>)
    ensures |r| == |CleanContours(raw)|
  {
    CleanContoursFromSurvivors(raw);
    WorldLines(tk.pixToWorld, CleanContours(raw))
  }

  /** Raw contours through `process_contours` and `ProcessShoreline`. */
  function LinesFrom(tk: Toolkit, st: Settings, sc: Scene, raw: seq<Contour>): LineSet
    requires Shaped(sc)
  {
    var lines := CleanedLines(World(tk, raw), CloudPoints(tk, sc), tk.length, st.minLength);
    LineSet(lines, MapLines(tk.toLatLon, lines), MapLines(tk.toProj, lines))
  }

  /** The vegetation lines found at NDVI threshold t inside the reference buffer. */
  function DetectAt(tk: Toolkit, st: Settings, sc: Scene, t: real): LineSet
    requires Shaped(sc)
  {
    LinesFrom(tk, st, sc, tk.findContours(Buffered(sc.ndvi, sc.refBuffer), sc.cols, t))
  }

  /**
    `classify_image_NN` replaces NaN features and masks cloudy pixels only, so
    an infinite feature at a clear pixel reaches `clf.predict`, which refuses
    it (sklearn raises ValueError on infinite input).
  */
  predicate PredictRefused(sc: Scene)
    requires Shaped(sc)
  {
    exists i :: 0 <= i < |sc.cloud| && !sc.cloud[i] && AnyInf(sc.vegFeatures[i])
  }

  /**
    With `wetdry`, `classify_image_NN_shore` masks cloudy and infinite rows and
    hands what is left to `clf.predict`; when nothing is left, sklearn raises
    ValueError on the empty sample. This happens before the class check.
  */
  predicate NoShoreRows(st: Settings, sc: Scene)
    requires Shaped(sc)
  {
    st.wetdry && Count(Not(ShoreMask(sc.cloud, sc.shoreFeatures))) == 0
  }

  /** The label image of `classify_image_NN`. */
  function VegClassif(tk: Toolkit, sc: Scene): (r: seq<Option<int>>)
    requires Sound(tk) && Shaped(sc)
    ensures |r| == |sc.cloud|
  {
    Scatter(Not(sc.cloud), tk.predict(Compress(FillNaN(sc.vegFeatures), Not(sc.cloud))))
  }

  /** The vegetation and non-vegetation grids after small-object removal. */
  function VegGrids(tk: Toolkit, sc: Scene, minArea: Option<int>): (r: (seq<bool>, seq<bool>))
    requires Sound(tk) && Shaped(sc)
    ensures |r.0| == |sc.cloud| && |r.1| == |sc.cloud|
  {
    var classif := VegClassif(tk, sc);
    (tk.removeSmall(LabelGrid(classif, VegLabel), sc.cols, minArea), tk.removeSmall(LabelGrid(classif, NonVegLabel), sc.cols, minArea))
  }

  /** The balanced class samples `ClipIndexVec` draws inside the dilated buffer. */
  function VegSamples(tk: Toolkit, sc: Scene, veg: seq<bool>, nonveg: seq<bool>): (seq<Option<real>>, seq<Option<real>>)
    requires Sound(tk) && Shaped(sc) && |veg| == |sc.cloud| && |nonveg| == |sc.cloud|
  {
    ClipIndexVec(sc.ndvi, tk.dilate(sc.refBuffer, sc.cols), veg, nonveg, tk.choice)
  }

  /** `KernelDensity.fit` refuses a sample that is empty or holds a NaN. */
  predicate Unfittable(sample: seq<Option<real>>)
  {
    |sample| == 0 || exists i :: 0 <= i < |sample| && sample[i].None?
  }

  /** The values of a NaN-free sample. */
  function Values(sample: seq<Option<real>>): (v: seq<real>)
    requires !Unfittable(sample)
    ensures |v| == |sample| && forall i :: 0 <= i < |sample| ==> sample[i] == Some(v[i])
  {
    seq(|sample|, i requires 0 <= i < |sample| => sample[i].value)
  }

  /** Either class sample is refused by the density estimate, which ends the run. */
  predicate SamplesRefused(tk: Toolkit, sc: Scene, veg: seq<bool>, nonveg: seq<bool>)
    requires Sound(tk) && Shaped(sc) && |veg| == |sc.cloud| && |nonveg| == |sc.cloud|
  {
    var samples := VegSamples(tk, sc, veg, nonveg);
    Unfittable(samples.0) || Unfittable(samples.1)
  }

  /** `FindShoreContours_WP`'s threshold from the two class samples, once both can be fitted. */
  function VegThreshold(tk: Toolkit, st: Settings, sc: Scene, veg: seq<bool>, nonveg: seq<bool>): PeakResult
    requires Sound(tk) && Shaped(sc) && |veg| == |sc.cloud| && |nonveg| == |sc.cloud|
    requires !SamplesRefused(tk, sc, veg, nonveg)
  {
    var samples := VegSamples(tk, sc, veg, nonveg);
    WeightedPeaksThreshold(tk.kde(Values(samples.0)), tk.kde(Values(samples.1)), tk.findPeaks, st.maxRelax)
  }

  /** The label image of `classify_image_NN_shore`. */
  function ShoreClassif(tk: Toolkit, sc: Scene): (r: seq<Option<int>>)
    requires Sound(tk) && Shaped(sc)
    ensures |r| == |sc.cloud|
  {
    var keep := Not(ShoreMask(sc.cloud, sc.shoreFeatures));
    Scatter(keep, tk.predictShore(Compress(FillNaN(sc.shoreFeatures), keep)))
  }


  /** `FindShoreContours_Water`'s threshold on the water index, from the water and sand grids after small-object removal. */
  function WaterThreshold(tk: Toolkit, sc: Scene, minArea: Option<int>): real
    requires Sound(tk) && Shaped(sc)
  {
    var classif := ShoreClassif(tk, sc);
    var sand := tk.removeSmall(LabelGrid(classif, SandLabel), sc.cols, minArea);
    var water := tk.removeSmall(LabelGrid(classif, WaterLabel), sc.cols, minArea);
    tk.waterThreshold(sc.ndwi, water, sand)
  }

  /** The waterlines found at NDWI threshold t. */
  function WaterAt(tk: Toolkit, st: Settings, sc: Scene, t: real): LineSet
    requires Shaped(sc)
  {
    LinesFrom(tk, st, sc, tk.findContours(sc.ndwi, sc.cols, t))
  }

  /** What is appended for a recorded image with thresholds tNdvi and tNdwi: the lines found at them. */
  function RecordedDetection(tk: Toolkit, st: Settings, sc: Scene, tNdvi: real, tNdwi: Option<real>): (d: Detection)
    requires Shaped(sc)
    ensures d.tNdvi == tNdvi && (d.water.Some? <==> tNdwi.Some?)
    ensures tNdwi.Some? ==> d.water.value.tNdwi == tNdwi.value
  {
    Detection(DetectAt(tk, st, sc, tNdvi), tNdvi,
              if tNdwi.Some? then Some(Waterline(WaterAt(tk, st, sc, tNdwi.value), tNdwi.value)) else None)
  }

  /** What the key loop's decision makes of a detection. */
  function Checked(d: Decision, kept: Outcome): Outcome
  {
    match d
    case Keep => kept
    case Skip => RejectedByOperator
    case Cancel => Cancelled
    case Waiting => Stalled
  }

  /**
    The outcome of one image: the checks of the loop in the order the source
    makes them, then the detection. `minArea` is the satellite's
    `min_beach_area_pixels`.
  */
  function ImageOutcome(tk: Toolkit, st: Settings, sc: Scene, minArea: Option<int>): Outcome
    requires Sound(tk) && Shaped(sc)
  {
    match CheckImage(sc.raster, sc.cloud, sc.nodata, st.cloudThresh)
    case Reject(reason) => Skipped(reason)
    case Accept(cover) =>
      if PredictRefused(sc) then InfiniteFeature
      else if NoShoreRows(st, sc) then ShoreRefused
      else ClassifiedOutcome(tk, st, sc, minArea, cover)
  }

  /** After the gate: the class-variety check, the fit of the two class densities, then the weighted-peaks threshold. */
  function ClassifiedOutcome(tk: Toolkit, st: Settings, sc: Scene, minArea: Option<int>, cover: Ratio): Outcome
    requires Sound(tk) && Shaped(sc) && |sc.cloud| > 0
  {
    var grids := VegGrids(tk, sc, minArea);
    if LacksClassVariety(grids.0, grids.1) then Skipped(TooFewClasses)
    else if SamplesRefused(tk, sc, grids.0, grids.1) then SampleRefused
    else
      match VegThreshold(tk, st, sc, grids.0, grids.1)
      case NoStrongPeak => NoPeakFound
      case Threshold(t0, _, _) => DetectionOutcome(tk, st, sc, minArea, cover, t0)
  }

  /**
    With the threshold t0 found: either `adjust_detection`, or the automatic
    detection (with the waterline when `wetdry` is set) and the optional key
    check of `show_detection`.
  */
  function DetectionOutcome(tk: Toolkit, st: Settings, sc: Scene, minArea: Option<int>, cover: Ratio, t0: real): Outcome
    requires Sound(tk) && Shaped(sc)
  {
    if st.adjustDetection then AdjustedOutcome(st, sc, cover, t0) else AutomaticOutcome(tk, st, sc, minArea, cover, t0)
  }

  /** Without adjustment: the detection at t0, with the waterline when `wetdry` is set, and `show_detection`'s optional key check. */
  function AutomaticOutcome(tk: Toolkit, st: Settings, sc: Scene, minArea: Option<int>, cover: Ratio, t0: real): Outcome
    requires Sound(tk) && Shaped(sc)
  {
    var kept := Kept(cover, t0, if st.wetdry then Some(WaterThreshold(tk, sc, minArea)) else None);
    if st.checkDetection then Checked(Decide(sc.keys, 0, None), kept) else kept
  }

  /**
    `adjust_detection`: the clicks up to Enter move the threshold, then the
    key loop decides. The waterline was never computed on this path, so
    recording the image fails when `wetdry` is set.
  */
  function AdjustedOutcome(st: Settings, sc: Scene, cover: Ratio, t0: real): Outcome
  {
    if Finished !in sc.clicks then Stalled
    else
      var t := ThresholdAfter(sc.clicks[..FinishIndex(sc.clicks)], t0);
      Checked(Decide(sc.keys, 0, None), if st.wetdry then ShorelineUnbound else Kept(cover, t, None))
  }

  // ---------------------------------------------------------------------------
  // The image loop's body.

  /** Contouring at t, NaN removal and line cleaning, as `FindShoreContours_WP` and `adjust_detection` do them. */
  method DetectLines(tk: Toolkit, st: Settings, sc: Scene, ndi: seq<Option<real>>, t: real) returns (r: LineSet)
    requires Shaped(sc)
    ensures r == LinesFrom(tk, st, sc, tk.findContours(ndi, sc.cols, t))
  {
    var raw := tk.findContours(ndi, sc.cols, t);
    var contours := ProcessContours(raw);
    CleanContoursFromSurvivors(raw);
    var world := WorldLines(tk.pixToWorld, contours);
    r := ProcessShoreline(world, CloudPoints(tk, sc), tk.length, st.minLength, tk.toLatLon, tk.toProj);
  }

  /**
    One pass of the image loop, from the quality checks to the decision to
    record the detection; `det` is what is appended when the image is recorded.
  */
  method ProcessImage(tk: Toolkit, st: Settings, sc: Scene, minArea: Option<int>) returns (o: Outcome, det: Option<Detection>)
    requires Sound(tk) && Shaped(sc)
    ensures o == ImageOutcome(tk, st, sc, minArea)
    ensures det.Some? <==> o.Kept?
    ensures o.Kept? ==> det.value == RecordedDetection(tk, st, sc, o.tNdvi, o.tNdwi)
    ensures o.Kept? ==> (det.value.water.Some? <==> st.wetdry)
  {
    var gate := CheckImage(sc.raster, sc.cloud, sc.nodata, st.cloudThresh);
    if gate.Reject? {
      return Skipped(gate.reason), None;
    }
    if PredictRefused(sc) {
      return InfiniteFeature, None;
    }
    var rs := g => tk.removeSmall(g, sc.cols, minArea);
    var classif, veg, nonveg := ClassifyImageNN(sc.cloud, sc.vegFeatures, tk.predict, rs);
    var shClassif: seq<Option<int>>, sand: seq<bool>, swash: seq<bool>, waterGrid: seq<bool> := [], [], [], [];
    if st.wetdry {
      if Count(Not(ShoreMask(sc.cloud, sc.shoreFeatures))) == 0 {
        return ShoreRefused, None;
      }
      shClassif, sand, swash, waterGrid := ClassifyImageShore(sc.cloud, sc.shoreFeatures, tk.predictShore, rs);
    }
    if LacksClassVariety(veg, nonveg) {
      return Skipped(TooFewClasses), None;
    }
    if SamplesRefused(tk, sc, veg, nonveg) {
      return SampleRefused, None;
    }
    var peaks := VegThreshold(tk, st, sc, veg, nonveg);
    if peaks.NoStrongPeak? {
      return NoPeakFound, None;
    }
    o, det := FinishDetection(tk, st, sc, minArea, gate.cloudCover, peaks.t, sand, waterGrid);
  }

  /**
    The rest of the pass once the threshold t0 is found: the lines at t0, then
    either the operator's adjustment and key check, or the waterline and the
    optional key check. `sand` and `waterGrid` are the shore classifier's grids
    when `wetdry` is set.
  */
  method FinishDetection(tk: Toolkit, st: Settings, sc: Scene, minArea: Option<int>, cover: Ratio, t0: real,
                         sand: seq<bool>, waterGrid: seq<bool>)
    returns (o: Outcome, det: Option<Detection>)
    requires Sound(tk) && Shaped(sc)
    requires st.wetdry ==> tk.waterThreshold(sc.ndwi, waterGrid, sand) == WaterThreshold(tk, sc, minArea)
    ensures o == DetectionOutcome(tk, st, sc, minArea, cover, t0)
    ensures det.Some? <==> o.Kept?
    ensures o.Kept? ==> det.value == RecordedDetection(tk, st, sc, o.tNdvi, o.tNdwi)
    ensures o.Kept? ==> (det.value.water.Some? <==> st.wetdry)
  {
    var line := DetectLines(tk, st, sc, Buffered(sc.ndvi, sc.refBuffer), t0);
    if st.adjustDetection {
      o, det := AdjustPath(tk, st, sc, cover, t0, line);
    } else {
      o, det := AutomaticPath(tk, st, sc, minArea, cover, t0, line, sand, waterGrid);
    }
  }

  /** `adjust_detection` from the lines at t0 on. */
  method AdjustPath(tk: Toolkit, st: Settings, sc: Scene, cover: Ratio, t0: real, line0: LineSet)
    returns (o: Outcome, det: Option<Detection>)
    requires Shaped(sc) && line0 == DetectAt(tk, st, sc, t0)
    ensures o == AdjustedOutcome(st, sc, cover, t0)
    ensures det.Some? <==> o.Kept?
    ensures o.Kept? ==> det.value == RecordedDetection(tk, st, sc, o.tNdvi, o.tNdwi)
    ensures o.Kept? ==> (det.value.water.Some? <==> st.wetdry)
  {
    var finished, t, line := AdjustThreshold(sc.clicks, t0, line0, t' => DetectAt(tk, st, sc, t'));
    if !finished {
      return Stalled, None;
    }
    AdjustedLine(tk, st, sc, sc.clicks[..FinishIndex(sc.clicks)], t0, t, line0, line);
    var d := AwaitKeyDecision(sc.keys);
    o := Checked(d, if st.wetdry then ShorelineUnbound else Kept(cover, t, None));
    det := if o.Kept? then Some(Detection(line, t, None)) else None;
    AdjustedRecord(tk, st, sc, cover, t, line, d, o, det);
  }

  /** The automatic path from the lines at t0 on: the waterline when `wetdry` is set, then `show_detection`'s key check when asked. */
  method AutomaticPath(tk: Toolkit, st: Settings, sc: Scene, minArea: Option<int>, cover: Ratio, t0: real, line0: LineSet,
                       sand: seq<bool>, waterGrid: seq<bool>)
    returns (o: Outcome, det: Option<Detection>)
    requires Sound(tk) && Shaped(sc) && line0 == DetectAt(tk, st, sc, t0)
    requires st.wetdry ==> tk.waterThreshold(sc.ndwi, waterGrid, sand) == WaterThreshold(tk, sc, minArea)
    ensures o == AutomaticOutcome(tk, st, sc, minArea, cover, t0)
    ensures det.Some? <==> o.Kept?
    ensures o.Kept? ==> det.value == RecordedDetection(tk, st, sc, o.tNdvi, o.tNdwi)
    ensures o.Kept? ==> (det.value.water.Some? <==> st.wetdry)
  {
    var water: Option<Waterline> := None;
    var tw := None;
    if st.wetdry {
      var w := tk.waterThreshold(sc.ndwi, waterGrid, sand);
      var wl := DetectLines(tk, st, sc, sc.ndwi, w);
      water, tw := Some(Waterline(wl, w)), Some(w);
    }
    var kept := Kept(cover, t0, tw);
    o := kept;
    if st.checkDetection {
      var d := AwaitKeyDecision(sc.keys);
      o := Checked(d, kept);
    }
    det := if o.Kept? then Some(Detection(line0, t0, water)) else None;
    AutomaticRecord(tk, st, sc, minArea, cover, t0, line0, water, tw, o, det);
  }

  /** After the click loop, the lines kept are those at the final threshold: a click redetects, and without one both are those at t0. */
  lemma AdjustedLine(tk: Toolkit, st: Settings, sc: Scene, used: seq<ClickEvent>, t0: real, t: real, line0: LineSet, line: LineSet)
    requires Shaped(sc) && line0 == DetectAt(tk, st, sc, t0)
    requires t == ThresholdAfter(used, t0) && line == (if AnyAccepted(used) then DetectAt(tk, st, sc, t) else line0)
    ensures line == DetectAt(tk, st, sc, t)
  {
  }

  /** What the adjustment path returns once the operator has pressed a key. */
  lemma AdjustedRecord(tk: Toolkit, st: Settings, sc: Scene, cover: Ratio, t: real, line: LineSet, d: Decision,
                       o: Outcome, det: Option<Detection>)
    requires Shaped(sc) && line == DetectAt(tk, st, sc, t)
    requires o == Checked(d, if st.wetdry then ShorelineUnbound else Kept(cover, t, None))
    requires det == if o.Kept? then Some(Detection(line, t, None)) else None
    ensures det.Some? <==> o.Kept?
    ensures o.Kept? ==> det.value == RecordedDetection(tk, st, sc, o.tNdvi, o.tNdwi)
    ensures o.Kept? ==> (det.value.water.Some? <==> st.wetdry)
  {
    RecordedFromLines(tk, st, sc, t, line, None, None, o, det);
  }

  /** What the automatic path returns, from its waterline, its threshold and the key check. */
  lemma AutomaticRecord(tk: Toolkit, st: Settings, sc: Scene, minArea: Option<int>, cover: Ratio, t0: real, line0: LineSet,
                        water: Option<Waterline>, tw: Option<real>, o: Outcome, det: Option<Detection>)
    requires Sound(tk) && Shaped(sc) && line0 == DetectAt(tk, st, sc, t0)
    requires st.wetdry ==> tw == Some(WaterThreshold(tk, sc, minArea)) && water == Some(Waterline(WaterAt(tk, st, sc, tw.value), tw.value))
    requires !st.wetdry ==> tw == None && water == None
    requires o == (if st.checkDetection then Checked(Decide(sc.keys, 0, None), Kept(cover, t0, tw)) else Kept(cover, t0, tw))
    requires det == (if o.Kept? then Some(Detection(line0, t0, water)) else None)
    ensures o == AutomaticOutcome(tk, st, sc, minArea, cover, t0)
    ensures det.Some? <==> o.Kept?
    ensures o.Kept? ==> det.value == RecordedDetection(tk, st, sc, o.tNdvi, o.tNdwi)
    ensures o.Kept? ==> (det.value.water.Some? <==> st.wetdry)
  {
    RecordedFromLines(tk, st, sc, t0, line0, water, tw, o, det);
    AutomaticOutcomeFrom(tk, st, sc, minArea, cover, t0, tw, o);
  }

  /** A detection made of the lines at the recorded thresholds is the recorded one. */
  lemma RecordedFromLines(tk: Toolkit, st: Settings, sc: Scene, t: real, line: LineSet, water: Option<Waterline>, tw: Option<real>,
                          o: Outcome, det: Option<Detection>)
    requires Shaped(sc) && line == DetectAt(tk, st, sc, t)
    requires water.Some? <==> tw.Some?
    requires tw.Some? ==> water == Some(Waterline(WaterAt(tk, st, sc, tw.value), tw.value))
    requires o.Kept? ==> o.tNdvi == t && o.tNdwi == tw
    requires det == (if o.Kept? then Some(Detection(line, t, water)) else None)
    ensures det.Some? <==> o.Kept?
    ensures o.Kept? ==> det.value == RecordedDetection(tk, st, sc, o.tNdvi, o.tNdwi)
  {
  }

  /** The automatic outcome, from the waterline threshold and the optional key check. */
  lemma AutomaticOutcomeFrom(tk: Toolkit, st: Settings, sc: Scene, minArea: Option<int>, cover: Ratio, t0: real, tw: Option<real>, o: Outcome)
    requires Sound(tk) && Shaped(sc)
    requires tw == (if st.wetdry then Some(WaterThreshold(tk, sc, minArea)) else None)
    requires o == (if st.checkDetection then Checked(Decide(sc.keys, 0, None), Kept(cover, t0, tw)) else Kept(cover, t0, tw))
    ensures o == AutomaticOutcome(tk, st, sc, minArea, cover, t0)
  {
  }

  // ---------------------------------------------------------------------------
  // Properties of the outcome.

  /** Once a threshold is found, the image is no longer skipped by a quality check, nor refused by the density fit. */
  lemma DetectionNotSkipped(tk: Toolkit, st: Settings, sc: Scene, minArea: Option<int>, cover: Ratio, t0: real)
    requires Sound(tk) && Shaped(sc)
    ensures !DetectionOutcome(tk, st, sc, minArea, cover, t0).Skipped?
    ensures !DetectionOutcome(tk, st, sc, minArea, cover, t0).SampleRefused?
    ensures !DetectionOutcome(tk, st, sc, minArea, cover, t0).InfiniteFeature?
    ensures !DetectionOutcome(tk, st, sc, minArea, cover, t0).ShoreRefused?
  {
    if st.adjustDetection {
      assert !AdjustedOutcome(st, sc, cover, t0).Skipped?;
    }
  }

  /**
    An image is skipped exactly when one of the quality checks fails: the
    gate's own reasons, or too little of either class once the gate passed
    and the classifier accepted the features.
  */
  lemma SkippedExactly(tk: Toolkit, st: Settings, sc: Scene, minArea: Option<int>)
    requires Sound(tk) && Shaped(sc)
    ensures var o := ImageOutcome(tk, st, sc, minArea);
      var gate := CheckImage(sc.raster, sc.cloud, sc.nodata, st.cloudThresh);
      && (gate.Reject? ==> o == Skipped(gate.reason))
      && (o.Skipped? && o.reason != TooFewClasses ==> gate == Reject(o.reason))
      && (o == Skipped(TooFewClasses) <==>
            && gate.Accept? && !PredictRefused(sc) && !NoShoreRows(st, sc)
            && LacksClassVariety(VegGrids(tk, sc, minArea).0, VegGrids(tk, sc, minArea).1))
  {
    var gate := CheckImage(sc.raster, sc.cloud, sc.nodata, st.cloudThresh);
    if gate.Reject? {
      assert gate.reason != TooFewClasses;
    } else if !PredictRefused(sc) && !NoShoreRows(st, sc) {
      var o := ClassifiedOutcome(tk, st, sc, minArea, gate.cloudCover);
      assert ImageOutcome(tk, st, sc, minArea) == o;
      var grids := VegGrids(tk, sc, minArea);
      if !LacksClassVariety(grids.0, grids.1) && !SamplesRefused(tk, sc, grids.0, grids.1) {
        var peaks := VegThreshold(tk, st, sc, grids.0, grids.1);
        if peaks.Threshold? {
          DetectionNotSkipped(tk, st, sc, minArea, gate.cloudCover, peaks.t);
        }
      }
    }
  }

  /**
    The run ends on the density fit exactly when the image passed the gate, the
    classifier and the class check, and one of its two class samples is empty
    or holds a NaN:
    `ClipIndexVec` finds no pixel of a class inside the dilated buffer (clouds
    over the buffer, say), or the index is NaN at a sampled pixel.
  */
  lemma SampleRefusedExactly(tk: Toolkit, st: Settings, sc: Scene, minArea: Option<int>)
    requires Sound(tk) && Shaped(sc)
    ensures var grids := VegGrids(tk, sc, minArea);
      ImageOutcome(tk, st, sc, minArea) == SampleRefused <==>
        && CheckImage(sc.raster, sc.cloud, sc.nodata, st.cloudThresh).Accept?
        && !PredictRefused(sc)
        && !NoShoreRows(st, sc)
        && !LacksClassVariety(grids.0, grids.1)
        && SamplesRefused(tk, sc, grids.0, grids.1)
  {
    var gate := CheckImage(sc.raster, sc.cloud, sc.nodata, st.cloudThresh);
    if gate.Accept? && !PredictRefused(sc) && !NoShoreRows(st, sc) {
      var o := ClassifiedOutcome(tk, st, sc, minArea, gate.cloudCover);
      assert ImageOutcome(tk, st, sc, minArea) == o;
      var grids := VegGrids(tk, sc, minArea);
      if !LacksClassVariety(grids.0, grids.1) && !SamplesRefused(tk, sc, grids.0, grids.1) {
        var peaks := VegThreshold(tk, st, sc, grids.0, grids.1);
        if peaks.Threshold? {
          DetectionNotSkipped(tk, st, sc, minArea, gate.cloudCover, peaks.t);
        }
      }
    }
  }

  /**
    The run ends on the classifier exactly when the image passed the gate and
    some clear pixel has an infinite vegetation feature; cloudy pixels are
    masked before `clf.predict` and never cause it.
  */
  lemma InfiniteFeatureExactly(tk: Toolkit, st: Settings, sc: Scene, minArea: Option<int>)
    requires Sound(tk) && Shaped(sc)
    ensures ImageOutcome(tk, st, sc, minArea) == InfiniteFeature <==>
      && CheckImage(sc.raster, sc.cloud, sc.nodata, st.cloudThresh).Accept?
      && exists i :: 0 <= i < |sc.cloud| && !sc.cloud[i] && AnyInf(sc.vegFeatures[i])
  {
    var gate := CheckImage(sc.raster, sc.cloud, sc.nodata, st.cloudThresh);
    if gate.Accept? && !PredictRefused(sc) && !NoShoreRows(st, sc) {
      var o := ClassifiedOutcome(tk, st, sc, minArea, gate.cloudCover);
      assert ImageOutcome(tk, st, sc, minArea) == o;
      var grids := VegGrids(tk, sc, minArea);
      if !LacksClassVariety(grids.0, grids.1) && !SamplesRefused(tk, sc, grids.0, grids.1) {
        var peaks := VegThreshold(tk, st, sc, grids.0, grids.1);
        if peaks.Threshold? {
          DetectionNotSkipped(tk, st, sc, minArea, gate.cloudCover, peaks.t);
        }
      }
    }
  }

  /**
    The run ends on the shore classifier exactly when `wetdry` is set, the image
    passed the gate and the vegetation classifier, and every pixel is cloudy or
    has an infinite shore feature.
  */
  lemma ShoreRefusedExactly(tk: Toolkit, st: Settings, sc: Scene, minArea: Option<int>)
    requires Sound(tk) && Shaped(sc)
    ensures ImageOutcome(tk, st, sc, minArea) == ShoreRefused <==>
      && st.wetdry
      && CheckImage(sc.raster, sc.cloud, sc.nodata, st.cloudThresh).Accept?
      && !PredictRefused(sc)
      && forall i :: 0 <= i < |sc.cloud| ==> sc.cloud[i] || AnyInf(sc.shoreFeatures[i])
  {
    var gate := CheckImage(sc.raster, sc.cloud, sc.nodata, st.cloudThresh);
    if st.wetdry {
      if NoShoreRows(st, sc) {
        NoShoreRowsExactly(sc);
      } else {
        ShoreRowsExist(sc);
      }
    }
    if gate.Accept? && !PredictRefused(sc) && !NoShoreRows(st, sc) {
      var o := ClassifiedOutcome(tk, st, sc, minArea, gate.cloudCover);
      assert ImageOutcome(tk, st, sc, minArea) == o;
      var grids := VegGrids(tk, sc, minArea);
      if !LacksClassVariety(grids.0, grids.1) && !SamplesRefused(tk, sc, grids.0, grids.1) {
        var peaks := VegThreshold(tk, st, sc, grids.0, grids.1);
        if peaks.Threshold? {
          DetectionNotSkipped(tk, st, sc, minArea, gate.cloudCover, peaks.t);
        }
      }
    }
  }

  /** No row reaches the shore classifier exactly when every pixel is cloudy or has an infinite shore feature. */
  lemma NoShoreRowsExactly(sc: Scene)
    requires Shaped(sc) && Count(Not(ShoreMask(sc.cloud, sc.shoreFeatures))) == 0
    ensures forall i :: 0 <= i < |sc.cloud| ==> sc.cloud[i] || AnyInf(sc.shoreFeatures[i])
  {
    var keep := Not(ShoreMask(sc.cloud, sc.shoreFeatures));
    CountExtremes(keep);
  }

  /** Some row reaches the shore classifier: a clear pixel with finite shore features. */
  lemma ShoreRowsExist(sc: Scene)
    requires Shaped(sc) && Count(Not(ShoreMask(sc.cloud, sc.shoreFeatures))) != 0
    ensures exists i :: 0 <= i < |sc.cloud| && !sc.cloud[i] && !AnyInf(sc.shoreFeatures[i])
  {
    var keep := Not(ShoreMask(sc.cloud, sc.shoreFeatures));
    CountExtremes(keep);
    var i :| 0 <= i < |keep| && keep[i];
    assert !sc.cloud[i] && !AnyInf(sc.shoreFeatures[i]);
  }

  /**
    How a recorded image got through: the gate accepted it with the cloud
    cover recorded, its clear pixels' features were finite, both classes cover at least 5% of it, both class samples
    could be fitted, and a threshold t0 was found from which the recorded
    outcome comes.
  */
  lemma KeptThroughDetection(tk: Toolkit, st: Settings, sc: Scene, minArea: Option<int>)
    requires Sound(tk) && Shaped(sc)
    requires ImageOutcome(tk, st, sc, minArea).Kept?
    ensures var o := ImageOutcome(tk, st, sc, minArea);
      var grids := VegGrids(tk, sc, minArea);
      && CheckImage(sc.raster, sc.cloud, sc.nodata, st.cloudThresh) == Accept(o.cloudCover)
      && !PredictRefused(sc)
      && !NoShoreRows(st, sc)
      && !LacksClassVariety(grids.0, grids.1)
      && !SamplesRefused(tk, sc, grids.0, grids.1)
      && var peaks := VegThreshold(tk, st, sc, grids.0, grids.1);
      && peaks.Threshold?
      && o == DetectionOutcome(tk, st, sc, minArea, o.cloudCover, peaks.t)
  {
    var gate := CheckImage(sc.raster, sc.cloud, sc.nodata, st.cloudThresh);
    assert gate.Accept? && !PredictRefused(sc) && !NoShoreRows(st, sc);
    var o := ClassifiedOutcome(tk, st, sc, minArea, gate.cloudCover);
    assert ImageOutcome(tk, st, sc, minArea) == o;
    var grids := VegGrids(tk, sc, minArea);
    assert !LacksClassVariety(grids.0, grids.1);
    assert !SamplesRefused(tk, sc, grids.0, grids.1);
    var peaks := VegThreshold(tk, st, sc, grids.0, grids.1);
    assert peaks.Threshold?;
    assert o == DetectionOutcome(tk, st, sc, minArea, gate.cloudCover, peaks.t);
    DetectionKept(tk, st, sc, minArea, gate.cloudCover, peaks.t);
  }

  /** A kept outcome after the threshold: the operator's checks it passed and the thresholds it carries. */
  lemma DetectionKept(tk: Toolkit, st: Settings, sc: Scene, minArea: Option<int>, cover: Ratio, t0: real)
    requires Sound(tk) && Shaped(sc)
    requires DetectionOutcome(tk, st, sc, minArea, cover, t0).Kept?
    ensures var o := DetectionOutcome(tk, st, sc, minArea, cover, t0);
      var used := sc.clicks[..FinishIndex(sc.clicks)];
      && o.cloudCover == cover
      && (st.checkDetection || st.adjustDetection ==> Decide(sc.keys, 0, None) == Keep)
      && (st.adjustDetection ==> Finished in sc.clicks && !st.wetdry && o.tNdvi == ThresholdAfter(used, t0))
      && (!st.adjustDetection ==> o.tNdvi == t0)
      && (o.tNdwi.Some? <==> st.wetdry)
      && (o.tNdwi.Some? ==> o.tNdwi.value == WaterThreshold(tk, sc, minArea))
  {
    if st.adjustDetection {
      assert DetectionOutcome(tk, st, sc, minArea, cover, t0) == AdjustedOutcome(st, sc, cover, t0);
    }
  }

  /**
    A recorded image passed every check: the gate accepted it with the cloud
    cover recorded, every clear pixel's vegetation features were finite, both
    classes cover at least 5% of it, both class samples are non-empty and
    NaN-free, and the operator, when asked, pressed 'right'. The waterline is
    there exactly when `wetdry` is set, which never happens together with
    `adjust_detection`.
  */
  lemma KeptPassedChecks(tk: Toolkit, st: Settings, sc: Scene, minArea: Option<int>)
    requires Sound(tk) && Shaped(sc)
    requires ImageOutcome(tk, st, sc, minArea).Kept?
    ensures var o := ImageOutcome(tk, st, sc, minArea);
      var grids := VegGrids(tk, sc, minArea);
      && CheckImage(sc.raster, sc.cloud, sc.nodata, st.cloudThresh) == Accept(o.cloudCover)
      && (forall i :: 0 <= i < |sc.cloud| && !sc.cloud[i] ==> !AnyInf(sc.vegFeatures[i]))
      && (st.wetdry ==> exists i :: 0 <= i < |sc.cloud| && !sc.cloud[i] && !AnyInf(sc.shoreFeatures[i]))
      && Count(grids.0) as real >= MinClassFraction * |sc.cloud| as real
      && Count(grids.1) as real >= MinClassFraction * |sc.cloud| as real
      && |VegSamples(tk, sc, grids.0, grids.1).0| > 0 && |VegSamples(tk, sc, grids.0, grids.1).1| > 0
      && !SamplesRefused(tk, sc, grids.0, grids.1)
      && (st.checkDetection || st.adjustDetection ==> Decide(sc.keys, 0, None) == Keep)
      && (st.adjustDetection ==> Finished in sc.clicks)
      && (o.tNdwi.Some? <==> st.wetdry)
      && !(st.adjustDetection && st.wetdry)
  {
    KeptThroughDetection(tk, st, sc, minArea);
    var o := ImageOutcome(tk, st, sc, minArea);
    var grids := VegGrids(tk, sc, minArea);
    var peaks := VegThreshold(tk, st, sc, grids.0, grids.1);
    DetectionKept(tk, st, sc, minArea, o.cloudCover, peaks.t);
    if st.wetdry {
      ShoreRowsExist(sc);
    }
  }

  /** With both `adjust_detection` and `wetdry` set, no image is ever recorded. */
  lemma AdjustWithWetdryRecordsNothing(tk: Toolkit, st: Settings, sc: Scene, minArea: Option<int>)
    requires Sound(tk) && Shaped(sc) && st.adjustDetection && st.wetdry
    ensures !ImageOutcome(tk, st, sc, minArea).Kept?
  {
    if ImageOutcome(tk, st, sc, minArea).Kept? {
      KeptPassedChecks(tk, st, sc, minArea);
    }
  }

  /**
    The recorded NDVI threshold: without adjustment, the weighted-peaks
    threshold, which lies in (-0.2, 0.99]; with adjustment, the x of the last
    click in (-1, 1) before Enter, or that threshold when there was none.
    The NDWI threshold, when there is one, is the water detection's.
  */
  lemma KeptThreshold(tk: Toolkit, st: Settings, sc: Scene, minArea: Option<int>)
    requires Sound(tk) && Shaped(sc)
    requires ImageOutcome(tk, st, sc, minArea).Kept?
    ensures var o := ImageOutcome(tk, st, sc, minArea);
      var grids := VegGrids(tk, sc, minArea);
      && !SamplesRefused(tk, sc, grids.0, grids.1)
      && var peaks := VegThreshold(tk, st, sc, grids.0, grids.1);
      var used := sc.clicks[..FinishIndex(sc.clicks)];
      && peaks.Threshold?
      && (!st.adjustDetection ==> o.tNdvi == peaks.t && -0.2 < o.tNdvi <= 0.99)
      && (st.adjustDetection ==> o.tNdvi == ThresholdAfter(used, peaks.t))
      && (st.adjustDetection && AnyAccepted(used) ==> -1.0 < o.tNdvi < 1.0)
      && (o.tNdwi.Some? ==> o.tNdwi.value == WaterThreshold(tk, sc, minArea))
  {
    KeptThroughDetection(tk, st, sc, minArea);
    var o := ImageOutcome(tk, st, sc, minArea);
    var grids := VegGrids(tk, sc, minArea);
    var peaks := VegThreshold(tk, st, sc, grids.0, grids.1);
    var used := sc.clicks[..FinishIndex(sc.clicks)];
    DetectionKept(tk, st, sc, minArea, o.cloudCover, peaks.t);
    if st.adjustDetection && AnyAccepted(used) {
      ThresholdAfterInRange(used, peaks.t);
    }
  }

  /**
    Lines obtained from any raw contours, the vegetation and the water lines
    alike, are each strictly longer than `min_length_sl` and have no vertex
    within 30 m of a cloud pixel; the two reprojections are of those lines.
  */
  lemma LinesClean(tk: Toolkit, st: Settings, sc: Scene, raw: seq<Contour>)
    requires Shaped(sc)
    ensures var ls := LinesFrom(tk, st, sc, raw);
      && ls.latlon == MapLines(tk.toLatLon, ls.lines) && ls.proj == MapLines(tk.toProj, ls.lines)
      && forall k :: 0 <= k < |ls.lines| ==>
        && tk.length(ls.lines[k]) > st.minLength
        && forall v :: 0 <= v < |ls.lines[k]| ==> !NearCloud(ls.lines[k][v], CloudPoints(tk, sc))
  {
    CleanedLinesSound(World(tk, raw), CloudPoints(tk, sc), tk.length, st.minLength);
  }

  /**
    What `ProcessShoreline` returns as written (the Findings of the README):
    the length filter alone over the NaN-free world lines, the cloud filter
    having no effect.
  */
  function LinesAsWritten(tk: Toolkit, st: Settings, sc: Scene, raw: seq<Contour>): LineSet
    requires Shaped(sc)
  {
    var lines := LongLines(World(tk, raw), tk.length, st.minLength);
    LineSet(lines, MapLines(tk.toLatLon, lines), MapLines(tk.toProj, lines))
  }

  /**
    As written, every recorded line is strictly longer than `min_length_sl`
    and is one of the NaN-free world lines, whole, whatever the clouds; every
    world line that long is recorded.
  */
  lemma LinesAsWrittenLong(tk: Toolkit, st: Settings, sc: Scene, raw: seq<Contour>)
    requires Shaped(sc)
    ensures var world := World(tk, raw);
      var ls := LinesAsWritten(tk, st, sc, raw);
      && (forall k :: 0 <= k < |ls.lines| ==> tk.length(ls.lines[k]) > st.minLength && ls.lines[k] in world)
      && (forall j :: 0 <= j < |world| && tk.length(world[j]) > st.minLength ==> world[j] in ls.lines)
  {
    LongLinesExactly(World(tk, raw), tk.length, st.minLength);
  }

  /** On an image without cloud pixels the corrected lines and the lines as written coincide. */
  lemma LinesAgreeWithoutClouds(tk: Toolkit, st: Settings, sc: Scene, raw: seq<Contour>)
    requires Shaped(sc) && Count(sc.cloud) == 0
    ensures LinesFrom(tk, st, sc, raw) == LinesAsWritten(tk, st, sc, raw)
  {
    assert CloudPoints(tk, sc) == [];
  }

  /** Without operator involvement, an image that passes the checks, has finite features at its clear pixels (and, with `wetdry`, a clear pixel with finite shore features), two fittable samples and a strong peak is always recorded. */
  lemma UncheckedAlwaysKept(tk: Toolkit, st: Settings, sc: Scene, minArea: Option<int>)
    requires Sound(tk) && Shaped(sc) && !st.adjustDetection && !st.checkDetection
    requires CheckImage(sc.raster, sc.cloud, sc.nodata, st.cloudThresh).Accept?
    requires !PredictRefused(sc)
    requires !NoShoreRows(st, sc)
    requires !LacksClassVariety(VegGrids(tk, sc, minArea).0, VegGrids(tk, sc, minArea).1)
    requires !SamplesRefused(tk, sc, VegGrids(tk, sc, minArea).0, VegGrids(tk, sc, minArea).1)
    requires VegThreshold(tk, st, sc, VegGrids(tk, sc, minArea).0, VegGrids(tk, sc, minArea).1).Threshold?
    ensures ImageOutcome(tk, st, sc, minArea).Kept?
  {
  }
}
