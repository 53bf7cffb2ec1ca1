/**
  The batch accumulator of `extract_veglines`: one record of parallel lists per
  satellite, appended to once per recorded image, then packed into the three
  output dictionaries (output, lat/lon and projected systems).
*/
module Batch {
  import opened Wrappers
  import opened QualityGate
  import opened Shoreline
  import opened Pipeline
  import opened PixelScale

  /** What preprocessing gives for one image file: the scene and the acquisition time. */
  datatype Image = Image(scene: Scene, acqTime: string)

  /** `metadata[satname]`: file names, acquisition dates and georeferencing accuracy, one per image, and the preprocessed images. */
  datatype SatMeta = SatMeta(filenames: seq<string>, dates: seq<string>, accGeoref: seq<seq<real>>, images: seq<Image>)

  predicate MetaShaped(meta: SatMeta)
  {
    && |meta.dates| == |meta.filenames|
    && |meta.accGeoref| == |meta.filenames|
    && |meta.images| == |meta.filenames|
    && forall i :: 0 <= i < |meta.images| ==> Shaped(meta.images[i].scene)
  }

  /** One entry of the per-satellite output dictionaries; the geo-accuracy list is not part of it. */
  datatype SatOutput = SatOutput(
    dates: seq<string>,
    times: seq<string>,
    shorelines: seq<seq<Line>>,
    waterlines: seq<seq<Line>>,
    filename: seq<string>,
    cloudCover: seq<Ratio>,
    idx: seq<nat>,
    vthreshold: seq<real>,
    wthreshold: seq<real>)

  /** What is recorded for one image: its position among the satellite's files and one element of each list. */
  datatype Entry = Entry(
    index: nat,
    date: string,
    time: string,
    filename: string,
    cloudCover: Ratio,
    geoAccuracy: seq<real>,
    tNdvi: real,
    veg: LineSet,
    water: Option<Waterline>)

  /**
    The `output_*` lists of one satellite. The three lists of vegetation lines
    (output, lat/lon and projected systems) are kept as one list of line sets,
    and so are the three lists of waterlines.
  */
  class SatelliteRecord {
    var dates: seq<string>
    var times: seq<string>
    var veglines: seq<LineSet>
    var waterlines: seq<LineSet>
    var filenames: seq<string>
    var cloudCover: seq<Ratio>
    var geoAccuracy: seq<seq<real>>
    var idx: seq<nat>
    var tNdvi: seq<real>
    var tNdwi: seq<real>

    /**
      The lists stay parallel: every list that grows once per recorded image
      has one entry per index in `idx`, and the waterline lists have one too
      when `wetdry` is set and none otherwise. The indices are increasing
      positions of the satellite's files.
    */
    predicate Valid(nFiles: nat, wetdry: bool)
      reads this
    {
      Parallel(wetdry) && IncreasingBelow(idx, nFiles)
    }

    predicate Parallel(wetdry: bool)
      reads this
    {
      && |dates| == |idx| && |times| == |idx| && |veglines| == |idx|
      && |filenames| == |idx| && |cloudCover| == |idx| && |geoAccuracy| == |idx| && |tNdvi| == |idx|
      && |waterlines| == (if wetdry then |idx| else 0)
      && |tNdwi| == (if wetdry then |idx| else 0)
    }

    /** The lists read entry by entry: entry k is what was appended for image idx[k]. */
    function Entries(wetdry: bool): (es: seq<Entry>)
      reads this
      requires Parallel(wetdry)
      ensures |es| == |idx|
    {
      ZipEntries(idx, dates, times, filenames, cloudCover, geoAccuracy, tNdvi, veglines, waterlines, tNdwi, wetdry)
    }

    /** The lists initialised empty at the start of a satellite. */
    constructor ()
      ensures dates == [] && times == [] && filenames == [] && cloudCover == [] && geoAccuracy == []
      ensures veglines == [] && waterlines == [] && idx == [] && tNdvi == [] && tNdwi == []
    {
      dates, times, filenames, cloudCover, geoAccuracy := [], [], [], [], [];
      veglines, waterlines, idx, tNdvi, tNdwi := [], [], [], [], [];
    }

    /**
      The appends made for a recorded image i: every list grows by exactly the
      image's entry, the waterline lists only when `wetdry` is set.
    */
    method Append(nFiles: nat, i: nat, date: string, time: string, filename: string, cover: Ratio, geo: seq<real>,
                  d: Detection, wetdry: bool)
      modifies this
      requires wetdry ==> d.water.Some?
      requires Valid(nFiles, wetdry) && IncreasingBelow(idx, i) && i < nFiles
      ensures Valid(nFiles, wetdry) && IncreasingBelow(idx, i + 1)
      ensures dates == old(dates) + [date] && times == old(times) + [time]
      ensures veglines == old(veglines) + [d.veg]
      ensures wetdry ==> waterlines == old(waterlines) + [d.water.value.lines] && tNdwi == old(tNdwi) + [d.water.value.tNdwi]
      ensures !wetdry ==> waterlines == old(waterlines) && tNdwi == old(tNdwi)
      ensures filenames == old(filenames) + [filename] && cloudCover == old(cloudCover) + [cover]
      ensures geoAccuracy == old(geoAccuracy) + [geo]
      ensures idx == old(idx) + [i] && tNdvi == old(tNdvi) + [d.tNdvi]
      ensures Entries(wetdry) ==
        old(Entries(wetdry)) + [Entry(i, date, time, filename, cover, geo, d.tNdvi, d.veg, if wetdry then d.water else None)]
    {
      dates := dates + [date];
      times := times + [time];
      veglines := veglines + [d.veg];
      if wetdry {
        waterlines := waterlines + [d.water.value.lines];
        tNdwi := tNdwi + [d.water.value.tNdwi];
      }
      filenames := filenames + [filename];
      cloudCover := cloudCover + [cover];
      geoAccuracy := geoAccuracy + [geo];
      idx := idx + [i];
      tNdvi := tNdvi + [d.tNdvi];
      IncreasingExtend(old(idx), i, nFiles);
      ZipEntriesAppend(old(idx), old(dates), old(times), old(filenames), old(cloudCover), old(geoAccuracy), old(tNdvi),
                       old(veglines), old(waterlines), old(tNdwi), wetdry, waterlines, tNdwi,
                       Entry(i, date, time, filename, cover, geo, d.tNdvi, d.veg, if wetdry then d.water else None));
    }

    /** `output[satname]` in the output system; `output_latlon` and `output_proj` differ only in the lines. */
    function Output(): (o: SatOutput)
      reads this
      ensures |o.shorelines| == |veglines| && |o.waterlines| == |waterlines|
      ensures forall k :: 0 <= k < |veglines| ==> o.shorelines[k] == veglines[k].lines
      ensures forall k :: 0 <= k < |waterlines| ==> o.waterlines[k] == waterlines[k].lines
      ensures o.idx == idx && o.filename == filenames && o.dates == dates && o.times == times
      ensures o.cloudCover == cloudCover && o.vthreshold == tNdvi && o.wthreshold == tNdwi
    {
      Packed(Projection.Output)
    }

    function OutputLatLon(): (o: SatOutput)
      reads this
      ensures |o.shorelines| == |veglines| && |o.waterlines| == |waterlines|
      ensures forall k :: 0 <= k < |veglines| ==> o.shorelines[k] == veglines[k].latlon
      ensures forall k :: 0 <= k < |waterlines| ==> o.waterlines[k] == waterlines[k].latlon
      ensures o == Output().(shorelines := o.shorelines, waterlines := o.waterlines)
    {
      Packed(Projection.LatLon)
    }

    function OutputProj(): (o: SatOutput)
      reads this
      ensures |o.shorelines| == |veglines| && |o.waterlines| == |waterlines|
      ensures forall k :: 0 <= k < |veglines| ==> o.shorelines[k] == veglines[k].proj
      ensures forall k :: 0 <= k < |waterlines| ==> o.waterlines[k] == waterlines[k].proj
      ensures o == Output().(shorelines := o.shorelines, waterlines := o.waterlines)
    {
      Packed(Projection.Proj)
    }

    /** The three dictionary entries of this satellite. */
    function Packs(): Pack
      reads this
    {
      Pack(Output(), OutputLatLon(), OutputProj())
    }

    /** The lists packed into one dictionary entry, with the lines in one of the three systems; `geoAccuracy` is left out. */
    function Packed(p: Projection): SatOutput
      reads this
    {
      SatOutput(dates, times, InSystem(veglines, p), InSystem(waterlines, p), filenames, cloudCover, idx, tNdvi, tNdwi)
    }
  }

  datatype Projection = Output | LatLon | Proj

  /** `output[satname]`, `output_latlon[satname]` and `output_proj[satname]`. */
  datatype Pack = Pack(output: SatOutput, latlon: SatOutput, proj: SatOutput)

  /** Parallel lists read as one list of entries; the waterline lists are read only when `wetdry` is set. */
  function ZipEntries(ix: seq<nat>, ds: seq<string>, ts: seq<string>, fs: seq<string>, cs: seq<Ratio>, gs: seq<seq<real>>,
                      tv: seq<real>, vs: seq<LineSet>, ws: seq<LineSet>, tw: seq<real>, wetdry: bool): (es: seq<Entry>)
    requires |ds| == |ix| && |ts| == |ix| && |fs| == |ix| && |cs| == |ix| && |gs| == |ix| && |tv| == |ix| && |vs| == |ix|
    requires wetdry ==> |ws| == |ix| && |tw| == |ix|
    ensures |es| == |ix|
    ensures forall k :: 0 <= k < |ix| ==>
      es[k] == Entry(ix[k], ds[k], ts[k], fs[k], cs[k], gs[k], tv[k], vs[k], if wetdry then Some(Waterline(ws[k], tw[k])) else None)
  {
    seq(|ix|, k requires 0 <= k < |ix| =>
      Entry(ix[k], ds[k], ts[k], fs[k], cs[k], gs[k], tv[k], vs[k], if wetdry then Some(Waterline(ws[k], tw[k])) else None))
  }

  /** Appending one element to each list appends one entry. */
  lemma ZipEntriesAppend(ix: seq<nat>, ds: seq<string>, ts: seq<string>, fs: seq<string>, cs: seq<Ratio>, gs: seq<seq<real>>,
                         tv: seq<real>, vs: seq<LineSet>, ws: seq<LineSet>, tw: seq<real>, wetdry: bool,
                         ws': seq<LineSet>, tw': seq<real>, e: Entry)
    requires |ds| == |ix| && |ts| == |ix| && |fs| == |ix| && |cs| == |ix| && |gs| == |ix| && |tv| == |ix| && |vs| == |ix|
    requires wetdry ==> |ws| == |ix| && |tw| == |ix|
    requires wetdry ==> e.water.Some? && ws' == ws + [e.water.value.lines] && tw' == tw + [e.water.value.tNdwi]
    requires !wetdry ==> e.water == None
    ensures ZipEntries(ix + [e.index], ds + [e.date], ts + [e.time], fs + [e.filename], cs + [e.cloudCover],
                       gs + [e.geoAccuracy], tv + [e.tNdvi], vs + [e.veg], ws', tw', wetdry)
         == ZipEntries(ix, ds, ts, fs, cs, gs, tv, vs, ws, tw, wetdry) + [e]
  {
  }

  /** Strictly increasing indices, all below `bound`. */
  predicate IncreasingBelow(idx: seq<nat>, bound: nat)
  {
    && (forall k :: 0 <= k < |idx| ==> idx[k] < bound)
    && (forall k, l :: 0 <= k < l < |idx| ==> idx[k] < idx[l])
  }

  /** Appending an index above all earlier ones keeps them increasing, below any larger bound. */
  lemma IncreasingExtend(idx: seq<nat>, i: nat, bound: nat)
    requires IncreasingBelow(idx, i) && i < bound
    ensures IncreasingBelow(idx + [i], bound) && IncreasingBelow(idx + [i], i + 1)
  {
  }

  lemma IncreasingWeaken(idx: seq<nat>, i: nat, bound: nat)
    requires IncreasingBelow(idx, i) && i <= bound
    ensures IncreasingBelow(idx, bound)
  {
  }

  /** The lines of every line set in one of the three coordinate systems. */
  function InSystem(sets: seq<LineSet>, p: Projection): (r: seq<seq<Line>>)
    ensures |r| == |sets|
    ensures forall k :: 0 <= k < |sets| ==>
      r[k] == (match p case Output => sets[k].lines case LatLon => sets[k].latlon case Proj => sets[k].proj)
  {
    seq(|sets|, k requires 0 <= k < |sets| =>
      match p case Output => sets[k].lines case LatLon => sets[k].latlon case Proj => sets[k].proj)
  }

  // ---------------------------------------------------------------------------
  // Specification of one satellite's loop.

  /** Number of images processed: up to and including the first one that ends the run, or all of them. */
  function Processed(outs: seq<Outcome>): (n: nat)
    ensures n <= |outs|
    ensures n < |outs| ==> Ends(outs[n])
    ensures forall i :: 0 <= i < n ==> !Ends(outs[i])
  {
    if outs == [] then 0
    else if Ends(outs[0]) then 0
    else 1 + Processed(outs[1..])
  }

  /** The indices, below n, of the recorded images, in increasing order. */
  function KeptIndices(outs: seq<Outcome>, n: nat): (idx: seq<nat>)
    requires n <= |outs|
    decreases n
  {
    if n == 0 then []
    else KeptIndices(outs, n - 1) + (if outs[n - 1].Kept? then [n - 1] else [])
  }

  /** Exactly the recorded images below n appear, each once, in increasing order. */
  lemma {:induction false} KeptIndicesExactly(outs: seq<Outcome>, n: nat)
    requires n <= |outs|
    ensures forall k :: 0 <= k < |KeptIndices(outs, n)| ==>
      KeptIndices(outs, n)[k] < n && outs[KeptIndices(outs, n)[k]].Kept?
    ensures forall k, l :: 0 <= k < l < |KeptIndices(outs, n)| ==> KeptIndices(outs, n)[k] < KeptIndices(outs, n)[l]
    ensures forall i :: 0 <= i < n && outs[i].Kept? ==> i in KeptIndices(outs, n)
    decreases n
  {
    if n > 0 {
      KeptIndicesExactly(outs, n - 1);
    }
  }

  /** The outcome of every image of a satellite, in file order. */
  function Outcomes(tk: Toolkit, st: Settings, images: seq<Image>, minArea: Option<int>): (outs: seq<Outcome>)
    requires Sound(tk) && forall i :: 0 <= i < |images| ==> Shaped(images[i].scene)
    ensures |outs| == |images|
    ensures forall i :: 0 <= i < |images| ==> outs[i] == ImageOutcome(tk, st, images[i].scene, minArea)
  {
    seq(|images|, i requires 0 <= i < |images| => ImageOutcome(tk, st, images[i].scene, minArea))
  }

  /** What is appended for each image: the lines found at the thresholds of a kept outcome, nothing otherwise. */
  function Detections(tk: Toolkit, st: Settings, images: seq<Image>, outs: seq<Outcome>): (dets: seq<Option<Detection>>)
    requires |outs| == |images| && forall i :: 0 <= i < |images| ==> Shaped(images[i].scene)
    ensures Matches(outs, dets)
    ensures forall i :: 0 <= i < |outs| && outs[i].Kept? ==>
      dets[i] == Some(RecordedDetection(tk, st, images[i].scene, outs[i].tNdvi, outs[i].tNdwi))
  {
    seq(|images|, i requires 0 <= i < |images| =>
      if outs[i].Kept? then Some(RecordedDetection(tk, st, images[i].scene, outs[i].tNdvi, outs[i].tNdwi)) else None)
  }

  /** One outcome and one detection per image. */
  predicate Aligned(meta: SatMeta, outs: seq<Outcome>, dets: seq<Option<Detection>>)
  {
    MetaShaped(meta) && |outs| == |meta.images| && Matches(outs, dets)
  }

  /** One detection per outcome, present exactly for the kept ones. */
  predicate Matches(outs: seq<Outcome>, dets: seq<Option<Detection>>)
  {
    |dets| == |outs| && forall i :: 0 <= i < |outs| ==> (dets[i].Some? <==> outs[i].Kept?)
  }

  /** What is recorded for image i, whose outcome is Kept: the file's metadata, the outcome's cloud cover and NDVI threshold, and its lines. */
  function ExpectedEntry(meta: SatMeta, outs: seq<Outcome>, dets: seq<Option<Detection>>, i: nat): Entry
    requires Aligned(meta, outs, dets) && i < |outs| && outs[i].Kept?
  {
    Entry(i, meta.dates[i], meta.images[i].acqTime, meta.filenames[i], outs[i].cloudCover, meta.accGeoref[i],
          outs[i].tNdvi, dets[i].value.veg, dets[i].value.water)
  }

  /** The entries of the recorded images among the first n, in file order. */
  function ExpectedEntries(meta: SatMeta, outs: seq<Outcome>, dets: seq<Option<Detection>>, n: nat): seq<Entry>
    requires Aligned(meta, outs, dets) && n <= |outs|
    decreases n
  {
    if n == 0 then []
    else ExpectedEntries(meta, outs, dets, n - 1) + (if outs[n - 1].Kept? then [ExpectedEntry(meta, outs, dets, n - 1)] else [])
  }

  /** Entry k of the expected entries is the one of the k-th recorded image. */
  lemma {:induction false} ExpectedEntriesOfKept(meta: SatMeta, outs: seq<Outcome>, dets: seq<Option<Detection>>, n: nat)
    requires Aligned(meta, outs, dets) && n <= |outs|
    ensures var idx := KeptIndices(outs, n);
      && |ExpectedEntries(meta, outs, dets, n)| == |idx|
      && forall k :: 0 <= k < |idx| ==>
        idx[k] < |outs| && outs[idx[k]].Kept? && ExpectedEntries(meta, outs, dets, n)[k] == ExpectedEntry(meta, outs, dets, idx[k])
    decreases n
  {
    if n > 0 {
      ExpectedEntriesOfKept(meta, outs, dets, n - 1);
      var prev, idx := ExpectedEntries(meta, outs, dets, n - 1), KeptIndices(outs, n - 1);
      if outs[n - 1].Kept? {
        assert ExpectedEntries(meta, outs, dets, n) == prev + [ExpectedEntry(meta, outs, dets, n - 1)];
        assert KeptIndices(outs, n) == idx + [n - 1];
      } else {
        assert ExpectedEntries(meta, outs, dets, n) == prev && KeptIndices(outs, n) == idx;
      }
    }
  }

  /**
    The first i images were processed without ending the run, and the record
    holds, in file order, the entries of the recorded ones.
  */
  predicate Recorded(rec: SatelliteRecord, wetdry: bool, meta: SatMeta, outs: seq<Outcome>, dets: seq<Option<Detection>>, i: nat)
    reads rec
    requires Aligned(meta, outs, dets) && i <= |outs|
  {
    && rec.Parallel(wetdry)
    && rec.idx == KeptIndices(outs, i)
    && rec.Entries(wetdry) == ExpectedEntries(meta, outs, dets, i)
    && forall j :: 0 <= j < i ==> !Ends(outs[j])
  }

  /**
    Read list by list, a record of the first n images says: `idx` is strictly
    increasing and below the number of files, entry k of every list belongs to
    the file `idx[k]`, whose outcome was Kept, and every recorded image among
    the first n appears in `idx`.
  */
  lemma RecordedLists(rec: SatelliteRecord, wetdry: bool, meta: SatMeta, outs: seq<Outcome>, dets: seq<Option<Detection>>, n: nat)
    requires Aligned(meta, outs, dets) && n <= |outs| && Recorded(rec, wetdry, meta, outs, dets, n)
    ensures IncreasingBelow(rec.idx, |meta.filenames|)
    ensures forall k :: 0 <= k < |rec.idx| ==>
      var i := rec.idx[k];
      && i < |outs| && outs[i].Kept?
      && rec.filenames[k] == meta.filenames[i] && rec.dates[k] == meta.dates[i]
      && rec.times[k] == meta.images[i].acqTime && rec.geoAccuracy[k] == meta.accGeoref[i]
      && rec.cloudCover[k] == outs[i].cloudCover && rec.tNdvi[k] == outs[i].tNdvi
      && rec.veglines[k] == dets[i].value.veg
    ensures forall i :: 0 <= i < n && outs[i].Kept? ==> i in rec.idx
  {
    KeptIndicesExactly(outs, n);
    ExpectedEntriesOfKept(meta, outs, dets, n);
    var es := rec.Entries(wetdry);
    forall k | 0 <= k < |rec.idx|
      ensures var i := rec.idx[k];
        && i < |outs| && outs[i].Kept?
        && rec.filenames[k] == meta.filenames[i] && rec.dates[k] == meta.dates[i]
        && rec.times[k] == meta.images[i].acqTime && rec.geoAccuracy[k] == meta.accGeoref[i]
        && rec.cloudCover[k] == outs[i].cloudCover && rec.tNdvi[k] == outs[i].tNdvi
        && rec.veglines[k] == dets[i].value.veg
    {
      assert es[k] == ExpectedEntry(meta, outs, dets, rec.idx[k]);
    }
  }

  /** Image i's outcome and, when it is kept, its detection are what processing the image gives. */
  predicate OutcomeAt(tk: Toolkit, st: Settings, meta: SatMeta, minArea: Option<int>,
                      outs: seq<Outcome>, dets: seq<Option<Detection>>, i: nat)
    requires Sound(tk) && Aligned(meta, outs, dets) && i < |outs|
  {
    var sc := meta.images[i].scene;
    && outs[i] == ImageOutcome(tk, st, sc, minArea)
    && (outs[i].Kept? ==> dets[i] == Some(RecordedDetection(tk, st, sc, outs[i].tNdvi, outs[i].tNdwi)))
  }

  /** Every image's outcome and detection are what processing it gives. */
  predicate Describes(tk: Toolkit, st: Settings, meta: SatMeta, minArea: Option<int>,
                      outs: seq<Outcome>, dets: seq<Option<Detection>>)
    requires Sound(tk) && Aligned(meta, outs, dets)
  {
    forall i :: 0 <= i < |outs| ==> OutcomeAt(tk, st, meta, minArea, outs, dets, i)
  }

  /**
    The image loop of one satellite. It stops at the first image whose
    outcome ends the run (returned in `end`); the record then holds, in file
    order, the entry of every image recorded before it.
  */
  method ExtractSatellite(tk: Toolkit, st: Settings, meta: SatMeta, minArea: Option<int>)
    returns (rec: SatelliteRecord, end: Option<Outcome>)
    requires Sound(tk) && MetaShaped(meta)
    ensures fresh(rec)
    ensures var outs := Outcomes(tk, st, meta.images, minArea);
      var dets := Detections(tk, st, meta.images, outs);
      var n := Processed(outs);
      && (end.Some? <==> n < |outs|)
      && (end.Some? ==> end.value == outs[n])
      && Recorded(rec, st.wetdry, meta, outs, dets, n)
  {
    ghost var outs := Outcomes(tk, st, meta.images, minArea);
    ghost var dets := Detections(tk, st, meta.images, outs);
    assert Describes(tk, st, meta, minArea, outs, dets);
    rec, end := ImageLoop(tk, st, meta, minArea, outs, dets);
  }

  /** The loop itself, against the outcomes and detections of the images. */
  method ImageLoop(tk: Toolkit, st: Settings, meta: SatMeta, minArea: Option<int>,
                   ghost outs: seq<Outcome>, ghost dets: seq<Option<Detection>>)
    returns (rec: SatelliteRecord, end: Option<Outcome>)
    requires Sound(tk) && Aligned(meta, outs, dets) && Describes(tk, st, meta, minArea, outs, dets)
    ensures fresh(rec)
    ensures var n := Processed(outs);
      && (end.Some? <==> n < |outs|)
      && (end.Some? ==> end.value == outs[n])
      && Recorded(rec, st.wetdry, meta, outs, dets, n)
  {
    rec := new SatelliteRecord();
    end := None;
    var i := 0;
    while i < |meta.images| && end.None?
      invariant i <= |meta.images|
      invariant Recorded(rec, st.wetdry, meta, outs, dets, i)
      invariant end.Some? ==> i < |outs| && end.value == outs[i] && Ends(end.value)
      decreases |meta.images| - i, if end.None? then 1 else 0
    {
      var o := RecordImage(rec, tk, st, meta, minArea, i, outs, dets);
      if Ends(o) {
        end := Some(o);
      } else {
        i := i + 1;
      }
    }
    EndedAt(rec, st.wetdry, meta, outs, dets, i);
  }

  /** Where the loop stops, the images processed are those `Processed` counts. */
  lemma EndedAt(rec: SatelliteRecord, wetdry: bool, meta: SatMeta, outs: seq<Outcome>, dets: seq<Option<Detection>>, i: nat)
    requires Aligned(meta, outs, dets) && i <= |outs|
    requires Recorded(rec, wetdry, meta, outs, dets, i)
    requires i < |outs| ==> Ends(outs[i])
    ensures Processed(outs) == i
  {
    if i < |outs| {
      ProcessedAt(outs, i);
    } else {
      ProcessedAll(outs);
    }
  }

  /** The body of the image loop: process image i and, when it is recorded, append its entry. */
  method RecordImage(rec: SatelliteRecord, tk: Toolkit, st: Settings, meta: SatMeta, minArea: Option<int>, i: nat,
                     ghost outs: seq<Outcome>, ghost dets: seq<Option<Detection>>)
    returns (o: Outcome)
    modifies rec
    requires Sound(tk) && Aligned(meta, outs, dets) && i < |outs|
    requires OutcomeAt(tk, st, meta, minArea, outs, dets, i)
    requires Recorded(rec, st.wetdry, meta, outs, dets, i)
    ensures o == outs[i]
    ensures Ends(o) ==> Recorded(rec, st.wetdry, meta, outs, dets, i)
    ensures !Ends(o) ==> Recorded(rec, st.wetdry, meta, outs, dets, i + 1)
  {
    var det;
    o, det := ProcessImage(tk, st, meta.images[i].scene, minArea);
    StoreEntry(rec, st.wetdry, meta, i, o, det, outs, dets);
  }

  /** Appends the entry of image i when its outcome o is kept and does not end the run. */
  method StoreEntry(rec: SatelliteRecord, wetdry: bool, meta: SatMeta, i: nat, o: Outcome, det: Option<Detection>,
                    ghost outs: seq<Outcome>, ghost dets: seq<Option<Detection>>)
    modifies rec
    requires Aligned(meta, outs, dets) && i < |outs|
    requires o == outs[i] && det == dets[i]
    requires o.Kept? ==> det.value.tNdvi == o.tNdvi && (det.value.water.Some? <==> wetdry)
    requires Recorded(rec, wetdry, meta, outs, dets, i)
    ensures Ends(o) ==> Recorded(rec, wetdry, meta, outs, dets, i)
    ensures !Ends(o) ==> Recorded(rec, wetdry, meta, outs, dets, i + 1)
  {
    if o.Kept? {
      KeptIndicesExactly(outs, i);
      assert IncreasingBelow(rec.idx, i);
      IncreasingWeaken(rec.idx, i, |outs|);
      var d := det.value;
      rec.Append(|meta.images|, i, meta.dates[i], meta.images[i].acqTime, meta.filenames[i], o.cloudCover, meta.accGeoref[i],
                 d, wetdry);
      assert ExpectedEntries(meta, outs, dets, i + 1) == ExpectedEntries(meta, outs, dets, i) + [ExpectedEntry(meta, outs, dets, i)];
    }
  }

  lemma {:induction false} ProcessedAt(outs: seq<Outcome>, i: nat)
    requires i < |outs| && Ends(outs[i]) && forall j :: 0 <= j < i ==> !Ends(outs[j])
    ensures Processed(outs) == i
  {
    if i > 0 {
      ProcessedAt(outs[1..], i - 1);
    }
  }

  lemma {:induction false} ProcessedAll(outs: seq<Outcome>)
    requires forall j :: 0 <= j < |outs| ==> !Ends(outs[j])
    ensures Processed(outs) == |outs|
  {
    if outs != [] {
      ProcessedAll(outs[1..]);
    }
  }

  // ---------------------------------------------------------------------------
  // The loop over satellites.

  /** Why a run stops before its last satellite is done: no pixel size for a satellite, or an image that ends the run. */
  datatype Stop = NoPixelSize(sat: string) | Ended(sat: string, o: Outcome)

  /** `metadata[sat]['acc_georef']` for every satellite of the metadata. */
  function Georefs(metadata: map<string, SatMeta>): (g: Georef)
    ensures g.Keys == metadata.Keys
    ensures forall s :: s in metadata ==> g[s] == metadata[s].accGeoref
  {
    map s | s in metadata :: metadata[s].accGeoref
  }

  /** The minimum beach area in pixels for a satellite whose pixel size is known. */
  function MinAreaOf(metadata: map<string, SatMeta>, minBeachArea: real, sat: string): (a: Option<int>)
    requires PixelSize(sat, Georefs(metadata)).Some?
  {
    MinBeachAreaPixels(minBeachArea, PixelSize(sat, Georefs(metadata)).value)
  }

  /**
    Satellite `sat` has a pixel size, and `outs` and `dets` are what
    processing each of its images gives at the minimum area in pixels.
  */
  predicate Ran(tk: Toolkit, st: Settings, metadata: map<string, SatMeta>, minBeachArea: real, sat: string,
                outs: seq<Outcome>, dets: seq<Option<Detection>>)
    requires Sound(tk) && sat in metadata
  {
    && PixelSize(sat, Georefs(metadata)).Some?
    && Aligned(metadata[sat], outs, dets)
    && Describes(tk, st, metadata[sat], MinAreaOf(metadata, minBeachArea, sat), outs, dets)
  }

  /** Only one list of outcomes and detections fits a satellite's images. */
  lemma RanExactly(tk: Toolkit, st: Settings, metadata: map<string, SatMeta>, minBeachArea: real, sat: string,
                   outs: seq<Outcome>, dets: seq<Option<Detection>>)
    requires Sound(tk) && sat in metadata && Ran(tk, st, metadata, minBeachArea, sat, outs, dets)
    ensures outs == Outcomes(tk, st, metadata[sat].images, MinAreaOf(metadata, minBeachArea, sat))
    ensures dets == Detections(tk, st, metadata[sat].images, outs)
  {
    var meta, minArea := metadata[sat], MinAreaOf(metadata, minBeachArea, sat);
    var outs', dets' := Outcomes(tk, st, meta.images, minArea), Detections(tk, st, meta.images, outs);
    forall i | 0 <= i < |outs|
      ensures outs[i] == outs'[i] && dets[i] == dets'[i]
    {
      assert OutcomeAt(tk, st, meta, minArea, outs, dets, i);
    }
  }

  /**
    Satellite `sat` ran to its last image without ending the run, and `rec`
    holds the entries of its recorded images.
  */
  predicate SatelliteDone(tk: Toolkit, st: Settings, metadata: map<string, SatMeta>, minBeachArea: real, sat: string,
                          outs: seq<Outcome>, dets: seq<Option<Detection>>, rec: SatelliteRecord)
    reads rec
    requires Sound(tk) && sat in metadata
  {
    && Ran(tk, st, metadata, minBeachArea, sat, outs, dets)
    && Processed(outs) == |outs|
    && Recorded(rec, st.wetdry, metadata[sat], outs, dets, |outs|)
  }

  /** The three dictionaries hold, under `sat`, the record packed in each coordinate system. */
  predicate Stored(output: map<string, SatOutput>, outputLatLon: map<string, SatOutput>, outputProj: map<string, SatOutput>,
                   sat: string, pack: Pack)
  {
    && sat in output && output[sat] == pack.output
    && sat in outputLatLon && outputLatLon[sat] == pack.latlon
    && sat in outputProj && outputProj[sat] == pack.proj
  }

  /**
    One satellite: its pixel size, the minimum beach area in pixels, then its
    image loop. `stop` says why the satellite did not run to its last image.
  */
  method ExtractOne(tk: Toolkit, st: Settings, metadata: map<string, SatMeta>, minBeachArea: real, sat: string)
    returns (rec: SatelliteRecord, stop: Option<Stop>, ghost outs: seq<Outcome>, ghost dets: seq<Option<Detection>>)
    requires Sound(tk) && sat in metadata && MetaShaped(metadata[sat])
    ensures fresh(rec)
    ensures stop.None? ==> SatelliteDone(tk, st, metadata, minBeachArea, sat, outs, dets, rec)
    ensures stop.Some? ==> stop.value.sat == sat
    ensures stop.Some? ==> (stop.value.NoPixelSize? <==> PixelSize(sat, Georefs(metadata)).None?)
    ensures stop.Some? && stop.value.Ended? ==>
      Ran(tk, st, metadata, minBeachArea, sat, outs, dets) && Processed(outs) < |outs| && stop.value.o == outs[Processed(outs)]
  {
    var p := PixelSize(sat, Georefs(metadata));
    if p.None? {
      rec := new SatelliteRecord();
      return rec, Some(NoPixelSize(sat)), [], [];
    }
    var meta, minArea := metadata[sat], MinBeachAreaPixels(minBeachArea, p.value);
    outs := Outcomes(tk, st, meta.images, minArea);
    dets := Detections(tk, st, meta.images, outs);
    assert Describes(tk, st, meta, minArea, outs, dets);
    var end;
    rec, end := ImageLoop(tk, st, meta, minArea, outs, dets);
    stop := if end.Some? then Some(Ended(sat, end.value)) else None;
  }

  /**
    `extract_veglines`: the satellites in the order of the metadata's keys,
    each packed into the three dictionaries once its images are done. The run
    stops at the first satellite that has no pixel size or whose image loop
    ends the run. `recs`, `outs` and `dets` are the records, outcomes and
    detections of the satellites done before it, `stopOuts` and `stopDets`
    those of the satellite whose image loop ended the run.
  */
  method ExtractVeglines(tk: Toolkit, st: Settings, sats: seq<string>, metadata: map<string, SatMeta>, minBeachArea: real)
    returns (output: map<string, SatOutput>, outputLatLon: map<string, SatOutput>, outputProj: map<string, SatOutput>,
             stop: Option<Stop>, ghost recs: seq<SatelliteRecord>, ghost packs: seq<Pack>,
             ghost outs: seq<seq<Outcome>>, ghost dets: seq<seq<Option<Detection>>>,
             ghost stopOuts: seq<Outcome>, ghost stopDets: seq<Option<Detection>>)
    requires Sound(tk) && Keyed(sats, metadata)
    ensures |recs| <= |sats|
    ensures stop.None? <==> |recs| == |sats|
    ensures Progress(tk, st, sats, metadata, minBeachArea, output, outputLatLon, outputProj, recs, packs, outs, dets)
    ensures stop.Some? ==> Halted(tk, st, metadata, minBeachArea, sats[|recs|], stop.value, stopOuts, stopDets)
  {
    output, outputLatLon, outputProj := map[], map[], map[];
    recs, packs, outs, dets, stopOuts, stopDets := [], [], [], [], [], [];
    stop := None;
    var m := 0;
    while m < |sats| && stop.None?
      invariant m == |recs| <= |sats|
      invariant Progress(tk, st, sats, metadata, minBeachArea, output, outputLatLon, outputProj, recs, packs, outs, dets)
      invariant stop.Some? ==> m < |sats| && Halted(tk, st, metadata, minBeachArea, sats[m], stop.value, stopOuts, stopDets)
      decreases |sats| - m, if stop.None? then 1 else 0
    {
      output, outputLatLon, outputProj, stop, recs, packs, outs, dets, stopOuts, stopDets :=
        AddSatellite(tk, st, sats, metadata, minBeachArea, m, output, outputLatLon, outputProj, recs, packs, outs, dets);
      if stop.None? {
        m := m + 1;
      }
    }
  }

  /** The satellite names are exactly the metadata's keys, each once, and every satellite's metadata is well formed. */
  ghost predicate Keyed(sats: seq<string>, metadata: map<string, SatMeta>)
  {
    && (forall s :: s in metadata <==> s in sats)
    && (forall j, k :: 0 <= j < k < |sats| ==> sats[j] != sats[k])
    && (forall s :: s in metadata ==> MetaShaped(metadata[s]))
  }

  /**
    The first |recs| satellites are done with records `recs`, outcomes `outs`
    and detections `dets`, and the dictionaries hold exactly them.
  */
  predicate Progress(tk: Toolkit, st: Settings, sats: seq<string>, metadata: map<string, SatMeta>, minBeachArea: real,
                     output: map<string, SatOutput>, outputLatLon: map<string, SatOutput>, outputProj: map<string, SatOutput>,
                     recs: seq<SatelliteRecord>, packs: seq<Pack>, outs: seq<seq<Outcome>>, dets: seq<seq<Option<Detection>>>)
    reads recs
    requires Sound(tk) && Keyed(sats, metadata)
  {
    && AllDone(tk, st, sats, metadata, minBeachArea, recs, packs, outs, dets)
    && AllStored(sats, output, outputLatLon, outputProj, packs)
  }

  /**
    The first |recs| satellites are done with records `recs`, outcomes `outs`
    and detections `dets`, and `packs` are the records packed.
  */
  predicate AllDone(tk: Toolkit, st: Settings, sats: seq<string>, metadata: map<string, SatMeta>, minBeachArea: real,
                    recs: seq<SatelliteRecord>, packs: seq<Pack>, outs: seq<seq<Outcome>>, dets: seq<seq<Option<Detection>>>)
    reads recs
    requires Sound(tk) && Keyed(sats, metadata)
  {
    && |recs| <= |sats| && |packs| == |recs| && |outs| == |recs| && |dets| == |recs|
    && forall j {:trigger DoneAs(tk, st, metadata, minBeachArea, sats[j], outs[j], dets[j], recs[j], packs[j])} :: 0 <= j < |recs| ==>
         DoneAs(tk, st, metadata, minBeachArea, sats[j], outs[j], dets[j], recs[j], packs[j])
  }

  /** Satellite `sat` is done with record `rec`, and `pack` is that record packed. */
  predicate DoneAs(tk: Toolkit, st: Settings, metadata: map<string, SatMeta>, minBeachArea: real, sat: string,
                   outs: seq<Outcome>, dets: seq<Option<Detection>>, rec: SatelliteRecord, pack: Pack)
    reads rec
    requires Sound(tk) && sat in metadata
  {
    SatelliteDone(tk, st, metadata, minBeachArea, sat, outs, dets, rec) && pack == rec.Packs()
  }

  /** The dictionaries hold exactly the first |packs| satellites, each with its pack. */
  predicate AllStored(sats: seq<string>, output: map<string, SatOutput>, outputLatLon: map<string, SatOutput>,
                      outputProj: map<string, SatOutput>, packs: seq<Pack>)
  {
    && |packs| <= |sats|
    && output.Keys == outputLatLon.Keys == outputProj.Keys == FirstOf(sats, |packs|)
    && forall j {:trigger Stored(output, outputLatLon, outputProj, sats[j], packs[j])} :: 0 <= j < |packs| ==>
         Stored(output, outputLatLon, outputProj, sats[j], packs[j])
  }

  /** Why satellite `sat` stopped the run: it has no pixel size, or its image loop ended at `stop.o`. */
  predicate Halted(tk: Toolkit, st: Settings, metadata: map<string, SatMeta>, minBeachArea: real, sat: string, stop: Stop,
                   outs: seq<Outcome>, dets: seq<Option<Detection>>)
    requires Sound(tk) && sat in metadata
  {
    && stop.sat == sat
    && (stop.NoPixelSize? <==> PixelSize(sat, Georefs(metadata)).None?)
    && (stop.Ended? ==>
         Ran(tk, st, metadata, minBeachArea, sat, outs, dets) && Processed(outs) < |outs| && stop.o == outs[Processed(outs)])
  }

  /** The body of the satellite loop: run satellite m and, when it is done, store it in the three dictionaries. */
  method AddSatellite(tk: Toolkit, st: Settings, sats: seq<string>, metadata: map<string, SatMeta>, minBeachArea: real, m: nat,
                      output: map<string, SatOutput>, outputLatLon: map<string, SatOutput>, outputProj: map<string, SatOutput>,
                      ghost recs: seq<SatelliteRecord>, ghost packs: seq<Pack>,
                      ghost outs: seq<seq<Outcome>>, ghost dets: seq<seq<Option<Detection>>>)
    returns (output': map<string, SatOutput>, outputLatLon': map<string, SatOutput>, outputProj': map<string, SatOutput>,
             stop: Option<Stop>, ghost recs': seq<SatelliteRecord>, ghost packs': seq<Pack>,
             ghost outs': seq<seq<Outcome>>, ghost dets': seq<seq<Option<Detection>>>,
             ghost stopOuts: seq<Outcome>, ghost stopDets: seq<Option<Detection>>)
    requires Sound(tk) && Keyed(sats, metadata) && m == |recs| < |sats|
    requires Progress(tk, st, sats, metadata, minBeachArea, output, outputLatLon, outputProj, recs, packs, outs, dets)
    ensures Progress(tk, st, sats, metadata, minBeachArea, output', outputLatLon', outputProj', recs', packs', outs', dets')
    ensures stop.None? ==> |recs'| == m + 1
    ensures stop.Some? ==> |recs'| == m && Halted(tk, st, metadata, minBeachArea, sats[m], stop.value, stopOuts, stopDets)
  {
    var sat := sats[m];
    var rec;
    ghost var o, d;
    rec, stop, o, d := ExtractOne(tk, st, metadata, minBeachArea, sat);
    if stop.Some? {
      output', outputLatLon', outputProj', recs', packs', outs', dets', stopOuts, stopDets :=
        output, outputLatLon, outputProj, recs, packs, outs, dets, o, d;
    } else {
      var pack := rec.Packs();
      output', outputLatLon', outputProj' := output[sat := pack.output], outputLatLon[sat := pack.latlon], outputProj[sat := pack.proj];
      assert AllDone(tk, st, sats, metadata, minBeachArea, recs, packs, outs, dets);
      DoneAfter(tk, st, metadata, minBeachArea, sats, outs, dets, recs, packs, o, d, rec, pack);
      StoredAfter(output, outputLatLon, outputProj, sats, packs, pack);
      recs', packs', outs', dets', stopOuts, stopDets := recs + [rec], packs + [pack], outs + [o], dets + [d], [], [];
    }
  }

  /** The first n satellites of the list. */
  function FirstOf(sats: seq<string>, n: nat): (r: set<string>)
    requires n <= |sats|
    ensures forall s :: s in r <==> exists j :: 0 <= j < n && sats[j] == s
  {
    set j | 0 <= j < n :: sats[j]
  }

  lemma FirstOfSnoc(sats: seq<string>, n: nat)
    requires n < |sats|
    ensures FirstOf(sats, n + 1) == FirstOf(sats, n) + {sats[n]}
  {
  }

  /** Storing one more satellite, not stored before, keeps what was stored for the others. */
  lemma StoredAfter(output: map<string, SatOutput>, outputLatLon: map<string, SatOutput>, outputProj: map<string, SatOutput>,
                    sats: seq<string>, packs: seq<Pack>, pack: Pack)
    requires |packs| < |sats| && forall j, k :: 0 <= j < k < |sats| ==> sats[j] != sats[k]
    requires AllStored(sats, output, outputLatLon, outputProj, packs)
    ensures var sat := sats[|packs|];
      AllStored(sats, output[sat := pack.output], outputLatLon[sat := pack.latlon], outputProj[sat := pack.proj], packs + [pack])
  {
    var sat := sats[|packs|];
    FirstOfSnoc(sats, |packs|);
    KeysAfter(output, sat, pack.output);
    KeysAfter(outputLatLon, sat, pack.latlon);
    KeysAfter(outputProj, sat, pack.proj);
    StoredValuesAfter(output, outputLatLon, outputProj, sats, packs, pack);
  }

  lemma KeysAfter(m: map<string, SatOutput>, k: string, v: SatOutput)
    ensures m[k := v].Keys == m.Keys + {k}
  {
  }

  lemma StoredValuesAfter(output: map<string, SatOutput>, outputLatLon: map<string, SatOutput>, outputProj: map<string, SatOutput>,
                          sats: seq<string>, packs: seq<Pack>, pack: Pack)
    requires |packs| < |sats| && forall j, k :: 0 <= j < k < |sats| ==> sats[j] != sats[k]
    requires forall j :: 0 <= j < |packs| ==> Stored(output, outputLatLon, outputProj, sats[j], packs[j])
    ensures var sat := sats[|packs|];
      forall j :: 0 <= j < |packs| + 1 ==>
        Stored(output[sat := pack.output], outputLatLon[sat := pack.latlon], outputProj[sat := pack.proj], sats[j], (packs + [pack])[j])
  {
    var sat := sats[|packs|];
    forall j | 0 <= j < |packs| + 1
      ensures Stored(output[sat := pack.output], outputLatLon[sat := pack.latlon], outputProj[sat := pack.proj],
                     sats[j], (packs + [pack])[j])
    {
      if j < |packs| {
        assert sats[j] != sat;
        assert Stored(output, outputLatLon, outputProj, sats[j], packs[j]);
      }
    }
  }

  /** One more satellite done extends the satellites done. */
  lemma DoneAfter(tk: Toolkit, st: Settings, metadata: map<string, SatMeta>, minBeachArea: real, sats: seq<string>,
                  outs: seq<seq<Outcome>>, dets: seq<seq<Option<Detection>>>, recs: seq<SatelliteRecord>, packs: seq<Pack>,
                  o: seq<Outcome>, d: seq<Option<Detection>>, rec: SatelliteRecord, pack: Pack)
    requires Sound(tk) && Keyed(sats, metadata) && |recs| < |sats|
    requires AllDone(tk, st, sats, metadata, minBeachArea, recs, packs, outs, dets)
    requires SatelliteDone(tk, st, metadata, minBeachArea, sats[|recs|], o, d, rec) && pack == rec.Packs()
    ensures AllDone(tk, st, sats, metadata, minBeachArea, recs + [rec], packs + [pack], outs + [o], dets + [d])
  {
    forall j | 0 <= j < |recs| + 1
      ensures DoneAs(tk, st, metadata, minBeachArea, sats[j], (outs + [o])[j], (dets + [d])[j], (recs + [rec])[j], (packs + [pack])[j])
    {
      if j < |recs| {
        assert DoneAs(tk, st, metadata, minBeachArea, sats[j], outs[j], dets[j], recs[j], packs[j]);
      }
    }
  }
}
