/**
  The weighted-peaks threshold of `FindShoreContours_WP`.

  The kernel-density estimates are inputs: one density per bin of the grid
  `np.arange(-1, 1, 0.01)`. numpy fills that grid as -1 + k*d, where
  d = (-1 + 0.01) - (-1) is, in double precision, slightly above 0.01; bin 100
  then comes out as 2^-50 instead of 0. The model takes bin 100 at 2^-50 and
  every other bin k at (k - 100) / 100 exactly, which gives every bin the sign
  numpy gives it, the one thing the clip to `bins > 0` looks at.
  `scipy.signal.find_peaks` is the parameter `findPeaks`, of which the model
  assumes only that it returns positions inside the vector it is given.
*/
module WeightedPeaks {
  import opened Wrappers

  /** Number of bins of `np.arange(-1, 1, 0.01)`. */
  const BinCount: nat := 200

  /** Index of the first bin whose value is above 0. */
  const FirstPositiveBin: nat := 100

  /** The value numpy computes for bin 100, 2^-50, where the decimal grid has 0. */
  const ArangeZero: real := 1.0 / 1125899906842624.0

  /** Value of bin k. */
  function Bin(k: int): real
  {
    if k == 100 then ArangeZero else (k - 100) as real / 100.0
  }

  /**
    The bins above 0 are exactly those from FirstPositiveBin on, so the clipped
    vector starts at numpy's 2^-50 and its second entry is the bin at 0.01.
  */
  lemma PositiveBins(k: int)
    ensures Bin(k) > 0.0 <==> k >= FirstPositiveBin
    ensures ClipBin(0) == ArangeZero && ClipBin(1) == 0.01
  {
  }

  /** Every bin of the grid lies in [-1, 0.99]. */
  lemma BinRange(k: int)
    requires 0 <= k < BinCount
    ensures -1.0 <= Bin(k) <= 0.99
  {
  }

  /**
    `list(probabilities).index(np.nanmax(probabilities))`: a position of the
    maximum, and the first such position.
  */
  function FirstArgMax(d: seq<real>): (i: nat)
    requires |d| > 0
    ensures i < |d|
    ensures forall j :: 0 <= j < |d| ==> d[j] <= d[i]
    ensures forall j :: 0 <= j < i ==> d[j] < d[i]
  {
    if |d| == 1 then 0
    else
      var i := FirstArgMax(d[..|d| - 1]);
      if d[|d| - 1] > d[i] then |d| - 1 else i
  }

  /** The two properties of FirstArgMax determine it: no other position has them. */
  lemma FirstArgMaxUnique(d: seq<real>, i: nat)
    requires i < |d|
    requires forall j :: 0 <= j < |d| ==> d[j] <= d[i]
    requires forall j :: 0 <= j < i ==> d[j] < d[i]
    ensures i == FirstArgMax(d)
  {
  }

  /** The weak (vegetation) peak: the bin at the first maximum of its density. */
  function WeakPeak(density: seq<real>): (p: real)
    requires |density| == BinCount
    ensures -1.0 <= p <= 0.99
    ensures exists k :: 0 <= k < BinCount && p == Bin(k) && forall j :: 0 <= j < BinCount ==> density[j] <= density[k]
  {
    var k := FirstArgMax(density);
    BinRange(k);
    Bin(k)
  }

  /** `bins[bins > 0]` and `probabilities[bins > 0]`: the last 100 bins, from bin 100 (2^-50) on. */
  function ClipProbs(density: seq<real>): (c: seq<real>)
    requires |density| == BinCount
    ensures |c| == BinCount - FirstPositiveBin
    ensures forall j :: 0 <= j < |c| ==> c[j] == density[FirstPositiveBin + j]
  {
    density[FirstPositiveBin..]
  }

  function ClipBin(j: nat): real
  {
    Bin(FirstPositiveBin + j)
  }

  /** The prominence of the m-th search of the relaxation: 0.5, 0.45, 0.4, ... */
  function Prominence(m: nat): real
  {
    0.5 - m as real * 0.05
  }

  /** What `find_peaks` is assumed to return: positions of the vector it was given. */
  ghost predicate PeaksInside(findPeaks: (seq<real>, real) -> seq<nat>)
  {
    forall x, prominence :: forall k :: 0 <= k < |findPeaks(x, prominence)| ==> findPeaks(x, prominence)[k] < |x|
  }

  /**
    The first search step from m on, up to maxRelax, whose `find_peaks` call
    finds a peak; None when all of them come back empty.
  */
  function FirstPeakStep(findPeaks: (seq<real>, real) -> seq<nat>, x: seq<real>, m: nat, maxRelax: nat)
    : (r: Option<nat>)
    ensures r.Some? ==>
      && m <= r.value <= maxRelax
      && findPeaks(x, Prominence(r.value)) != []
      && forall j :: m <= j < r.value ==> findPeaks(x, Prominence(j)) == []
    ensures r.None? <==> forall j :: m <= j <= maxRelax ==> findPeaks(x, Prominence(j)) == []
    decreases maxRelax + 1 - m
  {
    if m > maxRelax then None
    else if findPeaks(x, Prominence(m)) != [] then Some(m)
    else FirstPeakStep(findPeaks, x, m + 1, maxRelax)
  }

  /**
    The strong-peak search. One call at prominence 0.5; when it finds nothing,
    the loop calls again at 0.5, 0.45, ... until a call finds a peak. The first
    peak returned is taken. The source loop has no bound (a density with no
    local maximum above 0 keeps it running); here it gives up, with `found`
    false, once the searches up to step `maxRelax` have all come back empty.
    On success `step` is the first search step that found a peak and `calls`
    the number of `find_peaks` calls made (the loop repeats the 0.5 search).
  */
  method StrongPeak(findPeaks: (seq<real>, real) -> seq<nat>, clipprobs: seq<real>, maxRelax: nat)
    returns (found: bool, peak: nat, step: nat, calls: nat)
    requires PeaksInside(findPeaks)
    ensures found <==> FirstPeakStep(findPeaks, clipprobs, 0, maxRelax).Some?
    ensures found ==>
      && step == FirstPeakStep(findPeaks, clipprobs, 0, maxRelax).value
      && peak == findPeaks(clipprobs, Prominence(step))[0]
      && peak < |clipprobs|
      && calls == (if step == 0 then 1 else step + 2)
  {
    var prom := findPeaks(clipprobs, Prominence(0));
    calls, step := 1, 0;
    if prom == [] {
      var limit := 0;
      while prom == [] && limit <= maxRelax
        invariant limit <= maxRelax + 1
        invariant calls == limit + 1
        invariant prom == [] ==> forall j :: 0 <= j < limit ==> findPeaks(clipprobs, Prominence(j)) == []
        invariant prom == [] ==> findPeaks(clipprobs, Prominence(0)) == []
        invariant prom != [] ==>
          (&& 0 < limit
           && prom == findPeaks(clipprobs, Prominence(limit - 1))
           && forall j :: 0 <= j < limit - 1 ==> findPeaks(clipprobs, Prominence(j)) == [])
        decreases maxRelax + 1 - limit, if prom == [] then 1 else 0
      {
        prom := findPeaks(clipprobs, Prominence(limit));
        calls := calls + 1;
        limit := limit + 1;
      }
      if prom != [] {
        step := limit - 1;
      }
    }
    found := prom != [];
    peak := if found then prom[0] else 0;
  }

  /** Weight of the weak peak in the threshold. */
  const WeakWeight: real := 0.2

  /** Weight of the strong peak in the threshold. */
  const StrongWeight: real := 0.8

  /**
    `t = 0.2*peaks[0] + 0.8*peaks[1]`: a point between the two peaks, one fifth
    of the way from the strong peak towards the weak one, and strictly between
    them when they differ.
  */
  function WeightedThreshold(weak: real, strong: real): (t: real)
    ensures t - strong == (weak - strong) / 5.0
    ensures (if weak <= strong then weak else strong) <= t <= (if weak <= strong then strong else weak)
    ensures weak != strong ==> (if weak < strong then weak else strong) < t < (if weak < strong then strong else weak)
  {
    WeakWeight * weak + StrongWeight * strong
  }

  /** With a weak peak on the grid and a strong peak above 0, the threshold lies in (-0.2, 0.99]. */
  lemma ThresholdRange(weakBin: nat, strongBin: nat)
    requires weakBin < BinCount && strongBin < BinCount - FirstPositiveBin
    ensures -0.2 < WeightedThreshold(Bin(weakBin), ClipBin(strongBin)) <= 0.99
  {
    BinRange(weakBin);
    BinRange(FirstPositiveBin + strongBin);
  }

  /** Outcome of the peak selection: a threshold with the two peaks it came from, or no strong peak within the search bound. */
  datatype PeakResult = Threshold(t: real, weak: real, strong: real) | NoStrongPeak

  /**
    The threshold of `FindShoreContours_WP` from the two class densities: the
    weak peak from the vegetation density, the strong peak (the first one the
    relaxing search finds) from the non-vegetation density above 0.
  */
  function WeightedPeaksThreshold(vegDensity: seq<real>, nonvegDensity: seq<real>,
                                  findPeaks: (seq<real>, real) -> seq<nat>, maxRelax: nat)
    : (r: PeakResult)
    requires |vegDensity| == BinCount && |nonvegDensity| == BinCount
    requires PeaksInside(findPeaks)
    ensures r.NoStrongPeak? <==>
      forall j :: 0 <= j <= maxRelax ==> findPeaks(ClipProbs(nonvegDensity), Prominence(j)) == []
    ensures r.Threshold? ==>
      && r.weak == WeakPeak(vegDensity)
      && (exists m :: 0 <= m <= maxRelax
            && findPeaks(ClipProbs(nonvegDensity), Prominence(m)) != []
            && (forall j :: 0 <= j < m ==> findPeaks(ClipProbs(nonvegDensity), Prominence(j)) == [])
            && r.strong == ClipBin(findPeaks(ClipProbs(nonvegDensity), Prominence(m))[0]))
      && 0.0 < r.strong <= 0.99
      && r.t == WeightedThreshold(r.weak, r.strong)
      && -0.2 < r.t <= 0.99
  {
    var clipprobs := ClipProbs(nonvegDensity);
    match FirstPeakStep(findPeaks, clipprobs, 0, maxRelax)
    case None => NoStrongPeak
    case Some(m) =>
      var weakBin := FirstArgMax(vegDensity);
      var strongBin := findPeaks(clipprobs, Prominence(m))[0];
      ThresholdRange(weakBin, strongBin);
      var weak, strong := Bin(weakBin), ClipBin(strongBin);
      Threshold(WeightedThreshold(weak, strong), weak, strong)
  }
}
