/**
  Line cleaning after contouring: `ProcessShoreline` (lines kept as separate
  features) and the legacy `process_shoreline` (lines flattened into one point
  array).

  Lines arrive in world coordinates of the image's reference system, which is
  also the output system (the drivers set the output EPSG to the image EPSG).
  The cloud pixels arrive as world coordinates too. Line length (shapely's
  `LineString.length`) and the reprojections to lat/lon and to the projected
  system are collaborators passed in as functions.
*/
module Shoreline {
  import opened Masking
  import opened Contours

  /** A line of world coordinates. */
  type Line = seq<Point>

  /** Vertices closer than this to a cloud pixel (in metres) are removed. */
  const CloudDistance: real := 30.0

  function SqDist(p: Point, q: Point): (d: real)
    ensures d >= 0.0
  {
    (p.0 - q.0) * (p.0 - q.0) + (p.1 - q.1) * (p.1 - q.1)
  }

  /**
    `np.any(np.linalg.norm(p - coords_cloud, axis=1) < 30)`: a Euclidean
    distance below 30 is a squared distance below 900, so no square root is needed.
  */
  predicate NearCloud(p: Point, clouds: seq<Point>)
  {
    exists c :: 0 <= c < |clouds| && SqDist(p, clouds[c]) < CloudDistance * CloudDistance
  }

  /** Which vertices of a line are at least 30 m from every cloud pixel. */
  function FarMask(line: Line, clouds: seq<Point>): (m: seq<bool>)
    ensures |m| == |line| && forall k :: 0 <= k < |line| ==> (m[k] <==> !NearCloud(line[k], clouds))
  {
    seq(|line|, k requires 0 <= k < |line| => !NearCloud(line[k], clouds))
  }

  /** A line with the vertices near clouds removed. */
  function AwayFromClouds(line: Line, clouds: seq<Point>): Line
  {
    Compress(line, FarMask(line, clouds))
  }

  function CloudFiltered(lines: seq<Line>, clouds: seq<Point>): (r: seq<Line>)
    ensures |r| == |lines| && forall j :: 0 <= j < |lines| ==> r[j] == AwayFromClouds(lines[j], clouds)
  {
    seq(|lines|, j requires 0 <= j < |lines| => AwayFromClouds(lines[j], clouds))
  }

  /**
    The cloud filter on one line keeps only vertices at least 30 m from every
    cloud pixel, and the vertices that stay keep their order.
  */
  lemma AwayFromCloudsSound(line: Line, clouds: seq<Point>)
    ensures forall k :: 0 <= k < |AwayFromClouds(line, clouds)| ==>
      var i := Position(FarMask(line, clouds), k);
      !NearCloud(line[i], clouds) && AwayFromClouds(line, clouds)[k] == line[i]
    ensures forall k :: 0 < k < |AwayFromClouds(line, clouds)| ==>
      Position(FarMask(line, clouds), k - 1) < Position(FarMask(line, clouds), k)
  {
    var m := FarMask(line, clouds);
    forall k | 0 <= k < |Compress(line, m)|
      ensures var i := Position(m, k); !NearCloud(line[i], clouds) && Compress(line, m)[k] == line[i]
    {
      CompressFrom(line, m, k);
    }
    forall k | 0 < k < |Compress(line, m)|
      ensures Position(m, k - 1) < Position(m, k)
    {
      PositionIncreasing(m, k - 1, k);
    }
  }

  /**
    Every vertex at least 30 m from every cloud pixel stays, at the number of
    such vertices before it; without cloud pixels nothing is removed.
  */
  lemma AwayFromCloudsComplete(line: Line, clouds: seq<Point>)
    ensures forall i :: 0 <= i < |line| && !NearCloud(line[i], clouds) ==>
      Count(FarMask(line, clouds)[..i]) < |AwayFromClouds(line, clouds)|
      && AwayFromClouds(line, clouds)[Count(FarMask(line, clouds)[..i])] == line[i]
    ensures clouds == [] ==> AwayFromClouds(line, clouds) == line
  {
    var m := FarMask(line, clouds);
    forall i | 0 <= i < |line| && !NearCloud(line[i], clouds)
      ensures Count(m[..i]) < |Compress(line, m)| && Compress(line, m)[Count(m[..i])] == line[i]
    {
      CompressAt(line, m, i);
    }
    if clouds == [] {
      CompressAllTrue(line, m);
    }
  }

  /**
    The nested loops of `ProcessShoreline` that build `idx_keep`: one all-True
    mask per line, with a vertex turned False when it is near a cloud pixel.
  */
  method CloudKeepMasks(lines: seq<Line>, clouds: seq<Point>) returns (keep: seq<seq<bool>>)
    ensures |keep| == |lines| && forall j :: 0 <= j < |lines| ==> keep[j] == FarMask(lines[j], clouds)
  {
    keep := [];
    for j := 0 to |lines|
      invariant |keep| == j && forall i :: 0 <= i < j ==> keep[i] == FarMask(lines[i], clouds)
    {
      keep := keep + [seq(|lines[j]|, _ => true)];
      for k := 0 to |lines[j]|
        invariant |keep| == j + 1 && forall i :: 0 <= i < j ==> keep[i] == FarMask(lines[i], clouds)
        invariant |keep[j]| == |lines[j]|
        invariant forall l :: 0 <= l < k ==> (keep[j][l] <==> !NearCloud(lines[j][l], clouds))
        invariant forall l :: k <= l < |lines[j]| ==> keep[j][l]
      {
        if NearCloud(lines[j][k], clouds) {
          keep := keep[j := keep[j][k := false]];
        }
      }
      assert keep[j] == FarMask(lines[j], clouds);
    }
  }

  /** `[line[keep_j] for each line]`. */
  function MaskLines(lines: seq<Line>, keep: seq<seq<bool>>): (r: seq<Line>)
    requires |keep| == |lines| && forall j :: 0 <= j < |lines| ==> |keep[j]| == |lines[j]|
    ensures |r| == |lines| && forall j :: 0 <= j < |lines| ==> r[j] == Compress(lines[j], keep[j])
  {
    seq(|lines|, j requires 0 <= j < |lines| => Compress(lines[j], keep[j]))
  }

  function LongMask(lines: seq<Line>, length: Line -> real, minLength: real): (m: seq<bool>)
    ensures |m| == |lines| && forall j :: 0 <= j < |lines| ==> (m[j] <==> length(lines[j]) > minLength)
  {
    seq(|lines|, j requires 0 <= j < |lines| => length(lines[j]) > minLength)
  }

  /** `contoursGS[contoursGS.length > min_length_sl]`. */
  function LongLines(lines: seq<Line>, length: Line -> real, minLength: real): seq<Line>
  {
    Compress(lines, LongMask(lines, length, minLength))
  }

  /**
    The length filter keeps a line exactly when its length is strictly above
    the minimum, and keeps the kept lines in order.
  */
  lemma LongLinesExactly(lines: seq<Line>, length: Line -> real, minLength: real)
    ensures forall k :: 0 <= k < |LongLines(lines, length, minLength)| ==>
      var j := Position(LongMask(lines, length, minLength), k);
      length(lines[j]) > minLength && LongLines(lines, length, minLength)[k] == lines[j]
    ensures forall k :: 0 < k < |LongLines(lines, length, minLength)| ==>
      Position(LongMask(lines, length, minLength), k - 1) < Position(LongMask(lines, length, minLength), k)
    ensures forall j :: 0 <= j < |lines| && length(lines[j]) > minLength ==>
      lines[j] in LongLines(lines, length, minLength)
  {
    var m := LongMask(lines, length, minLength);
    forall k | 0 <= k < |Compress(lines, m)|
      ensures var j := Position(m, k); length(lines[j]) > minLength && Compress(lines, m)[k] == lines[j]
    {
      CompressFrom(lines, m, k);
    }
    forall k | 0 < k < |Compress(lines, m)|
      ensures Position(m, k - 1) < Position(m, k)
    {
      PositionIncreasing(m, k - 1, k);
    }
    forall j | 0 <= j < |lines| && length(lines[j]) > minLength
      ensures lines[j] in Compress(lines, m)
    {
      CompressAt(lines, m, j);
    }
  }

  function MapLines(f: Line -> Line, lines: seq<Line>): (r: seq<Line>)
    ensures |r| == |lines| && forall j :: 0 <= j < |lines| ==> r[j] == f(lines[j])
  {
    seq(|lines|, j requires 0 <= j < |lines| => f(lines[j]))
  }

  /** The three versions of a detected line set: output system, lat/lon, projected system. */
  datatype LineSet = LineSet(lines: seq<Line>, latlon: seq<Line>, proj: seq<Line>)

  /**
    `ProcessShoreline` as written: the list branch computes the cloud-filtered
    lines but stores them under a different name (`contour_world`), so the
    length filter and everything after it see the unfiltered lines.
  */
  method ProcessShorelineAsWritten(contoursWorld: seq<Line>, clouds: seq<Point>,
                                   length: Line -> real, minLength: real,
                                   toLatLon: Line -> Line, toProj: Line -> Line)
    returns (r: LineSet)
    ensures r.lines == LongLines(contoursWorld, length, minLength)
    ensures r.latlon == MapLines(toLatLon, r.lines) && r.proj == MapLines(toProj, r.lines)
  {
    if |clouds| > 0 {
      var keep := CloudKeepMasks(contoursWorld, clouds);
      var contourWorld := MaskLines(contoursWorld, keep);
    }
    var shoreline := LongLines(contoursWorld, length, minLength);
    r := LineSet(shoreline, MapLines(toLatLon, shoreline), MapLines(toProj, shoreline));
  }

  /**
    The lines `ProcessShoreline` is meant to return: the lines, with every
    vertex near a cloud pixel removed when there are cloud pixels, that are
    strictly longer than the minimum.
  */
  function CleanedLines(lines: seq<Line>, clouds: seq<Point>, length: Line -> real, minLength: real): seq<Line>
  {
    LongLines(if |clouds| > 0 then CloudFiltered(lines, clouds) else lines, length, minLength)
  }

  /**
    Every cleaned line is strictly longer than the minimum, is an input line
    with some vertices removed, and has no vertex within 30 m of a cloud pixel.
  */
  lemma CleanedLinesSound(lines: seq<Line>, clouds: seq<Point>, length: Line -> real, minLength: real)
    ensures forall k :: 0 <= k < |CleanedLines(lines, clouds, length, minLength)| ==>
      var l := CleanedLines(lines, clouds, length, minLength)[k];
      && length(l) > minLength
      && (exists j :: 0 <= j < |lines| && multiset(l) <= multiset(lines[j]))
      && forall v :: 0 <= v < |l| ==> !NearCloud(l[v], clouds)
  {
    var filtered := if |clouds| > 0 then CloudFiltered(lines, clouds) else lines;
    var out := CleanedLines(lines, clouds, length, minLength);
    LongLinesExactly(filtered, length, minLength);
    forall k | 0 <= k < |out|
      ensures length(out[k]) > minLength
      ensures exists j :: 0 <= j < |lines| && multiset(out[k]) <= multiset(lines[j])
      ensures forall v :: 0 <= v < |out[k]| ==> !NearCloud(out[k][v], clouds)
    {
      var j := Position(LongMask(filtered, length, minLength), k);
      assert out[k] == filtered[j];
      if |clouds| > 0 {
        AwayFromCloudsSound(lines[j], clouds);
        CompressSubMultiset(lines[j], FarMask(lines[j], clouds));
        forall v | 0 <= v < |out[k]|
          ensures !NearCloud(out[k][v], clouds)
        {
          var i := Position(FarMask(lines[j], clouds), v);
          assert out[k][v] == lines[j][i];
        }
      }
    }
  }

  /**
    `ProcessShoreline` with the filtered lines used: the lines, with every
    vertex near a cloud pixel removed when there are cloud pixels, that are
    strictly longer than the minimum.
  */
  method ProcessShoreline(contoursWorld: seq<Line>, clouds: seq<Point>,
                          length: Line -> real, minLength: real,
                          toLatLon: Line -> Line, toProj: Line -> Line)
    returns (r: LineSet)
    ensures r.lines == CleanedLines(contoursWorld, clouds, length, minLength)
    ensures r.latlon == MapLines(toLatLon, r.lines) && r.proj == MapLines(toProj, r.lines)
  {
    var lines := contoursWorld;
    if |clouds| > 0 {
      var keep := CloudKeepMasks(contoursWorld, clouds);
      lines := MaskLines(contoursWorld, keep);
      assert lines == CloudFiltered(contoursWorld, clouds);
    }
    var shoreline := LongLines(lines, length, minLength);
    r := LineSet(shoreline, MapLines(toLatLon, shoreline), MapLines(toProj, shoreline));
  }

  /**
    A line of two vertices whose first vertex sits on a cloud pixel: the code as
    written returns it whole, while the filtered version drops that vertex.
  */
  lemma CloudFilterIgnoredAsWritten()
    ensures var lines: seq<Line> := [[(0.0, 0.0), (100.0, 0.0)]];
      var clouds: seq<Point> := [(0.0, 0.0)];
      var length := (l: Line) => 100.0 * (|l| - 1) as real;
      && NearCloud(lines[0][0], clouds)
      && LongLines(lines, length, 50.0) == lines
      && LongLines(CloudFiltered(lines, clouds), length, 50.0) == []
  {
    var lines: seq<Line> := [[(0.0, 0.0), (100.0, 0.0)]];
    var clouds: seq<Point> := [(0.0, 0.0)];
    var length := (l: Line) => 100.0 * (|l| - 1) as real;
    assert SqDist(lines[0][0], clouds[0]) == 0.0;
    assert SqDist(lines[0][1], clouds[0]) == 10000.0;
    var far := FarMask(lines[0], clouds);
    assert far == [false, true];
    assert AwayFromClouds(lines[0], clouds) == [(100.0, 0.0)];
    assert CloudFiltered(lines, clouds) == [[(100.0, 0.0)]];
    assert LongMask(lines, length, 50.0) == [true];
    assert LongMask(CloudFiltered(lines, clouds), length, 50.0) == [false];
  }

  // ---------------------------------------------------------------------------
  // Legacy `process_shoreline`.

  /** Minimum length of the lat/lon lines, in degrees. */
  const LatLonMinLength: real := 0.00000000000000001

  /** Minimum length of the projected lines. */
  const ProjMinLength: real := 0.01

  function LongEnoughMask(lines: seq<Line>, length: Line -> real, bound: real): (m: seq<bool>)
    ensures |m| == |lines| && forall j :: 0 <= j < |lines| ==> (m[j] <==> length(lines[j]) >= bound)
  {
    seq(|lines|, j requires 0 <= j < |lines| => length(lines[j]) >= bound)
  }

  /** All vertices of the lines, line after line. */
  function Flatten(lines: seq<Line>): (pts: seq<Point>)
  {
    if lines == [] then [] else Flatten(lines[..|lines| - 1]) + lines[|lines| - 1]
  }

  /** The flattened point array has one point per vertex of the lines. */
  lemma {:induction false} FlattenLength(lines: seq<Line>, total: nat)
    requires total == Sum(lines)
    ensures |Flatten(lines)| == total
  {
    if lines != [] {
      FlattenLength(lines[..|lines| - 1], Sum(lines[..|lines| - 1]));
    }
  }

  /** Number of vertices of all lines. */
  function Sum(lines: seq<Line>): nat
  {
    if lines == [] then 0 else Sum(lines[..|lines| - 1]) + |lines[|lines| - 1]|
  }

  /**
    One block of `process_shoreline`: keep the lines of length at least `bound`
    (the first loop), then append their coordinates one line after the other
    (the second loop).
  */
  method FlattenLongLines(lines: seq<Line>, length: Line -> real, bound: real) returns (pts: seq<Point>)
    ensures pts == Flatten(Compress(lines, LongEnoughMask(lines, length, bound)))
  {
    var long: seq<Line> := [];
    for l := 0 to |lines|
      invariant long == Compress(lines[..l], LongEnoughMask(lines[..l], length, bound))
    {
      assert lines[..l + 1] == lines[..l] + [lines[l]];
      LongEnoughSnoc(lines[..l], lines[l], length, bound);
      if length(lines[l]) >= bound {
        long := long + [lines[l]];
      }
    }
    assert lines[..|lines|] == lines;
    pts := [];
    for k := 0 to |long|
      invariant pts == Flatten(long[..k])
    {
      assert long[..k + 1][..k] == long[..k];
      pts := pts + long[k];
    }
    assert long[..|long|] == long;
  }

  /** One more line is kept at the end when it is long enough, and nothing else changes. */
  lemma LongEnoughSnoc(lines: seq<Line>, line: Line, length: Line -> real, bound: real)
    ensures Compress(lines + [line], LongEnoughMask(lines + [line], length, bound))
         == Compress(lines, LongEnoughMask(lines, length, bound)) + (if length(line) >= bound then [line] else [])
  {
    var s := lines + [line];
    assert s[..|lines|] == lines;
    assert LongEnoughMask(s, length, bound)[..|lines|] == LongEnoughMask(lines, length, bound);
  }

  /** The last loop of `process_shoreline`: the points of the flattened line away from every cloud pixel. */
  method KeepFarPoints(shoreline: seq<Point>, clouds: seq<Point>) returns (kept: seq<Point>)
    ensures kept == AwayFromClouds(shoreline, clouds)
  {
    var keep := seq(|shoreline|, _ => true);
    for k := 0 to |shoreline|
      invariant |keep| == |shoreline|
      invariant forall l :: 0 <= l < k ==> (keep[l] <==> !NearCloud(shoreline[l], clouds))
      invariant forall l :: k <= l < |shoreline| ==> keep[l]
    {
      if NearCloud(shoreline[k], clouds) {
        keep := keep[k := false];
      }
    }
    assert keep == FarMask(shoreline, clouds);
    kept := Compress(shoreline, keep);
  }

  /** The three point arrays of the legacy function. */
  datatype PointSet = PointSet(points: seq<Point>, latlon: seq<Point>, proj: seq<Point>)

  /**
    `process_shoreline`: in each reference system the lines of length at least
    the system's minimum (the user's minimum, 1e-17 degrees, 0.01), flattened;
    the cloud filter comes last and applies only to the output-system points.
  */
  method ProcessShorelineLegacy(contoursWorld: seq<Line>, clouds: seq<Point>,
                                length: Line -> real, minLength: real,
                                toLatLon: Line -> Line, latLonToProj: Line -> Line)
    returns (r: PointSet)
    ensures var flat := Flatten(Compress(contoursWorld, LongEnoughMask(contoursWorld, length, minLength)));
      r.points == if |clouds| > 0 then AwayFromClouds(flat, clouds) else flat
    ensures var latlon := MapLines(toLatLon, contoursWorld);
      r.latlon == Flatten(Compress(latlon, LongEnoughMask(latlon, length, LatLonMinLength)))
    ensures var proj := MapLines(latLonToProj, MapLines(toLatLon, contoursWorld));
      r.proj == Flatten(Compress(proj, LongEnoughMask(proj, length, ProjMinLength)))
  {
    var contourLatLon := MapLines(toLatLon, contoursWorld);
    var contourProj := MapLines(latLonToProj, contourLatLon);
    var shoreline := FlattenLongLines(contoursWorld, length, minLength);
    var shorelineLatLon := FlattenLongLines(contourLatLon, length, LatLonMinLength);
    var shorelineProj := FlattenLongLines(contourProj, length, ProjMinLength);
    if |clouds| > 0 {
      shoreline := KeepFarPoints(shoreline, clouds);
    }
    r := PointSet(shoreline, shorelineLatLon, shorelineProj);
  }

  /**
    The two length rules differ exactly at the boundary: a line whose length
    equals the minimum is dropped by `ProcessShoreline` and kept, whole, by the
    legacy `process_shoreline`.
  */
  lemma MinLengthBoundary(line: Line, length: Line -> real, minLength: real)
    requires length(line) == minLength
    ensures LongLines([line], length, minLength) == []
    ensures Flatten(Compress([line], LongEnoughMask([line], length, minLength))) == line
  {
    assert LongMask([line], length, minLength) == [false];
    assert LongEnoughMask([line], length, minLength) == [true];
    assert Compress([line], [true]) == [line];
    assert Flatten([line]) == Flatten([]) + line;
  }
}
