/**
  `process_contours`: removal of NaN vertices from the contours that marching
  squares returns, and of the contours left with at most one vertex.

  A contour is a sequence of vertices; a vertex with a NaN coordinate (the
  contour touched a masked cell) is `None`.
*/
module Contours {
  import opened Wrappers
  import opened Masking

  /** A coordinate pair (row, column in pixel space, or x, y in world space). */
  type Point = (real, real)

  /** One contour vertex; `None` when either coordinate is NaN. */
  type Vertex = Option<Point>

  type Contour = seq<Vertex>

  /** `np.any(np.isnan(contour))`. */
  predicate HasNaN(c: Contour)
  {
    exists i :: 0 <= i < |c| && c[i].None?
  }

  /** The vertices that have no NaN coordinate. */
  function DefinedMask(c: Contour): (m: seq<bool>)
    ensures |m| == |c| && forall i :: 0 <= i < |c| ==> (m[i] <==> c[i].Some?)
  {
    seq(|c|, i requires 0 <= i < |c| => c[i].Some?)
  }

  /** `np.delete(contour, rows with a NaN, axis=0)`. */
  function DropNaN(c: Contour): Contour
  {
    Compress(c, DefinedMask(c))
  }

  /**
    Deleting the NaN rows leaves exactly the defined vertices, in their order:
    every remaining vertex is defined and comes from a defined vertex of the
    input, each defined vertex lands at the number of defined vertices before
    it, and a contour without NaN is returned unchanged.
  */
  lemma DropNaNExactly(c: Contour)
    ensures forall k :: 0 <= k < |DropNaN(c)| ==>
      DropNaN(c)[k].Some? && DropNaN(c)[k] == c[Position(DefinedMask(c), k)]
    ensures forall i :: 0 <= i < |c| && c[i].Some? ==>
      Count(DefinedMask(c)[..i]) < |DropNaN(c)| && DropNaN(c)[Count(DefinedMask(c)[..i])] == c[i]
    ensures !HasNaN(c) ==> DropNaN(c) == c
  {
    var m := DefinedMask(c);
    forall k | 0 <= k < |DropNaN(c)|
      ensures DropNaN(c)[k].Some? && DropNaN(c)[k] == c[Position(m, k)]
    {
      CompressFrom(c, m, k);
    }
    forall i | 0 <= i < |c| && c[i].Some?
      ensures Count(m[..i]) < |DropNaN(c)| && DropNaN(c)[Count(m[..i])] == c[i]
    {
      CompressAt(c, m, i);
    }
    if !HasNaN(c) {
      DropNaNUnchanged(c);
    }
  }

  /** Vertices left after deleting the NaN rows keep their input order. */
  lemma DropNaNInOrder(c: Contour)
    ensures forall k :: 0 < k < |DropNaN(c)| ==> Position(DefinedMask(c), k - 1) < Position(DefinedMask(c), k)
  {
    PositionsIncrease(DefinedMask(c));
  }

  /** A contour is kept when it has no NaN, or when more than one vertex is left after deleting the NaN rows. */
  predicate Survives(c: Contour)
  {
    !HasNaN(c) || |DropNaN(c)| > 1
  }

  function SurvivorMask(cs: seq<Contour>): (m: seq<bool>)
    ensures |m| == |cs| && forall k :: 0 <= k < |cs| ==> (m[k] <==> Survives(cs[k]))
  {
    seq(|cs|, k requires 0 <= k < |cs| => Survives(cs[k]))
  }

  function DropAllNaN(cs: seq<Contour>): (r: seq<Contour>)
    ensures |r| == |cs| && forall k :: 0 <= k < |cs| ==> r[k] == DropNaN(cs[k])
  {
    seq(|cs|, k requires 0 <= k < |cs| => DropNaN(cs[k]))
  }

  /** What `process_contours` returns: the surviving contours, NaN-free, in input order. */
  function CleanContours(cs: seq<Contour>): seq<Contour>
  {
    Compress(DropAllNaN(cs), SurvivorMask(cs))
  }

  /** The loop of `process_contours`, building `contours_nonans` one contour at a time. */
  method ProcessContours(contours: seq<Contour>) returns (nonans: seq<Contour>)
    ensures nonans == CleanContours(contours)
  {
    nonans := [];
    for k := 0 to |contours|
      invariant nonans == CleanContours(contours[..k])
    {
      var c := contours[k];
      assert contours[..k + 1] == contours[..k] + [c];
      CleanContoursSnoc(contours[..k], c);
      if HasNaN(c) {
        var temp := DropNaN(c);
        if |temp| > 1 {
          nonans := nonans + [temp];
        }
      } else {
        DropNaNUnchanged(c);
        nonans := nonans + [c];
      }
    }
    assert contours[..|contours|] == contours;
  }

  /** One more contour adds its NaN-free version at the end when it survives, and nothing otherwise. */
  lemma CleanContoursSnoc(cs: seq<Contour>, c: Contour)
    ensures CleanContours(cs + [c]) == CleanContours(cs) + (if Survives(c) then [DropNaN(c)] else [])
  {
    var s := cs + [c];
    assert s[..|cs|] == cs;
    assert DropAllNaN(s)[..|cs|] == DropAllNaN(cs);
    assert SurvivorMask(s)[..|cs|] == SurvivorMask(cs);
  }

  /** A contour without NaN is returned unchanged. */
  lemma DropNaNUnchanged(c: Contour)
    requires !HasNaN(c)
    ensures DropNaN(c) == c
  {
    CompressAllTrue(c, DefinedMask(c));
  }

  /**
    Each output of `process_contours` is the NaN-free version of a surviving
    input, all its vertices are defined, and when every input contour without
    NaN has at least two vertices, so does every output contour.
  */
  lemma CleanContoursFromSurvivors(cs: seq<Contour>)
    ensures forall k :: 0 <= k < |CleanContours(cs)| ==>
      var i := Position(SurvivorMask(cs), k);
      Survives(cs[i]) && CleanContours(cs)[k] == DropNaN(cs[i])
    ensures forall k, j :: 0 <= k < |CleanContours(cs)| && 0 <= j < |CleanContours(cs)[k]| ==>
      CleanContours(cs)[k][j].Some?
    ensures (forall i :: 0 <= i < |cs| && !HasNaN(cs[i]) ==> |cs[i]| >= 2) ==>
      forall k :: 0 <= k < |CleanContours(cs)| ==> |CleanContours(cs)[k]| >= 2
  {
    var m := SurvivorMask(cs);
    var out := CleanContours(cs);
    forall k | 0 <= k < |out|
      ensures var i := Position(m, k); Survives(cs[i]) && out[k] == DropNaN(cs[i])
      ensures forall j :: 0 <= j < |out[k]| ==> out[k][j].Some?
      ensures (forall i :: 0 <= i < |cs| && !HasNaN(cs[i]) ==> |cs[i]| >= 2) ==> |out[k]| >= 2
    {
      var i := Position(m, k);
      CompressFrom(DropAllNaN(cs), m, k);
      DropNaNExactly(cs[i]);
    }
  }

  /**
    The outputs keep the input order, every surviving input appears among
    them, and there are no more outputs than inputs.
  */
  lemma CleanContoursInOrder(cs: seq<Contour>)
    ensures |CleanContours(cs)| <= |cs|
    ensures forall k :: 0 < k < |CleanContours(cs)| ==>
      Position(SurvivorMask(cs), k - 1) < Position(SurvivorMask(cs), k)
    ensures forall i :: 0 <= i < |cs| && Survives(cs[i]) ==> DropNaN(cs[i]) in CleanContours(cs)
  {
    var out := CleanContours(cs);
    PositionsIncrease(SurvivorMask(cs));
    forall i | 0 <= i < |cs| && Survives(cs[i])
      ensures DropNaN(cs[i]) in out
    {
      SurvivorKept(cs, i);
    }
  }

  lemma SurvivorKept(cs: seq<Contour>, i: nat)
    requires i < |cs| && Survives(cs[i])
    ensures Count(SurvivorMask(cs)[..i]) < |CleanContours(cs)|
    ensures CleanContours(cs)[Count(SurvivorMask(cs)[..i])] == DropNaN(cs[i])
  {
    CompressAt(DropAllNaN(cs), SurvivorMask(cs), i);
  }
}
