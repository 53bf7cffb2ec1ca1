/**
  Marking of the reference shoreline in the image grid (`create_shoreline_buffer`).

  The reference line arrives already converted to pixel coordinates (the
  world-to-pixel conversion is a collaborator): column 0 of each pair is the
  image column, column 1 the image row. Each pair is rounded with numpy's
  round-half-to-even, kept only when both coordinates lie strictly inside the
  image, and written into a boolean grid. The dilation of that grid by a disk is
  a library call and is not part of this module.
*/
module ReferenceBuffer {
  import opened Masking

  /** `np.round` on one value: the nearest integer, ties going to the even one. */
  function RoundHalfEven(x: real): (n: int)
    ensures -0.5 <= n as real - x <= 0.5
    ensures (n as real - x == 0.5 || x - n as real == 0.5) ==> n % 2 == 0
  {
    var f := x.Floor;
    var d := x - f as real;
    if d < 0.5 then f
    else if d > 0.5 then f + 1
    else if f % 2 == 0 then f
    else f + 1
  }

  /** The two properties of RoundHalfEven's contract pin the rounded value down uniquely. */
  lemma RoundHalfEvenUnique(x: real, n: int)
    requires -0.5 <= n as real - x <= 0.5
    requires (n as real - x == 0.5 || x - n as real == 0.5) ==> n % 2 == 0
    ensures n == RoundHalfEven(x)
  {
    var r := RoundHalfEven(x);
    if n != r {
      assert false;
    }
  }

  /** A pixel (column, row) counts as inside when both coordinates are strictly positive and below the image size. */
  predicate Inside(p: (int, int), rows: nat, cols: nat)
  {
    0 < p.0 < cols && 0 < p.1 < rows
  }

  function Rounded(pixels: seq<(real, real)>): (r: seq<(int, int)>)
    ensures |r| == |pixels|
    ensures forall k :: 0 <= k < |pixels| ==>
      r[k] == (RoundHalfEven(pixels[k].0), RoundHalfEven(pixels[k].1))
  {
    seq(|pixels|, k requires 0 <= k < |pixels| => (RoundHalfEven(pixels[k].0), RoundHalfEven(pixels[k].1)))
  }

  function InsideMask(pts: seq<(int, int)>, rows: nat, cols: nat): (m: seq<bool>)
    ensures |m| == |pts| && forall k :: 0 <= k < |pts| ==> m[k] == Inside(pts[k], rows, cols)
  {
    seq(|pts|, k requires 0 <= k < |pts| => Inside(pts[k], rows, cols))
  }

  /** The rounded reference pixels that survive the inside test, in their original order. */
  function KeptPixels(pixels: seq<(real, real)>, rows: nat, cols: nat): seq<(int, int)>
  {
    Compress(Rounded(pixels), InsideMask(Rounded(pixels), rows, cols))
  }

  /**
    A rounded reference pixel is kept exactly when it is strictly inside the
    image; in particular nothing in row 0 or column 0 is ever kept.
  */
  lemma KeptPixelsExactly(pixels: seq<(real, real)>, rows: nat, cols: nat)
    ensures forall q :: q in KeptPixels(pixels, rows, cols) ==> Inside(q, rows, cols) && q in Rounded(pixels)
    ensures forall k :: 0 <= k < |pixels| && Inside(Rounded(pixels)[k], rows, cols) ==>
      Rounded(pixels)[k] in KeptPixels(pixels, rows, cols)
  {
    var pts := Rounded(pixels);
    var m := InsideMask(pts, rows, cols);
    var kept := KeptPixels(pixels, rows, cols);
    forall q | q in kept
      ensures Inside(q, rows, cols) && q in pts
    {
      var k :| 0 <= k < |kept| && kept[k] == q;
      CompressFrom(pts, m, k);
    }
    forall k | 0 <= k < |pixels| && Inside(pts[k], rows, cols)
      ensures pts[k] in kept
    {
      CompressAt(pts, m, k);
    }
  }

  /**
    `im_binary[row, col] = 1` for every kept pixel, on a fresh all-False grid:
    afterwards a cell is True exactly when some kept reference pixel names it.
  */
  method MarkReferencePixels(pixels: seq<(real, real)>, rows: nat, cols: nat) returns (im: array2<bool>)
    ensures fresh(im) && im.Length0 == rows && im.Length1 == cols
    ensures forall r, c :: 0 <= r < rows && 0 <= c < cols ==>
      (im[r, c] <==> (c, r) in KeptPixels(pixels, rows, cols))
  {
    var kept := KeptPixels(pixels, rows, cols);
    KeptPixelsExactly(pixels, rows, cols);
    im := new bool[rows, cols]((r, c) => false);
    for j := 0 to |kept|
      invariant forall r, c :: 0 <= r < rows && 0 <= c < cols ==> (im[r, c] <==> (c, r) in kept[..j])
    {
      assert kept[j] in kept;
      assert kept[..j + 1] == kept[..j] + [kept[j]];
      im[kept[j].1, kept[j].0] := true;
    }
    assert kept[..|kept|] == kept;
  }
}
