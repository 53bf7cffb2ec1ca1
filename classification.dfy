/**
  Recomposition of the per-pixel classifier output (`classify_image_NN` and
  `classify_image_NN_shore`).

  The feature rows (one per pixel, row-major) come from feature construction
  and the labels from the trained classifier; both are collaborators. What the
  source does itself is: overwrite NaN features with 1e-9, mask out cloudy and
  non-finite pixels, scatter one predicted label into each unmasked pixel in
  order, and split the label image into one boolean grid per class. Small-object
  removal is a library call passed in as `removeSmall`.
*/
module Classification {
  import opened Wrappers
  import opened Masking

  /** One floating-point feature value: finite, NaN, or infinite of either sign. */
  datatype Feature = Value(v: real) | NaNValue | InfValue

  /** The value written over NaN features (`vec_features[np.isnan(vec_features)] = 1e-9`). */
  const NaNFill: real := 0.000000001

  /** Labels of the vegetation classifier. */
  const VegLabel: int := 1
  const NonVegLabel: int := 2

  /** Labels of the shoreline classifier. */
  const SandLabel: int := 1
  const SwashLabel: int := 2
  const WaterLabel: int := 3

  /** Every NaN replaced by the fill value; finite and infinite values stay. */
  function FillNaN(features: seq<seq<Feature>>): (r: seq<seq<Feature>>)
    ensures |r| == |features|
    ensures forall i :: 0 <= i < |r| ==> |r[i]| == |features[i]|
    ensures forall i, j :: 0 <= i < |r| && 0 <= j < |r[i]| ==>
      !r[i][j].NaNValue? && (r[i][j].InfValue? <==> features[i][j].InfValue?)
    ensures forall i, j :: 0 <= i < |r| && 0 <= j < |r[i]| && !features[i][j].NaNValue? ==>
      r[i][j] == features[i][j]
  {
    seq(|features|, i requires 0 <= i < |features| =>
      seq(|features[i]|, j requires 0 <= j < |features[i]| =>
        if features[i][j].NaNValue? then Value(NaNFill) else features[i][j]))
  }

  predicate AnyNaN(row: seq<Feature>)
  {
    exists j :: 0 <= j < |row| && row[j].NaNValue?
  }

  predicate AnyInf(row: seq<Feature>)
  {
    exists j :: 0 <= j < |row| && row[j].InfValue?
  }

  /**
    The mask of `classify_image_NN`: cloud OR any NaN in the (already filled)
    feature row. The NaN test comes after the fill, so it never fires and the
    mask is the cloud mask itself.
  */
  function NNMask(cloud: seq<bool>, features: seq<seq<Feature>>): (mask: seq<bool>)
    requires |features| == |cloud|
    ensures mask == cloud
  {
    var filled := FillNaN(features);
    var mask := Or(cloud, seq(|filled|, i requires 0 <= i < |filled| => AnyNaN(filled[i])));
    assert forall i :: 0 <= i < |mask| ==> mask[i] == cloud[i];
    mask
  }

  /**
    The mask of `classify_image_NN_shore`: cloud OR NaN OR inf, after the fill.
    A pixel is masked exactly when it is cloudy or one of its features is infinite.
  */
  function ShoreMask(cloud: seq<bool>, features: seq<seq<Feature>>): (mask: seq<bool>)
    requires |features| == |cloud|
    ensures |mask| == |cloud|
    ensures forall i :: 0 <= i < |cloud| ==> (mask[i] <==> cloud[i] || AnyInf(features[i]))
  {
    var filled := FillNaN(features);
    var nan := seq(|filled|, i requires 0 <= i < |filled| => AnyNaN(filled[i]));
    var inf := seq(|filled|, i requires 0 <= i < |filled| => AnyInf(filled[i]));
    var mask := Or(cloud, Or(nan, inf));
    assert forall i :: 0 <= i < |cloud| ==> (inf[i] <==> AnyInf(features[i])) by {
      forall i | 0 <= i < |cloud|
        ensures inf[i] <==> AnyInf(features[i])
      {
        if AnyInf(features[i]) {
          var j :| 0 <= j < |features[i]| && features[i][j].InfValue?;
          assert filled[i][j].InfValue?;
        }
      }
    }
    mask
  }

  /**
    `vec_classif = nan*ones(n); vec_classif[~vec_mask] = labels`, written out
    cell by cell on a fresh array: the labels go, in order, into the cells that
    `keep` marks, and every other cell stays undefined.
  */
  method Recompose(keep: seq<bool>, labels: seq<int>) returns (classif: array<Option<int>>)
    requires |labels| == Count(keep)
    ensures fresh(classif) && classif[..] == Scatter(keep, labels)
  {
    classif := new Option<int>[|keep|](_ => None);
    var next := 0;
    for i := 0 to |keep|
      invariant next == Count(keep[..i]) <= |labels|
      invariant classif[..i] == Scatter(keep[..i], labels[..next])
      invariant forall j :: i <= j < |keep| ==> classif[j] == None
    {
      ScatterStep(keep, labels, i);
      if keep[i] {
        classif[i] := Some(labels[next]);
        next := next + 1;
      }
      assert classif[..i + 1] == classif[..i] + [classif[i]];
    }
    assert keep[..|keep|] == keep;
    assert labels[..next] == labels;
    assert classif[..] == classif[..|keep|];
  }

  /** `im_classif == cls`: True exactly at the cells holding that label. */
  function LabelGrid(classif: seq<Option<int>>, cls: int): (g: seq<bool>)
    ensures |g| == |classif|
    ensures forall i :: 0 <= i < |classif| ==> (g[i] <==> classif[i] == Some(cls))
  {
    seq(|classif|, i requires 0 <= i < |classif| => classif[i] == Some(cls))
  }

  /** Which predicted labels equal a given label, in prediction order. */
  function Matches(labels: seq<int>, cls: int): (r: seq<bool>)
    ensures |r| == |labels| && forall k :: 0 <= k < |labels| ==> (r[k] <==> labels[k] == cls)
  {
    seq(|labels|, k requires 0 <= k < |labels| => labels[k] == cls)
  }

  /**
    A cell of a class grid built from recomposed labels is True exactly when the
    cell was kept and the label predicted for it (the next one in order) is that
    class; masked cells are False in every grid.
  */
  lemma LabelGridAt(keep: seq<bool>, labels: seq<int>, cls: int, i: nat)
    requires |labels| == Count(keep) && i < |keep|
    ensures keep[i] ==> Count(keep[..i]) < |labels|
    ensures LabelGrid(Scatter(keep, labels), cls)[i] <==> keep[i] && labels[Count(keep[..i])] == cls
  {
    ScatterAt(keep, labels, i);
  }

  /** Each class grid has exactly as many True cells as the classifier predicted that class. */
  lemma {:induction false} LabelCount(keep: seq<bool>, labels: seq<int>, cls: int)
    requires |labels| == Count(keep)
    ensures Count(LabelGrid(Scatter(keep, labels), cls)) == Count(Matches(labels, cls))
  {
    if keep != [] {
      var n := |keep|;
      var keep' := keep[..n - 1];
      var g := LabelGrid(Scatter(keep, labels), cls);
      if keep[n - 1] {
        var labels' := labels[..|labels| - 1];
        LabelCount(keep', labels', cls);
        assert g[..n - 1] == LabelGrid(Scatter(keep', labels'), cls);
        assert Matches(labels, cls)[..|labels| - 1] == Matches(labels', cls);
      } else {
        LabelCount(keep', labels, cls);
        assert g[..n - 1] == LabelGrid(Scatter(keep', labels), cls);
      }
    }
  }

  /** What `skimage.morphology.remove_small_objects` is documented to do to a mask: same size, only True cells turned False. */
  ghost predicate OnlyClears(removeSmall: seq<bool> -> seq<bool>)
  {
    forall g: seq<bool> :: |removeSmall(g)| == |g| &&
      forall i :: 0 <= i < |g| && removeSmall(g)[i] ==> g[i]
  }

  /**
    `classify_image_NN`: the label image holds the predictions, in order, at the
    cells that are not cloudy, and is undefined at the cloudy ones; `veg` and
    `nonveg` are the label-1 and label-2 grids after small-object removal.
  */
  method ClassifyImageNN(cloud: seq<bool>, features: seq<seq<Feature>>,
                         predict: seq<seq<Feature>> -> seq<int>,
                         removeSmall: seq<bool> -> seq<bool>)
    returns (classif: seq<Option<int>>, veg: seq<bool>, nonveg: seq<bool>)
    requires |features| == |cloud|
    requires forall rows :: |predict(rows)| == |rows|
    ensures classif == Scatter(Not(cloud), predict(Compress(FillNaN(features), Not(cloud))))
    ensures veg == removeSmall(LabelGrid(classif, VegLabel))
    ensures nonveg == removeSmall(LabelGrid(classif, NonVegLabel))
  {
    var filled := FillNaN(features);
    var mask := NNMask(cloud, features);
    var keep := Not(mask);
    var rows := Compress(filled, keep);
    var labels := predict(rows);
    var vec := Recompose(keep, labels);
    classif := vec[..];
    veg := removeSmall(LabelGrid(classif, VegLabel));
    nonveg := removeSmall(LabelGrid(classif, NonVegLabel));
  }

  /**
    `classify_image_NN_shore`: the same recomposition over the cloud-or-inf
    mask; sand and water go through small-object removal, swash does not.
  */
  method ClassifyImageShore(cloud: seq<bool>, features: seq<seq<Feature>>,
                            predict: seq<seq<Feature>> -> seq<int>,
                            removeSmall: seq<bool> -> seq<bool>)
    returns (classif: seq<Option<int>>, sand: seq<bool>, swash: seq<bool>, water: seq<bool>)
    requires |features| == |cloud|
    requires forall rows :: |predict(rows)| == |rows|
    ensures var keep := Not(ShoreMask(cloud, features));
      classif == Scatter(keep, predict(Compress(FillNaN(features), keep)))
    ensures sand == removeSmall(LabelGrid(classif, SandLabel))
    ensures swash == LabelGrid(classif, SwashLabel)
    ensures water == removeSmall(LabelGrid(classif, WaterLabel))
  {
    var filled := FillNaN(features);
    var keep := Not(ShoreMask(cloud, features));
    var rows := Compress(filled, keep);
    var labels := predict(rows);
    var vec := Recompose(keep, labels);
    classif := vec[..];
    sand := removeSmall(LabelGrid(classif, SandLabel));
    swash := LabelGrid(classif, SwashLabel);
    water := removeSmall(LabelGrid(classif, WaterLabel));
  }

  /**
    The two vegetation grids never share a cell and are False at every cloudy
    cell, provided small-object removal only clears cells.
  */
  lemma NNGridsDisjoint(cloud: seq<bool>, labels: seq<int>, removeSmall: seq<bool> -> seq<bool>)
    requires |labels| == Count(Not(cloud)) && OnlyClears(removeSmall)
    ensures var classif := Scatter(Not(cloud), labels);
      var veg := removeSmall(LabelGrid(classif, VegLabel));
      var nonveg := removeSmall(LabelGrid(classif, NonVegLabel));
      && |veg| == |nonveg| == |cloud|
      && forall i :: 0 <= i < |cloud| ==> !(veg[i] && nonveg[i]) && (cloud[i] ==> !veg[i] && !nonveg[i])
  {
    var classif := Scatter(Not(cloud), labels);
    var vegRaw, nonvegRaw := LabelGrid(classif, VegLabel), LabelGrid(classif, NonVegLabel);
    var veg, nonveg := removeSmall(vegRaw), removeSmall(nonvegRaw);
    forall i | 0 <= i < |cloud|
      ensures !(veg[i] && nonveg[i]) && (cloud[i] ==> !veg[i] && !nonveg[i])
    {
      ScatterAt(Not(cloud), labels, i);
      assert veg[i] ==> vegRaw[i];
      assert nonveg[i] ==> nonvegRaw[i];
    }
  }
}
