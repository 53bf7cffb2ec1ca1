# Vegetation-edge extraction: a verified model of the per-image pipeline

This project models the core of the satellite vegetation-edge extractor in
`Toolshed/VegetationLine.py`. For every satellite in the run, `extract_veglines`:

- chooses a pixel size and converts the user's metre-based settings to pixels;
- walks the satellite's images in file order. Each image goes through:
  - a cloud-cover quality gate;
  - neural-network classification into vegetation and non-vegetation;
  - a check that both classes are present;
  - a weighted-peaks NDVI threshold, computed from the two class samples inside the reference-line buffer;
  - marching-squares contours at that threshold;
  - removal of NaN vertices (`process_contours`);
  - line cleaning by length (`ProcessShoreline`). Its cloud filter is meant to remove vertices near clouds but, as written, has no effect (see "## Findings"). The model's image pipeline runs the corrected version, and states separately what the program as written records;
  - when the operator is asked, a key loop that keeps or skips the detection, or a click loop that moves the threshold;
- appends every recorded image to a set of parallel lists;
- packs the lists into three per-satellite dictionaries, one each for the output, lat/lon and projected coordinate systems.

The model also covers:

- the legacy `process_shoreline`;
- the reference-line pixel marking of `create_shoreline_buffer`;
- the transition-zone mask drawn for the operator.

How things are represented:

- Grids are row-major sequences, as the source reshapes them.
- numpy's boolean indexing `v[m]` is `Masking.Compress`.
- The scatter `out[m] = vals` is `Masking.Scatter`.
- A NaN is `None`.
- numpy divisions with errors ignored give `QualityGate.Ratio`: finite, +inf or nan. A comparison with nan is false.

Everything the code hands to a library or to a file not modelled here is a function parameter. The model assumes of it only what the library documents: result sizes, distinct indices for sampling without replacement, and peak positions inside the vector. Those parameters are:

- the two classifiers. The model calls the vegetation one only when every clear pixel's features are finite, and the shore one (with `wetdry`) only when at least one clear pixel has finite shore features. Otherwise `predict` raises and the run ends;
- `remove_small_objects`;
- the disk dilation;
- `np.random.choice`;
- the kernel-density estimate, which the model calls only on non-empty, NaN-free samples (otherwise `KernelDensity.fit` raises and the run ends);
- `find_peaks`;
- marching squares;
- the Otsu threshold of the water detection;
- the pixel-to-world transform;
- shapely's line length;
- the reprojections.

What preprocessing and the operator produce for one image is a `Pipeline.Scene`.

Modules follow the stages:

- `Masking`, `QualityGate` and `PixelScale`;
- `ReferenceBuffer`, `Classification`, `ClipIndex` and `WeightedPeaks`;
- `Contours` and `Shoreline`;
- `Operator`;
- `Pipeline`, which runs one image;
- `Batch`, which runs the image and satellite loops and the accumulator.

Where the source works by changing state, the model does too:

- the loops are `while`/`for` loops with invariants;
- the per-satellite lists are a class whose `Append` method grows them;
- the label image, the reference-pixel grid and the transition-zone mask are written cell by cell into fresh arrays.

Each such method is proved against a specification function, and the lemmas about those functions carry the properties.

## Model

| member | source | states |
|---|---|---|
| QualityGate.Divide | Toolshed/VegetationLine.py:154-164 | numpy division of two counts is finite exactly when the denominator is positive, and +inf exactly when only the numerator is positive (nan otherwise) |
| QualityGate.AcceptExactly | Toolshed/VegetationLine.py:143-168 | an image passes the gate iff the raster is present, the mask is non-empty, count(cloud)/pixels <= 0.95, some pixel holds data and count(cloud XOR nodata)/count(not nodata) <= cloud_thresh; the recorded cover is then that finite fraction |
| QualityGate.CheckImage | Toolshed/VegetationLine.py:143-168 | reference definition of the gate: empty raster, no cloud mask, combined cover over 0.95, adjusted cover over `cloud_thresh`, in that order, else accept with the adjusted cover; its properties are `AcceptExactly`, `RejectReasons` and `AllNoDataRejected` |
| QualityGate.RejectReasons | Toolshed/VegetationLine.py:143-168 | each skip reason (empty raster, no mask, over 95%, over the user threshold) is reported iff its check is the first to fail |
| QualityGate.AllNoDataRejected | Toolshed/VegetationLine.py:154-168 | an image whose pixels are all no-data is rejected for every threshold: the adjusted cover is +inf, or the combined cover is 1 |
| QualityGate.XorRemovesNoData | Toolshed/VegetationLine.py:161-161 | when the no-data pixels lie inside the cloud mask, the XOR removes exactly them: cloud AND NOT nodata |
| QualityGate.LacksClassVariety | Toolshed/VegetationLine.py:191-193 | the image is skipped iff either class covers strictly less than 5% of the pixels (exactly 5% passes) |
| PixelScale.PixelSizeAsWritten | Toolshed/VegetationLine.py:117-124 | Landsat 15, Sentinel-2 10; any other satellite reads the first georef value of the first satellite of `sat_list`, None where Python raises |
| PixelScale.PixelSize | Toolshed/VegetationLine.py:117-124 | as above, but any other satellite reads the first georef value of its own first image; None exactly when that value is missing |
| PixelScale.PixelSizeAgrees | Toolshed/VegetationLine.py:117-124 | both pixel sizes coincide for Landsat, for Sentinel-2 and for the first satellite of the list |
| PixelScale.PixelSizeFromWrongSatellite | Toolshed/VegetationLine.py:122-124 | in a Sentinel-2 + PlanetScope run the PlanetScope pixel size as written is the Sentinel-2 value, not its own |
| PixelScale.FirstGeoref | Toolshed/VegetationLine.py:124-124 | `metadata[sat]['acc_georef'][0][0]` is defined exactly when the key and both first elements exist |
| PixelScale.Ceil | Toolshed/VegetationLine.py:131-132 | `np.ceil(x)` is the integer c with c - 1 < x <= c |
| PixelScale.CeilUnique | Toolshed/VegetationLine.py:131-132 | only one integer satisfies Ceil's contract |
| PixelScale.MetresToPixels | Toolshed/VegetationLine.py:131-132 | `ceil(m / p)` is defined iff p != 0 and is the least integer not below m / p |
| PixelScale.PixelsCover | Toolshed/VegetationLine.py:131-132 | for p > 0, n = ceil(m/p) is the least count of p-sized pieces that covers m: (n-1)p < m <= np |
| PixelScale.ExampleConversions | Toolshed/VegetationLine.py:116-132 | a 150 m buffer is 10 Landsat or 15 Sentinel-2 pixels; a 1000 m² beach is 5 Landsat pixels (divided by 15²) |
| ReferenceBuffer.RoundHalfEven | Toolshed/VegetationLine.py:1181-1181 | `np.round` gives an integer within 1/2 of x, the even one on a tie |
| ReferenceBuffer.RoundHalfEvenUnique | Toolshed/VegetationLine.py:1181-1181 | those two properties determine the rounded value |
| ReferenceBuffer.KeptPixelsExactly | Toolshed/VegetationLine.py:1181-1187 | a rounded reference pixel is kept iff 0 < column < cols and 0 < row < rows; everything kept is such a rounded pixel |
| ReferenceBuffer.MarkReferencePixels | Toolshed/VegetationLine.py:1190-1193 | on a fresh all-False grid, cell (r, c) is True afterwards iff some kept reference pixel is (c, r) |
| Classification.FillNaN | Toolshed/VegetationLine.py:611-611 | every NaN feature becomes 1e-9, other values (infinities included) are unchanged |
| Classification.NNMask | Toolshed/VegetationLine.py:614-616 | because the NaN test follows the fill, the mask of `classify_image_NN` equals the cloud mask |
| Classification.ShoreMask | Toolshed/VegetationLine.py:670-673 | a pixel is masked by `classify_image_NN_shore` iff it is cloudy or one of its features is infinite |
| Classification.Recompose | Toolshed/VegetationLine.py:623-624 | the fresh label array holds the labels, in order, at the unmasked cells and is undefined at the masked ones |
| Classification.LabelGrid | Toolshed/VegetationLine.py:627-628 | the class grid is True exactly at the cells holding that label |
| Classification.LabelGridAt | Toolshed/VegetationLine.py:623-628 | a cell of a class grid is True iff it is unmasked and the label predicted for it (the next in row-major order) is that class |
| Classification.LabelCount | Toolshed/VegetationLine.py:623-628 | each class grid has as many True cells as predictions of that class |
| Classification.ClassifyImageNN | Toolshed/VegetationLine.py:611-634 | label image = predictions scattered into the non-cloud cells; veg and nonveg are the label-1 and label-2 grids after small-object removal; the image pipeline calls it only once every clear row is known to be finite (`Pipeline.InfiniteFeatureExactly`) |
| Classification.ClassifyImageShore | Toolshed/VegetationLine.py:667-692 | the same over the cloud-or-inf mask; sand and water pass through small-object removal, swash does not; the image pipeline calls it only when at least one row is left (`Pipeline.ShoreRefusedExactly`) |
| Classification.NNGridsDisjoint | Toolshed/VegetationLine.py:623-634 | veg and nonveg never share a cell and are False at every cloudy cell, when small-object removal only clears cells |
| ClipIndex.Select | Toolshed/VegetationLine.py:917-921 | reference definition of a class sample: the index values at the buffered cells of the class, in row-major order; `SelectExactly` states it cell by cell |
| ClipIndex.Balance | Toolshed/VegetationLine.py:923-928 | reference definition of the balancing: with both samples non-empty, the strictly larger one (the non-vegetation one on a tie) is resampled without replacement to the other's size; `BalanceProperties` states its properties |
| ClipIndex.ClipIndexVec | Toolshed/VegetationLine.py:917-928 | reference definition of `ClipIndexVec` on the dilated buffer: `Select` for each class, then `Balance` |
| ClipIndex.SelectExactly | Toolshed/VegetationLine.py:917-921 | each class sample is exactly the index values at cells in dilated buffer AND class, in row-major order |
| ClipIndex.PickSubMultiset | Toolshed/VegetationLine.py:926-928 | indexing with distinct positions never draws an element more often than it occurs |
| ClipIndex.PickAllPermutes | Toolshed/VegetationLine.py:928-928 | drawing all positions without replacement reorders the sample |
| ClipIndex.BalanceProperties | Toolshed/VegetationLine.py:924-928 | with both samples non-empty, both end with the smaller size, each is a sub-multiset of its original, the unsampled one is unchanged, and a tie resamples the non-vegetation sample into a reordering; with either empty nothing changes |
| WeightedPeaks.PositiveBins | Toolshed/VegetationLine.py:962-980 | bin k of `np.arange(-1, 1, 0.01)` is above 0 iff k >= 100 (numpy computes bin 100 as 2^-50, not 0), so the clipped grid starts at 2^-50 and then 0.01 |
| WeightedPeaks.BinRange | Toolshed/VegetationLine.py:962-962 | every bin lies in [-1, 0.99] |
| WeightedPeaks.FirstArgMax | Toolshed/VegetationLine.py:977-977 | `list.index(nanmax)` is a position of the maximum, and no earlier position reaches it |
| WeightedPeaks.FirstArgMaxUnique | Toolshed/VegetationLine.py:977-977 | only one position has both properties |
| WeightedPeaks.WeakPeak | Toolshed/VegetationLine.py:975-977 | the weak peak is a grid bin whose density is maximal, in [-1, 0.99] |
| WeightedPeaks.ClipProbs | Toolshed/VegetationLine.py:980-981 | `probabilities[bins > 0]` is the last 100 densities, from bin 100 on |
| WeightedPeaks.FirstPeakStep | Toolshed/VegetationLine.py:983-990 | the first step m (prominence 0.5 - 0.05m) whose search finds a peak; None iff every search up to the bound is empty |
| WeightedPeaks.StrongPeak | Toolshed/VegetationLine.py:983-993 | the loop finds a peak iff a step up to the bound finds one; it returns the first peak of the first such step and counts the repeated 0.5 search |
| WeightedPeaks.WeightedThreshold | Toolshed/VegetationLine.py:996-996 | 0.2 p0 + 0.8 p1 lies in [min, max] of the peaks, strictly inside when they differ, one fifth of the way from p1 to p0 |
| WeightedPeaks.ThresholdRange | Toolshed/VegetationLine.py:962-996 | with a grid weak peak and a strong peak above 0, the threshold lies in (-0.2, 0.99] |
| WeightedPeaks.WeightedPeaksThreshold | Toolshed/VegetationLine.py:962-996 | no threshold iff all bounded searches are empty; otherwise weak = first arg-max bin, strong = first peak of the first successful search in the 100 clipped bins, in (0, 0.99], t = the weighted combination, in (-0.2, 0.99] |
| Contours.DropNaNExactly | Toolshed/VegetationLine.py:1260-1262 | deleting NaN rows leaves exactly the defined vertices, each at the number of defined vertices before it; a NaN-free contour is unchanged |
| Contours.DropNaNInOrder | Toolshed/VegetationLine.py:1261-1262 | the remaining vertices keep their input order |
| Contours.DropNaNUnchanged | Toolshed/VegetationLine.py:1265-1266 | a contour without NaN is returned as it is |
| Contours.CleanContours | Toolshed/VegetationLine.py:1257-1268 | reference definition of `process_contours`: the NaN-free versions of the surviving contours (no NaN, or more than one vertex left), in input order; `CleanContoursFromSurvivors`, `CleanContoursInOrder` and `SurvivorKept` state its properties |
| Contours.ProcessContours | Toolshed/VegetationLine.py:1257-1268 | the loop returns the surviving contours with their NaN rows removed, in input order |
| Contours.CleanContoursSnoc | Toolshed/VegetationLine.py:1259-1266 | one more input contour appends its NaN-free version when it survives (no NaN, or more than one vertex left) and nothing otherwise |
| Contours.CleanContoursFromSurvivors | Toolshed/VegetationLine.py:1259-1268 | each output is the NaN-free version of a surviving input and has no NaN vertex; every output has >= 2 vertices when every NaN-free input does |
| Contours.CleanContoursInOrder | Toolshed/VegetationLine.py:1259-1268 | outputs keep input order, every survivor appears, and there are no more outputs than inputs |
| Contours.SurvivorKept | Toolshed/VegetationLine.py:1263-1266 | a surviving contour lands at the number of survivors before it |
| Shoreline.FarMask | Toolshed/VegetationLine.py:1321-1322 | a vertex is kept iff its squared distance to every cloud pixel is at least 900 (distance >= 30 m) |
| Shoreline.AwayFromCloudsSound | Toolshed/VegetationLine.py:1318-1327 | every vertex left is at least 30 m from every cloud pixel and the kept vertices stay in order |
| Shoreline.AwayFromCloudsComplete | Toolshed/VegetationLine.py:1318-1327 | every vertex at least 30 m from every cloud pixel is kept; without cloud pixels nothing is removed |
| Shoreline.CloudKeepMasks | Toolshed/VegetationLine.py:1317-1322 | the nested loops leave, per line, the mask true exactly at the vertices far from clouds |
| Shoreline.MaskLines | Toolshed/VegetationLine.py:1323-1327 | each line is indexed by its own mask |
| Shoreline.LongMask | Toolshed/VegetationLine.py:1340-1340 | a line is selected iff its length is strictly greater than `min_length_sl` |
| Shoreline.LongLinesExactly | Toolshed/VegetationLine.py:1340-1340 | the length filter keeps exactly the strictly longer lines, in order |
| Shoreline.MapLines | Toolshed/VegetationLine.py:1343-1345 | a reprojection is applied to every line, one for one |
| Shoreline.ProcessShorelineAsWritten | Toolshed/VegetationLine.py:1302-1347 | as written, the result is the length filter of the unfiltered lines, with its two reprojections |
| Shoreline.CloudFilterIgnoredAsWritten | Toolshed/VegetationLine.py:1323-1340 | a line touching a cloud pixel is returned whole as written but dropped by the filtered version |
| Shoreline.ProcessShoreline | Toolshed/VegetationLine.py:1302-1347 | the result is the cloud-filtered lines (when there are cloud pixels) that are strictly longer than the minimum, with their reprojections |
| Shoreline.CleanedLines | Toolshed/VegetationLine.py:1306-1340 | reference definition of the corrected `ProcessShoreline` lines: the cloud-filtered lines when there are cloud pixels, then the strictly longer ones; `CleanedLinesSound` states its properties |
| Shoreline.CleanedLinesSound | Toolshed/VegetationLine.py:1306-1340 | every returned line is longer than the minimum, is an input line with vertices removed, and has no vertex within 30 m of a cloud |
| Shoreline.LongEnoughMask | Toolshed/VegetationLine.py:1394-1394 | the legacy filter selects a line iff its length is at least the bound |
| Shoreline.FlattenLength | Toolshed/VegetationLine.py:1397-1402 | the flattened point array has one point per vertex |
| Shoreline.FlattenLongLines | Toolshed/VegetationLine.py:1390-1403 | the two loops keep the long-enough lines and concatenate their points in order |
| Shoreline.LongEnoughSnoc | Toolshed/VegetationLine.py:1391-1395 | one more line is appended iff its length is at least the bound |
| Shoreline.KeepFarPoints | Toolshed/VegetationLine.py:1449-1453 | the last loop keeps exactly the points at least 30 m from every cloud pixel |
| Shoreline.ProcessShorelineLegacy | Toolshed/VegetationLine.py:1379-1454 | per system, the lines of length >= min_length_sl, >= 1e-17 or >= 0.01, flattened; the cloud filter applies to the output-system points only |
| Shoreline.MinLengthBoundary | Toolshed/VegetationLine.py:1340-1394 | a line exactly at the minimum is dropped by `ProcessShoreline` and kept by `process_shoreline` |
| Operator.Decide | Toolshed/VegetationLine.py:1767-1802 | reference definition of the key loop: decide on the recorded key after each event ('right' keep, 'left' skip, 'escape' cancel), otherwise one more wait; `FirstKeyDecides`, `ClicksNeverDecide`, `DecisionNeedsKey` and the two second-wait lemmas state its properties |
| Operator.AwaitKeyDecision | Toolshed/VegetationLine.py:1767-1802 | the key loop ends as the key-loop function says: keep on 'right', skip on 'left', cancel on 'escape', otherwise one more wait, or waiting forever when the events run out |
| Operator.FirstKeyDecides | Toolshed/VegetationLine.py:1792-1800 | a first 'right', 'left' or 'escape' decides keep, skip or cancel |
| Operator.ClicksNeverDecide | Toolshed/VegetationLine.py:1785-1802 | mouse clicks alone never end the key loop |
| Operator.DecisionNeedsKey | Toolshed/VegetationLine.py:2076-2086 | keep, skip and cancel each happen only after the operator pressed that key |
| Operator.SecondWaitKeyOverwritten | Toolshed/VegetationLine.py:1801-1802 | a key pressed in the extra wait is overwritten by the next press at the top of the loop |
| Operator.SecondWaitKeyKeptAfterClick | Toolshed/VegetationLine.py:1801-1802 | that key decides when the next event is a mouse click |
| Operator.FinishIndex | Toolshed/VegetationLine.py:2009-2045 | the position of the first Enter (empty click), every event before it being a click |
| Operator.ThresholdAfter | Toolshed/VegetationLine.py:2011-2015 | the threshold is t0 or the x of an accepted click (|x| < 1); t0 when no click is accepted |
| Operator.ThresholdAfterInRange | Toolshed/VegetationLine.py:2013-2015 | a threshold taken from a click lies strictly between -1 and 1 |
| Operator.AdjustThreshold | Toolshed/VegetationLine.py:2007-2045 | the loop ends iff an Enter comes; then t is the x of the last accepted click before it (or t0), and the lines are those at t when a click was accepted |
| Operator.ZoneValue | Toolshed/VegetationLine.py:1679-1682 | a cell is 1.0 iff its value is strictly between the two bounds, NaN otherwise (NaN values included) |
| Operator.EmptyZone | Toolshed/VegetationLine.py:1910-1915 | with the lower bound not below the upper, no cell is marked |
| Operator.TransitionZone | Toolshed/VegetationLine.py:1677-1682 | the nested loops (repeated at 1910-1915) fill a fresh grid cell by cell with the zone value of the index image |
| Pipeline.Buffered | Toolshed/VegetationLine.py:999-1000 | the index image is NaN outside the reference buffer and unchanged inside |
| Pipeline.CloudPoints | Toolshed/VegetationLine.py:1306-1314 | one world point per cloud pixel |
| Pipeline.WorldLines | Toolshed/VegetationLine.py:1303-1303 | every contour vertex is converted to world coordinates, line by line |
| Pipeline.RecordedDetection | Toolshed/VegetationLine.py:249-263 | what is appended carries the NDVI threshold, and a waterline at the NDWI threshold exactly when one was found |
| Pipeline.DetectLines | Toolshed/VegetationLine.py:1001-1003 | contours at t, NaN removal and line cleaning give the lines of the specification |
| Pipeline.ImageOutcome | Toolshed/VegetationLine.py:141-255 | reference definition of one image's outcome, in source order: the gate, the vegetation `predict` refusal, the shore `predict` refusal with `wetdry`, then `ClassifiedOutcome`; `SkippedExactly`, `InfiniteFeatureExactly`, `ShoreRefusedExactly`, `SampleRefusedExactly`, `KeptThroughDetection` and `KeptPassedChecks` state its properties |
| Pipeline.ClassifiedOutcome | Toolshed/VegetationLine.py:190-245 | reference definition after classification: the 5% class check, the density-fit refusal, the weighted-peaks search, then the detection at t0 |
| Pipeline.AdjustedOutcome | Toolshed/VegetationLine.py:200-255 | reference definition of the `adjust_detection` path: stalled without Enter, else the key loop's decision on the last accepted click's threshold, and NameError (`ShorelineUnbound`) when a kept image has `wetdry` set |
| Pipeline.ProcessImage | Toolshed/VegetationLine.py:141-245 | one pass of the image loop returns the outcome of the specification, and a detection exactly when the image is recorded, with a waterline exactly when `wetdry` is set |
| Pipeline.FinishDetection | Toolshed/VegetationLine.py:199-245 | after the threshold: the adjustment or the automatic path, as the specification says |
| Pipeline.AdjustPath | Toolshed/VegetationLine.py:200-207 | `adjust_detection`: clicks, then keys; the detection is the one at the final threshold |
| Pipeline.AutomaticPath | Toolshed/VegetationLine.py:209-245 | waterline when `wetdry`, then the optional key check of `show_detection` |
| Pipeline.DetectionNotSkipped | Toolshed/VegetationLine.py:199-245 | once a threshold is found, no quality check skips the image, and neither classifier nor the density fit ends the run |
| Pipeline.InfiniteFeatureExactly | Toolshed/VegetationLine.py:610-620 | the run ends on the classifier iff the image passed the gate and some clear (non-cloud) pixel has an infinite vegetation feature, which `clf.predict` refuses; NaN features are filled and cloudy pixels masked before it |
| Pipeline.ShoreRefusedExactly | Toolshed/VegetationLine.py:186-188 | with `wetdry`, the run ends on the shore classifier iff the image passed the gate and the vegetation classifier and every pixel is cloudy or has an infinite shore feature, so `clf.predict` gets zero rows; this happens before the 5% check |
| Pipeline.NoShoreRowsExactly | Toolshed/VegetationLine.py:670-677 | no row is left for the shore `predict` only when every pixel is cloudy or has an infinite shore feature |
| Pipeline.ShoreRowsExist | Toolshed/VegetationLine.py:670-677 | when rows are left for the shore `predict`, some clear pixel has finite shore features |
| Pipeline.SampleRefusedExactly | Toolshed/VegetationLine.py:959-967 | the run ends on the density fit iff the image passed the gate, both classifiers and the class check and one of the two balanced class samples is empty or holds a NaN, which `KernelDensity.fit` refuses |
| Pipeline.SkippedExactly | Toolshed/VegetationLine.py:141-193 | an image is skipped iff a gate check fails (with that reason) or, after the gate and a successful classification (both classifiers with `wetdry`), either class is under 5% |
| Pipeline.KeptThroughDetection | Toolshed/VegetationLine.py:141-245 | a recorded image passed the gate with the recorded cover, had finite features at its clear pixels, had rows for the shore classifier when `wetdry` is set, passed the class check, had two fittable class samples and had a threshold |
| Pipeline.DetectionKept | Toolshed/VegetationLine.py:199-245 | a recorded detection had 'right' pressed when asked, Enter in the clicks when adjusted, the adjusted or found threshold, and a waterline iff `wetdry` |
| Pipeline.KeptPassedChecks | Toolshed/VegetationLine.py:141-263 | a recorded image passed every check (finite features at every clear pixel, with `wetdry` some clear pixel with finite shore features, both classes >= 5%, both class samples non-empty and NaN-free, 'right' when asked) and never has both `adjust_detection` and `wetdry` |
| Pipeline.AdjustWithWetdryRecordsNothing | Toolshed/VegetationLine.py:200-255 | with `adjust_detection` and `wetdry` no image is recorded: the waterline appended was never computed |
| Pipeline.KeptThreshold | Toolshed/VegetationLine.py:213-245 | the recorded NDVI threshold is the weighted-peaks one, in (-0.2, 0.99], or the last accepted click in (-1, 1) when adjusted |
| Pipeline.LinesClean | Toolshed/VegetationLine.py:226-228 | with the corrected `ProcessShoreline`, vegetation lines and waterlines are each longer than `min_length_sl` and at least 30 m from every cloud pixel, with their reprojections |
| Pipeline.UncheckedAlwaysKept | Toolshed/VegetationLine.py:209-263 | without operator checks, an image that passes the checks, has finite features at its clear pixels, rows for the shore classifier when `wetdry` is set, two fittable samples and a strong peak is always recorded |
| Pipeline.LinesAsWrittenLong | Toolshed/VegetationLine.py:1323-1345 | as written, every recorded line is a whole NaN-free world line strictly longer than `min_length_sl`, and every such line is recorded, whatever the clouds |
| Pipeline.LinesAgreeWithoutClouds | Toolshed/VegetationLine.py:1306-1345 | on an image without cloud pixels, the corrected lines equal the lines as written |
| Pipeline.LinesAsWritten | Toolshed/VegetationLine.py:1323-1345 | reference definition of `ProcessShoreline` as written: the length filter over the unfiltered NaN-free world lines, with their reprojections; `LinesAsWrittenLong` states its properties |
| Batch.SatelliteRecord.constructor | Toolshed/VegetationLine.py:101-114 | all output lists start empty |
| Batch.SatelliteRecord.Append | Toolshed/VegetationLine.py:249-263 | every list grows by exactly the image's element, the waterline lists only when `wetdry`; the lists stay parallel and `idx` increasing |
| Batch.SatelliteRecord.Output | Toolshed/VegetationLine.py:267-277 | `output[satname]` holds the lists, with the output-system lines |
| Batch.SatelliteRecord.OutputLatLon | Toolshed/VegetationLine.py:280-290 | `output_latlon[satname]` is the same entry with the lat/lon lines |
| Batch.SatelliteRecord.OutputProj | Toolshed/VegetationLine.py:292-302 | `output_proj[satname]` is the same entry with the projected lines |
| Batch.Processed | Toolshed/VegetationLine.py:135-245 | the images processed run up to the first one whose outcome ends the run |
| Batch.KeptIndicesExactly | Toolshed/VegetationLine.py:262-262 | the recorded indices are exactly the kept images, strictly increasing |
| Batch.ExpectedEntriesOfKept | Toolshed/VegetationLine.py:249-263 | entry k of the record is that of the k-th recorded image |
| Batch.RecordedLists | Toolshed/VegetationLine.py:249-263 | `idx` is increasing and below `len(filenames)`; `filename[k] = filenames[idx[k]]`, and so for dates, times, accuracy, cover, threshold and lines |
| Batch.ExtractSatellite | Toolshed/VegetationLine.py:135-263 | the image loop of one satellite stops at the first image that ends the run and records, in file order, the entries of every image kept before it |
| Batch.ImageLoop | Toolshed/VegetationLine.py:135-263 | the same loop, against the images' outcomes |
| Batch.RecordImage | Toolshed/VegetationLine.py:141-263 | one iteration: the image's outcome, and its entry appended when it is kept |
| Batch.StoreEntry | Toolshed/VegetationLine.py:249-263 | a kept image's entry is appended; nothing else changes the record |
| Batch.Georefs | Toolshed/VegetationLine.py:124-124 | the `acc_georef` lists of every satellite |
| Batch.RanExactly | Toolshed/VegetationLine.py:135-245 | only one list of outcomes and detections fits a satellite's images |
| Batch.ExtractOne | Toolshed/VegetationLine.py:115-263 | one satellite: stops without a pixel size, otherwise runs its image loop and says why it ended |
| Batch.AddSatellite | Toolshed/VegetationLine.py:94-302 | one iteration of the satellite loop: a satellite that is done is stored in all three dictionaries, and the others are kept |
| Batch.ExtractVeglines | Toolshed/VegetationLine.py:94-302 | the satellites in key order: the dictionaries hold exactly the satellites done, each with its packed record; the run stops at the first satellite without a pixel size or whose images end the run |

## Left out

- Printing, figures and files: `save_ClassIm`, `save_TZone`, the figure drawing, `savefig` and loading the classifiers with joblib. `save_figure` only changes what is saved, so it is not modelled.
- Library and helper calls are function parameters of `Pipeline.Toolkit`, constrained only by documented result shapes. Those that work on 2-D images receive the flat grid and its column count:
  - the classifiers, `remove_small_objects`, `binary_dilation` by a disk and `np.random.choice`;
  - `np.random.choice` is one fixed function of the population and sample size for the whole run, so two images with equal sample sizes draw the same positions, where numpy draws afresh on every call;
  - the kernel-density estimate (`KernelDensity`, `score_samples`, `exp`) and `scipy.signal.find_peaks`;
  - marching squares and `LineString.length`;
  - the pixel/world conversions and the reprojections (`to_crs`, `convert_epsg`), with a single coordinate system for lines and cloud pixels;
  - `Toolbox.TZValues`.
- The Otsu threshold of `FindShoreContours_Water` is one parameter. That parameter covers the balancing of the water and sand samples as well as `threshold_otsu`. It is total, so where `threshold_otsu` would raise ValueError on an empty `int_all` (with `wetdry`, no water or sand pixel inside the buffer) the model goes on with the parameter's value.
- Feature construction (`calculate_vegfeatures`, `calculate_features`) and the index images (`nd_index`): feature rows and NDVI/NDWI images are inputs of a `Scene`.
- Preprocessing (`preprocess_single`): the raster flag, the masks and the acquisition time are inputs.
- `BufferShoreline`, the geopandas buffer the image loop actually uses: it is an input of a `Scene`. `ReferenceBuffer` models the pixel marking of `create_shoreline_buffer` separately, and the disk dilation that follows it is left out.
- WeightedPeaks.StrongPeak: the source's relaxation loop has no bound and runs forever when no search finds a peak. The model stops after `maxRelax` relaxed searches and reports `NoPeakFound`, which ends the run.
- Operator.AwaitKeyDecision: when the operator's events run out the program would wait forever. The model reports `Waiting`, and the image loop then ends the run (`Stalled`).
- Run-ending outcomes: on escape Python raises StopIteration, `adjust_detection` with `wetdry` raises NameError, and an infinite feature at a clear pixel (`clf.predict`), a shore classification with no clear pixel whose shore features are finite (`clf.predict` on zero rows in `classify_image_NN_shore`, with `wetdry`) or an unfittable class sample (`KernelDensity.fit`) raises ValueError. The unbounded peak search and the wait for a key hang instead. In every such case the model returns the dictionaries built so far and the reason, not an exception or a hang.
- For readability, the three lists of vegetation lines (output, lat/lon, projected) are one list of line sets in `Batch.SatelliteRecord`, and so are the three waterline lists. The packing functions read them back out per system.
- The order of the satellites is the `sats` sequence, taken to be the metadata's key order.
- The geo-accuracy list is recorded but, as in the source, not part of the dictionaries. The per-satellite date merge that follows the loop (`merge_output`, `remove_duplicates`) is left out.
- Batch.ExtractVeglines: the `'tideelev'` entry that lines 305-313 add to all three dictionaries of every satellite is not modelled. It comes from `Toolbox.GetWaterElevs` over the parsed date and time strings, a call into a file not modelled here.
- `extract_veglines_year` is left out. It repeats the same loop with a different buffer builder.
- Contours.CleanContoursFromSurvivors: it proves "every output has at least two vertices" only when every NaN-free input contour has two. `process_contours` passes a NaN-free contour through whatever its length.
- Pipeline.LinesClean: it states filtering properties only. That the lines are sub-multisets of the input lines is proved separately by `Shoreline.CleanedLinesSound`. Its 30 m cloud clearance is a property of the corrected `ProcessShoreline`; as written the recorded lines are not cloud-filtered (`Pipeline.LinesAsWrittenLong` states what they are).
- Pipeline.LinesFrom: the image pipeline uses the corrected `ProcessShoreline` of "## Findings", not the code as written. As written, a line near a cloud pixel is recorded whole. The two agree on images without cloud pixels (`Pipeline.LinesAgreeWithoutClouds`).
- Pipeline.DetectLines: it calls the corrected `Shoreline.ProcessShoreline`, for the reason given for `Pipeline.LinesFrom`.
- Pipeline.RecordedDetection: its vegetation lines and waterlines are the corrected cloud-filtered ones of `Pipeline.LinesFrom`, not the unfiltered lines the program as written appends.
- Pipeline.ProcessImage: the detection it returns carries the corrected cloud-filtered lines, as `Pipeline.RecordedDetection` says.
- Pipeline.FinishDetection: its detection is built from the corrected cloud-filtered lines.
- Pipeline.AdjustPath: the lines drawn at each clicked threshold are the corrected cloud-filtered ones.
- Pipeline.AutomaticPath: the vegetation lines and the waterline both go through the corrected cloud filter.
- Batch.ExtractOne: a pixel size of zero is not a stop. `MinBeachAreaPixels` is then `None`, and the image loop runs with `remove_small_objects` given `None`. Neither the ZeroDivisionError of a plain Python number at line 131 nor the infinite sizes of a numpy float are modelled.
- Batch.ExtractOne: it uses the corrected `PixelSize` of "## Findings", not line 124 as written. When the satellite is not the first of `sat_list`, its minimum beach area comes from its own georef value rather than the first satellite's. A satellite without images stops the run with `NoPixelSize` (the corrected line 124 would raise IndexError there), where the program as written reads the first satellite's value and stores an empty record.
- Batch.AddSatellite: its `NoPixelSize` stop is stated with the corrected `PixelSize`, for the reason given for `Batch.ExtractOne`.
- Batch.ExtractVeglines: the run uses the corrected pixel size and the corrected lines, as for `Batch.ExtractOne` and `Pipeline.LinesFrom`.
- Shoreline.ProcessShoreline: when the cloud filter leaves a line with a single vertex, the corrected code's `LineString` at line 1338 would raise ValueError. The model passes that line on to the length filter, which keeps it only if its length is above `min_length_sl`.
- Floating point: values are exact reals, and a NaN feature or index value is a distinct constructor or `None`, so rounding effects are not modelled. The one exception is bin 100 of `np.arange(-1, 1, 0.01)`: numpy computes it as 2^-50, and the model uses that value because it decides which bins are above 0. The other bins are their decimal values, whose sign numpy keeps.

## Findings

| source | as written | input that shows it | evidently intended | confidence | as-written member | corrected member |
|---|---|---|---|---|---|---|
| Toolshed/VegetationLine.py:1323-1338 | the list branch of `ProcessShoreline` stores the cloud-filtered lines in `contour_world`, but the length filter at 1338-1340 reads `contours_world`, so the cloud filter has no effect | one 100 m line from (0, 0) to (100, 0), a cloud pixel at (0, 0), minimum length 50: the line is returned whole | the length filter and the reprojections take the cloud-filtered lines (a line left with one vertex would then make `LineString` raise; the corrected member does not model that raise) | high; not executed | Shoreline.ProcessShorelineAsWritten, Shoreline.CloudFilterIgnoredAsWritten | Shoreline.ProcessShoreline |
| Toolshed/VegetationLine.py:122-124 | for a satellite other than Landsat and Sentinel-2, the pixel size is read from the first image of the first satellite in `sat_list`, whichever satellite is processed | `sat_list = ['S2', 'PSScene4Band']` with first georef values 12 and 3: PlanetScope gets 12 | read the first image of the satellite being processed | medium; not executed | PixelScale.PixelSizeAsWritten, PixelScale.PixelSizeFromWrongSatellite | PixelScale.PixelSize |
