# LEAP core in Dafny

LEAP (talmo/leap) trains Keras networks that estimate animal pose from
confidence maps. Each map has one channel per body part, and the peak of a
channel is that part's predicted position. This project models the exact,
index-level rules underneath the Keras, OpenCV, HDF5 and matplotlib code,
and proves properties of them:

- **Peak extraction.** This covers `_find_maxima` / `find_maxima` and the
  `Maxima2D` and `UpSampling2D` shape rules (module `Layers`,
  `layers.dfy`), plus `tf_find_peaks` and the last-output selection of
  `convert_to_peak_outputs` (module `PredictBox`, `predict_box.dfy`). A peak
  is a triple (x = column, y = row, value).
- **predict_box.** This covers the choice of weights in a run folder, the
  rewrite of the output path, the existence/overwrite check, and the
  datasets written (`positions_pred` cast to int32, `conf_pred`). The
  procedure is a method on a `Disk` class that holds the directories and
  files it reads and changes.
- **Checkpoint names and preprocessing** (module `Utils`, `utils.dfy`):
  - the `weights.<epoch>-<loss>.h5` matcher of `find_weights`;
  - the argmin of `find_best_weights`;
  - the rank, permutation and dtype rule of `preprocess`.
- **Batches and paired augmentation** (module `ImageAugmentation`,
  `image_augmentation.dfy`):
  - `np.array_split` into ceil(N/B) near-equal batches;
  - `transform_imgs`: one drawn rotation and scale per call, applied to
    every image and channel;
  - the two augmenter classes.
- **Training helpers** (module `Training`, `training.dfy`):
  - `train_val_split`;
  - the first-free-name loop of `create_run_folders`, on a `FileTree` class;
  - `create_model` dispatch;
  - the default run name;
  - checkpoint names as written by `ModelCheckpoint`.
- **Visualisation** (module `Viz`, `viz.dfy`):
  - the input-shape normalisation of `show_pred` / `show_confmap_grid`;
  - the peak loop and markers of `show_pred`;
  - `gallery`'s tiling;
  - the channel interleave and return rule of `show_confmap_grid`.

Modules `Base` (`base.dfy`: Option/Result, numpy-style argmax/argmin,
Python indexing and slicing, gather) and `Text` (`text.dfy`: digits, `%d`
and `%02d` formatting, `os.path` join/basename/dirname/splitext,
lexicographic sort) hold the library behaviour the core relies on.

Maps hold `real` values. Randomness is passed in: a uniform draw `u` in
[0, 1) and the shuffle permutation. The same goes for the directory
listing, the contents of the box dataset, the model loader, the network's
`predict`, and OpenCV's warp.

### Where the code and its description differ (the model follows the code)

- The batches are `np.array_split` pieces, which are near-equal. The first
  N mod k pieces are one larger. For N = 100 and B = 32 this gives four
  batches of 25 (`ImageAugmentation.HundredByThirtyTwo`), not 32, 32, 32
  and 4.
- Without shuffling, `train_val_split` takes the FIRST `val_size` indices
  for validation (`Training.UnshuffledSplit`). The parameter description at
  `leap/training.py:140` says the validation set is the last frames.
- `_find_maxima` concatenates (cols, rows, maxima), so a peak is (x = column,
  y = row, value). The `Maxima2D` docstring at `leap/layers.py:198` says
  `[row, col, maximum]`.
- `_find_maxima`'s x and y are the first column and the first row that
  reach the maximum. They are computed separately, so the pair is not
  necessarily a cell that holds the maximum (see Findings).

## Model

| member | source | states |
|---|---|---|
| Layers.ColumnMaxima | leap/layers.py:155 | one entry per column, each that column's maximum |
| Layers.RowMaxima | leap/layers.py:156 | one entry per row, each that row's maximum |
| Layers.FindPeak | leap/layers.py:151-169 | x is in [0, W) and y in [0, H). The value is the maximum over all cells. Column x's maximum and row y's maximum both equal it. Every column before x and every row before y has a smaller maximum (numpy's first-occurrence argmax). |
| Layers.UniqueMaximumPeak | leap/layers.py:151-169 | if the maximum is attained at exactly one cell (r0, c0), the peak is (c0, r0, m[r0][c0]) |
| Layers.PeakValueIsGridMax | leap/layers.py:155-159 | the value entry equals any cell that bounds the whole map |
| Layers.PeakAtOrigin | leap/layers.py:161-162 | if column 0 and row 0 each reach the maximum, the peak is at x = 0, y = 0 |
| Layers.TiedMaximumSplitsPeak | leap/layers.py:155-167 | a maximum tied at (0,1) and (1,0) with a smaller (0,0) gives peak (0, 0, v). Cell (0,0) does not hold v. |
| Layers.ConstantMapPeak | leap/layers.py:161-162 | a constant map peaks at (0, 0) with that constant |
| Layers.FlatPeak | leap/predict_box.py:28-38 | the corrected single-argmax peak: in range, holds the map's maximum, and every cell before it in row-major order is strictly smaller |
| Layers.FlatPeakUnique | leap/predict_box.py:31-35 | any cell that is maximal and has only smaller cells before it in row-major order is the flat peak |
| Layers.PeakValuesAgree | leap/layers.py:158-159 | the column/row peak and the flat peak have the same value |
| Layers.FindPeakIsFlatPeakOnUniqueMaximum | leap/layers.py:151-169 | with a unique maximal cell, the column/row peak and the flat peak coincide |
| Layers.ChannelOf | leap/layers.py:153-156 | the H×W plane of one sample and channel, cell by cell |
| Layers.PeakRows | leap/layers.py:163-167 | the 3×C block whose rows are x, y and value, in that order |
| Layers.SamplePeaks | leap/layers.py:151-169 | one peak per channel, each the column/row peak of that channel's plane |
| Layers.FindMaximaLast | leap/layers.py:187-189 | channels_last: one 3×C block per sample |
| Layers.FindMaximaLastLayout | leap/layers.py:163-167 | result is (B, 3, C), and entry [b][0/1/2][c] is the x, y and value of channel c's peak |
| Layers.ToChannelsLast | leap/layers.py:183 | the [0,2,3,1] permutation: y[b][h][w][c] == x[b][c][h][w] |
| Layers.SwapLastAxes | leap/layers.py:185 | the [0,2,1] permutation: u[b][c][k] == t[b][k][c] |
| Layers.FindMaxima | leap/layers.py:172-191 | an error exactly when data_format is neither channels_first nor channels_last; channels_last is _find_maxima of the input unpermuted |
| Layers.ChannelsLastPeaks | leap/layers.py:187-189 | channels_last gives (B, 3, C), and column [b][..][c] is x, y and value of the peak of channel c of sample b |
| Layers.ChannelsFirstPeaks | leap/layers.py:182-186 | channels_first gives (B, C, 3), and row [b][c] is [x, y, value] of plane x[b][c]'s peak |
| Layers.MaximaShapeAgrees | leap/layers.py:229-237 | find_maxima's result has exactly the shape Maxima2D.compute_output_shape reports, for both formats |
| Layers.UpSampling2DOutputShape | leap/layers.py:124-138 | keeps the batch axis and the channel axis of either format |
| Layers.UpSamplingScalesSpatialDims | leap/layers.py:124-138 | spatial dims are multiplied by the size factors, and None stays None |
| Layers.UpSamplingComposes | leap/layers.py:124-138 | upsampling by a then by b gives the same shape as upsampling by a·b |
| Layers.ResizeImages | leap/layers.py:53-80 | Ok exactly when both names are valid. An unknown interpolation raises ValueError("Invalid interpolation method:") before data_format is checked. An unknown data_format raises ValueError("Invalid data_format:"). |
| Layers.ResizeAgreesWithUpSampling | leap/layers.py:61-78 | resize_images' static spatial shape equals UpSampling2D.compute_output_shape's |
| PredictBox.TfPeak | leap/predict_box.py:28-38 | the flat argmax split by div/mod H, as written: x < H, y < W, y·H + x is the flat argmax, and the value is the map's maximum |
| PredictBox.TfPeakSquare | leap/predict_box.py:31-35 | on a square map the as-written split is the corrected flat peak, and its cell holds the value |
| PredictBox.TfPeakNonSquare | leap/predict_box.py:34-35 | on the 1×2 map [[0, 5]] it gives (0, 1, 5): row 1 does not exist. The row-major peak is (1, 0, 5). |
| PredictBox.TfFindPeaks | leap/predict_box.py:15-45 | (N, H, W, C) becomes N blocks of rows cols, rows, vals, built from TfPeak per channel |
| PredictBox.TfFindPeaksLayout | leap/predict_box.py:41-45 | the result is (N, 3, C), and entry [b][2][k] is the maximum of channel k |
| PredictBox.SelectConfmaps | leap/predict_box.py:50-53 | a single output is used as is. For a list the last element is used, and an empty list is an error. |
| PredictBox.SelectConfmapsLastStage | leap/predict_box.py:50-51 | only the last element of a list output matters, and [t] behaves like t |
| PredictBox.PeakModel | leap/predict_box.py:48-59 | with include_confmaps: tf_find_peaks plus the maps. Without: Maxima2D's find_maxima. Shape (N, 3, C). Ok exactly when the maps are non-empty. |
| PredictBox.PeakFindersAgreeOnChannel | leap/predict_box.py:55-59 | on a square channel with a unique maximum the two peak finders agree |
| PredictBox.PeakRowsAgreeOnSample | leap/predict_box.py:55-59 | the same, for every channel of a sample |
| PredictBox.PeakPathsAgree | leap/predict_box.py:55-59 | the saved peaks do not depend on save_confmaps when maps are square with unique maxima |
| PredictBox.SelectFrom | leap/predict_box.py:87-92 | the chosen weights are final_model.h5 in the run folder or one of the listed checkpoints |
| PredictBox.SelectFromDefault | leap/predict_box.py:87-90 | without an epoch: the first minimal-loss checkpoint, or final_model.h5 when there is none |
| PredictBox.SelectFromFinal | leap/predict_box.py:89-90 | "final" gives model_path/final_model.h5 |
| PredictBox.SelectFromIndex | leap/predict_box.py:91-92 | an integer epoch i is Python indexing: Ok exactly when -n <= i < n, otherwise IndexError. Any other text is a TypeError. |
| PredictBox.SelectWeights | leap/predict_box.py:82-92 | a failure of find_weights propagates; otherwise the rule above on its result |
| PredictBox.SelectWeightsDefault | leap/predict_box.py:85-90 | the default choice is exactly find_best_weights' answer, or final_model.h5 when that is None |
| PredictBox.WeightsPathFor | leap/predict_box.py:80-92 | a model_path that is not a directory is the weights file itself |
| PredictBox.OutputPath | leap/predict_box.py:102-106 | an out_path ending in ".h5" is kept |
| PredictBox.OutputPathJoins | leap/predict_box.py:102-106 | for a folder without a trailing '/' and slash-free names, the result is out_path/basename(box_path), or out_path/model_name/basename(box_path) for a run folder |
| PredictBox.OutputPathKeepsBoxName | leap/predict_box.py:102-106 | a rewritten out_path ends in the box file's name |
| Text.Basename | leap/predict_box.py:104 | os.path.basename: the longest slash-free suffix of the path |
| Text.Dirname | leap/predict_box.py:107 | os.path.dirname: empty exactly for a slash-free path; otherwise the part up to the last '/', less its trailing slashes unless it is all slashes |
| Text.JoinParts | leap/predict_box.py:104-106 | os.path.join: an absolute second part replaces the first; otherwise the first, one '/' exactly when it is non-empty and lacks one, then the second |
| Text.SplitExtRoot | leap/training.py:175 | os.path.splitext's root: a prefix whose cut-off is empty or '.' plus dot-free text, cut exactly when some '.' has a non-dot before it |
| PredictBox.Trunc | leap/predict_box.py:167 | astype("int32") truncates toward zero |
| PredictBox.TruncOfInt | leap/predict_box.py:167 | whole-number coordinates are unchanged by the cast |
| PredictBox.Squeeze | leap/predict_box.py:171 | squeeze drops every length-1 axis and keeps every other one |
| PredictBox.SqueezeSingle | leap/predict_box.py:171 | one axis is kept exactly when its length is not 1 |
| PredictBox.SqueezeAppend | leap/predict_box.py:171 | squeeze distributes over concatenation, so the kept axes keep their order and multiplicity |
| PredictBox.MakeArtifact | leap/predict_box.py:158-180 | positions_pred is rows 0 and 1 (x, y) truncated, conf_pred is row 2, confmaps are stored (0,3,2,1)-transposed when saved, and every attribute (num_samples, img_size, box_path, box_dset, model_path, weights_path, model_name) is the value passed in |
| PredictBox.PositionsAreMaximaCells | leap/predict_box.py:167 | without save_confmaps, the stored positions are the Maxima2D column and row of each channel |
| PredictBox.Prediction | leap/predict_box.py:132-150 | preprocess, then predict, then the peak wrapper. An error exactly when one of them fails. |
| PredictBox.Expected | leap/predict_box.py:80-171 | each failing step (weights choice, box read, box with no axes, model load, prediction) gives its own error. Otherwise the artifact is built from the prediction's peaks, with img_size the preprocessed shape after its first axis, the chosen weights path, the box's first dimension as num_samples, and basename(model_path) as model_name. |
| PredictBox.Disk.MakeDirs | leap/predict_box.py:107 | makedirs(exist_ok=True): it fails for "" or when a file is in the way; otherwise exactly the path and its parents are added |
| PredictBox.Disk.Save | leap/predict_box.py:115-121 | an existing output is kept unless overwrite is set. Only the output path's entry can change. The file is written exactly when the prediction succeeded and its folder exists. |
| PredictBox.Disk.PredictBox | leap/predict_box.py:62-184 | a weights or box failure changes nothing. Only the resolved output path's entry changes, and only its folders are added. Once weights, box and makedirs succeed: the output is reported as existing exactly when overwrite is off and the path exists, and a file is written exactly when the prediction succeeds, no folder has that path, overwrite is on or no file had it, and its folder exists. A written file is the expected artifact. |
| PredictBox.LoadAndPredict | leap/predict_box.py:124-171 | loading, predicting and assembling the file compute the Ok or error that Expected gives |
| Utils.MatchWeightsName | leap/utils.py:24 | on a match, the epoch group is non-empty digits and the loss group is non-empty digits and dots |
| Utils.MatchWeightsNameSound | leap/utils.py:24 | a matched name starts with weights.<epoch>-<loss>.h5 built from its groups |
| Utils.MatchWeightsNameComplete | leap/utils.py:24 | every weights.<e>-<l>.h5 prefix, whatever follows, matches with groups (e, l) |
| Utils.ParseDecimal | leap/utils.py:26 | a parsed loss is non-negative |
| Utils.ParseDecimalOfFixed | leap/utils.py:26 | "a.b" parses to a + b/10^len(b) |
| Utils.ParseDecimalTwoDots | leap/utils.py:26 | a loss group with two dots is not a float |
| Utils.ParseDecimalNatToString | leap/utils.py:26 | a plain integer loss parses to itself |
| Utils.KeepWeights | leap/utils.py:23 | exactly the entries containing "weights" are kept, with their multiplicities |
| Utils.KeepWeightsSorted | leap/utils.py:22-23 | filtering a sorted listing keeps it sorted |
| Utils.KeptNames | leap/utils.py:22-23 | sorted, and exactly the listing's names containing "weights" |
| Utils.MatchAll | leap/utils.py:24 | all names match, or there is no result, index by index |
| Utils.LossesOf | leap/utils.py:26 | all losses parse, or there is no result, index by index |
| Utils.WeightsOf | leap/utils.py:24-28 | a name that does not match is the .groups() error (not a skip). Otherwise paths, epochs and losses are index-aligned with the names. |
| Utils.WeightsOfNotAFloat | leap/utils.py:26 | the float error arises only when every name matched and some loss group did not parse |
| Utils.FindWeights | leap/utils.py:19-29 | a missing weights folder is FileNotFoundError; otherwise the kept, sorted names of that folder |
| Utils.BestOf | leap/utils.py:35-39 | None exactly when there are no losses, otherwise the path at the first minimal loss |
| Utils.FindBestWeights | leap/utils.py:32-39 | find_weights' error propagates; otherwise the first-argmin path, or None |
| Utils.CheckAxes | leap/utils.py:68 | transpose's axes are valid exactly when each is in range (negatives count from the end) and no two name the same axis |
| Utils.CheckedAxesPermute | leap/utils.py:68 | valid axes of full length are a permutation |
| Utils.PreprocessShape | leap/utils.py:64-68 | rank 3 gets a leading 1. The wrong number of axes is ValueError("axes don't match array"). Otherwise shape[i] = input shape[permute[i]]. |
| Utils.DefaultPermuteShapes | leap/utils.py:60-68 | (H,W,C) becomes (1,C,W,H), and (N,H,W,C) and (N,C,W,H) swap into each other |
| Utils.PreprocessValues | leap/utils.py:71-72 | uint8 becomes float32 divided by 255; any other dtype passes unchanged |
| Utils.PreprocessUnitRange | leap/utils.py:71-72 | uint8 data lands in [0, 1] |
| Utils.Preprocess | leap/utils.py:60-74 | shape and values follow the two rules above, and the shape error propagates |
| ImageAugmentation.NumBatches | leap/image_augmentation.py:60 | k = ceil(N/B): (k-1)·B < N <= k·B. B = 0 divides by zero. N = 0 or B < 0 is array_split's ValueError. |
| ImageAugmentation.SectionSizes | leap/image_augmentation.py:60 | the first N mod k sizes are N div k + 1, the rest N div k, and they sum to N |
| ImageAugmentation.ArraySplit | leap/image_augmentation.py:60 | k pieces whose concatenation is the index sequence, sized as above |
| ImageAugmentation.BatchSizesBounded | leap/image_augmentation.py:60 | every batch is non-empty and no batch exceeds B |
| ImageAugmentation.HundredByThirtyTwo | leap/image_augmentation.py:60 | 100 samples at batch size 32 give four batches of 25 |
| ImageAugmentation.UnshuffledBatchesContiguous | leap/image_augmentation.py:56-60 | without shuffle each batch is a contiguous ascending run |
| ImageAugmentation.Sample | leap/image_augmentation.py:10-13 | a scalar is used unchanged; a range draws ptp·u + min, and an empty range is an error |
| ImageAugmentation.SampleInRange | leap/image_augmentation.py:10-13 | the draw lies in [min, max), or equals min when the range is a point |
| ImageAugmentation.ChannelPlane | leap/image_augmentation.py:38 | the plane X[..., c] |
| ImageAugmentation.SetChannel | leap/image_augmentation.py:38 | assigning X[..., c] changes that channel only |
| ImageAugmentation.Warped | leap/image_augmentation.py:31-38 | a plane is warped whole, and a stack is warped channel by channel with the same matrix |
| ImageAugmentation.WarpedByIdentity | leap/image_augmentation.py:31-38 | a warp that fixes every plane fixes every image |
| ImageAugmentation.Transform | leap/image_augmentation.py:6-44 | Ok exactly when both draws succeed and a list is non-empty. One image in gives one out, and a list gives a list of equal length, all still square. |
| ImageAugmentation.TransformSharesMatrix | leap/image_augmentation.py:21-38 | every image uses the one matrix centred at (H/2, H/2) with the drawn angle and scale |
| ImageAugmentation.WarpChannels | leap/image_augmentation.py:37-38 | the in-place channel loop computes the warped stack |
| ImageAugmentation.TransformImgs | leap/image_augmentation.py:6-44 | the copying loop over images computes Transform |
| ImageAugmentation.ParamError | leap/image_augmentation.py:10-13 | no error exactly when every draw succeeds |
| ImageAugmentation.AugmentPairs | leap/image_augmentation.py:70-71 | an error exactly for a non-empty batch with an empty range. Otherwise sample i of X and of Y is warped by the same matrix, built from the i-th draw, and count, squareness and kind are kept. |
| ImageAugmentation.AugmentBatch | leap/image_augmentation.py:70-72 | the loop that overwrites X[i], Y[i] computes AugmentPairs |
| ImageAugmentation.PairedImageAugmenter.constructor | leap/image_augmentation.py:48-60 | fields set, and the batches are array_split of the (shuffled) indices into ceil(N/B) pieces |
| ImageAugmentation.PairedImageAugmenter.Len | leap/image_augmentation.py:62-63 | __len__ is ceil(N/B) |
| ImageAugmentation.PairedImageAugmenter.BatchIndicesInRange | leap/image_augmentation.py:55-60 | every batch index is a valid sample index |
| ImageAugmentation.PairedImageAugmenter.Item | leap/image_augmentation.py:65-72 | an out-of-range batch index is IndexError. Gathering X at a batch always succeeds, and gathering Y's failure is the result. It is Ok exactly when the index is in range, Y can be gathered and the parameters can be drawn (or the batch is empty). The result is AugmentPairs of the two gathered batches, one pair per index. |
| ImageAugmentation.PairedImageAugmenter.GetItem | leap/image_augmentation.py:65-72 | __getitem__ computes Item and changes no field |
| ImageAugmentation.AsList | leap/image_augmentation.py:77-80 | a single name is wrapped in a one-element list |
| ImageAugmentation.SameForAll | leap/image_augmentation.py:87 | every name maps to the same batch |
| ImageAugmentation.MultiInputOutputPairedImageAugmenter.constructor | leap/image_augmentation.py:76-83 | the names are listed, and the inner augmenter is built as above |
| ImageAugmentation.MultiInputOutputPairedImageAugmenter.GetItem | leap/image_augmentation.py:85-87 | every input name maps to the X batch and every output name to the Y batch; errors propagate |
| Training.RoundHalfEven | leap/training.py:27 | np.round: the nearest integer, ties to even |
| Training.ValCount | leap/training.py:26-27 | val_size < 1 becomes round(N·val_size); an integer >= 1 is a count |
| Training.FractionCountBounded | leap/training.py:26-27 | a fraction in [0, 1) gives a count in [0, N] |
| Training.IndexOrder | leap/training.py:29-31 | the index order is a permutation of 0..N-1 |
| Training.SplitAt | leap/training.py:33-36 | val_idx = idx[:k], train_idx = idx[k:], and the four subsets are the gathers at them |
| Training.TrainValSplit | leap/training.py:23-36 | the count's error propagates; otherwise the split at the sliced count |
| Training.SplitPartitions | leap/training.py:29-36 | val and train indices are disjoint and together a permutation, of sizes min(k, N) and N − min(k, N) |
| Training.UnshuffledSplit | leap/training.py:29-36 | unshuffled, validation is the first k samples and training the rest, in order |
| Training.Candidate | leap/training.py:53 | "%s_%02d" extends the initial path |
| Training.CandidatesDistinct | leap/training.py:51-54 | distinct counters give distinct candidates, none equal to the initial path |
| Training.Cleared | leap/training.py:56-57 | rmtree removes the path and everything below it, and nothing else |
| Training.FileTree.CreateRunFolders | leap/training.py:39-65 | clean=False picks the first free candidate and clean=True the plain path, cleared first. Afterwards the run folder and weights, viz_pred and viz_confmaps exist. An empty path is FileNotFoundError. |
| Training.CreateModel | leap/training.py:93-99 | None exactly for names other than leap_cnn, hourglass and stacked_hourglass |
| Training.CreateModelNames | leap/training.py:93-97 | each known name dispatches to its own network |
| Training.DataName | leap/training.py:174-175 | data_name defaults to the data file's basename minus an extension. The extension is empty or a '.' followed by dot-free text, and it is non-empty exactly when some '.' in the basename has a non-dot before it. |
| Training.RunName | leap/training.py:176-179 | the default run name starts "<data_name>-<net_name>_epochs=" |
| Training.RunNameEpochs | leap/training.py:179 | the text after the last "=" parses back to epochs |
| Training.CheckpointRoundTrip | leap/training.py:222 | a name written by ModelCheckpoint matches find_weights' pattern, and its epoch and loss parse back |
| Viz.SampleShape | leap/viz.py:20-26 | rank 2 becomes (1,H,W,1). Rank 3 with shape[0] == 1 gets a channel axis, and with last dim 1 or 3 a sample axis. Size and axis order are kept, only ones are added. |
| Viz.NormalizedSample | leap/viz.py:20-26 | reshapes only: data and dtype are unchanged |
| Viz.SqueezeFirst | leap/viz.py:27-28 | squeeze(axis=0) succeeds exactly when that axis is 1, otherwise ValueError |
| Viz.TruthMaps | leap/viz.py:27-28 | a batch of ground-truth maps is squeezed, and a single sample is kept |
| Viz.PredictedMaps | leap/viz.py:31-34 | the last element of a list prediction, then squeeze(axis=0) |
| Viz.ChannelGrid | leap/viz.py:41 | the plane Y[..., i] |
| Viz.ArgmaxCell | leap/viz.py:42 | unravel_index(argmax) is the first row-major maximal cell, as (row, col) |
| Viz.ChannelCells | leap/viz.py:40-47 | one first-maximal cell per channel |
| Viz.PeakCellsOf | leap/viz.py:40-47 | an empty map is argmax's ValueError, and a prediction with fewer channels is IndexError. Otherwise one first-maximal cell per channel of each. |
| Viz.FindPeakCells | leap/viz.py:38-47 | the appending loop computes PeakCellsOf |
| Viz.Markers | leap/viz.py:61-66 | one marker per predicted channel, plotted reversed as (x = col, y = row); too few peaks is IndexError |
| Viz.ShowPredMarkers | leap/viz.py:6-66 | Ok exactly when Y squeezes, the prediction squeezes, the peak loop succeeds, no predicted channel is empty, joint_idx is in range and every predicted channel has a ground-truth peak. The result is then one marker per predicted channel. |
| Viz.ShowPred | leap/viz.py:6-76 | show_pred's steps compute ShowPredMarkers |
| Viz.ShowPredMarksPeaks | leap/viz.py:40-66 | each marker sits on a maximal cell of its channel. Under a unique maximum it is that channel's Maxima2D peak. |
| Viz.MarkerOfUniqueMax | leap/viz.py:42 | under a unique maximum the viz cell and Maxima2D's (x, y) name the same cell |
| Viz.NumRows | leap/viz.py:82 | nrows = ceil(n/ncols) |
| Viz.Padded | leap/viz.py:83-85 | the tiles, then zero tiles up to nrows·ncols |
| Viz.Tile | leap/viz.py:89-91 | a grid of H·nrows rows and W·ncols columns |
| Viz.TileAt | leap/viz.py:89-91 | result[r·H+y][c·W+x] is tile r·ncols+c at (y, x), or 0 for a padding tile |
| Viz.Tiles | leap/viz.py:80 | the (2,0,1) transpose: tile i is channel i |
| Viz.Gallery | leap/viz.py:78-92 | an axis of length 1 is dropped by squeeze and then fails transpose, ncols = 0 divides by zero; otherwise shape (H·nrows, W·ncols) |
| Viz.GalleryAt | leap/viz.py:80-91 | gallery(a)[r·H+y][c·W+x] = a[y][x][r·ncols+c], or 0 past the last channel |
| Viz.Pairs | leap/viz.py:116 | entry 2i is from the first sequence and 2i+1 from the second |
| Viz.Interleave | leap/viz.py:116 | stack then reshape: Ok exactly for equal shapes with H·W ≠ 0. Unequal shapes give np.stack's ValueError, and H·W = 0 gives reshape's ValueError, since -1 cannot be inferred for size 0. The result has 2C channels. |
| Viz.InterleaveAt | leap/viz.py:116 | channel 2i is ground-truth channel i and channel 2i+1 is predicted channel i |
| Viz.ConfmapGrid | leap/viz.py:94-131 | Ok exactly when every step succeeds; the grid is returned exactly when plot is False and save_path is None |
| Viz.ConfmapGridIsMontage | leap/viz.py:116-131 | the returned grid is gallery(interleave(Y, Y2), ncols=8) |

## Left out

- Utils.Preprocess: the shape is permuted, but `data` keeps the input's flat element order. The reordering of the elements by `np.transpose` is not modelled.
- Layers.FindPeak: requires H > 0 and W > 0. numpy's argmax over an empty axis raises, and that error is modelled only in PredictBox.PeakModel.
- Layers.FindMaximaLast: requires H > 0 and W > 0, for the same reason as Layers.FindPeak.
- Layers.FindMaxima: requires non-empty spatial axes for the format it reduces, for the same reason as Layers.FindPeak.
- OpenCV: `cv2.getRotationMatrix2D` and `cv2.warpAffine` are one function-valued parameter. It is required to keep an n×n plane n×n. OpenCV's dsize is (width, height) but receives (H, W), so only square images keep their shape. Non-square images are outside the model.
- ImageAugmentation.Transform: the rotation matrix is recorded as (centre, angle, scale) and not computed.
- Randomness: `np.random.rand` is a parameter `u` in [0, 1) (one pair per sample, `draws`), and `np.random.shuffle` is a permutation parameter.
- Floating point: map values, losses and draws are exact `real`s. float32 rounding, NaN and infinity are not modelled.
- Utils.ParseDecimal: a loss is its exact decimal value, not the nearest float64.
- Training.CheckpointRoundTrip: takes the loss already split into its integer part and nine fractional digits. `{val_loss:.9f}` rounding and negative losses are not modelled.
- The confmap quantisation of `save_confmaps` (min/max rescaling to uint8, `leap/predict_box.py:142-145`) is left out, because it is floating point. Only the transpose and the datasets' presence are modelled.
- The per-channel normalisation at `leap/viz.py:54-55`, the overlay at line 58 and `X.squeeze()` at lines 35 and 113 feed matplotlib only, so they are left out. Matplotlib itself (figures, markers, savefig) is not modelled: `Viz.Markers` stands for the plotted markers.
- `plot_history` is not part of this model.
- HDF5 and the file system: h5py reads are the `box` parameter, and `os.listdir` is the `listing` parameter (None when the folder is missing).
- Directories and files are the `Disk` and `FileTree` classes. File attributes, compression and runtime statistics are left out. They are two models because the two call sites ask different questions. `create_run_folders` only tests `os.path.exists` and removes whole subtrees, so `FileTree` is a set of existing paths. `predict_box` writes a file, needs the folder it goes in, and cannot overwrite a directory, so `Disk` keeps directories apart from files and records what each file holds.
- Training.FileTree.CreateRunFolders: `os.makedirs` errors beyond the empty path (permissions, a file in the way) are not modelled.
- `load_dataset`, `versions`, `LossHistory` and the `train` driver are I/O and Keras plumbing and are left out.
- The network is a function `predict` from the preprocessed input to its outputs. Keras layers, `models.py`, `residual_bottleneck_module`, `resize_images`' actual resizing and `UpSampling2D.call` are library execution and are left out.
- ImageAugmentation.PairedImageAugmenter.constructor: requires `ceil(N/B)` to be a valid section count, i.e. N > 0 and B > 0. The source raises there instead; that error path is `ImageAugmentation.NumBatches`.
- Viz.Gallery: models the input shapes `show_confmap_grid` produces (H, W, C). The shapes `squeeze()` produces for other ranks are not modelled.
- Viz.TruthMaps: covers a rank-3 Y and a rank-4 Y. Other ranks are left out.
- Viz.NumRows: takes numpy's float `ceil(n / ncols)` as the exact integer ceiling.

## Findings

| source | as written | input that shows it | evidently intended | confidence | as-written member | corrected member |
|---|---|---|---|---|---|---|
| leap/predict_box.py:34-35 | the flat argmax is split by `in_shape[1]`, the height | a 1×2 map [[0, 5]]: argmax 1 gives row 1 div 1 = 1, col 1 mod 1 = 0, a row that does not exist | divide by the width (`in_shape[2]`) to get the row-major cell | high (not executed) | PredictBox.TfPeak (PredictBox.TfPeakNonSquare) | Layers.FlatPeak (Layers.FlatPeakUnique; PredictBox.TfPeakSquare shows they agree on square maps) |
| leap/layers.py:155-167 | x and y are taken from column maxima and row maxima separately | a 2×2 map [[0, 1], [1, 0]]: x = 0 and y = 0, but cell (0, 0) holds 0, not the maximum 1 | a peak whose (x, y) cell holds the maximum | medium (not executed) | Layers.FindPeak (Layers.TiedMaximumSplitsPeak) | Layers.FlatPeak (Layers.FindPeakIsFlatPeakOnUniqueMaximum: both agree when the maximum is unique) |
