/** leap/predict_box.py: the flat-argmax peak finder tf_find_peaks, the
    choice of the confidence-map output of a model, and the predict_box
    procedure (weight selection, output path, collision rule and the
    datasets it writes). */
module PredictBox {
  import opened Base
  import opened Text
  import opened Layers
  import opened Utils

  /** tf_find_peaks for one H x W map: one argmax over the H * W flat cells
      (row-major), split with floor_div and floormod by in_shape[1], which is
      the HEIGHT; the value is the largest flat cell. The result is
      (cols, rows, vals). */
  function TfPeak(m: Grid, h: nat, w: nat): (p: Peak)
    requires IsGrid(m, h, w) && h > 0 && w > 0
    ensures 0 <= p.x < h && 0 <= p.y < w
    ensures IsGridMax(m, h, w, p.val)
    ensures p.y * h + p.x == ArgMax(Flatten(m))
  {
    FlatMaxBoundsCells(m, h, w);
    FlatArgMaxCell(m, h, w);
    var k := ArgMax(Flatten(m));
    assert k < w * h;
    UnravelRowBound(k, w, h);
    var rc := Unravel(k, h);
    Peak(rc.1, rc.0, MaxOf(Flatten(m)))
  }

  /** On square maps dividing by the height is dividing by the width, so
      tf_find_peaks reports the first largest cell in row-major order. */
  lemma TfPeakSquare(m: Grid, n: nat)
    requires IsGrid(m, n, n) && n > 0
    ensures TfPeak(m, n, n) == FlatPeak(m, n, n)
    ensures var p := TfPeak(m, n, n); m[p.y][p.x] == p.val
  {
  }

  /** A 1 x 2 map whose maximum is its second cell: flat index 1 divided by
      the height 1 gives row 1, which does not exist; the intended reading
      is column 1 of row 0. */
  lemma TfPeakNonSquare()
    ensures var m := [[0.0, 5.0]];
      && IsGrid(m, 1, 2)
      && TfPeak(m, 1, 2) == Peak(0, 1, 5.0)
      && TfPeak(m, 1, 2).y >= 1
      && FlatPeak(m, 1, 2) == Peak(1, 0, 5.0)
  {
    var m := [[0.0, 5.0]];
    assert IsGrid(m, 1, 2);
    assert Flatten(m) == [0.0, 5.0] by {
      assert Concat(m) == m[0] + Concat(m[1..]);
      assert m[1..] == [];
    }
    var f := [0.0, 5.0];
    assert f[..1] == [0.0];
    assert ArgMax(f) == 1;
    assert MaxOf(f) == 5.0 by {
      assert f[1..] == [5.0];
    }
    assert Unravel(1, 1) == (1, 0) by {
      assert Unravel(0, 1) == (0, 0);
    }
    assert Unravel(1, 2) == (0, 1);
    FlatPeakUnique(m, 1, 2, 0, 1);
  }

  /** tf_find_peaks over (N, H, W, C) maps: an (N, 3, C) tensor of
      columns, rows and values. */
  function TfFindPeaks(x: Tensor4, n: nat, h: nat, w: nat, c: nat): (y: Tensor3)
    requires IsTensor4(x, n, h, w, c) && h > 0 && w > 0
    ensures |y| == n
    ensures forall b :: 0 <= b < n ==>
      y[b] == PeakRows(seq(c, k requires 0 <= k < c => TfPeak(ChannelOf(x, b, k, h, w, c), h, w)))
  {
    seq(n, b requires 0 <= b < n =>
      PeakRows(seq(c, k requires 0 <= k < c => TfPeak(ChannelOf(x, b, k, h, w, c), h, w))))
  }

  /** The layout of tf_find_peaks: (N, 3, C), and entry [b][2][k] is the
      largest cell of channel k of sample b. */
  lemma TfFindPeaksLayout(x: Tensor4, n: nat, h: nat, w: nat, c: nat, b: nat, k: nat)
    requires IsTensor4(x, n, h, w, c) && h > 0 && w > 0 && b < n && k < c
    ensures var y := TfFindPeaks(x, n, h, w, c);
      var p := TfPeak(ChannelOf(x, b, k, h, w, c), h, w);
      && IsTensor3(y, n, 3, c)
      && y[b][0][k] == p.x as real && y[b][1][k] == p.y as real && y[b][2][k] == p.val
      && IsGridMax(ChannelOf(x, b, k, h, w, c), h, w, y[b][2][k])
  {
  }

  /** A stack of maps that carries its own shape. */
  datatype Maps = Maps(data: Tensor4, n: nat, h: nat, w: nat, c: nat)
  type ConfMaps = m: Maps | IsTensor4(m.data, m.n, m.h, m.w, m.c) witness Maps([], 0, 0, 0, 0)

  /** model.output: one tensor, or a list of them (one per stage). */
  datatype ModelOutput = Single(out: ConfMaps) | Multi(outs: seq<ConfMaps>)

  /** convert_to_peak_outputs' choice of the confidence maps: the last
      element of a list output (an empty list has no last element), or the
      single output. */
  function SelectConfmaps(o: ModelOutput): (r: Result<ConfMaps>)
    ensures o.Single? ==> r == Ok(o.out)
    ensures o.Multi? ==> (r.Ok? <==> |o.outs| > 0)
    ensures o.Multi? && r.Ok? ==> r.value == o.outs[|o.outs| - 1]
  {
    match o
    case Single(t) => Ok(t)
    case Multi(ts) => if |ts| == 0 then Err(IndexError) else Ok(ts[|ts| - 1])
  }

  /** Earlier stages of a multi-output model never reach the peaks, and a
      one-element list behaves like the single output. */
  lemma SelectConfmapsLastStage(earlier: seq<ConfMaps>, earlier2: seq<ConfMaps>, t: ConfMaps)
    ensures SelectConfmaps(Multi(earlier + [t])) == SelectConfmaps(Multi(earlier2 + [t]))
    ensures SelectConfmaps(Multi([t])) == SelectConfmaps(Single(t))
  {
  }

  /** What the wrapped model yields: the peaks, and the confidence maps
      when they are kept. */
  datatype PeakOutputs = PeakOutputs(peaks: Tensor3, n: nat, c: nat, confmaps: Option<ConfMaps>)

  /** The wrapped model applied to a model output: with include_confmaps the
      Lambda(tf_find_peaks) peaks and the maps, otherwise Maxima2D
      (channels_last). Reductions over an empty height or width fail. */
  function PeakModel(o: ModelOutput, includeConfmaps: bool): (r: Result<PeakOutputs>)
    ensures SelectConfmaps(o).Err? ==> r == Err(IndexError)
    ensures r.Ok? ==>
      var cm := SelectConfmaps(o).value;
      && cm.h > 0 && cm.w > 0
      && r.value.n == cm.n && r.value.c == cm.c
      && IsTensor3(r.value.peaks, cm.n, 3, cm.c)
      && (r.value.confmaps.Some? <==> includeConfmaps)
      && (includeConfmaps ==> r.value.peaks == TfFindPeaks(cm.data, cm.n, cm.h, cm.w, cm.c)
                              && r.value.confmaps == Some(cm))
      && (!includeConfmaps ==> r.value.peaks == FindMaximaLast(cm.data, cm.n, cm.h, cm.w, cm.c))
    ensures SelectConfmaps(o).Ok? ==>
      var cm := SelectConfmaps(o).value;
      (r.Ok? <==> cm.h > 0 && cm.w > 0)
  {
    match SelectConfmaps(o)
    case Err(e) => Err(e)
    case Ok(cm) =>
      if cm.h == 0 || cm.w == 0 then Err(ValueError("reduction over an empty dimension"))
      else if includeConfmaps then
        var y := TfFindPeaks(cm.data, cm.n, cm.h, cm.w, cm.c);
        assert IsTensor3(y, cm.n, 3, cm.c) by {
          forall b | 0 <= b < cm.n ensures IsGrid(y[b], 3, cm.c) {
          }
        }
        Ok(PeakOutputs(y, cm.n, cm.c, Some(cm)))
      else
        var y := FindMaximaLast(cm.data, cm.n, cm.h, cm.w, cm.c);
        assert IsTensor3(y, cm.n, 3, cm.c) by {
          forall b | 0 <= b < cm.n ensures IsGrid(y[b], 3, cm.c) {
            assert y[b] == PeakRows(SamplePeaks(cm.data, b, cm.h, cm.w, cm.c));
          }
        }
        Ok(PeakOutputs(y, cm.n, cm.c, None))
  }

  /** The map has a single largest cell. */
  predicate UniqueMax(m: Grid, h: nat, w: nat)
    requires IsGrid(m, h, w)
  {
    exists r0, c0 :: 0 <= r0 < h && 0 <= c0 < w &&
      forall r, c :: 0 <= r < h && 0 <= c < w && (r != r0 || c != c0) ==> m[r][c] < m[r0][c0]
  }

  /** One channel: on a square map with a single largest cell the two
      peak finders report the same triple. */
  lemma PeakFindersAgreeOnChannel(m: Grid, n: nat)
    requires IsGrid(m, n, n) && n > 0 && UniqueMax(m, n, n)
    ensures TfPeak(m, n, n) == FindPeak(m, n, n)
  {
    var r0, c0 :| 0 <= r0 < n && 0 <= c0 < n &&
      forall r, c :: 0 <= r < n && 0 <= c < n && (r != r0 || c != c0) ==> m[r][c] < m[r0][c0];
    FindPeakIsFlatPeakOnUniqueMaximum(m, n, n, r0, c0);
    TfPeakSquare(m, n);
  }

  /** One sample: with a square map and a single largest cell in every
      channel, the two finders give the same (3, C) block. */
  lemma PeakRowsAgreeOnSample(x: Tensor4, n: nat, s: nat, c: nat)
    requires IsTensor4(x, |x|, n, n, c) && s < |x| && n > 0
    requires forall k :: 0 <= k < c ==> UniqueMax(ChannelOf(x, s, k, n, n, c), n, n)
    ensures PeakRows(seq(c, k requires 0 <= k < c => TfPeak(ChannelOf(x, s, k, n, n, c), n, n)))
         == PeakRows(SamplePeaks(x, s, n, n, c))
  {
    var ps := seq(c, k requires 0 <= k < c => TfPeak(ChannelOf(x, s, k, n, n, c), n, n));
    var qs := SamplePeaks(x, s, n, n, c);
    forall k | 0 <= k < c ensures ps[k] == qs[k] {
      PeakFindersAgreeOnChannel(ChannelOf(x, s, k, n, n, c), n);
    }
    assert ps == qs;
  }

  /** Saving the confidence maps switches the peak finder from Maxima2D to
      tf_find_peaks; on square maps whose every channel has a single
      largest cell both give the same peaks. */
  lemma PeakPathsAgree(o: ModelOutput)
    requires SelectConfmaps(o).Ok?
    requires var cm := SelectConfmaps(o).value;
      && cm.h == cm.w && cm.h > 0
      && forall b, k :: 0 <= b < cm.n && 0 <= k < cm.c ==> UniqueMax(ChannelOf(cm.data, b, k, cm.h, cm.w, cm.c), cm.h, cm.w)
    ensures PeakModel(o, true).Ok? && PeakModel(o, false).Ok?
    ensures PeakModel(o, true).value.peaks == PeakModel(o, false).value.peaks
  {
    var cm := SelectConfmaps(o).value;
    var n := cm.h;
    var a := TfFindPeaks(cm.data, cm.n, n, n, cm.c);
    var b := FindMaximaLast(cm.data, cm.n, n, n, cm.c);
    forall s | 0 <= s < cm.n ensures a[s] == b[s] {
      PeakRowsAgreeOnSample(cm.data, n, s, cm.c);
    }
    assert a == b;
  }

  /** The epoch argument: None, an integer index, or text such as "final". */
  datatype Epoch = NoEpoch | EpochIndex(i: int) | EpochText(s: string)

  const FinalModel := "final_model.h5"

  /** predict_box's weight choice among the checkpoints found in a run
      folder: the best checkpoint when no epoch is given and losses exist;
      final_model.h5 for "final" or when no checkpoint exists; otherwise
      weights_paths[epoch] with Python indexing. */
  function SelectFrom(w: Weights, modelPath: string, epoch: Epoch): (r: Result<string>)
    requires |w.paths| == |w.losses|
    ensures r.Ok? ==> r.value == Join(modelPath, FinalModel) || r.value in w.paths
  {
    if epoch == NoEpoch && |w.losses| > 0 then Ok(w.paths[ArgMin(w.losses)])
    else if epoch == EpochText("final") || (epoch == NoEpoch && |w.losses| == 0) then Ok(Join(modelPath, FinalModel))
    else
      match epoch
      case EpochIndex(i) =>
        (match PyIndex(i, |w.paths|)
         case None => Err(IndexError)
         case Some(k) => Ok(w.paths[k]))
      case _ => Err(TypeError("list indices must be integers or slices, not str"))
  }

  /** Without an epoch, the choice is find_best_weights' answer, or the
      final model when that answer is None. */
  lemma SelectFromDefault(w: Weights, modelPath: string)
    requires |w.paths| == |w.losses|
    ensures BestOf(w).Some? ==> SelectFrom(w, modelPath, NoEpoch) == Ok(BestOf(w).value)
    ensures BestOf(w).None? ==> SelectFrom(w, modelPath, NoEpoch) == Ok(Join(modelPath, FinalModel))
  {
  }

  /** "final" picks final_model.h5 inside the run folder whatever
      checkpoints exist. */
  lemma SelectFromFinal(w: Weights, modelPath: string)
    requires |w.paths| == |w.losses|
    ensures var r := SelectFrom(w, modelPath, EpochText("final"));
      r == Ok(Join(modelPath, FinalModel)) && Basename(r.value) == FinalModel
  {
    assert '/' !in FinalModel;
    BasenameJoin(modelPath, FinalModel);
  }

  /** An integer epoch picks checkpoint i (negative i counts from the end);
      out of range it raises IndexError. Other text raises TypeError. */
  lemma SelectFromIndex(w: Weights, modelPath: string, i: int, s: string)
    requires |w.paths| == |w.losses| && s != "final"
    ensures var r := SelectFrom(w, modelPath, EpochIndex(i));
      && (r.Ok? <==> -(|w.paths| as int) <= i < |w.paths|)
      && (r.Err? ==> r == Err(IndexError))
      && (r.Ok? ==> r.value == w.paths[PyIndex(i, |w.paths|).value])
    ensures SelectFrom(w, modelPath, EpochText(s)).Err?
    ensures SelectFrom(w, modelPath, EpochText(s)).error.TypeError?
  {
  }

  /** The weight choice for a run folder: a listing failure propagates,
      otherwise the choice among the checkpoints found. */
  function SelectWeights(modelPath: string, listing: Option<seq<string>>, epoch: Epoch): (r: Result<string>)
    ensures FindWeights(modelPath, listing).Err? ==> r == Err(FindWeights(modelPath, listing).error)
    ensures FindWeights(modelPath, listing).Ok? ==> r == SelectFrom(FindWeights(modelPath, listing).value, modelPath, epoch)
  {
    match FindWeights(modelPath, listing)
    case Err(e) => Err(e)
    case Ok(w) => SelectFrom(w, modelPath, epoch)
  }

  /** find_best_weights and predict_box's default agree on the listing. */
  lemma SelectWeightsDefault(modelPath: string, listing: Option<seq<string>>)
    requires FindWeights(modelPath, listing).Ok?
    ensures var best := FindBestWeights(modelPath, listing);
      && best.Ok?
      && (best.value.Some? ==> SelectWeights(modelPath, listing, NoEpoch) == Ok(best.value.value))
      && (best.value.None? ==> SelectWeights(modelPath, listing, NoEpoch) == Ok(Join(modelPath, FinalModel)))
  {
    SelectFromDefault(FindWeights(modelPath, listing).value, modelPath);
  }

  /** The weights file predict_box loads: model_path itself unless it is a directory. */
  function WeightsPathFor(isDir: bool, modelPath: string, listing: Option<seq<string>>, epoch: Epoch): (r: Result<string>)
    ensures !isDir ==> r == Ok(modelPath)
    ensures isDir ==> r == SelectWeights(modelPath, listing, epoch)
  {
    if isDir then SelectWeights(modelPath, listing, epoch) else Ok(modelPath)
  }

  /** out_path rewritten when it does not end in ".h5": the box file's
      name inside out_path, or inside out_path/<model folder name> when the
      model is a run folder. */
  function OutputPath(outPath: string, boxPath: string, modelName: Option<string>): (r: string)
    ensures EndsWith(outPath, ".h5") ==> r == outPath
  {
    if EndsWith(outPath, ".h5") then outPath
    else
      match modelName
      case None => Join(outPath, Basename(boxPath))
      case Some(name) => Join(Join(outPath, name), Basename(boxPath))
  }

  /** A rewritten output path keeps the box file's name. */
  lemma OutputPathKeepsBoxName(outPath: string, boxPath: string, modelName: Option<string>)
    requires !EndsWith(outPath, ".h5") && Basename(boxPath) != []
    ensures Basename(OutputPath(outPath, boxPath, modelName)) == Basename(boxPath)
  {
    match modelName
    case None => BasenameJoin(outPath, Basename(boxPath));
    case Some(name) => BasenameJoin(Join(outPath, name), Basename(boxPath));
  }

  /** For a folder path without a trailing '/' and slash-free names the
      rewritten path is the folder, the model folder's name when given, and
      the box file's name, joined by single slashes. */
  lemma OutputPathJoins(outPath: string, boxPath: string, modelName: Option<string>)
    requires !EndsWith(outPath, ".h5") && outPath != [] && outPath[|outPath| - 1] != '/'
    requires Basename(boxPath) != []
    requires modelName.Some? ==> modelName.value != [] && '/' !in modelName.value
    ensures modelName.None? ==> OutputPath(outPath, boxPath, modelName) == outPath + "/" + Basename(boxPath)
    ensures modelName.Some? ==>
      OutputPath(outPath, boxPath, modelName) == outPath + "/" + modelName.value + "/" + Basename(boxPath)
  {
    var base := Basename(boxPath);
    assert base[0] in base;
    if modelName.Some? {
      var name := modelName.value;
      assert name[0] in name && name[|name| - 1] in name;
      var folder := Join(outPath, name);
      assert folder == outPath + "/" + name;
      assert folder[|folder| - 1] == name[|name| - 1];
    }
  }

  /** astype("int32") of a float: truncation toward zero. */
  function Trunc(x: real): (i: int)
    ensures x >= 0.0 ==> i as real <= x < i as real + 1.0
    ensures x < 0.0 ==> i as real - 1.0 < x <= i as real
  {
    if x >= 0.0 then x.Floor else -((-x).Floor)
  }

  /** Whole-number coordinates survive the cast unchanged. */
  lemma TruncOfInt(i: int)
    ensures Trunc(i as real) == i
  {
  }

  /** numpy squeeze of a shape: every axis of length one is dropped. */
  function Squeeze(shape: seq<nat>): (r: seq<nat>)
    ensures |r| <= |shape|
    ensures forall i :: 0 <= i < |r| ==> r[i] != 1
    ensures forall d :: d != 1 ==> (d in r <==> d in shape)
  {
    if shape == [] then []
    else if shape[0] == 1 then Squeeze(shape[1..])
    else
      assert shape == [shape[0]] + shape[1..];
      [shape[0]] + Squeeze(shape[1..])
  }

  /** One axis squeezed: kept exactly when its length is not one. */
  lemma SqueezeSingle(d: nat)
    ensures Squeeze([d]) == if d == 1 then [] else [d]
  {
    assert [d][1..] == [];
  }

  /** Squeezing keeps the order and multiplicity of the other axes:
      it distributes over concatenation. */
  lemma {:induction false} SqueezeAppend(a: seq<nat>, b: seq<nat>)
    ensures Squeeze(a + b) == Squeeze(a) + Squeeze(b)
  {
    if a == [] {
      assert a + b == b;
    } else {
      assert (a + b)[0] == a[0];
      assert (a + b)[1..] == a[1..] + b;
      SqueezeAppend(a[1..], b);
    }
  }

  /** shape[1:] in Python: empty for an empty shape. */
  function Tail(s: seq<nat>): seq<nat>
  {
    if s == [] then [] else s[1..]
  }

  predicate IsIntTensor3(t: seq<seq<seq<int>>>, d0: nat, d1: nat, d2: nat)
  {
    |t| == d0 && forall a :: 0 <= a < d0 ==>
      |t[a]| == d1 && forall b :: 0 <= b < d1 ==> |t[a][b]| == d2
  }

  /** The HDF5 file predict_box writes: its attributes and datasets. */
  datatype Artifact = Artifact(
    numSamples: nat,
    imgSize: seq<nat>,
    boxPath: string,
    boxDset: string,
    modelPath: string,
    weightsPath: string,
    modelName: string,
    positions: seq<seq<seq<int>>>,
    conf: Grid,
    confShape: seq<nat>,
    confmapsShape: Option<seq<nat>>)

  /** positions_pred is rows 0 and 1 (x, y) cast to int32; conf_pred is row
      2, squeezed; with save_confmaps the maps are stored transposed by
      (0, 3, 2, 1). */
  function MakeArtifact(numSamples: nat, imgSize: seq<nat>, boxPath: string, boxDset: string,
                        modelPath: string, weightsPath: string, modelName: string, y: PeakOutputs): (a: Artifact)
    requires IsTensor3(y.peaks, y.n, 3, y.c)
    ensures IsIntTensor3(a.positions, y.n, 2, y.c) && IsGrid(a.conf, y.n, y.c)
    ensures forall b, k, j :: 0 <= b < y.n && 0 <= k < 2 && 0 <= j < y.c ==>
      a.positions[b][k][j] == Trunc(y.peaks[b][k][j])
    ensures forall b, j :: 0 <= b < y.n && 0 <= j < y.c ==> a.conf[b][j] == y.peaks[b][2][j]
    ensures a.confShape == Squeeze([y.n, y.c])
    ensures y.confmaps.None? <==> a.confmapsShape.None?
    ensures y.confmaps.Some? ==> var cm := y.confmaps.value; a.confmapsShape == Some([cm.n, cm.c, cm.w, cm.h])
    ensures a.weightsPath == weightsPath && a.modelName == modelName && a.numSamples == numSamples
    ensures a.imgSize == imgSize && a.boxPath == boxPath && a.boxDset == boxDset && a.modelPath == modelPath
  {
    var positions := seq(y.n, b requires 0 <= b < y.n =>
      seq(2, k requires 0 <= k < 2 => seq(y.c, j requires 0 <= j < y.c => Trunc(y.peaks[b][k][j]))));
    var conf := seq(y.n, b requires 0 <= b < y.n => seq(y.c, j requires 0 <= j < y.c => y.peaks[b][2][j]));
    var cmShape := match y.confmaps
      case None => None
      case Some(cm) => Some([cm.n, cm.c, cm.w, cm.h]);
    Artifact(numSamples, imgSize, boxPath, boxDset, modelPath, weightsPath, modelName,
             positions, conf, Squeeze([y.n, y.c]), cmShape)
  }

  /** Without save_confmaps the stored positions are exactly the column
      and row _find_maxima reports, and the confidence its value. */
  lemma PositionsAreMaximaCells(o: ModelOutput, nums: nat, img: seq<nat>, bp: string, bd: string,
                                mp: string, wp: string, mn: string, b: nat, j: nat)
    requires PeakModel(o, false).Ok?
    requires var y := PeakModel(o, false).value; b < y.n && j < y.c
    ensures var y := PeakModel(o, false).value;
      var cm := SelectConfmaps(o).value;
      var a := MakeArtifact(nums, img, bp, bd, mp, wp, mn, y);
      var p := FindPeak(ChannelOf(cm.data, b, j, cm.h, cm.w, cm.c), cm.h, cm.w);
      a.positions[b][0][j] == p.x && a.positions[b][1][j] == p.y && a.conf[b][j] == p.val
  {
    var y := PeakModel(o, false).value;
    var cm := SelectConfmaps(o).value;
    FindMaximaLastLayout(cm.data, cm.n, cm.h, cm.w, cm.c, b, j);
    var p := FindPeak(ChannelOf(cm.data, b, j, cm.h, cm.w, cm.c), cm.h, cm.w);
    TruncOfInt(p.x);
    TruncOfInt(p.y);
  }

  /** A loaded model: its predict function. */
  datatype Net = Net(predict: NdArray -> ModelOutput)

  /** preprocess, predict and the peak wrapper, for one box and model. */
  function Prediction(box: NdArray, net: Net, saveConfmaps: bool): (r: Result<(NdArray, PeakOutputs)>)
    ensures r.Ok? ==> Preprocess(box, DefaultPermute) == Ok(r.value.0)
    ensures r.Ok? ==> PeakModel(net.predict(r.value.0), saveConfmaps) == Ok(r.value.1)
    ensures r.Err? <==> (Preprocess(box, DefaultPermute).Err?
      || PeakModel(net.predict(Preprocess(box, DefaultPermute).value), saveConfmaps).Err?)
  {
    match Preprocess(box, DefaultPermute)
    case Err(e) => Err(e)
    case Ok(x) =>
      match PeakModel(net.predict(x), saveConfmaps)
      case Err(e) => Err(e)
      case Ok(y) => Ok((x, y))
  }


  /** The file predict_box writes for a box, when every step short of the
      file system succeeds: weights chosen, box read with at least one axis,
      model loaded, preprocessed, predicted and reduced to peaks. */
  function Expected(boxPath: string, modelPath: string, boxDset: string, isDir: bool,
                    listing: Option<seq<string>>, epoch: Epoch, saveConfmaps: bool,
                    box: Result<NdArray>, load: string -> Result<Net>): (r: Result<Artifact>)
    ensures r.Ok? ==>
      && WeightsPathFor(isDir, modelPath, listing, epoch).Ok? && box.Ok? && |box.value.shape| > 0
      && r.value.weightsPath == WeightsPathFor(isDir, modelPath, listing, epoch).value
      && r.value.numSamples == box.value.shape[0]
      && r.value.modelName == Basename(modelPath)
    ensures WeightsPathFor(isDir, modelPath, listing, epoch).Err? ==>
      r == Err(WeightsPathFor(isDir, modelPath, listing, epoch).error)
    ensures WeightsPathFor(isDir, modelPath, listing, epoch).Ok? && box.Err? ==> r == Err(box.error)
    ensures WeightsPathFor(isDir, modelPath, listing, epoch).Ok? && box.Ok? && box.value.shape == [] ==>
      r == Err(IndexError)
    ensures WeightsPathFor(isDir, modelPath, listing, epoch).Ok? && box.Ok? && box.value.shape != [] ==>
      var net := load(WeightsPathFor(isDir, modelPath, listing, epoch).value);
      && (net.Err? ==> r == Err(net.error))
      && (net.Ok? ==> (r.Ok? <==> Prediction(box.value, net.value, saveConfmaps).Ok?))
      && (net.Ok? && Prediction(box.value, net.value, saveConfmaps).Err? ==>
            r == Err(Prediction(box.value, net.value, saveConfmaps).error))
      && (net.Ok? && Prediction(box.value, net.value, saveConfmaps).Ok? ==>
            var pred := Prediction(box.value, net.value, saveConfmaps).value;
            && r.Ok?
            && r.value.imgSize == Tail(pred.0.shape)
            && r.value == MakeArtifact(box.value.shape[0], Tail(pred.0.shape), boxPath, boxDset, modelPath,
                                       WeightsPathFor(isDir, modelPath, listing, epoch).value,
                                       Basename(modelPath), pred.1))
  {
    match WeightsPathFor(isDir, modelPath, listing, epoch)
    case Err(e) => Err(e)
    case Ok(weightsPath) =>
      if box.Err? then Err(box.error)
      else if |box.value.shape| == 0 then Err(IndexError)
      else
        match load(weightsPath)
        case Err(e) => Err(e)
        case Ok(net) =>
          match Prediction(box.value, net, saveConfmaps)
          case Err(e) => Err(e)
          case Ok(pred) =>
            Ok(MakeArtifact(box.value.shape[0], Tail(pred.0.shape), boxPath, boxDset,
                            modelPath, weightsPath, Basename(modelPath), pred.1))
  }

  /** What the procedure ends with. */
  datatype Outcome = Written(path: string) | OutputExists(path: string) | Failed(error: Error)

  /** A file on disk: an output of predict_box or anything else. */
  datatype Entry = Output(artifact: Artifact) | OtherFile

  /** Two file tables that agree everywhere except possibly at p. */
  predicate SameFilesExcept(f0: map<string, Entry>, f1: map<string, Entry>, p: string)
  {
    f0 - {p} == f1 - {p}
  }

  /** Load the model, preprocess, predict, and assemble what is saved. */
  method LoadAndPredict(boxPath: string, modelPath: string, boxDset: string, ghost isDir: bool,
                        listing: Option<seq<string>>, epoch: Epoch, saveConfmaps: bool,
                        box: Result<NdArray>, load: string -> Result<Net>, weightsPath: string)
    returns (art: Result<Artifact>)
    requires WeightsPathFor(isDir, modelPath, listing, epoch) == Ok(weightsPath)
    requires box.Ok? && |box.value.shape| > 0
    ensures art == Expected(boxPath, modelPath, boxDset, isDir, listing, epoch, saveConfmaps, box, load)
  {
    var x := box.value;
    var net := load(weightsPath);
    if net.Err? {
      return Err(net.error);
    }
    var pred := Prediction(x, net.value, saveConfmaps);
    if pred.Err? {
      return Err(pred.error);
    }
    art := Ok(MakeArtifact(x.shape[0], Tail(pred.value.0.shape), boxPath, boxDset,
                           modelPath, weightsPath, Basename(modelPath), pred.value.1));
  }

  /** The part of the file system predict_box looks at and changes:
      directories and files, no path being both. */
  class Disk {
    var dirs: set<string>
    var files: map<string, Entry>

    predicate Valid()
      reads this
    {
      dirs !! files.Keys
    }

    constructor (dirs0: set<string>, files0: map<string, Entry>)
      requires dirs0 !! files0.Keys
      ensures Valid() && dirs == dirs0 && files == files0
    {
      dirs := dirs0;
      files := files0;
    }

    /** The output path predict_box settles on, given the directories
        present when it starts. */
    function ResolvedOut(outPath: string, boxPath: string, modelPath: string): string
      reads this
    {
      OutputPath(outPath, boxPath, if modelPath in dirs then Some(Basename(modelPath)) else None)
    }

    /** os.makedirs(p, exist_ok=True): fails for the empty path and when a
        file stands where a directory is needed; otherwise p and its
        parents exist afterwards. */
    method MakeDirs(p: string) returns (err: Option<Error>)
      requires Valid()
      modifies this
      ensures Valid() && files == old(files)
      ensures err.Some? <==> p == [] || Ancestors(p) * files.Keys != {}
      ensures err.Some? ==> dirs == old(dirs)
      ensures err.None? ==> dirs == old(dirs) + Ancestors(p)
    {
      if p == [] {
        return Some(FileNotFoundError(p));
      }
      if Ancestors(p) * files.Keys != {} {
        return Some(OSError("File exists"));
      }
      dirs := dirs + Ancestors(p);
      return None;
    }

    /** predict_box(box_path, model_path, out_path, box_dset, epoch,
        overwrite, save_confmaps). The listing of model_path/weights, the
        box dataset as read, and the model loader are inputs. */
    method PredictBox(boxPath: string, modelPath: string, outPath: string, boxDset: string,
                      epoch: Epoch, overwrite: bool, saveConfmaps: bool,
                      listing: Option<seq<string>>, box: Result<NdArray>,
                      load: string -> Result<Net>) returns (outcome: Outcome)
      requires Valid()
      modifies this
      ensures Valid()
      ensures var wp := WeightsPathFor(modelPath in old(dirs), modelPath, listing, epoch);
        (wp.Err? || box.Err? || |box.value.shape| == 0) ==>
          && outcome == Failed(Expected(boxPath, modelPath, boxDset, modelPath in old(dirs), listing, epoch,
                                        saveConfmaps, box, load).error)
          && dirs == old(dirs) && files == old(files)
      ensures var out := old(ResolvedOut(outPath, boxPath, modelPath));
        && old(dirs) <= dirs <= old(dirs) + Ancestors(Dirname(out))
        && (EndsWith(outPath, ".h5") ==> dirs == old(dirs))
        && SameFilesExcept(old(files), files, out)
      ensures outcome.OutputExists? ==>
        && !overwrite
        && outcome.path == old(ResolvedOut(outPath, boxPath, modelPath))
        && (outcome.path in dirs || outcome.path in old(files))
        && files == old(files)
      ensures outcome.Written? ==>
        var out := old(ResolvedOut(outPath, boxPath, modelPath));
        var art := Expected(boxPath, modelPath, boxDset, modelPath in old(dirs), listing, epoch,
                            saveConfmaps, box, load);
        && art.Ok?
        && outcome.path == out
        && (overwrite || out !in old(files))
        && files == old(files)[out := Output(art.value)]
      ensures outcome.Failed? ==>
        files == old(files) || files == old(files) - {old(ResolvedOut(outPath, boxPath, modelPath))}
      ensures var out := old(ResolvedOut(outPath, boxPath, modelPath));
        var wp := WeightsPathFor(modelPath in old(dirs), modelPath, listing, epoch);
        var made := EndsWith(outPath, ".h5") || (Dirname(out) != [] && Ancestors(Dirname(out)) * old(files).Keys == {});
        wp.Ok? && box.Ok? && |box.value.shape| > 0 ==>
          && (!made ==> outcome.Failed? && dirs == old(dirs) && files == old(files))
          && (made && !EndsWith(outPath, ".h5") ==> dirs == old(dirs) + Ancestors(Dirname(out)))
          && (made ==> (outcome.OutputExists? <==> !overwrite && (out in dirs || out in old(files))))
          && (made ==> (outcome.Written? <==>
                && Expected(boxPath, modelPath, boxDset, modelPath in old(dirs), listing, epoch,
                            saveConfmaps, box, load).Ok?
                && out !in dirs && (overwrite || out !in old(files))
                && (Dirname(out) == [] || Dirname(out) in dirs)))
    {
      ghost var isDir := modelPath in dirs;
      // Find model weights
      var modelName: Option<string> := None;
      var weightsPath := modelPath;
      if modelPath in dirs {
        modelName := Some(Basename(modelPath));
        var sel := SelectWeights(modelPath, listing, epoch);
        if sel.Err? {
          return Failed(sel.error);
        }
        weightsPath := sel.value;
      }

      // Input data
      if box.Err? {
        return Failed(box.error);
      }
      var x := box.value;
      if |x.shape| == 0 {
        return Failed(IndexError);
      }

      // Output path
      var out := outPath;
      if !EndsWith(outPath, ".h5") {
        out := OutputPath(outPath, boxPath, modelName);
        var err := MakeDirs(Dirname(out));
        if err.Some? {
          return Failed(err.value);
        }
      }

      var art := LoadAndPredict(boxPath, modelPath, boxDset, isDir, listing, epoch, saveConfmaps,
                                box, load, weightsPath);
      outcome := Save(out, overwrite, art);
    }

    /** The existence check and the write: an existing output is kept
        unless overwrite is set (and a directory cannot be removed); the
        model's result is only consulted past that check; the file is
        created in an existing folder. */
    method Save(out: string, overwrite: bool, art: Result<Artifact>) returns (outcome: Outcome)
      requires Valid()
      modifies this
      ensures Valid() && dirs == old(dirs)
      ensures outcome == OutputExists(out) <==> !overwrite && (out in dirs || out in old(files))
      ensures outcome.OutputExists? ==> outcome.path == out && files == old(files)
      ensures outcome.Written? <==>
        && art.Ok? && out !in dirs && (overwrite || out !in old(files))
        && (Dirname(out) == [] || Dirname(out) in dirs)
      ensures outcome.Written? ==> outcome.path == out && files == old(files)[out := Output(art.value)]
      ensures outcome.Failed? ==> files == old(files) || files == old(files) - {out}
      ensures SameFilesExcept(old(files), files, out)
    {
      if out in dirs || out in files {
        if !overwrite {
          return OutputExists(out);
        }
        if out in dirs {
          return Failed(OSError("Is a directory"));
        }
        files := files - {out};
      }
      if art.Err? {
        return Failed(art.error);
      }
      var folder := Dirname(out);
      if folder != [] && folder !in dirs {
        return Failed(OSError("Unable to create file"));
      }
      files := files[out := Output(art.value)];
      return Written(out);
    }
  }
}
