/** leap/viz.py: the array work behind show_pred and show_confmap_grid --
    the box image's shape normalisation, the squeeze of the ground truth and
    of the prediction, the peak cells marked on the figure, the channel
    interleave and the gallery tiling. Drawing itself is not modelled: a
    figure is represented by the markers or the image it would show. */
module Viz {
  import opened Base
  import opened Layers
  import opened Utils
  import opened PredictBox
  import ImageAugmentation

  const SqueezeError := "cannot select an axis to squeeze out which has size not equal to one"
  const EmptyArgmax := "attempt to get argmax of an empty sequence"
  const EmptyMax := "zero-size array to reduction operation maximum which has no identity"

  // ---------------------------------------------------------------------------
  // Input normalisation (show_pred, show_confmap_grid)
  // ---------------------------------------------------------------------------

  /** numpy's size: the product of the axis lengths. */
  function Size(s: seq<nat>): nat
  {
    if s == [] then 1 else s[0] * Size(s[1..])
  }

  lemma {:induction false} SizeAppendOne(s: seq<nat>)
    ensures Size(s + [1]) == Size(s)
  {
    if s != [] {
      assert (s + [1])[1..] == s[1..] + [1];
      SizeAppendOne(s[1..]);
    }
  }

  predicate AllOnes(s: seq<nat>)
  {
    forall i :: 0 <= i < |s| ==> s[i] == 1
  }

  /** The box image's shape once the missing singleton axes are added: a
      2-D image gets a sample and a channel axis; a 3-D array gets a channel
      axis when its first axis is a single sample, otherwise a sample axis
      when its last axis looks like one or three channels. */
  function SampleShape(s: seq<nat>): (r: seq<nat>)
    ensures Size(r) == Size(s)
    ensures exists a :: 0 <= a <= |r| - |s| && r[a..a + |s|] == s && AllOnes(r[..a]) && AllOnes(r[a + |s|..])
    ensures |s| == 2 ==> r == [1, s[0], s[1], 1]
    ensures |s| == 3 && s[0] == 1 ==> r == s + [1]
    ensures |s| == 3 && s[0] != 1 && (s[2] == 1 || s[2] == 3) ==> r == [1] + s
    ensures |r| == 4 <==> (|s| == 4 || |s| == 2 || (|s| == 3 && (s[0] == 1 || s[2] == 1 || s[2] == 3)))
  {
    if |s| == 2 then
      var r := [1] + s + [1];
      SizeAppendOne([1] + s);
      OnesAround(r, s, 1);
      r
    else if |s| == 3 && s[0] == 1 then
      var r := s + [1];
      SizeAppendOne(s);
      OnesAround(r, s, 0);
      r
    else if |s| == 3 && (s[2] == 1 || s[2] == 3) then
      var r := [1] + s;
      OnesAround(r, s, 1);
      r
    else
      OnesAround(s, s, 0);
      s
  }

  /** A witness for SampleShape's second postcondition. */
  lemma OnesAround(r: seq<nat>, s: seq<nat>, a: nat)
    requires a + |s| <= |r| && r[a..a + |s|] == s && AllOnes(r[..a]) && AllOnes(r[a + |s|..])
    ensures exists a :: 0 <= a <= |r| - |s| && r[a..a + |s|] == s && AllOnes(r[..a]) && AllOnes(r[a + |s|..])
  {
  }

  /** The array handed to net.predict: the same values, reshaped. */
  function NormalizedSample(x: NdArray): (r: NdArray)
    ensures r.shape == SampleShape(x.shape) && r.dtype == x.dtype && r.data == x.data
  {
    NdArray(SampleShape(x.shape), x.dtype, x.data)
  }

  // ---------------------------------------------------------------------------
  // Channel stacks: ground truth and prediction for one sample
  // ---------------------------------------------------------------------------

  /** An H x W x C array of maps for one sample, channels last. */
  datatype Stack3 = Stack3(data: Tensor3, h: nat, w: nat, c: nat)
  type Maps3 = s: Stack3 | IsTensor3(s.data, s.h, s.w, s.c) witness Stack3([], 0, 0, 0)

  /** The ground truth Y as passed in: one sample's maps, or a batch. */
  datatype Truth = Sample(maps: Maps3) | Batch(batch: ConfMaps)

  /** The squeeze of an N x H x W x C array on its first axis. */
  function SqueezeFirst(cm: ConfMaps): (r: Result<Maps3>)
    ensures r.Ok? <==> cm.n == 1
    ensures r.Err? ==> r == Err(ValueError(SqueezeError))
    ensures r.Ok? ==> r.value == Stack3(cm.data[0], cm.h, cm.w, cm.c)
  {
    if cm.n != 1 then Err(ValueError(SqueezeError)) else Ok(Stack3(cm.data[0], cm.h, cm.w, cm.c))
  }

  /** Y.squeeze(axis=0) when Y has more than three axes. */
  function TruthMaps(y: Truth): (r: Result<Maps3>)
    ensures y.Sample? ==> r == Ok(y.maps)
    ensures y.Batch? ==> r == SqueezeFirst(y.batch)
  {
    match y
    case Sample(m) => Ok(m)
    case Batch(b) => SqueezeFirst(b)
  }

  /** The prediction's maps: the last element of a list output, then the
      squeeze of its sample axis. */
  function PredictedMaps(o: ModelOutput): (r: Result<Maps3>)
    ensures o.Multi? && |o.outs| == 0 ==> r == Err(IndexError)
    ensures o.Multi? && |o.outs| > 0 ==> r == SqueezeFirst(o.outs[|o.outs| - 1])
    ensures o.Single? ==> r == SqueezeFirst(o.out)
  {
    match SelectConfmaps(o)
    case Err(e) => Err(e)
    case Ok(cm) => SqueezeFirst(cm)
  }

  /** Y[..., i]: the H x W map of channel i. */
  function ChannelGrid(s: Maps3, i: nat): (m: Grid)
    requires i < s.c
    ensures IsGrid(m, s.h, s.w)
    ensures forall a, b :: 0 <= a < s.h && 0 <= b < s.w ==> m[a][b] == s.data[a][b][i]
  {
    seq(s.h, a requires 0 <= a < s.h => seq(s.w, b requires 0 <= b < s.w => s.data[a][b][i]))
  }

  // ---------------------------------------------------------------------------
  // show_pred: peak cells and markers
  // ---------------------------------------------------------------------------

  /** (row, col) names a largest cell of m, and every cell before it in
      row-major order is strictly smaller. */
  predicate IsFirstMaxCell(m: Grid, h: nat, w: nat, rc: (nat, nat))
    requires IsGrid(m, h, w)
  {
    && rc.0 < h && rc.1 < w
    && (forall r, c :: 0 <= r < h && 0 <= c < w ==> m[r][c] <= m[rc.0][rc.1])
    && (forall r, c :: 0 <= r < h && 0 <= c < w && (r < rc.0 || (r == rc.0 && c < rc.1)) ==> m[r][c] < m[rc.0][rc.1])
  }

  /** np.unravel_index(np.argmax(m), m.shape) as a (row, col) pair: the
      flat argmax of the row-major cells, unravelled by the row length. */
  function ArgmaxCell(m: Grid, h: nat, w: nat): (rc: (nat, nat))
    requires IsGrid(m, h, w) && h > 0 && w > 0
    ensures IsFirstMaxCell(m, h, w, rc)
    ensures rc == (FlatPeak(m, h, w).y, FlatPeak(m, h, w).x)
  {
    var p := FlatPeak(m, h, w);
    var rc := Unravel(ArgMax(Flatten(m)), w);
    assert rc == (p.y, p.x);
    rc
  }

  /** The peak cell of each of the first k channels. */
  function ChannelCells(s: Maps3, k: nat): (cells: seq<(nat, nat)>)
    requires k <= s.c && s.h > 0 && s.w > 0
    ensures |cells| == k
    ensures forall i :: 0 <= i < k ==> IsFirstMaxCell(ChannelGrid(s, i), s.h, s.w, cells[i])
  {
    seq(k, i requires 0 <= i < k => ArgmaxCell(ChannelGrid(s, i), s.h, s.w))
  }

  lemma ChannelCellsNext(s: Maps3, k: nat)
    requires k < s.c && s.h > 0 && s.w > 0
    ensures ChannelCells(s, k + 1) == ChannelCells(s, k) + [ArgmaxCell(ChannelGrid(s, k), s.h, s.w)]
  {
  }

  /** The lists pks_gt and pks_pred. */
  datatype PeakCells = PeakCells(truth: seq<(nat, nat)>, pred: seq<(nat, nat)>)

  /** What the peak loop of show_pred leaves behind: one (row, col) pair per
      ground-truth channel for the truth and for the prediction, or the
      error of the first channel that fails (an empty map has no argmax; a
      prediction with fewer channels runs out of them). */
  function PeakCellsOf(y: Maps3, y2: Maps3): (r: Result<PeakCells>)
    ensures r.Ok? <==> (y.c == 0 || (y.h > 0 && y.w > 0 && y2.h > 0 && y2.w > 0 && y.c <= y2.c))
    ensures y.c > 0 && (y.h == 0 || y.w == 0) ==> r == Err(ValueError(EmptyArgmax))
    ensures y.c > 0 && y.h > 0 && y.w > 0 && y2.c < y.c && (y2.c == 0 || (y2.h > 0 && y2.w > 0)) ==> r == Err(IndexError)
    ensures r.Ok? ==> |r.value.truth| == y.c && |r.value.pred| == y.c
    ensures r.Ok? ==> forall i :: 0 <= i < y.c ==>
      && IsFirstMaxCell(ChannelGrid(y, i), y.h, y.w, r.value.truth[i])
      && IsFirstMaxCell(ChannelGrid(y2, i), y2.h, y2.w, r.value.pred[i])
  {
    if y.c == 0 then Ok(PeakCells([], []))
    else if y.h == 0 || y.w == 0 then Err(ValueError(EmptyArgmax))
    else if y2.c == 0 then Err(IndexError)
    else if y2.h == 0 || y2.w == 0 then Err(ValueError(EmptyArgmax))
    else if y2.c < y.c then Err(IndexError)
    else
      Ok(PeakCells(ChannelCells(y, y.c), ChannelCells(y2, y.c)))
  }

  /** The peak loop of show_pred, channel by channel. */
  method FindPeakCells(y: Maps3, y2: Maps3) returns (r: Result<PeakCells>)
    ensures r == PeakCellsOf(y, y2)
  {
    var truth: seq<(nat, nat)> := [];
    var pred: seq<(nat, nat)> := [];
    var i := 0;
    while i < y.c
      invariant 0 <= i <= y.c
      invariant i == 0 ==> truth == [] && pred == []
      invariant i > 0 ==> y.h > 0 && y.w > 0 && y2.h > 0 && y2.w > 0 && i <= y2.c
      invariant i > 0 ==> truth == ChannelCells(y, i) && pred == ChannelCells(y2, i)
    {
      if y.h == 0 || y.w == 0 {
        return Err(ValueError(EmptyArgmax));
      }
      ChannelCellsNext(y, i);
      truth := truth + [ArgmaxCell(ChannelGrid(y, i), y.h, y.w)];
      if i >= y2.c {
        return Err(IndexError);
      }
      if y2.h == 0 || y2.w == 0 {
        return Err(ValueError(EmptyArgmax));
      }
      ChannelCellsNext(y2, i);
      pred := pred + [ArgmaxCell(ChannelGrid(y2, i), y2.h, y2.w)];
      i := i + 1;
    }
    return Ok(PeakCells(truth, pred));
  }

  /** A plotted point: x is the horizontal (column) and y the vertical (row) coordinate. */
  datatype Point = Point(x: int, y: int)

  /** The two markers drawn for one channel: 'o' at the truth, 'x' at the prediction. */
  datatype Marker = Marker(truth: Point, pred: Point)

  /** plt.plot(*pks[i][::-1]) for each predicted channel: each (row, col)
      pair is drawn reversed, at x = col and y = row. */
  function Markers(cells: PeakCells, channels: nat): (r: Result<seq<Marker>>)
    ensures r.Ok? <==> channels <= |cells.truth| && channels <= |cells.pred|
    ensures r.Err? ==> r == Err(IndexError)
    ensures r.Ok? ==> |r.value| == channels
    ensures r.Ok? ==> forall i :: 0 <= i < channels ==>
      && r.value[i].truth.x == cells.truth[i].1 && r.value[i].truth.y == cells.truth[i].0
      && r.value[i].pred.x == cells.pred[i].1 && r.value[i].pred.y == cells.pred[i].0
  {
    if channels > |cells.truth| || channels > |cells.pred| then Err(IndexError)
    else
      Ok(seq(channels, i requires 0 <= i < channels =>
        Marker(Point(cells.truth[i].1, cells.truth[i].0), Point(cells.pred[i].1, cells.pred[i].0))))
  }

  /** What show_pred draws, in the order its steps can fail: squeeze of Y,
      prediction on the normalised box, the peak loop, the per-channel
      normalisation (the maximum of an empty map), the overlay channel
      Y2[:, :, joint_idx], and the markers of every predicted channel. */
  function ShowPredMarkers(net: Net, x: NdArray, y: Truth, jointIdx: int): (r: Result<seq<Marker>>)
    ensures r.Ok? ==> TruthMaps(y).Ok? && PredictedMaps(net.predict(NormalizedSample(x))).Ok?
    ensures r.Ok? <==>
      && TruthMaps(y).Ok?
      && PredictedMaps(net.predict(NormalizedSample(x))).Ok?
      && var yt := TruthMaps(y).value;
      var y2 := PredictedMaps(net.predict(NormalizedSample(x))).value;
      && PeakCellsOf(yt, y2).Ok?
      && (y2.c == 0 || (y2.h > 0 && y2.w > 0))
      && PyIndex(jointIdx, y2.c).Some?
      && Markers(PeakCellsOf(yt, y2).value, y2.c).Ok?
    ensures r.Ok? ==>
      var yt := TruthMaps(y).value;
      var y2 := PredictedMaps(net.predict(NormalizedSample(x))).value;
      && |r.value| == y2.c
      && r == Markers(PeakCellsOf(yt, y2).value, y2.c)
  {
    match TruthMaps(y)
    case Err(e) => Err(e)
    case Ok(yt) =>
      match PredictedMaps(net.predict(NormalizedSample(x)))
      case Err(e) => Err(e)
      case Ok(y2) =>
        match PeakCellsOf(yt, y2)
        case Err(e) => Err(e)
        case Ok(cells) =>
          if y2.c > 0 && (y2.h == 0 || y2.w == 0) then Err(ValueError(EmptyMax))
          else if PyIndex(jointIdx, y2.c).None? then Err(IndexError)
          else Markers(cells, y2.c)
  }

  /** show_pred, with the figure represented by the markers it draws. */
  method ShowPred(net: Net, x: NdArray, y: Truth, jointIdx: int) returns (r: Result<seq<Marker>>)
    ensures r == ShowPredMarkers(net, x, y, jointIdx)
  {
    var yt := TruthMaps(y);
    if yt.Err? {
      return Err(yt.error);
    }
    var y2 := PredictedMaps(net.predict(NormalizedSample(x)));
    if y2.Err? {
      return Err(y2.error);
    }
    var cells := FindPeakCells(yt.value, y2.value);
    if cells.Err? {
      return Err(cells.error);
    }
    var p := y2.value;
    if p.c > 0 && (p.h == 0 || p.w == 0) {
      return Err(ValueError(EmptyMax));
    }
    if PyIndex(jointIdx, p.c).None? {
      return Err(IndexError);
    }
    r := Markers(cells.value, p.c);
  }

  /** Every marker show_pred draws sits on its channel's first largest cell,
      at x = column and y = row; where that cell is the only largest one,
      the point is the (x, y) that Maxima2D reports for the same map. */
  lemma ShowPredMarksPeaks(net: Net, x: NdArray, y: Truth, jointIdx: int, i: nat)
    requires ShowPredMarkers(net, x, y, jointIdx).Ok?
    requires i < |ShowPredMarkers(net, x, y, jointIdx).value|
    ensures var yt := TruthMaps(y).value;
      var y2 := PredictedMaps(net.predict(NormalizedSample(x))).value;
      var mk := ShowPredMarkers(net, x, y, jointIdx).value[i];
      && i < yt.c && i < y2.c && yt.h > 0 && yt.w > 0 && y2.h > 0 && y2.w > 0
      && IsFirstMaxCell(ChannelGrid(yt, i), yt.h, yt.w, (mk.truth.y, mk.truth.x))
      && IsFirstMaxCell(ChannelGrid(y2, i), y2.h, y2.w, (mk.pred.y, mk.pred.x))
      && (UniqueMax(ChannelGrid(yt, i), yt.h, yt.w) ==>
            mk.truth == Point(FindPeak(ChannelGrid(yt, i), yt.h, yt.w).x, FindPeak(ChannelGrid(yt, i), yt.h, yt.w).y))
      && (UniqueMax(ChannelGrid(y2, i), y2.h, y2.w) ==>
            mk.pred == Point(FindPeak(ChannelGrid(y2, i), y2.h, y2.w).x, FindPeak(ChannelGrid(y2, i), y2.h, y2.w).y))
  {
    var yt := TruthMaps(y).value;
    var y2 := PredictedMaps(net.predict(NormalizedSample(x))).value;
    var cells := PeakCellsOf(yt, y2).value;
    var mk := ShowPredMarkers(net, x, y, jointIdx).value[i];
    assert mk.truth == Point(cells.truth[i].1, cells.truth[i].0);
    assert mk.pred == Point(cells.pred[i].1, cells.pred[i].0);
    assert cells.truth[i] == ArgmaxCell(ChannelGrid(yt, i), yt.h, yt.w);
    assert cells.pred[i] == ArgmaxCell(ChannelGrid(y2, i), y2.h, y2.w);
    if UniqueMax(ChannelGrid(yt, i), yt.h, yt.w) {
      MarkerOfUniqueMax(ChannelGrid(yt, i), yt.h, yt.w);
    }
    if UniqueMax(ChannelGrid(y2, i), y2.h, y2.w) {
      MarkerOfUniqueMax(ChannelGrid(y2, i), y2.h, y2.w);
    }
  }

  /** On a map with one largest cell, the argmax cell is Maxima2D's peak. */
  lemma MarkerOfUniqueMax(m: Grid, h: nat, w: nat)
    requires IsGrid(m, h, w) && h > 0 && w > 0 && UniqueMax(m, h, w)
    ensures FindPeak(m, h, w).x == ArgmaxCell(m, h, w).1 && FindPeak(m, h, w).y == ArgmaxCell(m, h, w).0
  {
    var r0, c0 :| 0 <= r0 < h && 0 <= c0 < w &&
      forall r, c :: 0 <= r < h && 0 <= c < w && (r != r0 || c != c0) ==> m[r][c] < m[r0][c0];
    FindPeakIsFlatPeakOnUniqueMaximum(m, h, w, r0, c0);
  }

  // ---------------------------------------------------------------------------
  // gallery
  // ---------------------------------------------------------------------------

  predicate AllTiles(tiles: seq<Grid>, h: nat, w: nat)
  {
    forall i :: 0 <= i < |tiles| ==> IsGrid(tiles[i], h, w)
  }

  /** int(np.ceil(n / ncols)): the fewest rows of ncols tiles that hold n tiles. */
  function NumRows(n: nat, ncols: nat): (k: nat)
    requires ncols > 0
    ensures n <= k * ncols
    ensures k > 0 ==> (k - 1) * ncols < n
  {
    if n == 0 then 0
    else
      ImageAugmentation.CeilDiv(n, ncols);
      (n + ncols - 1) / ncols
  }

  /** The tiles followed by zero tiles up to `total`. */
  function Padded(tiles: seq<Grid>, h: nat, w: nat, total: nat): (p: seq<Grid>)
    requires |tiles| <= total && AllTiles(tiles, h, w)
    ensures |p| == total && AllTiles(p, h, w)
    ensures forall i :: 0 <= i < |tiles| ==> p[i] == tiles[i]
    ensures forall i :: |tiles| <= i < total ==> p[i] == ZeroGrid(h, w)
  {
    tiles + seq(total - |tiles|, _ => ZeroGrid(h, w))
  }

  /** Row y of the tiles p[base], ..., p[base + ncols - 1], side by side. */
  function TileRow(p: seq<Grid>, h: nat, w: nat, base: nat, ncols: nat, y: nat): (row: seq<real>)
    requires AllTiles(p, h, w) && base + ncols <= |p| && y < h
    ensures |row| == ncols * w
  {
    var pieces := seq(ncols, c requires 0 <= c < ncols => p[base + c][y]);
    ConcatUniformLength(pieces, w);
    Concat(pieces)
  }

  /** One band of the gallery: the H rows through ncols tiles. */
  function Band(p: seq<Grid>, h: nat, w: nat, base: nat, ncols: nat): (band: Grid)
    requires AllTiles(p, h, w) && base + ncols <= |p|
    ensures IsGrid(band, h, ncols * w)
  {
    seq(h, y requires 0 <= y < h => TileRow(p, h, w, base, ncols, y))
  }

  /** Stacking bands of equal width gives a grid of that width. */
  lemma {:induction false} StackedBands(bands: seq<Grid>, h: nat, len: nat)
    requires forall r :: 0 <= r < |bands| ==> IsGrid(bands[r], h, len)
    ensures IsGrid(Concat(bands), |bands| * h, len)
  {
    ConcatUniformLength(bands, h);
    if bands != [] {
      StackedBands(bands[1..], h, len);
      var rest := Concat(bands[1..]);
      assert Concat(bands) == bands[0] + rest;
      forall k | 0 <= k < |bands| * h
        ensures |Concat(bands)[k]| == len
      {
        if k >= h {
          assert Concat(bands)[k] == rest[k - h];
        }
      }
    }
  }

  /** The padded tiles, laid out row-major with ncols tiles per row. */
  function Tile(tiles: seq<Grid>, h: nat, w: nat, ncols: nat): (g: Grid)
    requires ncols > 0 && AllTiles(tiles, h, w)
    ensures IsGrid(g, NumRows(|tiles|, ncols) * h, ncols * w)
  {
    var bands := Bands(tiles, h, w, ncols);
    StackedBands(bands, h, ncols * w);
    Concat(bands)
  }

  /** The bands of the tiling, top to bottom: band r holds tiles r * ncols
      up to r * ncols + ncols - 1 of the padded tiles. */
  function Bands(tiles: seq<Grid>, h: nat, w: nat, ncols: nat): (bands: seq<Grid>)
    requires ncols > 0 && AllTiles(tiles, h, w)
    ensures |bands| == NumRows(|tiles|, ncols)
    ensures forall r :: 0 <= r < |bands| ==> IsGrid(bands[r], h, ncols * w)
  {
    var nrows := NumRows(|tiles|, ncols);
    var p := Padded(tiles, h, w, nrows * ncols);
    seq(nrows, r requires 0 <= r < nrows =>
      MulLe(r + 1, nrows, ncols);
      Band(p, h, w, r * ncols, ncols))
  }

  /** Element x of row y of band r: cell (y, x) of padded tile r * ncols + c. */
  lemma BandAt(tiles: seq<Grid>, h: nat, w: nat, ncols: nat, r: nat, y: nat, c: nat, x: nat)
    requires ncols > 0 && AllTiles(tiles, h, w)
    requires r < NumRows(|tiles|, ncols) && y < h && c < ncols && x < w
    ensures c * w + x < ncols * w
    ensures Bands(tiles, h, w, ncols)[r][y][c * w + x] ==
      if r * ncols + c < |tiles| then tiles[r * ncols + c][y][x] else 0.0
  {
    var nrows := NumRows(|tiles|, ncols);
    var p := Padded(tiles, h, w, nrows * ncols);
    MulLe(r + 1, nrows, ncols);
    var base := r * ncols;
    assert Bands(tiles, h, w, ncols)[r][y] == TileRow(p, h, w, base, ncols, y);
    TileRowAt(p, h, w, base, ncols, y, c, x);
  }

  lemma TileRowAt(p: seq<Grid>, h: nat, w: nat, base: nat, ncols: nat, y: nat, c: nat, x: nat)
    requires AllTiles(p, h, w) && base + ncols <= |p| && y < h && c < ncols && x < w
    ensures c * w + x < ncols * w
    ensures TileRow(p, h, w, base, ncols, y)[c * w + x] == p[base + c][y][x]
  {
    var pieces := seq(ncols, c' requires 0 <= c' < ncols => p[base + c'][y]);
    ConcatAt(pieces, w, c, x);
  }

  /** The gallery's index map: cell (r * H + y, c * W + x) is cell (y, x) of
      tile r * ncols + c, or 0 where that tile is padding. */
  lemma TileAt(tiles: seq<Grid>, h: nat, w: nat, ncols: nat, r: nat, y: nat, c: nat, x: nat)
    requires ncols > 0 && AllTiles(tiles, h, w)
    requires r < NumRows(|tiles|, ncols) && y < h && c < ncols && x < w
    ensures r * h + y < |Tile(tiles, h, w, ncols)|
    ensures c * w + x < |Tile(tiles, h, w, ncols)[r * h + y]|
    ensures Tile(tiles, h, w, ncols)[r * h + y][c * w + x] ==
      if r * ncols + c < |tiles| then tiles[r * ncols + c][y][x] else 0.0
  {
    var bands := Bands(tiles, h, w, ncols);
    ConcatAt(bands, h, r, y);
    BandAt(tiles, h, w, ncols, r, y, c, x);
  }

  /** np.transpose(array, (2, 0, 1)): the channel maps, one tile each. */
  function Tiles(a: Maps3): (tiles: seq<Grid>)
    ensures |tiles| == a.c && AllTiles(tiles, a.h, a.w)
    ensures forall i :: 0 <= i < a.c ==> tiles[i] == ChannelGrid(a, i)
  {
    seq(a.c, i requires 0 <= i < a.c => ChannelGrid(a, i))
  }

  /** gallery(array, ncols): squeeze and transpose to tiles (an axis of
      length one is squeezed away and the transpose then fails), then the
      ceil(n / ncols) x ncols tiling. */
  function Gallery(a: Maps3, ncols: nat): (r: Result<Grid>)
    ensures r.Ok? <==> a.h != 1 && a.w != 1 && a.c != 1 && ncols > 0
    ensures (a.h == 1 || a.w == 1 || a.c == 1) ==> r == Err(ValueError("axes don't match array"))
    ensures a.h != 1 && a.w != 1 && a.c != 1 && ncols == 0 ==> r == Err(ZeroDivisionError)
    ensures r.Ok? ==> IsGrid(r.value, NumRows(a.c, ncols) * a.h, ncols * a.w)
  {
    if a.h == 1 || a.w == 1 || a.c == 1 then Err(ValueError("axes don't match array"))
    else if ncols == 0 then Err(ZeroDivisionError)
    else Ok(Tile(Tiles(a), a.h, a.w, ncols))
  }

  /** A gallery cell read back: cell (r * H + y, c * W + x) of the gallery is
      channel r * ncols + c of the array at (y, x), or 0 past the last channel. */
  lemma GalleryAt(a: Maps3, ncols: nat, r: nat, y: nat, c: nat, x: nat)
    requires Gallery(a, ncols).Ok?
    requires r < NumRows(a.c, ncols) && y < a.h && c < ncols && x < a.w
    ensures r * a.h + y < |Gallery(a, ncols).value|
    ensures c * a.w + x < |Gallery(a, ncols).value[r * a.h + y]|
    ensures Gallery(a, ncols).value[r * a.h + y][c * a.w + x] ==
      if r * ncols + c < a.c then a.data[y][x][r * ncols + c] else 0.0
  {
    TileAt(Tiles(a), a.h, a.w, ncols, r, y, c, x);
  }

  // ---------------------------------------------------------------------------
  // show_confmap_grid
  // ---------------------------------------------------------------------------

  /** The channels of u and v alternated: u[0], v[0], u[1], v[1], ... */
  function Pairs(u: seq<real>, v: seq<real>): (p: seq<real>)
    requires |u| == |v|
    ensures |p| == 2 * |u|
    ensures forall i :: 0 <= i < |u| ==> p[2 * i] == u[i] && p[2 * i + 1] == v[i]
  {
    seq(2 * |u|, k requires 0 <= k < 2 * |u| => if k % 2 == 0 then u[k / 2] else v[k / 2])
  }

  /** np.stack((Y, Y2), axis=-1).reshape(H, W, -1): channel 2i is Y's channel
      i and channel 2i + 1 is Y2's; the two must have the same shape, and the
      -1 cannot be inferred when H * W is zero. */
  function Interleave(y: Maps3, y2: Maps3): (r: Result<Maps3>)
    ensures r.Ok? <==> (y.h, y.w, y.c) == (y2.h, y2.w, y2.c) && y.h * y.w != 0
    ensures (y.h, y.w, y.c) != (y2.h, y2.w, y2.c) ==>
      r == Err(ValueError("all input arrays must have the same shape"))
    ensures (y.h, y.w, y.c) == (y2.h, y2.w, y2.c) && y.h * y.w == 0 ==>
      r == Err(ValueError("cannot reshape array of size 0 into shape"))
    ensures r.Ok? ==> r.value.h == y.h && r.value.w == y.w && r.value.c == 2 * y.c
  {
    if (y.h, y.w, y.c) != (y2.h, y2.w, y2.c) then Err(ValueError("all input arrays must have the same shape"))
    else if y.h * y.w == 0 then Err(ValueError("cannot reshape array of size 0 into shape"))
    else
      var data := seq(y.h, a requires 0 <= a < y.h =>
        seq(y.w, b requires 0 <= b < y.w => Pairs(y.data[a][b], y2.data[a][b])));
      var all: Maps3 := Stack3(data, y.h, y.w, 2 * y.c);
      Ok(all)
  }

  /** show_confmap_grid: the montage of truth and prediction, eight tiles
      per row, returned only when it is neither shown nor saved. */
  function ConfmapGrid(net: Net, x: NdArray, y: Truth, plot: bool, savePath: Option<string>): (r: Result<Option<Grid>>)
    ensures r.Ok? ==> (r.value.Some? <==> !plot && savePath.None?)
    ensures r.Ok? <==>
      && TruthMaps(y).Ok?
      && PredictedMaps(net.predict(NormalizedSample(x))).Ok?
      && Interleave(TruthMaps(y).value, PredictedMaps(net.predict(NormalizedSample(x))).value).Ok?
      && Gallery(Interleave(TruthMaps(y).value, PredictedMaps(net.predict(NormalizedSample(x))).value).value, 8).Ok?
  {
    match TruthMaps(y)
    case Err(e) => Err(e)
    case Ok(yt) =>
      match PredictedMaps(net.predict(NormalizedSample(x)))
      case Err(e) => Err(e)
      case Ok(y2) =>
        match Interleave(yt, y2)
        case Err(e) => Err(e)
        case Ok(all) =>
          match Gallery(all, 8)
          case Err(e) => Err(e)
          case Ok(preds) => if plot || savePath.Some? then Ok(None) else Ok(Some(preds))
  }

  /** Channel t of the interleave, by the parity of t. */
  lemma InterleaveAt(yt: Maps3, y2: Maps3, a: nat, b: nat, t: nat)
    requires Interleave(yt, y2).Ok? && a < yt.h && b < yt.w && t < 2 * yt.c
    ensures t % 2 == 0 ==> Interleave(yt, y2).value.data[a][b][t] == yt.data[a][b][t / 2]
    ensures t % 2 == 1 ==> Interleave(yt, y2).value.data[a][b][t] == y2.data[a][b][t / 2]
  {
    var all := Interleave(yt, y2).value;
    assert all.data[a][b] == Pairs(yt.data[a][b], y2.data[a][b]);
    var i := t / 2;
    if t % 2 == 0 {
      assert t == 2 * i;
    } else {
      assert t == 2 * i + 1;
    }
  }

  /** The grid show_confmap_grid returns is that montage of Y and the prediction. */
  lemma ConfmapGridIsMontage(net: Net, x: NdArray, y: Truth)
    requires ConfmapGrid(net, x, y, false, None).Ok?
    ensures var yt := TruthMaps(y).value;
      var y2 := PredictedMaps(net.predict(NormalizedSample(x))).value;
      && Interleave(yt, y2).Ok? && Gallery(Interleave(yt, y2).value, 8).Ok?
      && ConfmapGrid(net, x, y, false, None) == Ok(Some(Gallery(Interleave(yt, y2).value, 8).value))
  {
  }
}
