/** leap/layers.py: the Maxima2D peak finder (_find_maxima, find_maxima),
    the static output shapes of Maxima2D and UpSampling2D, and the argument
    checks resize_images makes before it calls TensorFlow. */
module Layers {
  import opened Base

  datatype DataFormat = ChannelsFirst | ChannelsLast
  datatype Interpolation = Nearest | Bilinear | Bicubic

  /** One peak record. x is a COLUMN index and y a ROW index. */
  datatype Peak = Peak(x: int, y: int, val: real)

  /** Column c of a grid, top to bottom. */
  function Column(m: Grid, c: nat): (col: seq<real>)
    requires forall r :: 0 <= r < |m| ==> c < |m[r]|
    ensures |col| == |m|
    ensures forall r :: 0 <= r < |m| ==> col[r] == m[r][c]
  {
    seq(|m|, r requires 0 <= r < |m| => m[r][c])
  }

  /** K.max(x, axis=1) for one sample and channel: the maximum of each column. */
  function ColumnMaxima(m: Grid, h: nat, w: nat): (cm: seq<real>)
    requires IsGrid(m, h, w) && h > 0
    ensures |cm| == w
    ensures forall c :: 0 <= c < w ==> cm[c] == MaxOf(Column(m, c))
  {
    seq(w, c requires 0 <= c < w => MaxOf(Column(m, c)))
  }

  /** K.max(x, axis=2) for one sample and channel: the maximum of each row. */
  function RowMaxima(m: Grid, h: nat, w: nat): (rm: seq<real>)
    requires IsGrid(m, h, w) && w > 0
    ensures |rm| == h
    ensures forall r :: 0 <= r < h ==> rm[r] == MaxOf(m[r])
  {
    seq(h, r requires 0 <= r < h => MaxOf(m[r]))
  }

  /** The cells of a grid all lie at or below v, and v is held by one of them. */
  ghost predicate IsGridMax(m: Grid, h: nat, w: nat, v: real)
    requires IsGrid(m, h, w)
  {
    && (forall r, c :: 0 <= r < h && 0 <= c < w ==> m[r][c] <= v)
    && (exists r, c :: 0 <= r < h && 0 <= c < w && m[r][c] == v)
  }

  lemma ColumnMaxIsGridMax(m: Grid, h: nat, w: nat)
    requires IsGrid(m, h, w) && h > 0 && w > 0
    ensures IsGridMax(m, h, w, MaxOf(ColumnMaxima(m, h, w)))
  {
    var cm := ColumnMaxima(m, h, w);
    var v := MaxOf(cm);
    forall r, c | 0 <= r < h && 0 <= c < w ensures m[r][c] <= v {
      assert Column(m, c)[r] == m[r][c];
    }
    var c :| 0 <= c < w && cm[c] == v;
    var r :| 0 <= r < h && Column(m, c)[r] == cm[c];
    assert m[r][c] == v;
  }

  lemma RowMaxIsGridMax(m: Grid, h: nat, w: nat)
    requires IsGrid(m, h, w) && h > 0 && w > 0
    ensures IsGridMax(m, h, w, MaxOf(RowMaxima(m, h, w)))
  {
    var rm := RowMaxima(m, h, w);
    var v := MaxOf(rm);
    forall r, c | 0 <= r < h && 0 <= c < w ensures m[r][c] <= v {
      assert m[r][c] <= rm[r];
    }
    var r :| 0 <= r < h && rm[r] == v;
    var c :| 0 <= c < w && m[r][c] == rm[r];
  }

  lemma GridMaxUnique(m: Grid, h: nat, w: nat, u: real, v: real)
    requires IsGrid(m, h, w) && IsGridMax(m, h, w, u) && IsGridMax(m, h, w, v)
    ensures u == v
  {
    var r, c :| 0 <= r < h && 0 <= c < w && m[r][c] == u;
    var r', c' :| 0 <= r' < h && 0 <= c' < w && m[r'][c'] == v;
  }

  /** _find_maxima for one sample and channel: x is the argmax of the column
      maxima, y the argmax of the row maxima, val the largest cell. */
  function FindPeak(m: Grid, h: nat, w: nat): (p: Peak)
    requires IsGrid(m, h, w) && h > 0 && w > 0
    ensures 0 <= p.x < w && 0 <= p.y < h
    ensures IsGridMax(m, h, w, p.val)
    ensures MaxOf(Column(m, p.x)) == p.val && MaxOf(m[p.y]) == p.val
    ensures forall c :: 0 <= c < p.x ==> MaxOf(Column(m, c)) < p.val
    ensures forall r :: 0 <= r < p.y ==> MaxOf(m[r]) < p.val
  {
    var cm := ColumnMaxima(m, h, w);
    var rm := RowMaxima(m, h, w);
    ColumnMaxIsGridMax(m, h, w);
    RowMaxIsGridMax(m, h, w);
    GridMaxUnique(m, h, w, MaxOf(cm), MaxOf(rm));
    ArgMaxHoldsMax(cm);
    ArgMaxHoldsMax(rm);
    Peak(ArgMax(cm), ArgMax(rm), MaxOf(cm))
  }

  /** With a single largest cell (r0, c0) the record is (c0, r0, that value):
      column first, row second. */
  lemma {:induction false} UniqueMaximumPeak(m: Grid, h: nat, w: nat, r0: nat, c0: nat)
    requires IsGrid(m, h, w) && r0 < h && c0 < w
    requires forall r, c :: 0 <= r < h && 0 <= c < w && (r != r0 || c != c0) ==> m[r][c] < m[r0][c0]
    ensures FindPeak(m, h, w) == Peak(c0, r0, m[r0][c0])
  {
    var v := m[r0][c0];
    var cm := ColumnMaxima(m, h, w);
    var rm := RowMaxima(m, h, w);
    forall c | 0 <= c < w && c != c0 ensures cm[c] < v {
      var r := ArgMax(Column(m, c));
      ArgMaxHoldsMax(Column(m, c));
    }
    assert cm[c0] == v by {
      ArgMaxOfStrictMax(Column(m, c0), r0);
      ArgMaxHoldsMax(Column(m, c0));
    }
    forall r | 0 <= r < h && r != r0 ensures rm[r] < v {
      ArgMaxHoldsMax(m[r]);
    }
    assert rm[r0] == v by {
      ArgMaxOfStrictMax(m[r0], c0);
      ArgMaxHoldsMax(m[r0]);
    }
    ArgMaxOfStrictMax(cm, c0);
    ArgMaxOfStrictMax(rm, r0);
    ArgMaxHoldsMax(cm);
  }

  /** Any cell at the top of the grid gives the reported value. */
  lemma PeakValueIsGridMax(m: Grid, h: nat, w: nat, r: nat, c: nat)
    requires IsGrid(m, h, w) && r < h && c < w
    requires forall r', c' :: 0 <= r' < h && 0 <= c' < w ==> m[r'][c'] <= m[r][c]
    ensures FindPeak(m, h, w).val == m[r][c]
  {
    var p := FindPeak(m, h, w);
    assert m[r][c] <= p.val;
  }

  /** A maximum in column 0 makes x zero; one in row 0 makes y zero. */
  lemma PeakAtOrigin(m: Grid, h: nat, w: nat, r: nat, c: nat)
    requires IsGrid(m, h, w) && r < h && c < w && h > 0 && w > 0
    requires m[r][0] == FindPeak(m, h, w).val && m[0][c] == FindPeak(m, h, w).val
    ensures FindPeak(m, h, w).x == 0 && FindPeak(m, h, w).y == 0
  {
    assert Column(m, 0)[r] == m[r][0];
    assert m[0][c] <= MaxOf(m[0]);
  }

  /** A map whose maximum v is tied between cells (0, 1) and (1, 0) while
      (0, 0) holds less: x and y come from different cells, and the reported
      cell (0, 0) does not hold the reported value. */
  lemma TiedMaximumSplitsPeak(m: Grid, h: nat, w: nat, v: real)
    requires IsGrid(m, h, w) && h >= 2 && w >= 2
    requires forall r, c :: 0 <= r < h && 0 <= c < w ==> m[r][c] <= v
    requires m[0][1] == v && m[1][0] == v && m[0][0] < v
    ensures FindPeak(m, h, w) == Peak(0, 0, v)
    ensures m[FindPeak(m, h, w).y][FindPeak(m, h, w).x] != FindPeak(m, h, w).val
  {
    PeakValueIsGridMax(m, h, w, 0, 1);
    PeakAtOrigin(m, h, w, 1, 1);
  }

  /** An all-constant map gives (0, 0, the constant). */
  lemma ConstantMapPeak(m: Grid, h: nat, w: nat, v: real)
    requires IsGrid(m, h, w) && h > 0 && w > 0
    requires forall r, c :: 0 <= r < h && 0 <= c < w ==> m[r][c] == v
    ensures FindPeak(m, h, w) == Peak(0, 0, v)
  {
    var p := FindPeak(m, h, w);
    assert m[0][0] == v;
    var r, c :| 0 <= r < h && 0 <= c < w && m[r][c] == p.val;
    assert p.val == v;
  }

  /** tf.reshape of one H x W map to H * W cells: row-major order. */
  function Flatten(m: Grid): seq<real>
  {
    Concat(m)
  }

  /** Cell (r, c) of an H x W map sits at flat index r * W + c. */
  lemma FlattenAt(m: Grid, h: nat, w: nat, r: nat, c: nat)
    requires IsGrid(m, h, w) && r < h && c < w
    ensures |Flatten(m)| == h * w && r * w + c < h * w
    ensures Flatten(m)[r * w + c] == m[r][c]
  {
    ConcatAt(m, w, r, c);
  }

  /** Row-major order on cells is the order of their flat indices. */
  lemma RowMajorBefore(r: nat, c: nat, y: nat, x: nat, w: nat)
    requires c < w && x < w && (r < y || (r == y && c < x))
    ensures r * w + c < y * w + x
  {
    if r < y {
      MulLe(r + 1, y, w);
    }
  }

  /** floor_div and floormod of a flat index by a positive row length,
      computed by repeated subtraction: (row, column) with k = row * w + column. */
  function Unravel(k: nat, w: nat): (rc: (nat, nat))
    requires w > 0
    ensures rc.1 < w && rc.0 * w + rc.1 == k
  {
    if k < w then (0, k)
    else
      var (r, c) := Unravel(k - w, w);
      (r + 1, c)
  }

  /** A flat index below h * w unravels to a row below h. */
  lemma UnravelRowBound(k: nat, h: nat, w: nat)
    requires w > 0 && k < h * w
    ensures Unravel(k, w).0 < h
  {
    var (r, c) := Unravel(k, w);
    if r >= h {
      MulLe(h, r, w);
    }
  }

  /** Flat index k of an H x W map is the cell Unravel(k, W). */
  lemma FlatIndexCell(m: Grid, h: nat, w: nat, k: nat)
    requires IsGrid(m, h, w) && w > 0 && k < h * w
    ensures |Flatten(m)| == h * w
    ensures Unravel(k, w).0 < h && Flatten(m)[k] == m[Unravel(k, w).0][Unravel(k, w).1]
  {
    UnravelRowBound(k, h, w);
    var (y, x) := Unravel(k, w);
    FlattenAt(m, h, w, y, x);
  }

  /** Every cell is at most the largest flat entry. */
  lemma FlatMaxBoundsCells(m: Grid, h: nat, w: nat)
    requires IsGrid(m, h, w) && h > 0 && w > 0
    ensures |Flatten(m)| > 0
    ensures forall r, c :: 0 <= r < h && 0 <= c < w ==> m[r][c] <= MaxOf(Flatten(m))
  {
    FlattenAt(m, h, w, 0, 0);
    forall r, c | 0 <= r < h && 0 <= c < w ensures m[r][c] <= MaxOf(Flatten(m)) {
      FlattenAt(m, h, w, r, c);
    }
  }

  /** Cells before (y, x) in row-major order hold less than the entry at y * W + x. */
  lemma FlatArgMaxFirst(m: Grid, h: nat, w: nat, y: nat, x: nat)
    requires IsGrid(m, h, w) && h > 0 && w > 0
    requires |Flatten(m)| > 0 && y * w + x == ArgMax(Flatten(m)) && x < w
    ensures forall r, c :: 0 <= r < h && 0 <= c < w && (r < y || (r == y && c < x)) ==>
      m[r][c] < Flatten(m)[y * w + x]
  {
    forall r, c | 0 <= r < h && 0 <= c < w && (r < y || (r == y && c < x))
      ensures m[r][c] < Flatten(m)[y * w + x]
    {
      FlattenAt(m, h, w, r, c);
      RowMajorBefore(r, c, y, x, w);
    }
  }

  /** The flat argmax, unravelled by the width, names a cell holding the maximum. */
  lemma FlatArgMaxCell(m: Grid, h: nat, w: nat)
    requires IsGrid(m, h, w) && h > 0 && w > 0
    ensures |Flatten(m)| == h * w
    ensures var k := ArgMax(Flatten(m));
      Unravel(k, w).0 < h && m[Unravel(k, w).0][Unravel(k, w).1] == MaxOf(Flatten(m))
  {
    FlattenAt(m, h, w, 0, 0);
    var k := ArgMax(Flatten(m));
    FlatIndexCell(m, h, w, k);
    ArgMaxHoldsMax(Flatten(m));
  }

  /** The intended peak of one map: the first largest cell in row-major
      order, read off the flat argmax with the row length W. */
  function FlatPeak(m: Grid, h: nat, w: nat): (p: Peak)
    requires IsGrid(m, h, w) && h > 0 && w > 0
    ensures 0 <= p.x < w && 0 <= p.y < h
    ensures m[p.y][p.x] == p.val && IsGridMax(m, h, w, p.val)
    ensures forall r, c :: 0 <= r < h && 0 <= c < w && (r < p.y || (r == p.y && c < p.x)) ==> m[r][c] < p.val
  {
    FlatMaxBoundsCells(m, h, w);
    FlatArgMaxCell(m, h, w);
    var k := ArgMax(Flatten(m));
    var rc := Unravel(k, w);
    ArgMaxHoldsMax(Flatten(m));
    FlatArgMaxFirst(m, h, w, rc.0, rc.1);
    Peak(rc.1, rc.0, MaxOf(Flatten(m)))
  }

  /** A map has only one first-largest cell: any cell with the two
      properties of FlatPeak's result is that result. */
  lemma FlatPeakUnique(m: Grid, h: nat, w: nat, y: nat, x: nat)
    requires IsGrid(m, h, w) && h > 0 && w > 0 && y < h && x < w
    requires forall r, c :: 0 <= r < h && 0 <= c < w ==> m[r][c] <= m[y][x]
    requires forall r, c :: 0 <= r < h && 0 <= c < w && (r < y || (r == y && c < x)) ==> m[r][c] < m[y][x]
    ensures FlatPeak(m, h, w) == Peak(x, y, m[y][x])
  {
    var p := FlatPeak(m, h, w);
    assert m[p.y][p.x] <= m[y][x];
  }

  /** Both readings report the same value: the largest cell. */
  lemma PeakValuesAgree(m: Grid, h: nat, w: nat)
    requires IsGrid(m, h, w) && h > 0 && w > 0
    ensures FindPeak(m, h, w).val == FlatPeak(m, h, w).val
  {
    GridMaxUnique(m, h, w, FindPeak(m, h, w).val, FlatPeak(m, h, w).val);
  }

  /** With a single largest cell, _find_maxima and the row-major reading agree. */
  lemma FindPeakIsFlatPeakOnUniqueMaximum(m: Grid, h: nat, w: nat, r0: nat, c0: nat)
    requires IsGrid(m, h, w) && r0 < h && c0 < w
    requires forall r, c :: 0 <= r < h && 0 <= c < w && (r != r0 || c != c0) ==> m[r][c] < m[r0][c0]
    ensures FindPeak(m, h, w) == FlatPeak(m, h, w)
  {
    UniqueMaximumPeak(m, h, w, r0, c0);
    FlatPeakUnique(m, h, w, r0, c0);
  }

  /** One channel of a (B, H, W, C) tensor. */
  function ChannelOf(x: Tensor4, b: nat, c: nat, H: nat, W: nat, C: nat): (m: Grid)
    requires IsTensor4(x, |x|, H, W, C) && b < |x| && c < C
    ensures IsGrid(m, H, W)
    ensures forall h, w :: 0 <= h < H && 0 <= w < W ==> m[h][w] == x[b][h][w][c]
  {
    seq(H, h requires 0 <= h < H => seq(W, w requires 0 <= w < W => x[b][h][w][c]))
  }

  /** K.concatenate([cols, rows, maxima], -2) for one sample: a (3, C) block
      whose rows are x, y and value. */
  function PeakRows(ps: seq<Peak>): (t: Grid)
    ensures IsGrid(t, 3, |ps|)
    ensures forall c :: 0 <= c < |ps| ==>
      t[0][c] == ps[c].x as real && t[1][c] == ps[c].y as real && t[2][c] == ps[c].val
  {
    [seq(|ps|, c requires 0 <= c < |ps| => ps[c].x as real),
     seq(|ps|, c requires 0 <= c < |ps| => ps[c].y as real),
     seq(|ps|, c requires 0 <= c < |ps| => ps[c].val)]
  }

  /** FindPeak for every channel of sample b. */
  function SamplePeaks(x: Tensor4, b: nat, H: nat, W: nat, C: nat): (ps: seq<Peak>)
    requires IsTensor4(x, |x|, H, W, C) && b < |x| && H > 0 && W > 0
    ensures |ps| == C
    ensures forall c :: 0 <= c < C ==> ps[c] == FindPeak(ChannelOf(x, b, c, H, W, C), H, W)
  {
    seq(C, c requires 0 <= c < C => FindPeak(ChannelOf(x, b, c, H, W, C), H, W))
  }

  /** _find_maxima on a channels_last (B, H, W, C) tensor: a (B, 3, C) tensor
      whose three rows hold, per channel, x, y and the value of FindPeak. */
  function FindMaximaLast(x: Tensor4, B: nat, H: nat, W: nat, C: nat): (y: Tensor3)
    requires IsTensor4(x, B, H, W, C) && H > 0 && W > 0
    ensures |y| == B
    ensures forall b :: 0 <= b < B ==> y[b] == PeakRows(SamplePeaks(x, b, H, W, C))
  {
    seq(B, b requires 0 <= b < B => PeakRows(SamplePeaks(x, b, H, W, C)))
  }

  /** The (B, 3, C) layout: row 0 is x (a column), row 1 is y (a row), row 2 the value. */
  lemma FindMaximaLastLayout(x: Tensor4, B: nat, H: nat, W: nat, C: nat, b: nat, c: nat)
    requires IsTensor4(x, B, H, W, C) && H > 0 && W > 0 && b < B && c < C
    ensures var y := FindMaximaLast(x, B, H, W, C);
      var p := FindPeak(ChannelOf(x, b, c, H, W, C), H, W);
      && IsTensor3(y, B, 3, C)
      && y[b][0][c] == p.x as real && y[b][1][c] == p.y as real && y[b][2][c] == p.val
  {
  }

  /** permute_dimensions(x, [0, 2, 3, 1]): (B, C, H, W) to (B, H, W, C). */
  function ToChannelsLast(x: Tensor4, B: nat, C: nat, H: nat, W: nat): (y: Tensor4)
    requires IsTensor4(x, B, C, H, W)
    ensures IsTensor4(y, B, H, W, C)
    ensures forall b, h, w, c :: 0 <= b < B && 0 <= h < H && 0 <= w < W && 0 <= c < C ==>
      y[b][h][w][c] == x[b][c][h][w]
  {
    seq(B, b requires 0 <= b < B =>
      seq(H, h requires 0 <= h < H =>
        seq(W, w requires 0 <= w < W =>
          seq(C, c requires 0 <= c < C => x[b][c][h][w]))))
  }

  /** permute_dimensions(t, [0, 2, 1]): (B, K, C) to (B, C, K). */
  function SwapLastAxes(t: Tensor3, B: nat, K: nat, C: nat): (u: Tensor3)
    requires IsTensor3(t, B, K, C)
    ensures IsTensor3(u, B, C, K)
    ensures forall b, c, k :: 0 <= b < B && 0 <= c < C && 0 <= k < K ==> u[b][c][k] == t[b][k][c]
  {
    seq(B, b requires 0 <= b < B =>
      seq(C, c requires 0 <= c < C =>
        seq(K, k requires 0 <= k < K => t[b][k][c])))
  }

  /** find_maxima(x, data_format); d0..d3 are the dimensions of x as given. */
  function FindMaxima(x: Tensor4, dataFormat: string, d0: nat, d1: nat, d2: nat, d3: nat): (r: Result<Tensor3>)
    requires IsTensor4(x, d0, d1, d2, d3)
    requires dataFormat == "channels_first" ==> d2 > 0 && d3 > 0
    requires dataFormat == "channels_last" ==> d1 > 0 && d2 > 0
    ensures r.Err? <==> dataFormat != "channels_first" && dataFormat != "channels_last"
    ensures dataFormat == "channels_last" ==> r == Ok(FindMaximaLast(x, d0, d1, d2, d3))
  {
    if dataFormat == "channels_first" then
      Ok(SwapLastAxes(FindMaximaLast(ToChannelsLast(x, d0, d1, d2, d3), d0, d2, d3, d1), d0, 3, d1))
    else if dataFormat == "channels_last" then
      Ok(FindMaximaLast(x, d0, d1, d2, d3))
    else
      Err(ValueError("Invalid data_format:"))
  }

  lemma ChannelOfChannelsLast(x: Tensor4, B: nat, C: nat, H: nat, W: nat, b: nat, c: nat)
    requires IsTensor4(x, B, C, H, W) && b < B && c < C
    ensures ChannelOf(ToChannelsLast(x, B, C, H, W), b, c, H, W, C) == x[b][c]
  {
    var m := ChannelOf(ToChannelsLast(x, B, C, H, W), b, c, H, W, C);
    assert IsGrid(x[b][c], H, W);
    forall h | 0 <= h < H ensures m[h] == x[b][c][h] {
    }
  }

  /** FindMaximaLast on the permuted input, read at [b][k][c], is the k-th
      field of FindPeak on the channels_first map x[b][c]. */
  lemma ChannelsLastOfPermuted(x: Tensor4, B: nat, C: nat, H: nat, W: nat, b: nat, c: nat)
    requires IsTensor4(x, B, C, H, W) && H > 0 && W > 0 && b < B && c < C
    ensures var y := FindMaximaLast(ToChannelsLast(x, B, C, H, W), B, H, W, C);
      var p := FindPeak(x[b][c], H, W);
      && IsTensor3(y, B, 3, C)
      && y[b][0][c] == p.x as real && y[b][1][c] == p.y as real && y[b][2][c] == p.val
  {
    ChannelOfChannelsLast(x, B, C, H, W, b, c);
    FindMaximaLastLayout(ToChannelsLast(x, B, C, H, W), B, H, W, C, b, c);
  }

  /** Transposing a (B, 3, C) tensor turns the column [b][..][c] into the row [b][c]. */
  lemma SwapLastAxesColumn(y: Tensor3, B: nat, C: nat, b: nat, c: nat)
    requires IsTensor3(y, B, 3, C) && b < B && c < C
    ensures SwapLastAxes(y, B, 3, C)[b][c] == [y[b][0][c], y[b][1][c], y[b][2][c]]
  {
    var z := SwapLastAxes(y, B, 3, C);
    assert |z[b][c]| == 3;
  }

  /** channels_first: entry [b][c] is the (x, y, value) triple of the H x W
      map x[b][c], i.e. the channels_last answer on the permuted input,
      transposed. */
  lemma ChannelsFirstPeaks(x: Tensor4, B: nat, C: nat, H: nat, W: nat, b: nat, c: nat)
    requires IsTensor4(x, B, C, H, W) && H > 0 && W > 0 && b < B && c < C
    ensures var r := FindMaxima(x, "channels_first", B, C, H, W);
      var p := FindPeak(x[b][c], H, W);
      && r.Ok? && IsTensor3(r.value, B, C, 3)
      && r.value[b][c] == [p.x as real, p.y as real, p.val]
  {
    var y := FindMaximaLast(ToChannelsLast(x, B, C, H, W), B, H, W, C);
    ChannelsLastOfPermuted(x, B, C, H, W, b, c);
    SwapLastAxesColumn(y, B, C, b, c);
  }

  /** channels_last: entry [b][..][c] is the (x, y, value) triple of
      channel c of sample b, read as an H x W map. */
  lemma ChannelsLastPeaks(x: Tensor4, B: nat, H: nat, W: nat, C: nat, b: nat, c: nat)
    requires IsTensor4(x, B, H, W, C) && H > 0 && W > 0 && b < B && c < C
    ensures var r := FindMaxima(x, "channels_last", B, H, W, C);
      var p := FindPeak(ChannelOf(x, b, c, H, W, C), H, W);
      && r.Ok? && IsTensor3(r.value, B, 3, C)
      && r.value[b][0][c] == p.x as real && r.value[b][1][c] == p.y as real && r.value[b][2][c] == p.val
  {
    FindMaximaLastLayout(x, B, H, W, C, b, c);
  }

  /** A static dimension: known, or None. */
  datatype Dim = Known(n: nat) | Unknown

  function ScaleDim(f: nat, d: Dim): Dim
  {
    match d
    case Known(n) => Known(f * n)
    case Unknown => Unknown
  }

  /** Maxima2D.compute_output_shape */
  function Maxima2DOutputShape(fmt: DataFormat, s: seq<Dim>): (r: seq<Dim>)
    requires |s| == 4
    ensures |r| == 3
  {
    match fmt
    case ChannelsFirst => [s[0], s[1], Known(3)]
    case ChannelsLast => [s[0], Known(3), s[3]]
  }

  /** The static shape Maxima2D declares is the shape find_maxima produces. */
  lemma MaximaShapeAgrees(x: Tensor4, fmt: DataFormat, d0: nat, d1: nat, d2: nat, d3: nat)
    requires IsTensor4(x, d0, d1, d2, d3)
    requires fmt == ChannelsFirst ==> d2 > 0 && d3 > 0
    requires fmt == ChannelsLast ==> d1 > 0 && d2 > 0
    ensures var name := if fmt == ChannelsFirst then "channels_first" else "channels_last";
      var r := FindMaxima(x, name, d0, d1, d2, d3);
      var s := Maxima2DOutputShape(fmt, [Known(d0), Known(d1), Known(d2), Known(d3)]);
      && r.Ok? && s[0].Known? && s[1].Known? && s[2].Known?
      && IsTensor3(r.value, s[0].n, s[1].n, s[2].n)
  {
  }

  /** UpSampling2D.compute_output_shape with size factors (size[0], size[1]). */
  function UpSampling2DOutputShape(fmt: DataFormat, size: (nat, nat), s: seq<Dim>): (r: seq<Dim>)
    requires |s| == 4
    ensures |r| == 4
    ensures fmt == ChannelsFirst ==> r[0] == s[0] && r[1] == s[1]
    ensures fmt == ChannelsLast ==> r[0] == s[0] && r[3] == s[3]
  {
    match fmt
    case ChannelsFirst => [s[0], s[1], ScaleDim(size.0, s[2]), ScaleDim(size.1, s[3])]
    case ChannelsLast => [s[0], ScaleDim(size.0, s[1]), ScaleDim(size.1, s[2]), s[3]]
  }

  /** Indices of the height and width axes under a data format. */
  function SpatialAxes(fmt: DataFormat): (nat, nat)
  {
    if fmt == ChannelsFirst then (2, 3) else (1, 2)
  }

  /** Upsampling multiplies the spatial dims, keeps the other two and
      carries None through. */
  lemma UpSamplingScalesSpatialDims(fmt: DataFormat, size: (nat, nat), s: seq<Dim>)
    requires |s| == 4
    ensures var r := UpSampling2DOutputShape(fmt, size, s);
      var (ha, wa) := SpatialAxes(fmt);
      && (s[ha].Unknown? <==> r[ha].Unknown?)
      && (s[wa].Unknown? <==> r[wa].Unknown?)
      && (s[ha].Known? ==> r[ha].n == size.0 * s[ha].n)
      && (s[wa].Known? ==> r[wa].n == size.1 * s[wa].n)
  {
  }

  /** Upsampling by a and then by b is upsampling by the products. */
  lemma UpSamplingComposes(fmt: DataFormat, a: (nat, nat), b: (nat, nat), s: seq<Dim>)
    requires |s| == 4
    ensures UpSampling2DOutputShape(fmt, b, UpSampling2DOutputShape(fmt, a, s))
         == UpSampling2DOutputShape(fmt, (b.0 * a.0, b.1 * a.1), s)
  {
    forall f: nat, g: nat, d: Dim ensures ScaleDim(g, ScaleDim(f, d)) == ScaleDim(g * f, d) {
      if d.Known? {
        assert g * (f * d.n) == (g * f) * d.n;
      }
    }
  }

  function ParseInterpolation(s: string): (r: Result<Interpolation>)
  {
    if s == "nearest" then Ok(Nearest)
    else if s == "bilinear" then Ok(Bilinear)
    else if s == "bicubic" then Ok(Bicubic)
    else Err(ValueError("Invalid interpolation method:"))
  }

  function ParseDataFormat(s: string): (r: Result<DataFormat>)
  {
    if s == "channels_first" then Ok(ChannelsFirst)
    else if s == "channels_last" then Ok(ChannelsLast)
    else Err(ValueError("Invalid data_format:"))
  }

  /** resize_images' static output shape (x.set_shape): the spatial dims
      are multiplied; batch and channels are left unknown. */
  function ResizedShape(fmt: DataFormat, hf: nat, wf: nat, s: seq<Dim>): (r: seq<Dim>)
    requires |s| == 4
    ensures |r| == 4
  {
    match fmt
    case ChannelsFirst => [Unknown, Unknown, ScaleDim(hf, s[2]), ScaleDim(wf, s[3])]
    case ChannelsLast => [Unknown, ScaleDim(hf, s[1]), ScaleDim(wf, s[2]), Unknown]
  }

  /** resize_images: the interpolation name is checked first, then the data
      format; on success the resized tensor gets ResizedShape. */
  function ResizeImages(s: seq<Dim>, hf: nat, wf: nat, interpolation: string, dataFormat: string)
    : (r: Result<(Interpolation, seq<Dim>)>)
    requires |s| == 4
    ensures r.Ok? <==> ParseInterpolation(interpolation).Ok? && ParseDataFormat(dataFormat).Ok?
    ensures ParseInterpolation(interpolation).Err? ==> r == Err(ValueError("Invalid interpolation method:"))
    ensures ParseInterpolation(interpolation).Ok? && ParseDataFormat(dataFormat).Err? ==>
      r == Err(ValueError("Invalid data_format:"))
  {
    match ParseInterpolation(interpolation)
    case Err(e) => Err(e)
    case Ok(interp) =>
      match ParseDataFormat(dataFormat)
      case Err(e) => Err(e)
      case Ok(fmt) => Ok((interp, ResizedShape(fmt, hf, wf, s)))
  }

  /** The tensor UpSampling2D.call returns has, in its spatial dims, exactly
      the shape compute_output_shape declares. */
  lemma ResizeAgreesWithUpSampling(s: seq<Dim>, size: (nat, nat), interpolation: string, fmt: DataFormat)
    requires |s| == 4
    requires ParseInterpolation(interpolation).Ok?
    ensures var name := if fmt == ChannelsFirst then "channels_first" else "channels_last";
      var r := ResizeImages(s, size.0, size.1, interpolation, name);
      var u := UpSampling2DOutputShape(fmt, size, s);
      var (ha, wa) := SpatialAxes(fmt);
      r.Ok? && r.value.1[ha] == u[ha] && r.value.1[wa] == u[wa]
  {
  }
}
