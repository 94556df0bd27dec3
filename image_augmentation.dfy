/** leap/image_augmentation.py: the batch partition of PairedImageAugmenter
    (numpy.array_split into ceil(N / batch_size) sections), the parameter
    draw and copy/loop bookkeeping of transform_imgs, and the two
    augmenter classes. The OpenCV warp is a function parameter. */
module ImageAugmentation {
  import opened Base

  // ---------------------------------------------------------------------
  // Batches: numpy.array_split(all_idx, ceil(N / batch_size))

  /** ceil(N / batch_size) as array_split receives it: a zero batch size
      divides by zero, and a section count below one is refused. */
  function NumBatches(n: nat, b: int): (r: Result<nat>)
    ensures b == 0 ==> r == Err(ZeroDivisionError)
    ensures b != 0 ==> (r.Ok? <==> b > 0 && n > 0)
    ensures r.Err? && b != 0 ==> r.error.ValueError?
    ensures r.Ok? ==> r.value > 0 && (r.value - 1) * b < n <= r.value * b
  {
    if b == 0 then Err(ZeroDivisionError)
    else if b < 0 || n == 0 then Err(ValueError("number sections must be larger than 0."))
    else
      var k := (n + b - 1) / b;
      CeilDiv(n, b);
      Ok(k)
  }

  lemma CeilDiv(n: nat, b: nat)
    requires b > 0 && n > 0
    ensures var k := (n + b - 1) / b; k > 0 && (k - 1) * b < n <= k * b
  {
    var k := (n + b - 1) / b;
    var m := (n + b - 1) % b;
    assert n + b - 1 == k * b + m;
    assert (k - 1) * b == k * b - b;
  }

  /** m copies of v. */
  function Repeat(v: nat, m: nat): (s: seq<nat>)
    ensures |s| == m && forall i :: 0 <= i < m ==> s[i] == v
  {
    seq(m, _ => v)
  }

  function Sum(s: seq<nat>): nat
  {
    if s == [] then 0 else s[0] + Sum(s[1..])
  }

  lemma {:induction false} SumAppend(a: seq<nat>, b: seq<nat>)
    ensures Sum(a + b) == Sum(a) + Sum(b)
  {
    if a != [] {
      assert (a + b)[1..] == a[1..] + b;
      SumAppend(a[1..], b);
    } else {
      assert a + b == b;
    }
  }

  lemma {:induction false} SumRepeat(v: nat, m: nat)
    ensures Sum(Repeat(v, m)) == v * m
  {
    if m > 0 {
      assert Repeat(v, m)[1..] == Repeat(v, m - 1);
      SumRepeat(v, m - 1);
    }
  }

  /** array_split's section sizes for n items in k sections: the first
      n mod k sections get n div k + 1 items, the rest n div k. */
  function SectionSizes(n: nat, k: nat): (sizes: seq<nat>)
    requires k > 0
    ensures |sizes| == k
    ensures forall j :: 0 <= j < k ==> sizes[j] == if j < n % k then n / k + 1 else n / k
    ensures Sum(sizes) == n
  {
    var q, r := n / k, n % k;
    SectionSizesSum(n, k);
    Repeat(q + 1, r) + Repeat(q, k - r)
  }

  lemma SectionSizesSum(n: nat, k: nat)
    requires k > 0
    ensures Sum(Repeat(n / k + 1, n % k) + Repeat(n / k, k - n % k)) == n
  {
    var q, r := n / k, n % k;
    assert n == q * k + r;
    SumAppend(Repeat(q + 1, r), Repeat(q, k - r));
    SumRepeat(q + 1, r);
    SumRepeat(q, k - r);
    SplitProduct(q, r, k);
  }

  lemma SplitProduct(q: nat, r: nat, k: nat)
    requires r <= k
    ensures (q + 1) * r + q * (k - r) == q * k + r
  {
    assert (q + 1) * r == q * r + r;
    assert q * (k - r) == q * k - q * r;
  }

  /** Cut idx into consecutive pieces of the given sizes. */
  function Cut(idx: seq<nat>, sizes: seq<nat>): (pieces: seq<seq<nat>>)
    requires Sum(sizes) == |idx|
    ensures |pieces| == |sizes|
    ensures forall j :: 0 <= j < |sizes| ==> |pieces[j]| == sizes[j]
    ensures Concat(pieces) == idx
  {
    if sizes == [] then []
    else
      var rest := Cut(idx[sizes[0]..], sizes[1..]);
      assert ([idx[..sizes[0]]] + rest)[1..] == rest;
      assert idx[..sizes[0]] + idx[sizes[0]..] == idx;
      [idx[..sizes[0]]] + rest
  }

  /** Where piece j starts: the sizes before it, summed. */
  lemma {:induction false} CutAt(idx: seq<nat>, sizes: seq<nat>, j: nat)
    requires Sum(sizes) == |idx| && j < |sizes|
    ensures Sum(sizes[..j]) + sizes[j] <= |idx|
    ensures Cut(idx, sizes)[j] == idx[Sum(sizes[..j]) .. Sum(sizes[..j]) + sizes[j]]
  {
    if j > 0 {
      CutAt(idx[sizes[0]..], sizes[1..], j - 1);
      assert sizes[..j] == [sizes[0]] + sizes[1..][..j - 1];
      assert sizes[1..][j - 1] == sizes[j];
    } else {
      assert sizes[..0] == [];
    }
  }

  /** numpy.array_split(idx, k). */
  function ArraySplit(idx: seq<nat>, k: nat): (pieces: seq<seq<nat>>)
    requires k > 0
    ensures |pieces| == k
    ensures Concat(pieces) == idx
    ensures forall j :: 0 <= j < k ==>
      |pieces[j]| == if j < |idx| % k then |idx| / k + 1 else |idx| / k
  {
    Cut(idx, SectionSizes(|idx|, k))
  }

  /** Every batch holds at most batch_size items, and none is empty. */
  lemma BatchSizesBounded(n: nat, b: int)
    requires NumBatches(n, b).Ok?
    ensures var k := NumBatches(n, b).value;
      forall j :: 0 <= j < k ==> 0 < SectionSizes(n, k)[j] <= b
  {
    var k := NumBatches(n, b).value;
    var q, r := n / k, n % k;
    assert n == q * k + r;
    assert k <= n by {
      assert (k - 1) * b < n;
      MulLe(1, b, k - 1);
    }
    assert q >= 1;
    if r > 0 {
      assert q < b by {
        if q >= b {
          MulLe(b, q, k);
        }
      }
    } else {
      assert q <= b by {
        if q > b {
          MulLe(b + 1, q, k);
        }
      }
    }
  }

  /** N = 100 with batch_size 32 gives four batches of 25, not
      32, 32, 32 and 4. */
  lemma HundredByThirtyTwo()
    ensures NumBatches(100, 32) == Ok(4)
    ensures SectionSizes(100, 4) == [25, 25, 25, 25]
  {
    assert (100 + 32 - 1) / 32 == 4;
  }

  /** The batches of an ordered index list are consecutive ascending
      runs: batch j is start_j, start_j + 1, ... */
  lemma UnshuffledBatchesContiguous(n: nat, k: nat, j: nat)
    requires 0 < k && j < k
    ensures var start := Sum(SectionSizes(n, k)[..j]);
      var piece := ArraySplit(Range(0, n), k)[j];
      && start + |piece| <= n
      && forall t :: 0 <= t < |piece| ==> piece[t] == start + t
  {
    CutAt(Range(0, n), SectionSizes(n, k), j);
  }

  // ---------------------------------------------------------------------
  // transform_imgs

  /** theta or scale: a scalar, or an array-like range to draw from. */
  datatype Param = Scalar(v: real) | Span(vs: seq<real>)

  /** The value a parameter takes for one call, given the uniform draw u
      that numpy.random.rand() returns: scalars unchanged, a range as
      ptp * u + min (ptp of an empty range fails). */
  function Sample(p: Param, u: real): (r: Result<real>)
    ensures p.Scalar? ==> r == Ok(p.v)
    ensures p.Span? ==> (r.Ok? <==> |p.vs| > 0)
    ensures r.Err? ==> r.error.ValueError?
  {
    match p
    case Scalar(v) => Ok(v)
    case Span(vs) =>
      if |vs| == 0 then Err(ValueError("zero-size array to reduction operation"))
      else Ok(Draw(MinOf(vs), MaxOf(vs), u))
  }

  /** With u in [0, 1) a drawn value lies in [min, max), or is min when the
      range has a single value. */
  lemma SampleInRange(p: Param, u: real)
    requires p.Span? && |p.vs| > 0 && 0.0 <= u < 1.0
    ensures var r := Sample(p, u).value;
      && MinOf(p.vs) <= r <= MaxOf(p.vs)
      && (r < MaxOf(p.vs) || MinOf(p.vs) == MaxOf(p.vs))
  {
    var lo, hi := MinOf(p.vs), MaxOf(p.vs);
    assert lo <= p.vs[0] <= hi;
    DrawBetween(lo, hi, u);
  }

  /** numpy.ptp(r) * u + numpy.min(r), for a range with the given min and max. */
  function Draw(lo: real, hi: real, u: real): real
  {
    (hi - lo) * u + lo
  }

  lemma DrawBetween(lo: real, hi: real, u: real)
    requires lo <= hi && 0.0 <= u < 1.0
    ensures lo <= Draw(lo, hi, u) <= hi
    ensures lo < hi ==> Draw(lo, hi, u) < hi
  {
    var d := hi - lo;
    var p := d * u;
    ScaleBelow(d, u);
    assert Draw(lo, hi, u) == p + lo;
  }

  lemma ScaleBelow(d: real, u: real)
    requires d >= 0.0 && 0.0 <= u < 1.0
    ensures 0.0 <= d * u <= d
    ensures d > 0.0 ==> d * u < d
  {
    assert d - d * u == d * (1.0 - u);
    assert d * u >= 0.0;
    if d > 0.0 {
      assert d * (1.0 - u) > 0.0;
    }
  }

  /** cv2.getRotationMatrix2D(center, angle, scale), kept symbolic. */
  datatype Affine = Affine(cx: real, cy: real, angle: real, scale: real)

  /** One image: a 2-D plane (ndim == 2) or an H x W x C stack. */
  datatype Image = Plane(g: Grid) | Stack(t: Tensor3, c: nat)

  /** Every image is n x n (with its own channel count). */
  predicate IsSquare(img: Image, n: nat)
  {
    match img
    case Plane(g) => IsGrid(g, n, n)
    case Stack(t, c) => IsTensor3(t, n, n, c)
  }

  /** The warp keeps an n x n plane n x n: cv2.warpAffine with
      dsize (n, n). */
  ghost predicate KeepsShape(warp: (Grid, Affine) -> Grid, n: nat)
  {
    forall g, T :: IsGrid(g, n, n) ==> IsGrid(warp(g, T), n, n)
  }

  /** Channel k of an n x n stack, X[..., k]. */
  function ChannelPlane(t: Tensor3, n: nat, c: nat, k: nat): (g: Grid)
    requires IsTensor3(t, n, n, c) && k < c
    ensures IsGrid(g, n, n)
    ensures forall y, x :: 0 <= y < n && 0 <= x < n ==> g[y][x] == t[y][x][k]
  {
    seq(n, y requires 0 <= y < n => seq(n, x requires 0 <= x < n => t[y][x][k]))
  }

  /** X[..., k] = g on an n x n stack: channel k replaced, the others kept. */
  function SetChannel(t: Tensor3, n: nat, c: nat, k: nat, g: Grid): (u: Tensor3)
    requires IsTensor3(t, n, n, c) && k < c && IsGrid(g, n, n)
    ensures IsTensor3(u, n, n, c)
    ensures forall y, x, j :: 0 <= y < n && 0 <= x < n && 0 <= j < c ==>
      u[y][x][j] == if j == k then g[y][x] else t[y][x][j]
  {
    seq(n, y requires 0 <= y < n => seq(n, x requires 0 <= x < n =>
      seq(c, j requires 0 <= j < c => if j == k then g[y][x] else t[y][x][j])))
  }

  /** The image transform_imgs produces: a plane warped whole, a stack
      warped channel by channel with the same matrix. */
  function Warped(img: Image, n: nat, T: Affine, warp: (Grid, Affine) -> Grid): (r: Image)
    requires IsSquare(img, n) && KeepsShape(warp, n)
    ensures IsSquare(r, n) && r.Plane? == img.Plane?
    ensures img.Plane? ==> r.g == warp(img.g, T)
    ensures img.Stack? ==> r.c == img.c && forall y, x, k :: 0 <= y < n && 0 <= x < n && 0 <= k < img.c ==>
      r.t[y][x][k] == warp(ChannelPlane(img.t, n, img.c, k), T)[y][x]
  {
    match img
    case Plane(g) => Plane(warp(g, T))
    case Stack(t, c) =>
      Stack(seq(n, y requires 0 <= y < n => seq(n, x requires 0 <= x < n =>
        seq(c, k requires 0 <= k < c => warp(ChannelPlane(t, n, c, k), T)[y][x]))), c)
  }

  /** With a warp that leaves every plane as it is, the transform gives
      back an equal image. */
  lemma WarpedByIdentity(img: Image, n: nat, T: Affine, warp: (Grid, Affine) -> Grid)
    requires IsSquare(img, n) && KeepsShape(warp, n)
    requires forall g :: IsGrid(g, n, n) ==> warp(g, T) == g
    ensures Warped(img, n, T, warp) == img
  {
    if img.Stack? {
      var r := Warped(img, n, T, warp);
      forall y, x, k | 0 <= y < n && 0 <= x < n && 0 <= k < img.c
        ensures r.t[y][x][k] == img.t[y][x][k]
      {
        assert warp(ChannelPlane(img.t, n, img.c, k), T) == ChannelPlane(img.t, n, img.c, k);
      }
      forall y, x | 0 <= y < n && 0 <= x < n ensures r.t[y][x] == img.t[y][x] {
      }
      forall y | 0 <= y < n ensures r.t[y] == img.t[y] {
      }
    }
  }

  /** X as transform_imgs receives it: one ndarray, or a tuple/list of them. */
  datatype Images = One(img: Image) | Many(imgs: seq<Image>)

  predicate AllSquare(x: Images, n: nat)
  {
    match x
    case One(img) => IsSquare(img, n)
    case Many(imgs) => forall i :: 0 <= i < |imgs| ==> IsSquare(imgs[i], n)
  }

  /** transform_imgs(X, theta, scale) for n x n images, with the draws u
      for theta and scale: the parameters are drawn once, the centre is
      (n / 2, n / 2), and every image gets the same matrix; a single image
      comes back single, a sequence as a list of the same length; an empty
      sequence has no first image. */
  function Transform(x: Images, theta: Param, scale: Param, u: (real, real), n: nat,
                     warp: (Grid, Affine) -> Grid): (r: Result<Images>)
    requires AllSquare(x, n) && KeepsShape(warp, n)
    ensures r.Ok? <==> Sample(theta, u.0).Ok? && Sample(scale, u.1).Ok? && (x.Many? ==> |x.imgs| > 0)
    ensures r.Ok? ==> r.value.One? == x.One? && AllSquare(r.value, n)
    ensures r.Ok? && x.Many? ==> |r.value.imgs| == |x.imgs|
  {
    match Sample(theta, u.0)
    case Err(e) => Err(e)
    case Ok(th) =>
      match Sample(scale, u.1)
      case Err(e) => Err(e)
      case Ok(sc) =>
        var T := Affine(n as real / 2.0, n as real / 2.0, th, sc);
        match x
        case One(img) => Ok(One(Warped(img, n, T, warp)))
        case Many(imgs) =>
          if |imgs| == 0 then Err(IndexError)
          else Ok(Many(seq(|imgs|, i requires 0 <= i < |imgs| => Warped(imgs[i], n, T, warp))))
  }

  /** All images of one call share one matrix, centred at (n / 2, n / 2). */
  lemma TransformSharesMatrix(x: Images, theta: Param, scale: Param, u: (real, real), n: nat,
                              warp: (Grid, Affine) -> Grid)
    requires AllSquare(x, n) && KeepsShape(warp, n) && Transform(x, theta, scale, u, n, warp).Ok?
    ensures var T := Affine(n as real / 2.0, n as real / 2.0, Sample(theta, u.0).value, Sample(scale, u.1).value);
      var r := Transform(x, theta, scale, u, n, warp).value;
      && (x.One? ==> r.img == Warped(x.img, n, T, warp))
      && (x.Many? ==> forall i :: 0 <= i < |x.imgs| ==> r.imgs[i] == Warped(x.imgs[i], n, T, warp))
  {
  }

  /** The per-channel loop of transform_imgs on the copy of one stack:
      X[i][..., k] = warpAffine(X[i][..., k], T, img_size) for each k. */
  method WarpChannels(t: Tensor3, n: nat, c: nat, T: Affine, warp: (Grid, Affine) -> Grid) returns (u: Tensor3)
    requires IsTensor3(t, n, n, c) && KeepsShape(warp, n)
    ensures Stack(u, c) == Warped(Stack(t, c), n, T, warp)
  {
    u := t;
    for k := 0 to c
      invariant IsTensor3(u, n, n, c)
      invariant forall y, x, j :: 0 <= y < n && 0 <= x < n && 0 <= j < k ==>
        u[y][x][j] == warp(ChannelPlane(t, n, c, j), T)[y][x]
      invariant forall y, x, j :: 0 <= y < n && 0 <= x < n && k <= j < c ==> u[y][x][j] == t[y][x][j]
    {
      SameGrid(ChannelPlane(u, n, c, k), ChannelPlane(t, n, c, k), n);
      u := SetChannel(u, n, c, k, warp(ChannelPlane(u, n, c, k), T));
    }
    SameStack(u, Warped(Stack(t, c), n, T, warp).t, n, c);
  }

  lemma SameGrid(a: Grid, b: Grid, n: nat)
    requires IsGrid(a, n, n) && IsGrid(b, n, n)
    requires forall y, x :: 0 <= y < n && 0 <= x < n ==> a[y][x] == b[y][x]
    ensures a == b
  {
    forall y | 0 <= y < n ensures a[y] == b[y] {
    }
  }

  lemma SameStack(a: Tensor3, b: Tensor3, n: nat, c: nat)
    requires IsTensor3(a, n, n, c) && IsTensor3(b, n, n, c)
    requires forall y, x, k :: 0 <= y < n && 0 <= x < n && 0 <= k < c ==> a[y][x][k] == b[y][x][k]
    ensures a == b
  {
    forall y, x | 0 <= y < n && 0 <= x < n ensures a[y][x] == b[y][x] {
    }
    forall y | 0 <= y < n ensures a[y] == b[y] {
    }
  }

  /** transform_imgs: draw the parameters, wrap a single image in a list,
      take the size of the first image, copy, warp each image (a stack
      channel by channel), and unwrap a single image. */
  method TransformImgs(x: Images, theta: Param, scale: Param, u: (real, real), n: nat,
                       warp: (Grid, Affine) -> Grid) returns (r: Result<Images>)
    requires AllSquare(x, n) && KeepsShape(warp, n)
    ensures r == Transform(x, theta, scale, u, n, warp)
  {
    var th := Sample(theta, u.0);
    if th.Err? {
      return Err(th.error);
    }
    var sc := Sample(scale, u.1);
    if sc.Err? {
      return Err(sc.error);
    }
    var single := x.One?;
    var xs := if single then [x.img] else x.imgs;
    if |xs| == 0 {
      return Err(IndexError);
    }
    var T := Affine(n as real / 2.0, n as real / 2.0, th.value, sc.value);
    ghost var orig := xs;
    for i := 0 to |xs|
      invariant |xs| == |orig|
      invariant forall j :: 0 <= j < i ==> xs[j] == Warped(orig[j], n, T, warp)
      invariant forall j :: i <= j < |xs| ==> xs[j] == orig[j]
    {
      match xs[i]
      case Plane(g) =>
        xs := xs[i := Plane(warp(g, T))];
      case Stack(t, c) =>
        var w := WarpChannels(t, n, c, T, warp);
        xs := xs[i := Stack(w, c)];
    }
    if single {
      return Ok(One(xs[0]));
    }
    assert xs == seq(|x.imgs|, i requires 0 <= i < |x.imgs| => Warped(x.imgs[i], n, T, warp));
    return Ok(Many(xs));
  }

  // ---------------------------------------------------------------------
  // The augmenters

  /** The error a parameter draw raises, whatever the uniform value. */
  function ParamError(theta: Param, scale: Param): (e: Option<Error>)
    ensures e.None? <==> forall u: (real, real) :: Sample(theta, u.0).Ok? && Sample(scale, u.1).Ok?
  {
    var u0: (real, real) := (0.0, 0.0);
    if Sample(theta, u0.0).Err? then Some(Sample(theta, u0.0).error)
    else if Sample(scale, u0.1).Err? then Some(Sample(scale, u0.1).error)
    else None
  }

  /** The matrix of the call for sample i of a batch. */
  function MatrixFor(theta: Param, scale: Param, u: (real, real), n: nat): Affine
    requires Sample(theta, u.0).Ok? && Sample(scale, u.1).Ok?
  {
    Affine(n as real / 2.0, n as real / 2.0, Sample(theta, u.0).value, Sample(scale, u.1).value)
  }

  /** The augmented pairs of a gathered batch: sample i of both X and Y
      warped by the matrix of the i-th call; a failing draw fails the
      batch. */
  function AugmentPairs(xs: seq<Image>, ys: seq<Image>, theta: Param, scale: Param,
                        draws: nat -> (real, real), n: nat, warp: (Grid, Affine) -> Grid)
    : (r: Result<(seq<Image>, seq<Image>)>)
    requires |xs| == |ys| && KeepsShape(warp, n)
    requires forall i :: 0 <= i < |xs| ==> IsSquare(xs[i], n) && IsSquare(ys[i], n)
    ensures r.Err? <==> |xs| > 0 && ParamError(theta, scale).Some?
    ensures r.Ok? ==> |r.value.0| == |xs| && |r.value.1| == |ys|
    ensures r.Ok? ==> forall i :: 0 <= i < |xs| ==>
      && IsSquare(r.value.0[i], n) && IsSquare(r.value.1[i], n)
      && r.value.0[i].Plane? == xs[i].Plane? && r.value.1[i].Plane? == ys[i].Plane?
    ensures r.Ok? ==> forall i :: 0 <= i < |xs| ==>
      && ParamError(theta, scale).None?
      && r.value.0[i] == Warped(xs[i], n, MatrixFor(theta, scale, draws(i), n), warp)
      && r.value.1[i] == Warped(ys[i], n, MatrixFor(theta, scale, draws(i), n), warp)
  {
    if |xs| > 0 && ParamError(theta, scale).Some? then Err(ParamError(theta, scale).value)
    else
      var xs' := seq(|xs|, i requires 0 <= i < |xs| => Warped(xs[i], n, MatrixFor(theta, scale, draws(i), n), warp));
      var ys' := seq(|ys|, i requires 0 <= i < |ys| => Warped(ys[i], n, MatrixFor(theta, scale, draws(i), n), warp));
      assert forall i :: 0 <= i < |xs| ==>
        xs'[i] == Warped(xs[i], n, MatrixFor(theta, scale, draws(i), n), warp) &&
        ys'[i] == Warped(ys[i], n, MatrixFor(theta, scale, draws(i), n), warp);
      Ok((xs', ys'))
  }

  /** The loop of __getitem__ over a gathered batch: X[i], Y[i] =
      transform_imgs((X[i], Y[i]), ...) for each i, stopping at the first
      failing call. */
  method AugmentBatch(xs0: seq<Image>, ys0: seq<Image>, theta: Param, scale: Param,
                      draws: nat -> (real, real), n: nat, warp: (Grid, Affine) -> Grid)
    returns (r: Result<(seq<Image>, seq<Image>)>)
    requires |xs0| == |ys0| && KeepsShape(warp, n)
    requires forall i :: 0 <= i < |xs0| ==> IsSquare(xs0[i], n) && IsSquare(ys0[i], n)
    ensures r == AugmentPairs(xs0, ys0, theta, scale, draws, n, warp)
  {
    var xs, ys := xs0, ys0;
    for i := 0 to |xs|
      invariant |xs| == |xs0| == |ys| == |ys0|
      invariant i > 0 ==> ParamError(theta, scale).None?
      invariant forall t :: 0 <= t < i ==>
        && ParamError(theta, scale).None?
        && xs[t] == Warped(xs0[t], n, MatrixFor(theta, scale, draws(t), n), warp)
        && ys[t] == Warped(ys0[t], n, MatrixFor(theta, scale, draws(t), n), warp)
      invariant forall t :: i <= t < |xs| ==> xs[t] == xs0[t] && ys[t] == ys0[t]
    {
      var pair := Many([xs[i], ys[i]]);
      var out := TransformImgs(pair, theta, scale, draws(i), n, warp);
      if out.Err? {
        return Err(out.error);
      }
      TransformSharesMatrix(pair, theta, scale, draws(i), n, warp);
      assert ParamError(theta, scale).None?;
      ghost var T := MatrixFor(theta, scale, draws(i), n);
      assert out.value.imgs[0] == Warped(xs0[i], n, T, warp);
      assert out.value.imgs[1] == Warped(ys0[i], n, T, warp);
      xs := xs[i := out.value.imgs[0]];
      ys := ys[i := out.value.imgs[1]];
    }
    ghost var spec := AugmentPairs(xs0, ys0, theta, scale, draws, n, warp);
    assert spec.Ok?;
    assert xs == spec.value.0 && ys == spec.value.1;
    return Ok((xs, ys));
  }

  /** PairedImageAugmenter: the data, the transform parameters, and the
      batches fixed at construction. Every image is side x side. */
  class PairedImageAugmenter {
    var x: seq<Image>
    var y: seq<Image>
    var batchSize: int
    var theta: Param
    var scale: Param
    var numSamples: nat
    var batches: seq<seq<nat>>
    var side: nat

    predicate Valid()
      reads this
    {
      && numSamples == |x|
      && NumBatches(numSamples, batchSize).Ok?
      && |batches| == NumBatches(numSamples, batchSize).value
      && IsPermutation(Concat(batches), numSamples)
      && (forall i :: 0 <= i < |x| ==> IsSquare(x[i], side))
      && (forall i :: 0 <= i < |y| ==> IsSquare(y[i], side))
    }

    /** __init__: all_idx = arange(N), shuffled by the permutation perm
        when shuffle is set, split into ceil(N / batch_size) batches. */
    constructor (x0: seq<Image>, y0: seq<Image>, batchSize0: int, shuffle: bool, perm: seq<nat>,
                 theta0: Param, scale0: Param, side0: nat)
      requires NumBatches(|x0|, batchSize0).Ok?
      requires shuffle ==> IsPermutation(perm, |x0|)
      requires forall i :: 0 <= i < |x0| ==> IsSquare(x0[i], side0)
      requires forall i :: 0 <= i < |y0| ==> IsSquare(y0[i], side0)
      ensures Valid()
      ensures x == x0 && y == y0 && batchSize == batchSize0 && theta == theta0 && scale == scale0
      ensures numSamples == |x0| && side == side0
      ensures batches == ArraySplit(if shuffle then perm else Range(0, |x0|), NumBatches(|x0|, batchSize0).value)
    {
      x := x0;
      y := y0;
      batchSize := batchSize0;
      theta := theta0;
      scale := scale0;
      side := side0;
      numSamples := |x0|;
      var allIdx := Range(0, |x0|);
      if shuffle {
        allIdx := perm;
      }
      batches := ArraySplit(allIdx, NumBatches(|x0|, batchSize0).value);
      assert IsPermutation(Range(0, |x0|), |x0|);
    }

    /** __len__: the number of batches, ceil(N / batch_size). */
    function Len(): (k: nat)
      reads this
      requires Valid()
      ensures k == NumBatches(numSamples, batchSize).value
      ensures (k - 1) * batchSize < numSamples <= k * batchSize
    {
      |batches|
    }

    /** Every index a batch holds is a sample index. */
    lemma BatchIndicesInRange(k: nat, t: nat)
      requires Valid() && k < |batches| && t < |batches[k]|
      ensures batches[k][t] < numSamples
    {
      ConcatPieceAt(batches, k, t);
    }

    /** What __getitem__(j) returns: the batch (Python indexing of the
        batch list), X and Y gathered at its indices, each pair augmented. */
    function Item(j: int, draws: nat -> (real, real), warp: (Grid, Affine) -> Grid)
      : (r: Result<(seq<Image>, seq<Image>)>)
      reads this
      requires Valid() && KeepsShape(warp, side)
      ensures PyIndex(j, |batches|).None? ==> r == Err(IndexError)
      ensures r.Ok? <==>
        && PyIndex(j, |batches|).Some?
        && Gather(y, batches[PyIndex(j, |batches|).value]).Ok?
        && (batches[PyIndex(j, |batches|).value] == [] || ParamError(theta, scale).None?)
      ensures r.Ok? ==>
        var idx := batches[PyIndex(j, |batches|).value];
        |r.value.0| == |idx| && |r.value.1| == |idx|
      ensures PyIndex(j, |batches|).Some? ==>
        var idx := batches[PyIndex(j, |batches|).value];
        && Gather(x, idx).Ok?
        && (Gather(y, idx).Err? ==> r == Err(Gather(y, idx).error))
        && (Gather(x, idx).Ok? && Gather(y, idx).Ok? ==>
              r == AugmentPairs(Gather(x, idx).value, Gather(y, idx).value, theta, scale, draws, side, warp))
    {
      match PyIndex(j, |batches|)
      case None => Err(IndexError)
      case Some(k) =>
        var idx := batches[k];
        forall t | 0 <= t < |idx| ensures idx[t] < |x| {
          BatchIndicesInRange(k, t);
        }
        match Gather(y, idx)
        case Err(e) => Err(e)
        case Ok(ys) => AugmentPairs(Gather(x, idx).value, ys, theta, scale, draws, side, warp)
    }

    /** __getitem__(j): gather the batch from X and Y, then overwrite each
        sample of the gathered copies with its transformed pair. */
    method GetItem(j: int, draws: nat -> (real, real), warp: (Grid, Affine) -> Grid)
      returns (r: Result<(seq<Image>, seq<Image>)>)
      requires Valid() && KeepsShape(warp, side)
      ensures r == Item(j, draws, warp)
    {
      var k := PyIndex(j, |batches|);
      if k.None? {
        return Err(IndexError);
      }
      var idx := batches[k.value];
      forall t | 0 <= t < |idx| ensures idx[t] < |x| {
        BatchIndicesInRange(k.value, t);
      }
      var gy := Gather(y, idx);
      if gy.Err? {
        return Err(gy.error);
      }
      r := AugmentBatch(Gather(x, idx).value, gy.value, theta, scale, draws, side, warp);
    }
  }

  /** Index t of piece k of a concatenation: a member of the whole. */
  lemma {:induction false} ConcatPieceAt(ss: seq<seq<nat>>, k: nat, t: nat)
    requires k < |ss| && t < |ss[k]|
    ensures ss[k][t] in Concat(ss)
  {
    if k > 0 {
      ConcatPieceAt(ss[1..], k - 1, t);
    }
  }

  /** input_names / output_names: one name or a list of them. */
  datatype Names = Name(name: string) | NameList(names: seq<string>)

  /** A non-list name is wrapped in a one-element list. */
  function AsList(ns: Names): (r: seq<string>)
    ensures ns.Name? ==> r == [ns.name]
    ensures ns.NameList? ==> r == ns.names
  {
    match ns
    case Name(s) => [s]
    case NameList(l) => l
  }

  /** {k: v for k in names}. */
  function SameForAll<V>(names: seq<string>, v: V): (m: map<string, V>)
    ensures m.Keys == set k | k in names
    ensures forall k :: k in m ==> m[k] == v
  {
    map k | k in names :: v
  }

  /** MultiInputOutputPairedImageAugmenter: a PairedImageAugmenter whose
      batches are keyed by the model's input and output names. */
  class MultiInputOutputPairedImageAugmenter {
    var inputNames: seq<string>
    var outputNames: seq<string>
    var augmenter: PairedImageAugmenter

    predicate Valid()
      reads this, augmenter
    {
      augmenter.Valid()
    }

    constructor (inputNames0: Names, outputNames0: Names, x0: seq<Image>, y0: seq<Image>, batchSize0: int,
                 shuffle: bool, perm: seq<nat>, theta0: Param, scale0: Param, side0: nat)
      requires NumBatches(|x0|, batchSize0).Ok?
      requires shuffle ==> IsPermutation(perm, |x0|)
      requires forall i :: 0 <= i < |x0| ==> IsSquare(x0[i], side0)
      requires forall i :: 0 <= i < |y0| ==> IsSquare(y0[i], side0)
      ensures Valid() && fresh(augmenter)
      ensures inputNames == AsList(inputNames0) && outputNames == AsList(outputNames0)
      ensures augmenter.x == x0 && augmenter.y == y0 && augmenter.side == side0
      ensures augmenter.batches == ArraySplit(if shuffle then perm else Range(0, |x0|), NumBatches(|x0|, batchSize0).value)
    {
      inputNames := AsList(inputNames0);
      outputNames := AsList(outputNames0);
      augmenter := new PairedImageAugmenter(x0, y0, batchSize0, shuffle, perm, theta0, scale0, side0);
    }

    /** __getitem__(j): the base class's batch, with every input name
        mapped to the X batch and every output name to the Y batch. */
    method GetItem(j: int, draws: nat -> (real, real), warp: (Grid, Affine) -> Grid)
      returns (r: Result<(map<string, seq<Image>>, map<string, seq<Image>>)>)
      requires Valid() && KeepsShape(warp, augmenter.side)
      ensures var item := augmenter.Item(j, draws, warp);
        && (r.Ok? <==> item.Ok?)
        && (r.Err? ==> r.error == item.error)
        && (r.Ok? ==>
          && r.value.0.Keys == (set k | k in inputNames)
          && r.value.1.Keys == (set k | k in outputNames)
          && (forall k :: k in r.value.0 ==> r.value.0[k] == item.value.0)
          && (forall k :: k in r.value.1 ==> r.value.1[k] == item.value.1))
    {
      var batch := augmenter.GetItem(j, draws, warp);
      if batch.Err? {
        return Err(batch.error);
      }
      var (xs, ys) := batch.value;
      return Ok((SameForAll(inputNames, xs), SameForAll(outputNames, ys)));
    }
  }
}
