/** Shared vocabulary of the model: Python-style error results, grids and
    tensors as nested sequences, concatenation, and the first-occurrence
    reductions that numpy and TensorFlow use for argmax and argmin. */
module Base {

  datatype Option<+T> = None | Some(value: T)

  /** The exceptions the modelled code raises, by Python class. */
  datatype Error =
    | ValueError(reason: string)
    | IndexError
    | TypeError(reason: string)
    | ZeroDivisionError
    | AttributeError(reason: string)
    | FileNotFoundError(path: string)
    | OSError(reason: string)

  datatype Result<+T> = Ok(value: T) | Err(error: Error)

  /** A 2-D float array (rows of equal length); float32 is modelled exactly as real. */
  type Grid = seq<seq<real>>
  type Tensor3 = seq<seq<seq<real>>>
  type Tensor4 = seq<seq<seq<seq<real>>>>

  predicate IsGrid(m: Grid, h: nat, w: nat)
  {
    |m| == h && forall r :: 0 <= r < h ==> |m[r]| == w
  }

  predicate IsTensor3(t: Tensor3, d0: nat, d1: nat, d2: nat)
  {
    |t| == d0 && forall a :: 0 <= a < d0 ==> IsGrid(t[a], d1, d2)
  }

  predicate IsTensor4(t: Tensor4, d0: nat, d1: nat, d2: nat, d3: nat)
  {
    |t| == d0 && forall a :: 0 <= a < d0 ==> IsTensor3(t[a], d1, d2, d3)
  }

  /** A grid of zeros (numpy.zeros((h, w))). */
  function ZeroGrid(h: nat, w: nat): (z: Grid)
    ensures IsGrid(z, h, w)
    ensures forall r, c :: 0 <= r < h && 0 <= c < w ==> z[r][c] == 0.0
  {
    seq(h, _ => seq(w, _ => 0.0))
  }

  /** Concatenation of a sequence of sequences, in order. */
  function Concat<T>(ss: seq<seq<T>>): seq<T>
  {
    if ss == [] then [] else ss[0] + Concat(ss[1..])
  }

  lemma {:induction false} ConcatAppend<T>(ss: seq<seq<T>>, t: seq<T>)
    ensures Concat(ss + [t]) == Concat(ss) + t
  {
    if ss == [] {
      assert [] + [t] == [t];
      assert Concat([t]) == t + Concat([t][1..]);
    } else {
      assert (ss + [t])[0] == ss[0];
      assert (ss + [t])[1..] == ss[1..] + [t];
      ConcatAppend(ss[1..], t);
    }
  }

  lemma {:induction false} ConcatUniformLength<T>(ss: seq<seq<T>>, len: nat)
    requires forall i :: 0 <= i < |ss| ==> |ss[i]| == len
    ensures |Concat(ss)| == |ss| * len
  {
    if ss != [] {
      ConcatUniformLength(ss[1..], len);
      assert |ss| * len == len + (|ss| - 1) * len;
    }
  }

  /** Row-major indexing into a concatenation of equal-length pieces:
      element y of piece r sits at position r * len + y. */
  lemma {:induction false} ConcatAt<T>(ss: seq<seq<T>>, len: nat, r: nat, y: nat)
    requires forall i :: 0 <= i < |ss| ==> |ss[i]| == len
    requires r < |ss| && y < len
    ensures |Concat(ss)| == |ss| * len
    ensures r * len + y < |ss| * len
    ensures Concat(ss)[r * len + y] == ss[r][y]
  {
    ConcatUniformLength(ss, len);
    if r > 0 {
      ConcatAt(ss[1..], len, r - 1, y);
      assert r * len + y == len + ((r - 1) * len + y);
    }
    assert r * len + y < |ss| * len by {
      assert (r + 1) * len <= |ss| * len by { MulLe(r + 1, |ss|, len); }
    }
  }

  lemma MulLe(a: nat, b: nat, c: nat)
    requires a <= b
    ensures a * c <= b * c
  {
  }

  /** Maximum of a non-empty sequence (numpy max / K.max over one axis). */
  function MaxOf(s: seq<real>): (m: real)
    requires |s| > 0
    ensures forall i :: 0 <= i < |s| ==> s[i] <= m
    ensures exists i :: 0 <= i < |s| && s[i] == m
  {
    if |s| == 1 then s[0]
    else
      var rest := MaxOf(s[1..]);
      if s[0] >= rest then s[0] else rest
  }

  /** Minimum of a non-empty sequence (numpy min). */
  function MinOf(s: seq<real>): (m: real)
    requires |s| > 0
    ensures forall i :: 0 <= i < |s| ==> m <= s[i]
    ensures exists i :: 0 <= i < |s| && s[i] == m
  {
    if |s| == 1 then s[0]
    else
      var rest := MinOf(s[1..]);
      if s[0] <= rest then s[0] else rest
  }

  /** numpy.argmax / tf.argmax: the FIRST index that holds the maximum. */
  function ArgMax(s: seq<real>): (k: nat)
    requires |s| > 0
    ensures k < |s|
    ensures forall i :: 0 <= i < |s| ==> s[i] <= s[k]
    ensures forall i :: 0 <= i < k ==> s[i] < s[k]
  {
    if |s| == 1 then 0
    else
      var k := ArgMax(s[..|s| - 1]);
      if s[|s| - 1] > s[k] then |s| - 1 else k
  }

  /** numpy.argmin: the FIRST index that holds the minimum. */
  function ArgMin(s: seq<real>): (k: nat)
    requires |s| > 0
    ensures k < |s|
    ensures forall i :: 0 <= i < |s| ==> s[k] <= s[i]
    ensures forall i :: 0 <= i < k ==> s[k] < s[i]
  {
    if |s| == 1 then 0
    else
      var k := ArgMin(s[..|s| - 1]);
      if s[|s| - 1] < s[k] then |s| - 1 else k
  }

  lemma ArgMaxHoldsMax(s: seq<real>)
    requires |s| > 0
    ensures s[ArgMax(s)] == MaxOf(s)
  {
  }

  /** A strict maximum is the argmax. */
  lemma ArgMaxOfStrictMax(s: seq<real>, k: nat)
    requires k < |s|
    requires forall i :: 0 <= i < |s| && i != k ==> s[i] < s[k]
    ensures ArgMax(s) == k
  {
  }

  /** Python indexing of a length-n list: negative indices count from the end. */
  function PyIndex(i: int, n: nat): (r: Option<nat>)
    ensures r.Some? <==> -(n as int) <= i < n
    ensures r.Some? ==> r.value < n
    ensures r.Some? && 0 <= i ==> r.value == i
    ensures r.Some? && i < 0 ==> r.value == n + i
  {
    if 0 <= i < n then Some(i)
    else if -(n as int) <= i < 0 then Some(n + i)
    else None
  }

  /** Python's clamp of a slice bound s against a length n. */
  function SliceBound(s: int, n: nat): (b: nat)
    ensures b <= n
  {
    if s < 0 then (if n + s < 0 then 0 else n + s)
    else if s > n then n
    else s
  }

  /** Fancy indexing xs[idx]; an out-of-range index raises IndexError. */
  function Gather<T>(xs: seq<T>, idx: seq<nat>): (r: Result<seq<T>>)
    ensures r.Ok? <==> forall j :: 0 <= j < |idx| ==> idx[j] < |xs|
    ensures r.Ok? ==> |r.value| == |idx|
    ensures r.Ok? ==> forall j :: 0 <= j < |idx| ==> r.value[j] == xs[idx[j]]
  {
    if forall j :: 0 <= j < |idx| ==> idx[j] < |xs| then
      Ok(seq(|idx|, j requires 0 <= j < |idx| => xs[idx[j]]))
    else Err(IndexError)
  }

  /** s lists 0 .. n-1 in some order, each exactly once. */
  predicate IsPermutation(s: seq<nat>, n: nat)
  {
    |s| == n
    && (forall i :: 0 <= i < n ==> s[i] < n)
    && (forall i, j :: 0 <= i < j < n ==> s[i] != s[j])
  }

  /** numpy.arange(n) */
  function Range(lo: nat, hi: nat): (r: seq<nat>)
    requires lo <= hi
    ensures |r| == hi - lo
    ensures forall i :: 0 <= i < hi - lo ==> r[i] == lo + i
  {
    seq(hi - lo, i requires 0 <= i < hi - lo => lo + i)
  }
}
