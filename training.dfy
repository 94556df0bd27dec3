/** leap/training.py: train_val_split, create_run_folders over the set of
    existing paths, the create_model dispatch, the default run name, and
    the checkpoint file names that find_weights reads back. */
module Training {
  import opened Base
  import opened Text
  import opened Utils

  // ---------------------------------------------------------------------
  // train_val_split

  /** numpy.round: to the nearest integer, ties to the even one. */
  function RoundHalfEven(v: real): (r: int)
    ensures v - 0.5 <= r as real <= v + 0.5
    ensures r as real - v == 0.5 || v - r as real == 0.5 ==> r % 2 == 0
  {
    var fl := v.Floor;
    var frac := v - fl as real;
    if frac < 0.5 then fl
    else if frac > 0.5 then fl + 1
    else if fl % 2 == 0 then fl else fl + 1
  }

  /** val_size as given: an int or a float. */
  datatype ValSize = IntSize(i: int) | FloatSize(f: real)

  /** The slice bound train_val_split uses: a value below 1 is a fraction
      of N, rounded; otherwise it is used as it is, and a float there is
      not a valid slice index. */
  function ValCount(n: nat, v: ValSize): (r: Result<int>)
    ensures v.IntSize? && v.i >= 1 ==> r == Ok(v.i)
    ensures v.IntSize? && v.i < 1 ==> r == Ok(n * v.i)
    ensures v.FloatSize? ==> (r.Ok? <==> v.f < 1.0)
    ensures v.FloatSize? && r.Err? ==> r.error.TypeError?
  {
    match v
    case IntSize(i) => if i < 1 then Ok(n * i) else Ok(i)
    case FloatSize(f) =>
      if f < 1.0 then Ok(RoundHalfEven(n as real * f))
      else Err(TypeError("slice indices must be integers or None or have an __index__ method"))
  }

  /** A fraction in [0, 1) gives a count in [0, N]. */
  lemma FractionCountBounded(n: nat, f: real)
    requires 0.0 <= f < 1.0
    ensures var r := ValCount(n, FloatSize(f));
      r.Ok? && 0 <= r.value <= n
  {
    var p := n as real * f;
    assert 0.0 <= p <= n as real by {
      assert n as real * f <= n as real * 1.0;
    }
  }

  /** The six results of train_val_split. */
  datatype Split<X, Y> = Split(xTrain: seq<X>, yTrain: seq<Y>, xVal: seq<X>, yVal: seq<Y>,
                               trainIdx: seq<nat>, valIdx: seq<nat>)

  /** The index order train_val_split cuts: arange(N), shuffled by perm. */
  function IndexOrder(n: nat, shuffle: bool, perm: seq<nat>): (idx: seq<nat>)
    requires shuffle ==> IsPermutation(perm, n)
    ensures IsPermutation(idx, n)
  {
    if shuffle then perm else Range(0, n)
  }

  /** X and Y gathered at idx[cut:] (training) and idx[:cut] (validation). */
  function SplitAt<X, Y>(xs: seq<X>, ys: seq<Y>, idx: seq<nat>, cut: nat): (r: Result<Split<X, Y>>)
    requires IsPermutation(idx, |xs|) && cut <= |idx|
    ensures r.Ok? <==> Gather(ys, idx).Ok?
    ensures r.Err? ==> r == Err(IndexError)
    ensures r.Ok? ==>
      && r.value.valIdx == idx[..cut] && r.value.trainIdx == idx[cut..]
      && r.value.xTrain == Gather(xs, idx[cut..]).value
      && r.value.yTrain == Gather(ys, idx[cut..]).value
      && r.value.xVal == Gather(xs, idx[..cut]).value
      && r.value.yVal == Gather(ys, idx[..cut]).value
  {
    var valIdx, trainIdx := idx[..cut], idx[cut..];
    assert valIdx + trainIdx == idx;
    GatherParts(ys, valIdx, trainIdx);
    var yTrain := Gather(ys, trainIdx);
    var yVal := Gather(ys, valIdx);
    if yTrain.Err? || yVal.Err? then Err(IndexError)
    else
      Ok(Split(Gather(xs, trainIdx).value, yTrain.value, Gather(xs, valIdx).value, yVal.value, trainIdx, valIdx))
  }

  /** train_val_split(X, Y, val_size, shuffle) with the shuffled order
      perm: the first val_size entries of the (shuffled) index list are the
      validation indices, the rest the training indices (Python slicing).
      Y is indexed with the same indices, so a shorter Y fails. */
  function TrainValSplit<X, Y>(xs: seq<X>, ys: seq<Y>, v: ValSize, shuffle: bool, perm: seq<nat>)
    : (r: Result<Split<X, Y>>)
    requires shuffle ==> IsPermutation(perm, |xs|)
    ensures ValCount(|xs|, v).Err? ==> r == Err(ValCount(|xs|, v).error)
    ensures ValCount(|xs|, v).Ok? ==>
      r == SplitAt(xs, ys, IndexOrder(|xs|, shuffle, perm), SliceBound(ValCount(|xs|, v).value, |xs|))
  {
    match ValCount(|xs|, v)
    case Err(e) => Err(e)
    case Ok(count) => SplitAt(xs, ys, IndexOrder(|xs|, shuffle, perm), SliceBound(count, |xs|))
  }

  /** The two index lists partition 0 .. N-1: disjoint, together every
      index once, and the validation list has min(val_size, N) entries
      for a non-negative count. */
  lemma SplitPartitions<X, Y>(xs: seq<X>, ys: seq<Y>, v: ValSize, shuffle: bool, perm: seq<nat>)
    requires shuffle ==> IsPermutation(perm, |xs|)
    requires TrainValSplit(xs, ys, v, shuffle, perm).Ok?
    ensures var s := TrainValSplit(xs, ys, v, shuffle, perm).value;
      && IsPermutation(s.valIdx + s.trainIdx, |xs|)
      && (forall i :: i in s.valIdx ==> i !in s.trainIdx)
      && (ValCount(|xs|, v).value >= 0 ==>
            |s.valIdx| == Min(ValCount(|xs|, v).value, |xs|) && |s.trainIdx| == |xs| - |s.valIdx|)
      && |s.xTrain| == |s.trainIdx| && |s.xVal| == |s.valIdx|
  {
    var s := TrainValSplit(xs, ys, v, shuffle, perm).value;
    var idx := IndexOrder(|xs|, shuffle, perm);
    assert s.valIdx + s.trainIdx == idx;
  }

  function Min(a: int, b: int): int
  {
    if a <= b then a else b
  }

  /** Without shuffling the validation set is the FIRST samples, in order,
      and the training set the rest. */
  lemma UnshuffledSplit<X, Y>(xs: seq<X>, ys: seq<Y>, v: ValSize)
    requires TrainValSplit(xs, ys, v, false, []).Ok?
    ensures var s := TrainValSplit(xs, ys, v, false, []).value;
      var cut := SliceBound(ValCount(|xs|, v).value, |xs|);
      && s.valIdx == Range(0, cut) && s.trainIdx == Range(cut, |xs|)
      && s.xVal == xs[..cut] && s.xTrain == xs[cut..]
  {
  }

  lemma GatherParts<T>(s: seq<T>, a: seq<nat>, b: seq<nat>)
    ensures Gather(s, a + b).Ok? <==> Gather(s, a).Ok? && Gather(s, b).Ok?
  {
    if Gather(s, a).Ok? && Gather(s, b).Ok? {
      forall j | 0 <= j < |a + b| ensures (a + b)[j] < |s| {
        if j >= |a| {
          assert (a + b)[j] == b[j - |a|];
        }
      }
    }
    if Gather(s, a + b).Ok? {
      forall j | 0 <= j < |a| ensures a[j] < |s| {
        assert a[j] == (a + b)[j];
      }
      forall j | 0 <= j < |b| ensures b[j] < |s| {
        assert b[j] == (a + b)[|a| + j];
      }
    }
  }

  // ---------------------------------------------------------------------
  // create_run_folders

  /** "%s_%02d" % (initial_run_path, i) */
  function Candidate(init: string, i: nat): (p: string)
    ensures |p| >= |init| + 3 && IsPrefix(init, p)
  {
    init + "_" + ZeroPad(i, 2)
  }

  /** Different counters give different candidates, and none of them is
      the initial path. */
  lemma CandidatesDistinct(init: string, a: nat, b: nat)
    ensures Candidate(init, a) != init
    ensures a != b ==> Candidate(init, a) != Candidate(init, b)
  {
    if Candidate(init, a) == Candidate(init, b) {
      assert Candidate(init, a)[|init| + 1..] == ZeroPad(a, 2);
      assert Candidate(init, b)[|init| + 1..] == ZeroPad(b, 2);
      ParseZeroPad(a, 2);
      ParseZeroPad(b, 2);
    }
  }

  /** p is the first path of init, init_01, init_02, ... that does not
      exist. */
  ghost predicate FirstFree(paths: set<string>, init: string, p: string)
  {
    p !in paths &&
    (p == init ||
     (init in paths && exists i: nat :: (1 <= i && p == Candidate(init, i)
        && forall j :: 1 <= j < i ==> Candidate(init, j) in paths)))
  }

  /** The paths that survive shutil.rmtree(p): p and everything below it go. */
  function Cleared(paths: set<string>, p: string): (r: set<string>)
    ensures r <= paths && p !in r
    ensures forall q :: q in paths && q != p && !IsPrefix(p + "/", q) ==> q in r
  {
    set q | q in paths && q != p && !IsPrefix(p + "/", q)
  }

  /** The subfolders create_run_folders makes inside the run folder. */
  function RunSubfolders(runPath: string): (s: set<string>)
    ensures [] !in s
  {
    {Join(runPath, "weights"), Join(runPath, "viz_pred"), Join(runPath, "viz_confmaps")}
  }

  /** The existing paths (files and folders) create_run_folders consults. */
  class FileTree {
    var paths: set<string>

    /** os.path.exists("") is False. */
    predicate Valid()
      reads this
    {
      [] !in paths
    }

    constructor (paths0: set<string>)
      requires [] !in paths0
      ensures Valid() && paths == paths0
    {
      paths := paths0;
    }

    /** create_run_folders(run_name, base_path, clean): without clean the
        first free name of base_path/run_name, base_path/run_name_01, ...;
        with clean the plain path, removed first if present. Then the run
        folder (and its parents) and three subfolders are made. */
    method CreateRunFolders(runName: string, basePath: string, clean: bool) returns (r: Result<string>)
      requires Valid()
      modifies this
      ensures Valid()
      ensures r.Err? ==> r == Err(FileNotFoundError("")) && paths == old(paths)
      ensures r.Ok? ==> r.value != [] && r.value in paths && RunSubfolders(r.value) <= paths
      ensures r.Ok? && clean ==> r.value == Join(basePath, runName)
      ensures r.Ok? && !clean ==> FirstFree(old(paths), Join(basePath, runName), r.value)
      ensures r.Ok? ==> paths == (if r.value in old(paths) then Cleared(old(paths), r.value) else old(paths))
                                 + Ancestors(r.value) + RunSubfolders(r.value)
      ensures r.Err? <==> (clean || Join(basePath, runName) !in old(paths)) && Join(basePath, runName) == []
    {
      var init := Join(basePath, runName);
      var runPath := init;
      if !clean {
        var i: nat := 1;
        ghost var tried: set<string> := {};
        while runPath in paths
          invariant i >= 1
          invariant runPath == if i == 1 then init else Candidate(init, i - 1)
          invariant i >= 2 ==> init in paths
          invariant forall j :: 1 <= j < i - 1 ==> Candidate(init, j) in paths
          invariant tried <= paths
          invariant |tried| == i - 1
          invariant forall q :: q in tried ==> q == init || exists j :: 1 <= j < i - 1 && q == Candidate(init, j)
          decreases |paths| - |tried|
        {
          assert runPath !in tried by {
            if i >= 2 {
              forall j | 1 <= j < i - 1 ensures Candidate(init, j) != runPath {
                CandidatesDistinct(init, j, i - 1);
              }
              CandidatesDistinct(init, i - 1, i - 1);
            }
          }
          tried := tried + {runPath};
          assert |tried| <= |paths| by {
            SubsetCard(tried, paths);
          }
          runPath := Candidate(init, i);
          i := i + 1;
        }
        assert FirstFree(paths, init, runPath) by {
          if i >= 2 {
            assert runPath == Candidate(init, i - 1);
          }
        }
      }
      if runPath in paths {
        paths := Cleared(paths, runPath);
      }
      if runPath == [] {
        return Err(FileNotFoundError(""));
      }
      paths := paths + Ancestors(runPath) + RunSubfolders(runPath);
      return Ok(runPath);
    }
  }

  lemma SubsetCard(a: set<string>, b: set<string>)
    requires a <= b
    ensures |a| <= |b|
  {
    assert b == a + (b - a);
  }

  // ---------------------------------------------------------------------
  // create_model and the run name

  datatype NetKind = LeapCnn | Hourglass | StackedHourglass

  /** The dictionary lookup of create_model: the architecture for a known
      name, None for any other name. */
  function CreateModel(netName: string): (r: Option<NetKind>)
    ensures r.None? <==> netName !in {"leap_cnn", "hourglass", "stacked_hourglass"}
    ensures r.Some? ==> NetName(r.value) == netName
  {
    if netName == "leap_cnn" then Some(LeapCnn)
    else if netName == "hourglass" then Some(Hourglass)
    else if netName == "stacked_hourglass" then Some(StackedHourglass)
    else None
  }

  function NetName(k: NetKind): string
  {
    match k
    case LeapCnn => "leap_cnn"
    case Hourglass => "hourglass"
    case StackedHourglass => "stacked_hourglass"
  }

  /** Every architecture is found under its own name. */
  lemma CreateModelNames(k: NetKind)
    ensures CreateModel(NetName(k)) == Some(k)
  {
  }

  /** data_name: given, or the data file's name without its extension. */
  function DataName(dataName: Option<string>, dataPath: string): (d: string)
    ensures dataName.Some? ==> d == dataName.value
    ensures dataName.None? ==> IsPrefix(d, Basename(dataPath)) && '/' !in d
    ensures dataName.None? ==>
      var b := Basename(dataPath);
      var ext := b[|d|..];
      && (ext == [] || (ext[0] == '.' && '.' !in ext[1..]))
      && (ext != [] <==> HasExt(b))
  {
    match dataName
    case Some(n) => n
    case None =>
      var b := Basename(dataPath);
      var root := SplitExtRoot(b);
      PrefixLacks(root, b, '/');
      root
  }

  /** "%s-%s_epochs=%d" % (data_name, net_name, epochs) */
  function RunName(dataName: string, netName: string, epochs: int): (s: string)
    ensures IsPrefix(dataName + "-" + netName + "_epochs=", s)
  {
    dataName + "-" + netName + "_epochs=" + IntToString(epochs)
  }

  /** The epoch count reads back from the text after the last '=' of the
      default run name. */
  lemma RunNameEpochs(dataName: string, netName: string, epochs: int)
    ensures var s := RunName(dataName, netName, epochs);
      var t := s[LastEq(s) + 1..];
      |t| > 0 && (if t[0] == '-' then AllDigits(t[1..]) else AllDigits(t)) && ParseInt(t) == epochs
  {
    var p := dataName + "-" + netName + "_epochs=";
    var t := IntToString(epochs);
    var s := RunName(dataName, netName, epochs);
    assert s == p + t;
    IntToStringNoEq(epochs);
    LastEqAfter(p, t);
    ParseIntToString(epochs);
  }

  /** Index of the last '=' in s, or -1. */
  function LastEq(s: string): (d: int)
    ensures -1 <= d < |s|
  {
    if s == [] then -1
    else if s[|s| - 1] == '=' then |s| - 1
    else LastEq(s[..|s| - 1])
  }

  lemma IntToStringNoEq(i: int)
    ensures '=' !in IntToString(i)
  {
    var s := IntToString(i);
    if i < 0 {
      assert s == "-" + NatToString(-i);
      assert forall k :: 1 <= k < |s| ==> IsDigit(s[k]) by {
        assert forall k :: 1 <= k < |s| ==> s[k] == NatToString(-i)[k - 1];
      }
    }
  }

  lemma {:induction false} LastEqAfter(p: string, t: string)
    requires |p| > 0 && p[|p| - 1] == '=' && '=' !in t
    ensures LastEq(p + t) == |p| - 1
  {
    if t == [] {
      assert p + t == p;
    } else {
      var u := t[..|t| - 1];
      assert (p + t)[..|p + t| - 1] == p + u;
      assert t[|t| - 1] in t;
      LastEqAfter(p, u);
    }
  }

  // ---------------------------------------------------------------------
  // Checkpoint names

  /** The checkpoint file name ModelCheckpoint writes for
      "weights.{epoch:03d}-{val_loss:.9f}.h5", with the loss already
      formatted as intPart.frac (nine fraction digits). */
  function CheckpointName(epoch: nat, intPart: nat, frac: nat): (s: string)
    requires frac < Pow10(9)
  {
    WeightsName(ZeroPad(epoch, 3), NatToString(intPart) + "." + ZeroPad(frac, 9))
  }

  /** A written checkpoint name is kept and parsed back by find_weights:
      the epoch and the loss come back as written. */
  lemma CheckpointRoundTrip(epoch: nat, intPart: nat, frac: nat)
    requires frac < Pow10(9)
    ensures var name := CheckpointName(epoch, intPart, frac);
      var m := MatchWeightsName(name);
      && m.Some?
      && m.value.0 == ZeroPad(epoch, 3) && ParseNat(m.value.0) == epoch
      && ParseDecimal(m.value.1) == Some(intPart as real + frac as real / Pow10(9) as real)
  {
    var e := ZeroPad(epoch, 3);
    var a := NatToString(intPart);
    var b := ZeroPad(frac, 9);
    NatToStringLength(frac, 9);
    assert |b| == 9;
    ParseDecimalOfFixed(a, b);
    var l := a + "." + b;
    MatchWeightsNameComplete(e, l, []);
    assert WeightsName(e, l) + [] == WeightsName(e, l);
    ParseZeroPad(epoch, 3);
    ParseZeroPad(frac, 9);
    ParseNatToString(intPart);
  }

  /** Numbers below 10^k have at most k digits. */
  lemma {:induction false} NatToStringLength(n: nat, k: nat)
    requires k > 0 && n < Pow10(k)
    ensures |NatToString(n)| <= k
  {
    if n >= 10 {
      assert Pow10(1) == 10;
      assert k >= 2;
      NatToStringLength(n / 10, k - 1);
    }
  }
}
