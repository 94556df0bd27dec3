/** leap/utils.py: discovering checkpoint files in a run folder
    (find_weights, find_best_weights) and the shape and dtype rules of
    preprocess. */
module Utils {
  import opened Base
  import opened Text

  /** A character of the character class [0-9.]. */
  predicate IsLossChar(c: char)
  {
    IsDigit(c) || c == '.'
  }

  predicate AllLossChars(s: string)
  {
    forall i :: 0 <= i < |s| ==> IsLossChar(s[i])
  }

  /** Length of the longest run of characters satisfying p that starts at
      index i: what a greedy `[...]+` consumes before it backtracks. */
  function Run(s: string, i: nat, p: char -> bool): (n: nat)
    requires i <= |s|
    ensures i + n <= |s|
    ensures forall j :: i <= j < i + n ==> p(s[j])
    ensures i + n < |s| ==> !p(s[i + n])
    decreases |s| - i
  {
    if i < |s| && p(s[i]) then 1 + Run(s, i + 1, p) else 0
  }

  /** A run is determined by where it stops. */
  lemma RunStopsAt(s: string, i: nat, p: char -> bool, k: nat)
    requires i + k <= |s|
    requires forall j :: i <= j < i + k ==> p(s[j])
    requires i + k == |s| || !p(s[i + k])
    ensures Run(s, i, p) == k
  {
  }

  /** The checkpoint file name with epoch text e and loss text l. */
  function WeightsName(e: string, l: string): string
  {
    "weights." + e + "-" + l + ".h5"
  }

  /** re.match("weights[.]([0-9]+)-([0-9.]+)[.]h5", s).groups(): the match
      is anchored at the start only. Group 1 is the whole digit run after
      the prefix (the '-' that must follow is not a digit); group 2 is the
      [0-9.] run after the '-' less its final '.', which the regex needs
      for "[.]" before "h5". */
  function MatchWeightsName(s: string): (r: Option<(string, string)>)
    ensures r.Some? ==> |r.value.0| > 0 && AllDigits(r.value.0)
    ensures r.Some? ==> |r.value.1| > 0 && AllLossChars(r.value.1)
  {
    if !IsPrefix("weights.", s) then None
    else
      var d := Run(s, 8, IsDigit);
      var e := 8 + d;
      if d == 0 || e == |s| || s[e] != '-' then None
      else
        var n := Run(s, e + 1, IsLossChar);
        var t := e + 1 + n;
        if n < 2 || s[t - 1] != '.' || t + 2 > |s| || s[t..t + 2] != "h5" then None
        else Some((s[8..e], s[e + 1..t - 1]))
  }

  /** Soundness of the matcher: a match means the name starts with the
      checkpoint pattern built from the two groups. */
  lemma MatchWeightsNameSound(s: string)
    requires MatchWeightsName(s).Some?
    ensures var (e, l) := MatchWeightsName(s).value;
      IsPrefix(WeightsName(e, l), s)
  {
    var (e, l) := MatchWeightsName(s).value;
    var k := |WeightsName(e, l)|;
    forall j | 0 <= j < k ensures s[j] == WeightsName(e, l)[j] {
      if j < 8 {
        assert s[..8] == "weights.";
        assert s[j] == s[..8][j];
      }
    }
  }

  /** The digits of e, then '-', stop the group-1 run. */
  lemma EpochRun(e: string, t: string)
    requires |e| > 0 && AllDigits(e) && |t| > 0 && t[0] == '-'
    ensures Run("weights." + e + t, 8, IsDigit) == |e|
  {
    var s := "weights." + e + t;
    assert forall j :: 8 <= j < 8 + |e| ==> s[j] == e[j - 8];
    assert s[8 + |e|] == t[0];
    RunStopsAt(s, 8, IsDigit, |e|);
  }

  /** The characters of l, then ".h5", make a [0-9.] run of |l| + 1. */
  lemma LossRun(u: string, l: string, rest: string)
    requires |l| > 0 && AllLossChars(l)
    ensures var s := u + l + ".h5" + rest;
      Run(s, |u|, IsLossChar) == |l| + 1
  {
    var tail := ".h5" + rest;
    var s := u + l + tail;
    assert s == u + l + ".h5" + rest;
    var k := |u| + |l|;
    assert forall j :: |u| <= j < k ==> s[j] == l[j - |u|];
    assert s[k] == tail[0] == '.';
    assert s[k + 1] == tail[1] == 'h';
    assert forall j :: |u| <= j < k + 1 ==> IsLossChar(s[j]);
    RunStopsAt(s, |u|, IsLossChar, |l| + 1);
  }

  /** Completeness of the matcher: any name that starts with the pattern
      matches, and the groups are exactly the two parts. */
  lemma MatchWeightsNameComplete(e: string, l: string, rest: string)
    requires |e| > 0 && AllDigits(e)
    requires |l| > 0 && AllLossChars(l)
    ensures MatchWeightsName(WeightsName(e, l) + rest) == Some((e, l))
  {
    var s := WeightsName(e, l) + rest;
    var u := "weights." + e + "-";
    WeightsNameLayout(e, l, rest);
    EpochRun(e, "-" + l + ".h5" + rest);
    LossRun(u, l, rest);
    MatchFromRuns(s, |e|, |l| + 1);
  }

  /** Where the parts of a checkpoint name sit in the string. */
  lemma WeightsNameLayout(e: string, l: string, rest: string)
    ensures var s := WeightsName(e, l) + rest;
      var u := "weights." + e + "-";
      && s == u + l + ".h5" + rest
      && s == "weights." + e + ("-" + l + ".h5" + rest)
      && IsPrefix("weights.", s)
      && s[8 + |e|] == '-'
      && s[|u| + |l|] == '.'
      && s[|u| + |l| + 1..|u| + |l| + 3] == "h5"
      && s[8..8 + |e|] == e
      && s[|u|..|u| + |l|] == l
  {
    var s := WeightsName(e, l) + rest;
    var u := "weights." + e + "-";
    assert s == u + l + ".h5" + rest;
    assert s[..8] == "weights.";
  }

  /** The matcher's verdict once both runs are known. */
  lemma MatchFromRuns(s: string, d: nat, n: nat)
    requires IsPrefix("weights.", s) && d > 0 && 8 + d < |s| && s[8 + d] == '-'
    requires Run(s, 8, IsDigit) == d && Run(s, 9 + d, IsLossChar) == n && n >= 2
    requires 11 + d + n <= |s| && s[8 + d + n] == '.' && s[9 + d + n..11 + d + n] == "h5"
    ensures MatchWeightsName(s) == Some((s[8..8 + d], s[9 + d..8 + d + n]))
  {
  }

  function Pow10(k: nat): (p: nat)
    ensures p >= 1
  {
    if k == 0 then 1 else 10 * Pow10(k - 1)
  }

  /** The value of the literal a.b: a + b / 10^|b|. */
  function FixedValue(a: string, b: string): (v: real)
    requires AllDigits(a) && AllDigits(b)
    ensures v >= ParseNat(a) as real && v < ParseNat(a) as real + 1.0
  {
    FractionBelowOne(b);
    QuotientBelowOne(ParseNat(b) as real, Pow10(|b|) as real);
    ParseNat(a) as real + ParseNat(b) as real / Pow10(|b|) as real
  }

  lemma QuotientBelowOne(x: real, y: real)
    requires 0.0 <= x < y
    ensures 0.0 <= x / y < 1.0
  {
    assert x / y * y == x;
  }

  /** b digits after the point stay below 1. */
  lemma {:induction false} FractionBelowOne(b: string)
    requires AllDigits(b)
    ensures ParseNat(b) < Pow10(|b|)
  {
    if b != [] {
      FractionBelowOne(b[..|b| - 1]);
    }
  }

  /** Index of the first '.' in s, or |s| when there is none. */
  function FirstDot(s: string): (k: nat)
    ensures k <= |s|
    ensures k < |s| ==> s[k] == '.'
    ensures forall j :: 0 <= j < k ==> s[j] != '.'
  {
    if s == [] then 0
    else if s[0] == '.' then 0
    else 1 + FirstDot(s[1..])
  }

  /** float() of a group-2 string (digits and dots): digits with at most one
      '.', and at least one digit; anything else raises ValueError, which
      is None here. */
  function ParseDecimal(l: string): (r: Option<real>)
    requires AllLossChars(l)
    ensures r.Some? ==> r.value >= 0.0
  {
    var k := FirstDot(l);
    if k == |l| then
      if l == [] then None else Some(ParseNat(l) as real)
    else
      var a, b := l[..k], l[k + 1..];
      if '.' in b || (a == [] && b == []) then None
      else
        assert AllDigits(b) by {
          forall j | 0 <= j < |b| ensures IsDigit(b[j]) {
            assert b[j] in b;
          }
        }
        Some(FixedValue(a, b))
  }

  /** An integer literal reads as its value. */
  lemma ParseDecimalOfDigits(a: string)
    requires |a| > 0 && AllDigits(a)
    ensures ParseDecimal(a) == Some(ParseNat(a) as real)
  {
  }

  lemma FirstDotOf(a: string, b: string)
    requires AllDigits(a)
    ensures FirstDot(a + "." + b) == |a|
  {
    var l := a + "." + b;
    assert l[|a|] == '.';
    assert forall j :: 0 <= j < |a| ==> l[j] == a[j];
  }

  /** A fixed-point literal a.b reads as a + b / 10^|b|; either side may be
      empty, not both. */
  lemma ParseDecimalOfFixed(a: string, b: string)
    requires AllDigits(a) && AllDigits(b) && |a| + |b| > 0
    ensures AllLossChars(a + "." + b)
    ensures ParseDecimal(a + "." + b) == Some(FixedValue(a, b))
  {
    var l := a + "." + b;
    assert AllLossChars(l) by {
      forall j | 0 <= j < |l| ensures IsLossChar(l[j]) {
        if j < |a| {
          assert l[j] == a[j];
        } else if j > |a| {
          assert l[j] == b[j - |a| - 1];
        }
      }
    }
    FirstDotOf(a, b);
    assert l[..|a|] == a;
    assert l[|a| + 1..] == b;
    assert '.' !in b;
  }

  /** A second '.' makes float() fail. */
  lemma ParseDecimalTwoDots(l: string, i: nat, j: nat)
    requires AllLossChars(l) && i < j < |l| && l[i] == '.' && l[j] == '.'
    ensures ParseDecimal(l).None?
  {
    var k := FirstDot(l);
    assert k <= i;
    assert l[k + 1..][j - k - 1] == '.';
  }

  /** Writing n with "%d" and reading it back with float(). */
  lemma ParseDecimalNatToString(n: nat)
    ensures AllLossChars(NatToString(n))
    ensures ParseDecimal(NatToString(n)) == Some(n as real)
  {
    ParseNatToString(n);
  }

  /** Keeps, in order, the names that contain "weights". */
  function KeepWeights(s: seq<string>): (r: seq<string>)
    ensures |r| <= |s|
    ensures forall i :: 0 <= i < |r| ==> Contains(r[i], "weights")
    ensures forall x :: x in r <==> x in s && Contains(x, "weights")
    ensures forall x :: multiset(r)[x] == if Contains(x, "weights") then multiset(s)[x] else 0
  {
    if s == [] then []
    else
      assert s == [s[0]] + s[1..];
      if Contains(s[0], "weights") then [s[0]] + KeepWeights(s[1..]) else KeepWeights(s[1..])
  }

  lemma {:induction false} LexLeTrans(a: string, b: string, c: string)
    requires LexLe(a, b) && LexLe(b, c)
    ensures LexLe(a, c)
  {
    if a != [] && b != [] && c != [] && a[0] == b[0] && b[0] == c[0] {
      LexLeTrans(a[1..], b[1..], c[1..]);
    }
  }

  /** In a sorted list the first name is at most every other. */
  lemma {:induction false} SortedHeadLe(s: seq<string>, j: nat)
    requires SortedStrings(s) && j < |s|
    ensures LexLe(s[0], s[j])
  {
    if j == 0 {
      LexLeRefl(s[0]);
    } else {
      SortedHeadLe(s, j - 1);
      LexLeTrans(s[0], s[j - 1], s[j]);
    }
  }

  lemma {:induction false} LexLeRefl(a: string)
    ensures LexLe(a, a)
  {
    if a != [] {
      LexLeRefl(a[1..]);
    }
  }

  /** Filtering a sorted listing keeps it sorted. */
  lemma {:induction false} KeepWeightsSorted(s: seq<string>)
    requires SortedStrings(s)
    ensures SortedStrings(KeepWeights(s))
  {
    if s != [] {
      var t := s[1..];
      assert SortedStrings(t);
      KeepWeightsSorted(t);
      var r := KeepWeights(t);
      if Contains(s[0], "weights") && r != [] {
        assert r[0] in t;
        var j :| 0 <= j < |t| && t[j] == r[0];
        SortedHeadLe(s, j + 1);
      }
    }
  }

  /** The checkpoint names find_weights considers: the folder listing,
      sorted, with only the names containing "weights". */
  function KeptNames(listing: seq<string>): (names: seq<string>)
    ensures SortedStrings(names)
    ensures forall x :: x in names <==> x in listing && Contains(x, "weights")
  {
    var sorted := SortStrings(listing);
    KeepWeightsSorted(sorted);
    assert forall x :: x in sorted <==> x in listing by {
      forall x ensures x in sorted <==> x in listing {
        assert x in multiset(sorted) <==> x in multiset(listing);
      }
    }
    KeepWeights(sorted)
  }

  /** The regex groups of every name, or None as soon as one name fails to
      match (`.groups()` on None). */
  function MatchAll(names: seq<string>): (r: Option<seq<(string, string)>>)
    ensures r.Some? <==> forall i :: 0 <= i < |names| ==> MatchWeightsName(names[i]).Some?
    ensures r.Some? ==> |r.value| == |names|
    ensures r.Some? ==> forall i :: 0 <= i < |names| ==> MatchWeightsName(names[i]) == Some(r.value[i])
  {
    if names == [] then Some([])
    else
      match MatchWeightsName(names[0])
      case None => None
      case Some(g) =>
        match MatchAll(names[1..])
        case None => None
        case Some(gs) => Some([g] + gs)
  }

  predicate LossGroups(gs: seq<(string, string)>)
  {
    forall i :: 0 <= i < |gs| ==> AllLossChars(gs[i].1)
  }

  /** float() of every second group, or None if one fails. */
  function LossesOf(gs: seq<(string, string)>): (r: Option<seq<real>>)
    requires LossGroups(gs)
    ensures r.Some? <==> forall i :: 0 <= i < |gs| ==> ParseDecimal(gs[i].1).Some?
    ensures r.Some? ==> |r.value| == |gs|
    ensures r.Some? ==> forall i :: 0 <= i < |gs| ==> ParseDecimal(gs[i].1) == Some(r.value[i])
  {
    if gs == [] then Some([])
    else
      match ParseDecimal(gs[0].1)
      case None => None
      case Some(v) =>
        match LossesOf(gs[1..])
        case None => None
        case Some(vs) => Some([v] + vs)
  }

  /** What find_weights returns: paths, epochs and losses, index-aligned. */
  datatype Weights = Weights(paths: seq<string>, epochs: seq<nat>, losses: seq<real>)

  /** Entry i of a find_weights result describes the kept name `name`. */
  predicate Describes(w: Weights, i: nat, folder: string, name: string)
    requires i < |w.paths| && i < |w.epochs| && i < |w.losses|
  {
    && w.paths[i] == Join(folder, name)
    && MatchWeightsName(name).Some?
    && var (e, l) := MatchWeightsName(name).value;
       w.epochs[i] == ParseNat(e) && ParseDecimal(l) == Some(w.losses[i])
  }

  const NoGroups := AttributeError("'NoneType' object has no attribute 'groups'")
  const NotAFloat := ValueError("could not convert string to float")

  /** The three lists have one entry per kept name, and entry i describes name i. */
  predicate Aligned(w: Weights, folder: string, names: seq<string>)
  {
    && |w.paths| == |names| && |w.epochs| == |names| && |w.losses| == |names|
    && forall i :: 0 <= i < |names| ==> Describes(w, i, folder, names[i])
  }

  /** The comprehensions of find_weights over the kept names: every name is
      matched before any loss is converted, so a name that does not match
      is reported even when another name's loss is not a number. */
  function WeightsOf(folder: string, names: seq<string>): (r: Result<Weights>)
    ensures r == Err(NoGroups) <==> exists i :: 0 <= i < |names| && MatchWeightsName(names[i]).None?
    ensures r.Err? ==> r == Err(NoGroups) || r == Err(NotAFloat)
    ensures r.Ok? ==> Aligned(r.value, folder, names)
  {
    match MatchAll(names)
    case None => Err(NoGroups)
    case Some(gs) =>
      match LossesOf(gs)
      case None => Err(NotAFloat)
      case Some(losses) =>
        var w := Weights(seq(|names|, i requires 0 <= i < |names| => Join(folder, names[i])),
                         seq(|gs|, i requires 0 <= i < |gs| => ParseNat(gs[i].0)),
                         losses);
        assert forall i :: 0 <= i < |names| ==> Describes(w, i, folder, names[i]) by {
          forall i | 0 <= i < |names| ensures Describes(w, i, folder, names[i]) {
            assert MatchWeightsName(names[i]) == Some(gs[i]);
            assert ParseDecimal(gs[i].1) == Some(losses[i]);
          }
        }
        Ok(w)
  }

  /** A ValueError means every name matched and some loss text is not a number. */
  lemma WeightsOfNotAFloat(folder: string, names: seq<string>)
    requires WeightsOf(folder, names) == Err(NotAFloat)
    ensures forall i :: 0 <= i < |names| ==> MatchWeightsName(names[i]).Some?
    ensures exists i :: (0 <= i < |names| && MatchWeightsName(names[i]).Some? &&
      ParseDecimal(MatchWeightsName(names[i]).value.1).None?)
  {
    var gs := MatchAll(names).value;
    var i :| 0 <= i < |gs| && ParseDecimal(gs[i].1).None?;
    assert MatchWeightsName(names[i]) == Some(gs[i]);
  }

  /** find_weights(model_path) given the listing of model_path/weights
      (None when that folder does not exist). */
  function FindWeights(modelPath: string, listing: Option<seq<string>>): (r: Result<Weights>)
    ensures listing.None? ==> r == Err(FileNotFoundError(Join(modelPath, "weights")))
    ensures listing.Some? ==> r == WeightsOf(Join(modelPath, "weights"), KeptNames(listing.value))
    ensures r.Ok? ==> |r.value.paths| == |r.value.losses|
  {
    var folder := Join(modelPath, "weights");
    match listing
    case None => Err(FileNotFoundError(folder))
    case Some(entries) => WeightsOf(folder, KeptNames(entries))
  }

  /** k is the first index holding the smallest value of s. */
  predicate IsFirstMin(s: seq<real>, k: nat)
  {
    && k < |s|
    && (forall i :: 0 <= i < |s| ==> s[k] <= s[i])
    && (forall i :: 0 <= i < k ==> s[k] < s[i])
  }

  /** The path at the first smallest loss, or None for no checkpoints. */
  function BestOf(w: Weights): (r: Option<string>)
    requires |w.paths| == |w.losses|
    ensures r.None? <==> |w.losses| == 0
    ensures r.Some? ==> exists k: nat :: IsFirstMin(w.losses, k) && r.value == w.paths[k]
  {
    if |w.losses| == 0 then None
    else
      var k := ArgMin(w.losses);
      assert IsFirstMin(w.losses, k);
      Some(w.paths[k])
  }

  /** find_best_weights: the path at the first smallest loss, or None when
      no checkpoint was found; errors of find_weights propagate. */
  function FindBestWeights(modelPath: string, listing: Option<seq<string>>): (r: Result<Option<string>>)
    ensures FindWeights(modelPath, listing).Err? ==> r == Err(FindWeights(modelPath, listing).error)
    ensures FindWeights(modelPath, listing).Ok? ==>
      var w := FindWeights(modelPath, listing).value;
      && r.Ok?
      && (r.value.None? <==> |w.losses| == 0)
      && (r.value.Some? ==> exists k: nat :: IsFirstMin(w.losses, k) && r.value.value == w.paths[k])
  {
    var found := FindWeights(modelPath, listing);
    if found.Err? then Err(found.error) else Ok(BestOf(found.value))
  }

  /** numpy.transpose's axis checks, left to right: each axis must lie in
      [-n, n) (negative ones count from the end) and must not repeat. */
  function CheckAxes(axes: seq<int>, n: nat): (r: Result<seq<nat>>)
    ensures r.Ok? <==>
      && (forall i :: 0 <= i < |axes| ==> PyIndex(axes[i], n).Some?)
      && (forall i, j :: 0 <= i < j < |axes| ==> PyIndex(axes[i], n) != PyIndex(axes[j], n))
    ensures r.Ok? ==> |r.value| == |axes|
    ensures r.Ok? ==> forall i :: 0 <= i < |axes| ==> PyIndex(axes[i], n) == Some(r.value[i])
  {
    if axes == [] then Ok([])
    else
      var init := axes[..|axes| - 1];
      match CheckAxes(init, n)
      case Err(e) => Err(e)
      case Ok(prefix) =>
        match PyIndex(axes[|axes| - 1], n)
        case None => Err(ValueError("axis is out of bounds for array"))
        case Some(a) =>
          if a in prefix then
            var j :| 0 <= j < |prefix| && prefix[j] == a;
            assert PyIndex(axes[j], n) == PyIndex(axes[|axes| - 1], n);
            Err(ValueError("repeated axis in transpose"))
          else Ok(prefix + [a])
  }

  /** Checked axes of the right length are a permutation of 0 .. n-1. */
  lemma CheckedAxesPermute(axes: seq<int>, n: nat)
    requires |axes| == n && CheckAxes(axes, n).Ok?
    ensures IsPermutation(CheckAxes(axes, n).value, n)
  {
    var p := CheckAxes(axes, n).value;
    forall i, j | 0 <= i < j < n ensures p[i] != p[j] {
      assert PyIndex(axes[i], n) != PyIndex(axes[j], n);
    }
  }

  const DefaultPermute: seq<int> := [0, 3, 2, 1]

  /** The shape preprocess produces: a rank-3 input gets a leading
      singleton axis, then np.transpose(X, permute). */
  function PreprocessShape(shape: seq<nat>, permute: seq<int>): (r: Result<seq<nat>>)
    ensures var s := if |shape| == 3 then [1] + shape else shape;
      && (|permute| != |s| ==> r == Err(ValueError("axes don't match array")))
      && (|permute| == |s| ==> (r.Ok? <==> CheckAxes(permute, |s|).Ok?))
      && (r.Ok? ==> |r.value| == |s| && forall i :: 0 <= i < |s| ==>
            exists a :: PyIndex(permute[i], |s|) == Some(a) && r.value[i] == s[a])
  {
    var s := if |shape| == 3 then [1] + shape else shape;
    if |permute| != |s| then Err(ValueError("axes don't match array"))
    else
      match CheckAxes(permute, |s|)
      case Err(e) => Err(e)
      case Ok(p) => Ok(seq(|s|, i requires 0 <= i < |s| => s[p[i]]))
  }

  /** The default permutation (0, 3, 2, 1) on a rank-4 shape swaps the
      last and second axes. */
  lemma DefaultPermuteFour(s: seq<nat>)
    requires |s| == 4
    ensures PreprocessShape(s, DefaultPermute) == Ok([s[0], s[3], s[2], s[1]])
  {
    var p := CheckAxes(DefaultPermute, 4);
    assert PyIndex(0, 4) == Some(0) && PyIndex(3, 4) == Some(3);
    assert PyIndex(2, 4) == Some(2) && PyIndex(1, 4) == Some(1);
    assert p.Ok?;
    assert p.value == [0, 3, 2, 1];
    var r := PreprocessShape(s, DefaultPermute);
    assert r == Ok(seq(4, i requires 0 <= i < 4 => s[p.value[i]]));
    assert r.value == [s[0], s[3], s[2], s[1]];
  }

  /** A rank-3 box (H, W, C) under the default permutation becomes one
      sample of shape (1, C, W, H); a rank-4 stack (N, H, W, C) becomes
      (N, C, W, H), and applying the permutation again restores it. */
  lemma DefaultPermuteShapes(n: nat, h: nat, w: nat, c: nat)
    ensures PreprocessShape([h, w, c], DefaultPermute) == Ok([1, c, w, h])
    ensures PreprocessShape([n, h, w, c], DefaultPermute) == Ok([n, c, w, h])
    ensures PreprocessShape([n, c, w, h], DefaultPermute) == Ok([n, h, w, c])
  {
    DefaultPermuteFour([n, h, w, c]);
    DefaultPermuteFour([n, c, w, h]);
    DefaultPermuteFour([1, h, w, c]);
    assert PreprocessShape([h, w, c], DefaultPermute) == PreprocessShape([1, h, w, c], DefaultPermute) by {
      assert [1] + [h, w, c] == [1, h, w, c];
    }
  }

  datatype DType = UInt8 | Float32 | OtherDType(name: string)

  /** preprocess's value rule: uint8 data becomes float32 divided by 255;
      any other dtype passes through unchanged. Values are in flat order. */
  function PreprocessValues(dtype: DType, data: seq<real>): (r: (DType, seq<real>))
    ensures |r.1| == |data|
    ensures dtype == UInt8 ==> r.0 == Float32 && forall i :: 0 <= i < |data| ==> r.1[i] * 255.0 == data[i]
    ensures dtype != UInt8 ==> r == (dtype, data)
  {
    if dtype == UInt8 then (Float32, seq(|data|, i requires 0 <= i < |data| => data[i] / 255.0))
    else (dtype, data)
  }

  /** 8-bit pixel values land in [0, 1]. */
  lemma PreprocessUnitRange(data: seq<real>)
    requires forall i :: 0 <= i < |data| ==> 0.0 <= data[i] <= 255.0
    ensures var (_, v) := PreprocessValues(UInt8, data);
      forall i :: 0 <= i < |v| ==> 0.0 <= v[i] <= 1.0
  {
    var (_, v) := PreprocessValues(UInt8, data);
    forall i | 0 <= i < |v| ensures 0.0 <= v[i] <= 1.0 {
      assert v[i] * 255.0 == data[i];
    }
  }

  /** An array as preprocess sees it: shape, dtype and values. */
  datatype NdArray = NdArray(shape: seq<nat>, dtype: DType, data: seq<real>)

  /** preprocess(X, permute): rank promotion and transposition of the
      shape, then the dtype rule on the values (whose order after the
      transposition is not modelled). */
  function Preprocess(x: NdArray, permute: seq<int>): (r: Result<NdArray>)
    ensures r.Ok? <==> PreprocessShape(x.shape, permute).Ok?
    ensures r.Err? ==> r.error == PreprocessShape(x.shape, permute).error
    ensures r.Ok? ==> r.value.shape == PreprocessShape(x.shape, permute).value
    ensures r.Ok? ==> (r.value.dtype, r.value.data) == PreprocessValues(x.dtype, x.data)
  {
    match PreprocessShape(x.shape, permute)
    case Err(e) => Err(e)
    case Ok(shape) =>
      var (dtype, data) := PreprocessValues(x.dtype, x.data);
      Ok(NdArray(shape, dtype, data))
  }
}
