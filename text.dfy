/** Strings as the modelled code uses them: decimal digits (int(), "%d",
    "%02d"), POSIX paths (os.path.join, basename, dirname, splitext) and
    Python's lexicographic string order (sorted()). */
module Text {

  predicate IsDigit(c: char)
  {
    '0' <= c <= '9'
  }

  predicate AllDigits(s: string)
  {
    forall i :: 0 <= i < |s| ==> IsDigit(s[i])
  }

  function DigitChar(d: nat): (c: char)
    requires d < 10
    ensures IsDigit(c)
  {
    ('0' as int + d) as char
  }

  function DigitValue(c: char): (d: nat)
    requires IsDigit(c)
    ensures d < 10 && DigitChar(d) == c
  {
    c as int - '0' as int
  }

  /** int() of a string of decimal digits. */
  function ParseNat(s: string): nat
    requires AllDigits(s)
  {
    if s == [] then 0 else ParseNat(s[..|s| - 1]) * 10 + DigitValue(s[|s| - 1])
  }

  /** "%d" of a natural number: its shortest decimal digits. */
  function NatToString(n: nat): (s: string)
    ensures |s| > 0 && AllDigits(s)
  {
    if n < 10 then [DigitChar(n)] else NatToString(n / 10) + [DigitChar(n % 10)]
  }

  lemma {:induction false} ParseNatToString(n: nat)
    ensures ParseNat(NatToString(n)) == n
  {
    if n >= 10 {
      var s := NatToString(n / 10);
      ParseNatToString(n / 10);
      assert (s + [DigitChar(n % 10)])[..|s|] == s;
    }
  }

  function Zeros(k: nat): (z: string)
    ensures |z| == k && AllDigits(z)
    ensures forall i :: 0 <= i < k ==> z[i] == '0'
  {
    seq(k, _ => '0')
  }

  lemma {:induction false} ParseNatZeros(k: nat)
    ensures ParseNat(Zeros(k)) == 0
  {
    if k > 0 {
      assert Zeros(k)[..k - 1] == Zeros(k - 1);
      ParseNatZeros(k - 1);
    }
  }

  /** Leading zeros do not change the value that int() reads. */
  lemma {:induction false} ParseNatLeadingZeros(k: nat, s: string)
    requires AllDigits(s)
    ensures ParseNat(Zeros(k) + s) == ParseNat(s)
  {
    if s == [] {
      assert Zeros(k) + s == Zeros(k);
      ParseNatZeros(k);
    } else {
      var t := s[..|s| - 1];
      assert (Zeros(k) + s)[..|Zeros(k) + s| - 1] == Zeros(k) + t;
      ParseNatLeadingZeros(k, t);
    }
  }

  /** "%0<w>d": n written with at least w digits, zero-padded on the left. */
  function ZeroPad(n: nat, w: nat): (s: string)
    ensures AllDigits(s) && |s| >= w
  {
    var d := NatToString(n);
    if |d| >= w then d else Zeros(w - |d|) + d
  }

  lemma ParseZeroPad(n: nat, w: nat)
    ensures ParseNat(ZeroPad(n, w)) == n
  {
    var d := NatToString(n);
    ParseNatToString(n);
    if |d| < w {
      ParseNatLeadingZeros(w - |d|, d);
    }
  }

  /** "%d" of an integer, with a leading '-' for negatives. */
  function IntToString(i: int): (s: string)
    ensures |s| > 0
  {
    if i < 0 then "-" + NatToString(-i) else NatToString(i)
  }

  /** int() of an optionally signed decimal string. */
  function ParseInt(s: string): int
    requires |s| > 0 && (if s[0] == '-' then AllDigits(s[1..]) else AllDigits(s))
  {
    if s[0] == '-' then -(ParseNat(s[1..]) as int) else ParseNat(s)
  }

  lemma ParseIntToString(i: int)
    ensures var s := IntToString(i);
      && (if s[0] == '-' then AllDigits(s[1..]) else AllDigits(s))
      && ParseInt(s) == i
  {
    if i < 0 {
      ParseNatToString(-i);
      assert IntToString(i)[1..] == NatToString(-i);
    } else {
      ParseNatToString(i);
    }
  }

  predicate IsPrefix(p: string, s: string)
  {
    |p| <= |s| && s[..|p|] == p
  }

  /** Python's `p in s` for strings: p occurs as a substring of s. */
  predicate Contains(s: string, p: string)
    decreases |s|
  {
    IsPrefix(p, s) || (s != [] && Contains(s[1..], p))
  }

  /** Python's s.endswith(suffix); equivalently s[-3:] == suffix for a 3-char suffix. */
  predicate EndsWith(s: string, suffix: string)
  {
    |suffix| <= |s| && s[|s| - |suffix|..] == suffix
  }

  /** Index just past the last '/' in p (0 when there is none). */
  function AfterLastSlash(p: string): (i: nat)
    ensures i <= |p|
    ensures i > 0 ==> p[i - 1] == '/'
    ensures forall j :: i <= j < |p| ==> p[j] != '/'
  {
    if p == [] then 0
    else if p[|p| - 1] == '/' then |p|
    else AfterLastSlash(p[..|p| - 1])
  }

  /** os.path.basename */
  function Basename(p: string): (b: string)
    ensures '/' !in b
    ensures EndsWith(p, b)
    ensures |b| < |p| ==> p[|p| - |b| - 1] == '/'
  {
    p[AfterLastSlash(p)..]
  }

  predicate AllSlashes(s: string)
  {
    forall i :: 0 <= i < |s| ==> s[i] == '/'
  }

  function RStripSlashes(s: string): (r: string)
    ensures IsPrefix(r, s)
    ensures r == [] || r[|r| - 1] != '/'
    ensures AllSlashes(s[|r|..])
  {
    if s != [] && s[|s| - 1] == '/' then RStripSlashes(s[..|s| - 1]) else s
  }

  /** os.path.dirname: the head before the last '/', with trailing
      slashes stripped unless the head is made of slashes only. */
  function Dirname(p: string): (d: string)
    ensures IsPrefix(d, p)
    ensures d == [] <==> '/' !in p
    ensures |d| <= AfterLastSlash(p) && AllSlashes(p[|d|..AfterLastSlash(p)])
  {
    var head := p[..AfterLastSlash(p)];
    if head != [] && !AllSlashes(head) then
      var r := RStripSlashes(head);
      assert p[|r|..AfterLastSlash(p)] == head[|r|..];
      r
    else
      assert p[|head|..AfterLastSlash(p)] == [];
      head
  }

  /** The directories os.makedirs(p) ensures exist: p and the parents
      found by repeated dirname, down to the empty path or "/". */
  function Ancestors(p: string): (a: set<string>)
    ensures p != [] ==> p in a
    ensures [] !in a
    ensures forall q :: q in a ==> IsPrefix(q, p)
    decreases |p|
  {
    if p == [] then {}
    else
      var d := Dirname(p);
      {p} + (if |d| < |p| then Ancestors(d) else {})
  }

  /** os.path.join of two components (POSIX). */
  function Join(a: string, b: string): string
  {
    if b != [] && b[0] == '/' then b
    else if a == [] || a[|a| - 1] == '/' then a + b
    else a + "/" + b
  }

  /** An absolute b replaces a; otherwise the join is a, one '/' exactly
      when a is non-empty and does not already end in one, then b. */
  lemma JoinParts(a: string, b: string)
    ensures EndsWith(Join(a, b), b)
    ensures b != [] && b[0] == '/' ==> Join(a, b) == b
    ensures (b == [] || b[0] != '/') ==>
      var r := Join(a, b);
      && IsPrefix(a, r) && |a| + |b| <= |r| <= |a| + |b| + 1
      && (|r| == |a| + |b| + 1 <==> a != [] && a[|a| - 1] != '/')
      && (|r| == |a| + |b| + 1 ==> r[|a|] == '/')
  {
  }

  lemma {:induction false} AfterLastSlashAppend(x: string, b: string)
    requires '/' !in b
    ensures AfterLastSlash(x + b) == AfterLastSlash(x)
  {
    if b != [] {
      var y := b[..|b| - 1];
      assert (x + b)[..|x + b| - 1] == x + y;
      assert b[|b| - 1] in b;
      AfterLastSlashAppend(x, y);
    } else {
      assert x + b == x;
    }
  }

  /** Joining a slash-free name onto a folder: basename gives the name back. */
  lemma BasenameJoin(a: string, b: string)
    requires b != [] && '/' !in b
    ensures Basename(Join(a, b)) == b
  {
    assert b[0] in b;
    if a == [] {
      AfterLastSlashAppend([], b);
      assert [] + b == b;
    } else if a[|a| - 1] == '/' {
      AfterLastSlashAppend(a, b);
    } else {
      AfterLastSlashAppend(a + "/", b);
      assert a + "/" + b == (a + "/") + b;
    }
  }

  /** A prefix of a string without c has no c either. */
  lemma PrefixLacks(p: string, s: string, c: char)
    requires IsPrefix(p, s) && c !in s
    ensures c !in p
  {
    assert forall k :: 0 <= k < |p| ==> p[k] == s[k];
  }

  /** splitext finds an extension: some '.' has a non-dot before it. */
  predicate HasExt(name: string)
  {
    exists i, j :: 0 <= i < j < |name| && name[i] != '.' && name[j] == '.'
  }

  /** The root that os.path.splitext keeps for a slash-free name: the part
      before the last '.', unless only dots precede that '.'. */
  function SplitExtRoot(name: string): (root: string)
    ensures IsPrefix(root, name)
    ensures var ext := name[|root|..]; ext == [] || (ext[0] == '.' && '.' !in ext[1..])
    ensures root != name <==> HasExt(name)
  {
    var d := LastDot(name);
    if d < 0 || AllDots(name[..d]) then
      assert forall i, j :: 0 <= i < j < |name| && name[j] == '.' ==> name[i] == '.' by {
        forall i, j | 0 <= i < j < |name| && name[j] == '.' ensures name[i] == '.' {
          assert j <= d;
          assert name[..d][i] == name[i];
        }
      }
      name
    else
      var i :| 0 <= i < d && name[..d][i] != '.';
      assert name[i] != '.' && name[d] == '.';
      var ext := name[d..];
      assert forall k :: 0 <= k < |ext[1..]| ==> ext[1..][k] == name[d + 1 + k];
      name[..d]
  }

  predicate AllDots(s: string)
  {
    forall i :: 0 <= i < |s| ==> s[i] == '.'
  }

  /** Index of the last '.' in s, or -1 when there is none. */
  function LastDot(s: string): (d: int)
    ensures -1 <= d < |s|
    ensures d >= 0 ==> s[d] == '.'
    ensures forall j :: d < j < |s| ==> s[j] != '.'
  {
    if s == [] then -1
    else if s[|s| - 1] == '.' then |s| - 1
    else LastDot(s[..|s| - 1])
  }

  /** Python's string order: by code point, a proper prefix first. */
  predicate LexLe(a: string, b: string)
  {
    a == [] || (b != [] && (a[0] < b[0] || (a[0] == b[0] && LexLe(a[1..], b[1..]))))
  }

  lemma {:induction false} LexLeTotal(a: string, b: string)
    ensures LexLe(a, b) || LexLe(b, a)
  {
    if a != [] && b != [] && a[0] == b[0] {
      LexLeTotal(a[1..], b[1..]);
    }
  }

  predicate SortedStrings(s: seq<string>)
  {
    forall i :: 0 <= i < |s| - 1 ==> LexLe(s[i], s[i + 1])
  }

  function Insert(x: string, s: seq<string>): (r: seq<string>)
    requires SortedStrings(s)
    ensures SortedStrings(r)
    ensures multiset(r) == multiset(s) + multiset{x}
    ensures |r| == |s| + 1
    ensures r[0] == x || (s != [] && r[0] == s[0])
  {
    if s == [] || LexLe(x, s[0]) then [x] + s
    else
      LexLeTotal(x, s[0]);
      assert s == [s[0]] + s[1..];
      [s[0]] + Insert(x, s[1..])
  }

  /** sorted() of a list of strings. */
  function SortStrings(s: seq<string>): (r: seq<string>)
    ensures SortedStrings(r)
    ensures multiset(r) == multiset(s)
  {
    if s == [] then []
    else
      assert s == [s[0]] + s[1..];
      Insert(s[0], SortStrings(s[1..]))
  }
}
