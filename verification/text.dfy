/** The Python `str` operations the scripts use, over `seq<char>`:
    `strip()`, `split(sep)`, `sep.join(xs)`, `replace(pat, "")`,
    `split(sep, 1)`, `upper()`, `lower()`, `endswith`, `in`, and
    `os.path.basename`. */
module Text {
  import opened Wrappers

  // ---------------------------------------------------------------------
  // Whitespace and strip()
  // ---------------------------------------------------------------------

  /** The characters `str.isspace` (and so argument-less `strip()`) treats as
      whitespace. */
  predicate IsSpace(c: char)
  {
    || c == ' '
    || ('\t' <= c <= '\r')
    || ('\U{1C}' <= c <= '\U{1F}')
    || c == '\U{85}' || c == '\U{A0}' || c == '\U{1680}'
    || ('\U{2000}' <= c <= '\U{200A}')
    || c == '\U{2028}' || c == '\U{2029}' || c == '\U{202F}'
    || c == '\U{205F}' || c == '\U{3000}'
  }

  predicate AllSpace(s: string)
  {
    forall i :: 0 <= i < |s| ==> IsSpace(s[i])
  }

  /** Neither end of `s` is whitespace: `strip()` would leave it unchanged. */
  predicate IsStripped(s: string)
  {
    |s| == 0 || (!IsSpace(s[0]) && !IsSpace(s[|s| - 1]))
  }

  /** `lstrip()`: the suffix left after dropping the leading whitespace. */
  function TrimLeft(s: string): (r: string)
    ensures |r| <= |s| && r == s[|s| - |r|..]
    ensures AllSpace(s[..|s| - |r|])
    ensures |r| > 0 ==> !IsSpace(r[0])
  {
    if |s| > 0 && IsSpace(s[0]) then TrimLeft(s[1..]) else s
  }

  /** `rstrip()`: the prefix left after dropping the trailing whitespace. */
  function TrimRight(s: string): (r: string)
    ensures |r| <= |s| && r == s[..|r|]
    ensures AllSpace(s[|r|..])
    ensures |r| > 0 ==> !IsSpace(r[|r| - 1])
  {
    if |s| > 0 && IsSpace(s[|s| - 1]) then TrimRight(s[..|s| - 1]) else s
  }

  /** `strip()`: drop whitespace at both ends. */
  function Strip(s: string): (r: string)
    ensures IsStripped(r)
    ensures r == "" <==> AllSpace(s)
    ensures forall c :: c in r ==> c in s
  {
    var t := TrimLeft(s);
    var r := TrimRight(t);
    assert |r| > 0 ==> r[0] == t[0];
    assert forall c :: c in r ==> c in t;
    assert forall c :: c in t ==> c in s;
    r
  }

  lemma {:induction false} TrimLeftPadded(w: string, x: string)
    requires AllSpace(w)
    requires |x| == 0 || !IsSpace(x[0])
    ensures TrimLeft(w + x) == x
    decreases |w|
  {
    if |w| > 0 {
      assert (w + x)[1..] == w[1..] + x;
      TrimLeftPadded(w[1..], x);
    } else {
      assert w + x == x;
    }
  }

  lemma {:induction false} TrimRightPadded(x: string, w: string)
    requires AllSpace(w)
    requires |x| == 0 || !IsSpace(x[|x| - 1])
    ensures TrimRight(x + w) == x
    decreases |w|
  {
    if |w| > 0 {
      assert (x + w)[..|x + w| - 1] == x + w[..|w| - 1];
      TrimRightPadded(x, w[..|w| - 1]);
    } else {
      assert x + w == x;
    }
  }

  /** `strip()` recovers any stripped text from whitespace padding on both
      sides; in particular it is idempotent. */
  lemma StripPadded(w1: string, x: string, w2: string)
    requires AllSpace(w1) && AllSpace(w2) && IsStripped(x)
    ensures Strip(w1 + x + w2) == x
  {
    if |x| == 0 {
      assert AllSpace(w1 + x + w2);
    } else {
      assert w1 + x + w2 == w1 + (x + w2);
      TrimLeftPadded(w1, x + w2);
      TrimRightPadded(x, w2);
    }
  }

  /** `strip()` applied to every element. */
  function StripEach(xs: seq<string>): (r: seq<string>)
    ensures |r| == |xs|
    ensures forall i :: 0 <= i < |xs| ==> r[i] == Strip(xs[i])
  {
    seq(|xs|, i requires 0 <= i < |xs| => Strip(xs[i]))
  }

  // ---------------------------------------------------------------------
  // split(sep) and sep.join(xs)
  // ---------------------------------------------------------------------

  /** `sep.join(xs)`. */
  function Join(xs: seq<string>, sep: string): string
  {
    if |xs| == 0 then ""
    else if |xs| == 1 then xs[0]
    else xs[0] + sep + Join(xs[1..], sep)
  }

  /** `s.split(d)` for a one-character separator: every occurrence of `d`
      separates two pieces, so there is always at least one piece. */
  function Split(s: string, d: char): (r: seq<string>)
    ensures |r| > 0
    ensures forall i :: 0 <= i < |r| ==> d !in r[i]
    ensures Join(r, [d]) == s
    decreases |s|
  {
    if |s| == 0 then [""]
    else
      var t := Split(s[1..], d);
      if s[0] == d then
        JoinCons("", t, [d]);
        assert s == [d] + s[1..];
        [""] + t
      else
        var r := [[s[0]] + t[0]] + t[1..];
        assert s == [s[0]] + s[1..];
        assert Join(r, [d]) == s by {
          if |t| == 1 {
            assert r == [[s[0]] + t[0]];
          } else {
            assert r[1..] == t[1..];
            JoinCons([s[0]] + t[0], t[1..], [d]);
            JoinCons(t[0], t[1..], [d]);
            assert t == [t[0]] + t[1..];
          }
        }
        r
  }

  /** Joining a piece in front of a non-empty list puts one separator between. */
  lemma JoinCons(x: string, xs: seq<string>, sep: string)
    requires |xs| > 0
    ensures Join([x] + xs, sep) == x + sep + Join(xs, sep)
  {
    assert ([x] + xs)[1..] == xs;
  }

  /** Text without the separator is a single piece. */
  lemma SplitNoSeparator(s: string, d: char)
    requires d !in s
    ensures Split(s, d) == [s]
  {
  }

  /** Splitting text joined at one separator splits each side separately. */
  lemma {:induction false} SplitConcat(a: string, b: string, d: char)
    ensures Split(a + [d] + b, d) == Split(a, d) + Split(b, d)
    decreases |a|
  {
    var s := a + [d] + b;
    if |a| == 0 {
      assert s[0] == d && s[1..] == b;
    } else {
      assert s[0] == a[0];
      assert s[1..] == a[1..] + [d] + b;
      SplitConcat(a[1..], b, d);
    }
  }

  /** `split` undoes `join` when no piece contains the separator. */
  lemma {:induction false} SplitJoin(xs: seq<string>, d: char)
    requires |xs| > 0
    requires forall i :: 0 <= i < |xs| ==> d !in xs[i]
    ensures Split(Join(xs, [d]), d) == xs
    decreases |xs|
  {
    SplitNoSeparator(xs[0], d);
    if |xs| > 1 {
      SplitConcat(xs[0], Join(xs[1..], [d]), d);
      SplitJoin(xs[1..], d);
    }
  }

  // ---------------------------------------------------------------------
  // replace(pat, "") and split(sep, 1)[1]
  // ---------------------------------------------------------------------

  /** `s.replace(pat, "")`: scanning left to right, every non-overlapping
      occurrence of `pat` is removed; the text is not rescanned. */
  function RemoveAll(s: string, pat: string): (r: string)
    requires |pat| > 0
    ensures |r| <= |s|
    ensures forall c :: c !in pat ==> (c in r <==> c in s)
    decreases |s|
  {
    if |s| < |pat| then s
    else if s[..|pat|] == pat then
      var r := RemoveAll(s[|pat|..], pat);
      assert s == s[..|pat|] + s[|pat|..];
      r
    else
      var r := RemoveAll(s[1..], pat);
      assert s == [s[0]] + s[1..];
      [s[0]] + r
  }

  /** Removing a pattern whose first character does not occur in `x` from
      `x + pat` removes exactly the trailing `pat`. */
  lemma {:induction false} RemoveAllSuffix(x: string, pat: string)
    requires |pat| > 0 && pat[0] !in x
    ensures RemoveAll(x + pat, pat) == x
    decreases |x|
  {
    var s := x + pat;
    if |x| == 0 {
      assert s == pat && s[|pat|..] == "";
    } else {
      assert s[0] == x[0] != pat[0];
      assert s[..|pat|] != pat;
      assert s[1..] == x[1..] + pat;
      RemoveAllSuffix(x[1..], pat);
      assert x == [x[0]] + x[1..];
    }
  }

  /** Text in which the pattern does not occur is left unchanged. */
  lemma {:induction false} RemoveAllAbsent(s: string, pat: string)
    requires |pat| > 0 && !Contains(s, pat)
    ensures RemoveAll(s, pat) == s
    decreases |s|
  {
    if |s| >= |pat| {
      assert !OccursAt(s, pat, 0);
      assert !Contains(s[1..], pat) by {
        forall i | 0 <= i <= |s[1..]| - |pat|
          ensures !OccursAt(s[1..], pat, i)
        {
          assert s[1..][i..i + |pat|] == s[i + 1..i + 1 + |pat|];
          assert !OccursAt(s, pat, i + 1);
        }
      }
      RemoveAllAbsent(s[1..], pat);
      assert s == [s[0]] + s[1..];
    }
  }

  /** A leading occurrence is dropped and the scan resumes after it. */
  lemma RemoveAllHit(pat: string, y: string)
    requires |pat| > 0
    ensures RemoveAll(pat + y, pat) == RemoveAll(y, pat)
  {
    var s := pat + y;
    assert s[..|pat|] == pat && s[|pat|..] == y;
  }

  /** A first character at which the pattern does not start is kept, and the
      scan resumes at the next character. */
  lemma RemoveAllKeep(s: string, pat: string)
    requires |pat| > 0 && |s| > 0 && (|s| < |pat| || s[..|pat|] != pat)
    ensures RemoveAll(s, pat) == [s[0]] + RemoveAll(s[1..], pat)
  {
    if |s| < |pat| {
      assert s == [s[0]] + s[1..];
    }
  }

  /** The first occurrence is removed when nothing before it can start the
      pattern, and the scan resumes right after it. */
  lemma {:induction false} RemoveAllFirst(x: string, pat: string, y: string)
    requires |pat| > 0 && pat[0] !in x
    ensures RemoveAll(x + pat + y, pat) == x + RemoveAll(y, pat)
    decreases |x|
  {
    if |x| == 0 {
      assert x + pat + y == pat + y;
      RemoveAllHit(pat, y);
    } else {
      var s := x + pat + y;
      assert s[0] == x[0] && s[1..] == x[1..] + pat + y;
      assert |s| >= |pat| && s[..|pat|][0] == s[0] != pat[0];
      RemoveAllKeep(s, pat);
      RemoveAllFirst(x[1..], pat, y);
      assert x == [x[0]] + x[1..];
    }
  }

  /** `s.split(c, 1)[1]`: the text after the first `c`, or `None` where
      Python raises IndexError because `c` does not occur. */
  function AfterFirst(s: string, c: char): (r: Option<string>)
    ensures r.None? <==> c !in s
    ensures r.Some? ==> |r.value| < |s| && r.value == s[|s| - |r.value|..]
    ensures r.Some? ==> s[|s| - |r.value| - 1] == c
    ensures r.Some? ==> forall j :: 0 <= j < |s| - |r.value| - 1 ==> s[j] != c
    decreases |s|
  {
    if |s| == 0 then None
    else if s[0] == c then Some(s[1..])
    else
      match AfterFirst(s[1..], c)
      case None => None
      case Some(rest) => Some(rest)
  }

  lemma AfterFirstOf(a: string, c: char, b: string)
    requires c !in a
    ensures AfterFirst(a + [c] + b, c) == Some(b)
  {
    var s := a + [c] + b;
    assert s[|a|] == c;
    var r := AfterFirst(s, c);
    forall j | 0 <= j < |a|
      ensures s[j] != c
    {
      assert s[j] == a[j];
    }
    assert r.value == s[|a| + 1..] == b;
  }

  // ---------------------------------------------------------------------
  // upper(), lower(), endswith, `in`, os.path.basename
  // ---------------------------------------------------------------------

  function UpperChar(c: char): char
  {
    if 'a' <= c <= 'z' then (c as int - 32) as char else c
  }

  function LowerChar(c: char): char
  {
    if 'A' <= c <= 'Z' then (c as int + 32) as char else c
  }

  /** `upper()` on ASCII letters; every other character is kept, so no
      lower-case ASCII letter is left. */
  function Upper(s: string): (r: string)
    ensures |r| == |s|
    ensures forall i :: 0 <= i < |s| ==> r[i] == UpperChar(s[i])
    ensures forall i :: 0 <= i < |r| ==> !('a' <= r[i] <= 'z')
    decreases |s|
  {
    if |s| == 0 then ""
    else
      var r := [UpperChar(s[0])] + Upper(s[1..]);
      assert forall i :: 0 < i < |s| ==> r[i] == Upper(s[1..])[i - 1] && s[i] == s[1..][i - 1];
      r
  }

  /** `lower()` on ASCII letters; every other character is kept, so no
      upper-case ASCII letter is left. */
  function Lower(s: string): (r: string)
    ensures |r| == |s|
    ensures forall i :: 0 <= i < |s| ==> r[i] == LowerChar(s[i])
    ensures forall i :: 0 <= i < |r| ==> !('A' <= r[i] <= 'Z')
    decreases |s|
  {
    if |s| == 0 then ""
    else
      var r := [LowerChar(s[0])] + Lower(s[1..]);
      assert forall i :: 0 < i < |s| ==> r[i] == Lower(s[1..])[i - 1] && s[i] == s[1..][i - 1];
      r
  }

  /** `t` agrees with `s` upper-cased from position `i` on; checked one index
      at a time, which keeps concrete names cheap to check. */
  predicate UpperFrom(s: string, t: string, i: nat)
    requires |s| == |t| && i <= |s|
    decreases |s| - i
  {
    i == |s| || (UpperChar(s[i]) == t[i] && UpperFrom(s, t, i + 1))
  }

  /** `t` agrees with `s` lower-cased from position `i` on. */
  predicate LowerFrom(s: string, t: string, i: nat)
    requires |s| == |t| && i <= |s|
    decreases |s| - i
  {
    i == |s| || (LowerChar(s[i]) == t[i] && LowerFrom(s, t, i + 1))
  }

  lemma {:induction false} UpperFromAt(s: string, t: string, i: nat)
    requires |s| == |t| && i <= |s| && UpperFrom(s, t, i)
    ensures forall j :: i <= j < |s| ==> UpperChar(s[j]) == t[j]
    decreases |s| - i
  {
    if i < |s| {
      UpperFromAt(s, t, i + 1);
    }
  }

  lemma {:induction false} LowerFromAt(s: string, t: string, i: nat)
    requires |s| == |t| && i <= |s| && LowerFrom(s, t, i)
    ensures forall j :: i <= j < |s| ==> LowerChar(s[j]) == t[j]
    decreases |s| - i
  {
    if i < |s| {
      LowerFromAt(s, t, i + 1);
    }
  }

  /** The index-wise check is exactly `upper()`. */
  lemma UpperByIndex(s: string, t: string)
    requires |s| == |t| && UpperFrom(s, t, 0)
    ensures Upper(s) == t
  {
    UpperFromAt(s, t, 0);
  }

  /** The index-wise check is exactly `lower()`. */
  lemma LowerByIndex(s: string, t: string)
    requires |s| == |t| && LowerFrom(s, t, 0)
    ensures Lower(s) == t
  {
    LowerFromAt(s, t, 0);
  }

  /** `s.endswith(suffix)`: `s` is some text followed by `suffix`. */
  predicate EndsWith(s: string, suffix: string)
    ensures EndsWith(s, suffix) ==> |suffix| <= |s| && s == s[..|s| - |suffix|] + suffix
  {
    |suffix| <= |s| && s[|s| - |suffix|..] == suffix
  }

  /** Any text followed by `suffix` ends with it. */
  lemma EndsWithAppend(x: string, suffix: string)
    ensures EndsWith(x + suffix, suffix)
  {
    assert (x + suffix)[|x|..] == suffix;
  }

  predicate OccursAt(s: string, p: string, i: int)
  {
    0 <= i <= |s| - |p| && s[i..i + |p|] == p
  }

  /** `p in s` for strings: `p` is a contiguous substring of `s`. */
  predicate Contains(s: string, p: string)
  {
    exists i | 0 <= i <= |s| - |p| :: OccursAt(s, p, i)
  }

  /** `p` and `s` shifted by `i` differ at some position `j` or later. */
  predicate DiffersFrom(s: string, p: string, i: nat, j: nat)
    requires i + |p| <= |s| && j <= |p|
    decreases |p| - j
  {
    j < |p| && (s[i + j] != p[j] || DiffersFrom(s, p, i, j + 1))
  }

  /** `p` occurs in `s` at no position `i` or later; checked one position at
      a time, which keeps concrete strings cheap to check. */
  predicate AbsentFrom(s: string, p: string, i: nat)
    decreases |s| - i
  {
    i + |p| > |s| || (DiffersFrom(s, p, i, 0) && AbsentFrom(s, p, i + 1))
  }

  lemma {:induction false} DiffersFromAt(s: string, p: string, i: nat, j: nat)
    requires i + |p| <= |s| && j <= |p| && DiffersFrom(s, p, i, j)
    ensures s[i..i + |p|] != p
    decreases |p| - j
  {
    if s[i + j] != p[j] {
      assert s[i..i + |p|][j] == s[i + j];
    } else {
      DiffersFromAt(s, p, i, j + 1);
    }
  }

  lemma {:induction false} AbsentFromAt(s: string, p: string, i: nat)
    requires AbsentFrom(s, p, i)
    ensures forall k :: i <= k <= |s| - |p| ==> !OccursAt(s, p, k)
    decreases |s| - i
  {
    if i + |p| <= |s| {
      DiffersFromAt(s, p, i, 0);
      AbsentFromAt(s, p, i + 1);
    }
  }

  /** The position-wise check shows `p not in s`. */
  lemma AbsentNotContained(s: string, p: string)
    requires AbsentFrom(s, p, 0)
    ensures !Contains(s, p)
  {
    AbsentFromAt(s, p, 0);
  }

  /** A substring of `x + y` longer than `y`, that does not contain `y`'s
      first character, lies inside `x`. */
  lemma ContainsInPrefix(x: string, y: string, p: string)
    requires |y| > 0 && y[0] !in p && |p| > |y|
    requires Contains(x + y, p)
    ensures Contains(x, p)
  {
    var s := x + y;
    var i :| 0 <= i <= |s| - |p| && OccursAt(s, p, i);
    forall j | i <= j < i + |p|
      ensures s[j] != y[0]
    {
      assert s[j] == s[i..i + |p|][j - i] == p[j - i];
    }
    assert s[|x|] == y[0];
    assert s[i..i + |p|] == x[i..i + |p|];
    assert OccursAt(x, p, i);
  }

  lemma ContainsPrefixOf(x: string, y: string)
    ensures Contains(x + y, x)
  {
    assert (x + y)[0..|x|] == x;
    assert OccursAt(x + y, x, 0);
  }

  /** `os.path.basename` for POSIX paths: the longest suffix without `/`. */
  function Basename(p: string): (r: string)
    ensures '/' !in r
    ensures |r| <= |p| && r == p[|p| - |r|..]
    ensures |r| < |p| ==> p[|p| - |r| - 1] == '/'
  {
    if |p| == 0 || p[|p| - 1] == '/' then ""
    else
      var q := p[..|p| - 1];
      var b := Basename(q);
      var r := b + [p[|p| - 1]];
      assert q[|q| - |b|..] == b;
      assert p[|p| - |r|..] == q[|q| - |b|..] + [p[|p| - 1]];
      assert |r| < |p| ==> p[|p| - |r| - 1] == q[|q| - |b| - 1];
      r
  }

  /** The basename is the part after the last `/`. */
  lemma BasenameAfterSlash(p: string, n: nat)
    requires n < |p| && p[|p| - n - 1] == '/'
    requires forall k :: |p| - n <= k < |p| ==> p[k] != '/'
    ensures Basename(p) == p[|p| - n..]
  {
    var r := Basename(p);
    forall k | |p| - |r| <= k < |p|
      ensures p[k] != '/'
    {
      assert p[k] == r[k - (|p| - |r|)];
    }
    assert |r| <= n;
    assert |r| >= n;
  }

  /** The directory part does not affect the basename. */
  lemma BasenameOfJoin(dir: string, f: string)
    requires '/' !in f
    ensures Basename(dir + "/" + f) == f
  {
    var p := dir + "/" + f;
    assert p[|p| - |f| - 1] == '/';
    assert p[|p| - |f|..] == f;
    forall k | |p| - |f| <= k < |p|
      ensures p[k] != '/'
    {
      assert p[k] == f[k - (|p| - |f|)];
    }
    BasenameAfterSlash(p, |f|);
  }

  lemma BasenameOfName(f: string)
    requires '/' !in f
    ensures Basename(f) == f
  {
    var r := Basename(f);
    forall k | 0 <= k < |f|
      ensures f[k] != '/'
    {
    }
  }
}
