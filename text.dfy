/**
 * The string operations the source performs with `str` methods:
 * `lower()`, `strip()`, `startswith`, `in`, `replace` and `split("/")[-1]`.
 * Blanks are Python's full `isspace()` set; case mapping covers ASCII
 * letters only, and other characters are kept as they are.
 */
module Text {

  /** `str.isspace()`, which is also the regex class `\s` on `str` patterns. */
  predicate IsSpace(c: char) {
    if c < '\U{80}' then c == ' ' || '\t' <= c <= '\r' || '\U{1C}' <= c <= '\U{1F}'
    else (c == '\U{85}' || c == '\U{A0}' || c == '\U{1680}' || '\U{2000}' <= c <= '\U{200A}'
      || c == '\U{2028}' || c == '\U{2029}' || c == '\U{202F}' || c == '\U{205F}' || c == '\U{3000}')
  }

  predicate IsUpper(c: char) { 'A' <= c <= 'Z' }

  /** The regex class `\d` on ASCII characters. */
  predicate IsDigit(c: char) { '0' <= c <= '9' }

  /** The regex class `\w` on ASCII characters. */
  predicate IsWordChar(c: char) {
    IsDigit(c) || 'a' <= c <= 'z' || IsUpper(c) || c == '_'
  }

  /**
   * The character classes the source strips or collapses; `Separator`
   * (blank, underscore or hyphen) is what its two collapsing passes treat
   * alike.
   */
  datatype CharClass = Blank | Hyphen | BlankOrUnderscore | Digit | Separator

  predicate InClass(c: char, k: CharClass) {
    match k
    case Blank => IsSpace(c)
    case Hyphen => c == '-'
    case BlankOrUnderscore => IsSpace(c) || c == '_'
    case Digit => IsDigit(c)
    case Separator => IsSpace(c) || c == '_' || c == '-'
  }

  function Lower(c: char): (r: char)
    ensures !IsUpper(r)
    ensures IsUpper(c) ==> r as int == c as int + 32
    ensures !IsUpper(c) ==> r == c
  {
    if IsUpper(c) then (c as int + 32) as char else c
  }

  /** `s.lower()` */
  function LowerStr(s: string): (r: string)
    ensures |r| == |s|
    ensures forall i :: 0 <= i < |s| ==> r[i] == Lower(s[i])
  {
    if s == [] then [] else [Lower(s[0])] + LowerStr(s[1..])
  }

  /** Drops the leading characters of class `drop` (`lstrip`). */
  function TrimStart(s: string, drop: CharClass): (r: string)
    ensures |r| <= |s| && r == s[|s| - |r|..]
    ensures forall k :: 0 <= k < |s| - |r| ==> InClass(s[k], drop)
    ensures r == [] || !InClass(r[0], drop)
  {
    if s != [] && InClass(s[0], drop) then TrimStart(s[1..], drop) else s
  }

  /** Drops the trailing characters of class `drop` (`rstrip`). */
  function TrimEnd(s: string, drop: CharClass): (r: string)
    ensures |r| <= |s| && r == s[..|r|]
    ensures forall k :: |r| <= k < |s| ==> InClass(s[k], drop)
    ensures r == [] || !InClass(r[|r| - 1], drop)
  {
    if s != [] && InClass(s[|s| - 1], drop) then TrimEnd(s[..|s| - 1], drop) else s
  }

  /** `s.strip()` with the default whitespace set. */
  function Strip(s: string): (r: string)
    ensures r == [] || (!IsSpace(r[0]) && !IsSpace(r[|r| - 1]))
    ensures forall c :: c in r ==> c in s
  {
    TrimEnd(TrimStart(s, Blank), Blank)
  }

  /** `s.strip("-")` */
  function StripHyphens(s: string): (r: string)
    ensures r == [] || (r[0] != '-' && r[|r| - 1] != '-')
    ensures forall c :: c in r ==> c in s
  {
    TrimEnd(TrimStart(s, Hyphen), Hyphen)
  }

  predicate StartsWith(s: string, p: string) {
    |p| <= |s| && s[..|p|] == p
  }

  predicate EndsWith(s: string, p: string) {
    |p| <= |s| && s[|s| - |p|..] == p
  }

  lemma {:induction false} StartsWithTransitive(a: string, b: string, c: string)
    requires StartsWith(a, b) && StartsWith(b, c)
    ensures StartsWith(a, c)
  {
    assert a[..|c|] == b[..|c|];
  }

  /** `t in s` for strings. */
  predicate Contains(s: string, t: string)
    decreases |s|
  {
    StartsWith(s, t) || (s != [] && Contains(s[1..], t))
  }

  /** `s.removeprefix(p)` and the regex `^p` replaced by "". */
  function RemovePrefix(s: string, p: string): (r: string)
    ensures StartsWith(s, p) ==> s == p + r
    ensures !StartsWith(s, p) ==> r == s
  {
    if StartsWith(s, p) then s[|p|..] else s
  }

  /** `s.replace(a, b)` for a single character `a` replaced by a single character `b`. */
  function ReplaceChar(s: string, a: char, b: char): (r: string)
    ensures |r| == |s|
    ensures forall i :: 0 <= i < |s| ==> r[i] == (if s[i] == a then b else s[i])
    ensures forall c :: c in r ==> c == b || c in s
    ensures a != b ==> a !in r
  {
    if s == [] then [] else [if s[0] == a then b else s[0]] + ReplaceChar(s[1..], a, b)
  }

  /** `s.replace(a, t)` for a single character `a` replaced by the string `t`. */
  function ReplaceCharBy(s: string, a: char, t: string): (r: string)
    ensures a !in t ==> a !in r
  {
    if s == [] then [] else (if s[0] == a then t else [s[0]]) + ReplaceCharBy(s[1..], a, t)
  }

  /** `s.split("/")[-1]`: the text after the last "/", or all of `s` when it has none. */
  function LastSegment(s: string): (r: string)
    ensures '/' !in r
    ensures forall c :: c in r ==> c in s
    ensures |r| <= |s| && r == s[|s| - |r|..]
    ensures |r| < |s| ==> s[|s| - |r| - 1] == '/'
    ensures '/' !in s ==> r == s
  {
    if s == [] then []
    else if s[|s| - 1] == '/' then []
    else LastSegment(s[..|s| - 1]) + [s[|s| - 1]]
  }

  /** `s.split("/")[0]`: the text before the first "/", or all of `s` when it has none. */
  function FirstSegment(s: string): (r: string)
    ensures '/' !in r
    ensures |r| <= |s| && r == s[..|r|]
    ensures |r| < |s| ==> s[|r|] == '/'
  {
    if s == [] || s[0] == '/' then [] else [s[0]] + FirstSegment(s[1..])
  }

  /** Length of the longest prefix of `s` whose characters are all of class `p`. */
  function RunLength(s: string, p: CharClass): (n: nat)
    ensures n <= |s|
    ensures forall k :: 0 <= k < n ==> InClass(s[k], p)
    ensures n < |s| ==> !InClass(s[n], p)
  {
    if s != [] && InClass(s[0], p) then 1 + RunLength(s[1..], p) else 0
  }

  /**
   * `re.sub(r"[<sep>]+", "-", s)`: every maximal run of characters of
   * class `sep` becomes a single "-".
   */
  function CollapseRuns(s: string, sep: CharClass): (r: string)
    ensures forall c :: c in r ==> c == '-' || (c in s && !InClass(c, sep))
    ensures InClass('-', sep) ==> forall i :: 0 <= i < |r| - 1 ==> !(r[i] == '-' && r[i + 1] == '-')
    ensures |r| <= |s|
    ensures s != [] && !InClass(s[0], sep) ==> r != [] && r[0] == s[0]
    decreases |s|
  {
    if s == [] then []
    else if InClass(s[0], sep) then
      var rest := s[RunLength(s, sep)..];
      assert rest == [] || !InClass(rest[0], sep);
      "-" + CollapseRuns(rest, sep)
    else [s[0]] + CollapseRuns(s[1..], sep)
  }

  /** `s.count(c)` for a single character. */
  function Occurrences(s: string, c: char): (n: nat)
    ensures n <= |s|
    ensures c !in s ==> n == 0
  {
    if s == [] then 0 else (if s[0] == c then 1 else 0) + Occurrences(s[1..], c)
  }

  // ---- how the operations above distribute over concatenation ----

  lemma {:induction false} AppendAssoc<T>(a: seq<T>, b: seq<T>, c: seq<T>)
    ensures a + (b + c) == (a + b) + c
  {
  }

  lemma {:induction false} TrimStartAppend(x: string, y: string, drop: CharClass)
    requires y != [] && !InClass(y[0], drop)
    ensures TrimStart(x + y, drop) == TrimStart(x, drop) + y
  {
    var s, r, r0 := x + y, TrimStart(x + y, drop), TrimStart(x, drop);
    var n, n0 := |s| - |r|, |x| - |r0|;
    assert s[|x|] == y[0];
    if n < |x| { assert s[n] == x[n]; }
    if n0 < |x| { assert s[n0] == x[n0]; }
    assert n == n0;
    assert s[n..] == x[n..] + y;
  }

  lemma {:induction false} TrimEndAppend(x: string, y: string, drop: CharClass)
    requires y != [] && !InClass(y[0], drop)
    ensures TrimEnd(x + y, drop) == x + TrimEnd(y, drop)
  {
    var s, r, r0 := x + y, TrimEnd(x + y, drop), TrimEnd(y, drop);
    assert s[|x|] == y[0];
    assert |r| > |x| && r0 != [];
    var m, m0 := |r|, |x| + |r0|;
    assert s[m0 - 1] == y[|r0| - 1];
    assert s[m - 1] == y[m - 1 - |x|];
    assert m == m0;
    assert s[..m] == x + y[..|r0|];
  }

  /** `strip()` of a concatenation whose right part starts with a non-blank. */
  lemma {:induction false} StripAppend(x: string, y: string)
    requires y != [] && !IsSpace(y[0])
    ensures Strip(x + y) == TrimStart(x, Blank) + TrimEnd(y, Blank)
  {
    TrimStartAppend(x, y, Blank);
    TrimEndAppend(TrimStart(x, Blank), y, Blank);
  }

  lemma {:induction false} LowerStrAppend(x: string, y: string)
    ensures LowerStr(x + y) == LowerStr(x) + LowerStr(y)
  {
    var l, r := LowerStr(x + y), LowerStr(x) + LowerStr(y);
    assert |l| == |r|;
    forall i | 0 <= i < |l| ensures l[i] == r[i] {
      if i < |x| { assert (x + y)[i] == x[i]; } else { assert (x + y)[i] == y[i - |x|]; }
    }
  }

  lemma {:induction false} ReplaceCharAppend(x: string, y: string, a: char, b: char)
    ensures ReplaceChar(x + y, a, b) == ReplaceChar(x, a, b) + ReplaceChar(y, a, b)
  {
    var l, r := ReplaceChar(x + y, a, b), ReplaceChar(x, a, b) + ReplaceChar(y, a, b);
    assert |l| == |r|;
    forall i | 0 <= i < |l| ensures l[i] == r[i] {
      if i < |x| { assert (x + y)[i] == x[i]; } else { assert (x + y)[i] == y[i - |x|]; }
    }
  }

  /** The segment after a "/" is all that `split("/")[-1]` keeps. */
  lemma {:induction false} LastSegmentAfterSlash(w: string, m: string)
    requires '/' !in m
    requires w == [] || w[|w| - 1] == '/'
    ensures LastSegment(w + m) == m
  {
    if m == [] {
      assert w + m == w;
    } else {
      var init, last := m[..|m| - 1], m[|m| - 1];
      assert last in m;
      assert w + m == (w + init) + [last];
      LastSegmentSnoc(w + init, last);
      LastSegmentAfterSlash(w, init);
      assert init + [last] == m;
    }
  }

  lemma {:induction false} LastSegmentSnoc(x: string, c: char)
    requires c != '/'
    ensures LastSegment(x + [c]) == LastSegment(x) + [c]
  {
    var s := x + [c];
    assert s[..|s| - 1] == x && s[|s| - 1] == c;
  }

  // ---- lower-casing, and what it leaves alone ----

  /** Lower-casing twice is lower-casing once. */
  lemma {:induction false} LowerStrIdempotent(s: string)
    ensures LowerStr(LowerStr(s)) == LowerStr(s)
  {
    var once := LowerStr(s);
    var twice := LowerStr(once);
    forall i | 0 <= i < |s| ensures twice[i] == once[i] {
      assert !IsUpper(once[i]);
    }
  }

  /** A string with no upper-case letter is its own lower-case form. */
  lemma {:induction false} LowerStrOfLower(s: string)
    requires forall c :: c in s ==> !IsUpper(c)
    ensures LowerStr(s) == s
  {
    var l := LowerStr(s);
    forall i | 0 <= i < |s| ensures l[i] == s[i] {
      assert s[i] in s;
    }
  }

  lemma {:induction false} LowerStrSlice(s: string, i: nat, j: nat)
    requires i <= j <= |s|
    ensures LowerStr(s)[i..j] == LowerStr(s[i..j])
  {
    var a, b := LowerStr(s)[i..j], LowerStr(s[i..j]);
    forall k | 0 <= k < j - i ensures a[k] == b[k] {
      assert s[i..j][k] == s[i + k];
    }
  }

  lemma {:induction false} ReplaceCharSlice(s: string, i: nat, j: nat, a: char, b: char)
    requires i <= j <= |s|
    ensures ReplaceChar(s, a, b)[i..j] == ReplaceChar(s[i..j], a, b)
  {
    var l, r := ReplaceChar(s, a, b)[i..j], ReplaceChar(s[i..j], a, b);
    forall k | 0 <= k < j - i ensures l[k] == r[k] {
      assert s[i..j][k] == s[i + k];
    }
  }

  // ---- trimming strings whose characters fall in the same classes ----

  /** `s` and `t` have the same length and agree, position by position, on membership in `k`. */
  predicate SameClasses(s: string, t: string, k: CharClass) {
    |s| == |t| && forall i :: 0 <= i < |s| ==> (InClass(s[i], k) <==> InClass(t[i], k))
  }

  lemma {:induction false} SameClassesSlice(s: string, t: string, k: CharClass, i: nat, j: nat)
    requires SameClasses(s, t, k) && i <= j <= |s|
    ensures SameClasses(s[i..j], t[i..j], k)
  {
    forall m | 0 <= m < j - i ensures InClass(s[i..j][m], k) <==> InClass(t[i..j][m], k) {
      assert s[i..j][m] == s[i + m] && t[i..j][m] == t[i + m];
    }
  }

  /** `s.lower().strip() == s.strip().lower()`: lower-casing never makes or unmakes a blank. */
  lemma {:induction false} StripLower(s: string)
    ensures Strip(LowerStr(s)) == LowerStr(Strip(s))
  {
    TrimStartLower(s);
    TrimEndLower(TrimStart(s, Blank));
  }

  /** One step of `TrimStart` and of `TrimEnd`, spelled out. */
  lemma {:induction false} TrimStep(s: string)
    requires s != []
    ensures TrimStart(s, Blank) == if IsSpace(s[0]) then TrimStart(s[1..], Blank) else s
    ensures TrimEnd(s, Blank) == if IsSpace(s[|s| - 1]) then TrimEnd(s[..|s| - 1], Blank) else s
  {
  }

  lemma {:induction false} LowerStrEnds(s: string)
    requires s != []
    ensures LowerStr(s)[1..] == LowerStr(s[1..])
    ensures LowerStr(s)[..|s| - 1] == LowerStr(s[..|s| - 1])
    ensures IsSpace(LowerStr(s)[0]) == IsSpace(s[0])
    ensures IsSpace(LowerStr(s)[|s| - 1]) == IsSpace(s[|s| - 1])
  {
    LowerStrSlice(s, 0, |s| - 1);
  }

  lemma {:induction false} TrimStartLower(s: string)
    ensures TrimStart(LowerStr(s), Blank) == LowerStr(TrimStart(s, Blank))
    decreases |s|
  {
    if s != [] {
      var l := LowerStr(s);
      LowerStrEnds(s);
      TrimStep(s);
      TrimStep(l);
      if IsSpace(s[0]) {
        TrimStartLower(s[1..]);
      }
    }
  }

  lemma {:induction false} TrimEndLower(s: string)
    ensures TrimEnd(LowerStr(s), Blank) == LowerStr(TrimEnd(s, Blank))
    decreases |s|
  {
    if s != [] {
      var l := LowerStr(s);
      LowerStrEnds(s);
      TrimStep(s);
      TrimStep(l);
      if IsSpace(s[|s| - 1]) {
        TrimEndLower(s[..|s| - 1]);
      }
    }
  }

  /** Replacing one non-blank character by another commutes with `strip()`. */
  lemma {:induction false} StripReplace(s: string, a: char, b: char)
    requires !IsSpace(a) && !IsSpace(b)
    ensures Strip(ReplaceChar(s, a, b)) == ReplaceChar(Strip(s), a, b)
  {
    TrimStartReplace(s, a, b);
    TrimEndReplace(TrimStart(s, Blank), a, b);
  }

  lemma {:induction false} ReplaceCharEnds(s: string, a: char, b: char)
    requires !IsSpace(a) && !IsSpace(b) && s != []
    ensures ReplaceChar(s, a, b)[1..] == ReplaceChar(s[1..], a, b)
    ensures ReplaceChar(s, a, b)[..|s| - 1] == ReplaceChar(s[..|s| - 1], a, b)
    ensures IsSpace(ReplaceChar(s, a, b)[0]) == IsSpace(s[0])
    ensures IsSpace(ReplaceChar(s, a, b)[|s| - 1]) == IsSpace(s[|s| - 1])
  {
    ReplaceCharSlice(s, 0, |s| - 1, a, b);
  }

  lemma {:induction false} TrimStartReplace(s: string, a: char, b: char)
    requires !IsSpace(a) && !IsSpace(b)
    ensures TrimStart(ReplaceChar(s, a, b), Blank) == ReplaceChar(TrimStart(s, Blank), a, b)
    decreases |s|
  {
    if s != [] {
      var r := ReplaceChar(s, a, b);
      ReplaceCharEnds(s, a, b);
      TrimStep(s);
      TrimStep(r);
      if IsSpace(s[0]) {
        TrimStartReplace(s[1..], a, b);
      }
    }
  }

  lemma {:induction false} TrimEndReplace(s: string, a: char, b: char)
    requires !IsSpace(a) && !IsSpace(b)
    ensures TrimEnd(ReplaceChar(s, a, b), Blank) == ReplaceChar(TrimEnd(s, Blank), a, b)
    decreases |s|
  {
    if s != [] {
      var r := ReplaceChar(s, a, b);
      ReplaceCharEnds(s, a, b);
      TrimStep(s);
      TrimStep(r);
      if IsSpace(s[|s| - 1]) {
        TrimEndReplace(s[..|s| - 1], a, b);
      }
    }
  }

  // ---- `in` on strings, by position ----

  lemma {:induction false} ContainsAt(s: string, t: string) returns (i: nat)
    requires Contains(s, t)
    ensures i + |t| <= |s| && s[i..i + |t|] == t
    decreases |s|
  {
    if StartsWith(s, t) {
      i := 0;
    } else {
      var j := ContainsAt(s[1..], t);
      i := j + 1;
      assert s[1..][j..j + |t|] == s[i..i + |t|];
    }
  }

  lemma {:induction false} AtContains(s: string, t: string, i: nat)
    requires i + |t| <= |s| && s[i..i + |t|] == t
    ensures Contains(s, t)
    decreases i
  {
    if i > 0 {
      assert s[1..][i - 1..i - 1 + |t|] == t;
      AtContains(s[1..], t, i - 1);
    }
  }

  lemma {:induction false} RunLengthSameClasses(s: string, t: string, k: CharClass)
    requires SameClasses(s, t, k)
    ensures RunLength(s, k) == RunLength(t, k)
    decreases |s|
  {
    if s != [] && InClass(s[0], k) {
      SameClassesSlice(s, t, k, 1, |s|);
      RunLengthSameClasses(s[1..], t[1..], k);
    }
  }

  /** One step of `CollapseRuns` at a run of `sep`. */
  lemma {:induction false} CollapseRunsAtRun(s: string, sep: CharClass)
    requires s != [] && InClass(s[0], sep)
    ensures CollapseRuns(s, sep) == "-" + CollapseRuns(s[RunLength(s, sep)..], sep)
  {
  }

  /** One step of `CollapseRuns` at a character outside `sep`. */
  lemma {:induction false} CollapseRunsAtOther(s: string, sep: CharClass)
    requires s != [] && !InClass(s[0], sep)
    ensures CollapseRuns(s, sep) == [s[0]] + CollapseRuns(s[1..], sep)
  {
  }

  /** A string with no character of class `sep` has no run to collapse. */
  lemma {:induction false} CollapseRunsWithoutSeparator(s: string, sep: CharClass)
    requires forall i :: 0 <= i < |s| ==> !InClass(s[i], sep)
    ensures CollapseRuns(s, sep) == s
    decreases |s|
  {
    if s != [] {
      CollapseRunsWithoutSeparator(s[1..], sep);
    }
  }

  // ---- what the rewrites keep of a character outside the rewritten class ----

  lemma {:induction false} OccurrencesAppend(a: string, b: string, c: char)
    ensures Occurrences(a + b, c) == Occurrences(a, c) + Occurrences(b, c)
  {
    if a != [] {
      assert (a + b)[0] == a[0] && (a + b)[1..] == a[1..] + b;
      OccurrencesAppend(a[1..], b, c);
    } else {
      assert a + b == b;
    }
  }

  lemma {:induction false} OccurrencesTrimStart(s: string, drop: CharClass, c: char)
    requires !InClass(c, drop)
    ensures Occurrences(TrimStart(s, drop), c) == Occurrences(s, c)
  {
    if s != [] && InClass(s[0], drop) {
      OccurrencesTrimStart(s[1..], drop, c);
    }
  }

  lemma {:induction false} OccurrencesTrimEnd(s: string, drop: CharClass, c: char)
    requires !InClass(c, drop)
    ensures Occurrences(TrimEnd(s, drop), c) == Occurrences(s, c)
  {
    if s != [] && InClass(s[|s| - 1], drop) {
      var init := s[..|s| - 1];
      assert s == init + [s[|s| - 1]];
      OccurrencesAppend(init, [s[|s| - 1]], c);
      OccurrencesTrimEnd(init, drop, c);
    }
  }

  lemma {:induction false} OccurrencesDropRun(s: string, p: CharClass, c: char)
    requires !InClass(c, p)
    ensures Occurrences(s[RunLength(s, p)..], c) == Occurrences(s, c)
    decreases |s|
  {
    if s != [] && InClass(s[0], p) {
      OccurrencesDropRun(s[1..], p, c);
      assert s[RunLength(s, p)..] == s[1..][RunLength(s[1..], p)..];
    }
  }

  lemma {:induction false} OccurrencesCollapseRuns(s: string, sep: CharClass, c: char)
    requires !InClass(c, sep) && c != '-'
    ensures Occurrences(CollapseRuns(s, sep), c) == Occurrences(s, c)
    decreases |s|
  {
    if s != [] {
      if InClass(s[0], sep) {
        var rest := s[RunLength(s, sep)..];
        OccurrencesDropRun(s, sep, c);
        OccurrencesCollapseRuns(rest, sep, c);
        assert CollapseRuns(s, sep) == "-" + CollapseRuns(rest, sep);
      } else {
        OccurrencesCollapseRuns(s[1..], sep, c);
        assert CollapseRuns(s, sep) == [s[0]] + CollapseRuns(s[1..], sep);
      }
    }
  }

  // ---- one character replaced by another, moved past the other operations ----

  /** Lower-casing commutes with replacing a non-letter by a non-upper-case character. */
  lemma {:induction false} LowerReplace(s: string, a: char, b: char)
    requires !IsUpper(a) && !('a' <= a <= 'z') && !IsUpper(b)
    ensures LowerStr(ReplaceChar(s, a, b)) == ReplaceChar(LowerStr(s), a, b)
  {
    var l, r := LowerStr(ReplaceChar(s, a, b)), ReplaceChar(LowerStr(s), a, b);
    forall i | 0 <= i < |s| ensures l[i] == r[i] {
      assert LowerStr(s)[i] == Lower(s[i]);
    }
  }

  /** Two replacements commute when neither touches what the other reads or writes. */
  lemma {:induction false} ReplaceCharsCommute(s: string, a: char, b: char, c: char, d: char)
    requires a != c && b != c && d != a
    ensures ReplaceChar(ReplaceChar(s, a, b), c, d) == ReplaceChar(ReplaceChar(s, c, d), a, b)
  {
    var l, r := ReplaceChar(ReplaceChar(s, a, b), c, d), ReplaceChar(ReplaceChar(s, c, d), a, b);
    forall i | 0 <= i < |s| ensures l[i] == r[i] {
      assert ReplaceChar(s, a, b)[i] == (if s[i] == a then b else s[i]);
      assert ReplaceChar(s, c, d)[i] == (if s[i] == c then d else s[i]);
    }
  }

  /** `split("/")[-1]` commutes with a replacement that neither reads nor writes "/". */
  lemma {:induction false} LastSegmentReplace(s: string, a: char, b: char)
    requires a != '/' && b != '/'
    ensures LastSegment(ReplaceChar(s, a, b)) == ReplaceChar(LastSegment(s), a, b)
    decreases |s|
  {
    if s != [] {
      if s[|s| - 1] == '/' {
        LastSegmentReplaceAtSlash(s, a, b);
      } else {
        LastSegmentReplace(s[..|s| - 1], a, b);
        LastSegmentReplaceStep(s, a, b);
      }
    }
  }

  lemma {:induction false} LastSegmentReplaceAtSlash(s: string, a: char, b: char)
    requires a != '/' && b != '/' && s != [] && s[|s| - 1] == '/'
    ensures LastSegment(ReplaceChar(s, a, b)) == ReplaceChar(LastSegment(s), a, b)
  {
    var r := ReplaceChar(s, a, b);
    assert r[|s| - 1] == '/';
    assert LastSegment(r) == [];
  }

  lemma {:induction false} LastSegmentReplaceStep(s: string, a: char, b: char)
    requires a != '/' && b != '/' && s != [] && s[|s| - 1] != '/'
    requires LastSegment(ReplaceChar(s[..|s| - 1], a, b)) == ReplaceChar(LastSegment(s[..|s| - 1]), a, b)
    ensures LastSegment(ReplaceChar(s, a, b)) == ReplaceChar(LastSegment(s), a, b)
  {
    var n := |s| - 1;
    var r := ReplaceChar(s, a, b);
    assert r[n] == (if s[n] == a then b else s[n]);
    calc {
      LastSegment(r);
    == { LastSegmentStep(r); }
      LastSegment(r[..n]) + [r[n]];
    == { ReplaceCharPrefix(s, n, a, b); ReplaceCharSingle(s[n], a, b); }
      ReplaceChar(LastSegment(s[..n]), a, b) + ReplaceChar([s[n]], a, b);
    == { ReplaceCharAppend(LastSegment(s[..n]), [s[n]], a, b); }
      ReplaceChar(LastSegment(s[..n]) + [s[n]], a, b);
    == { LastSegmentStep(s); }
      ReplaceChar(LastSegment(s), a, b);
    }
  }

  lemma {:induction false} ReplaceCharSingle(c: char, a: char, b: char)
    ensures ReplaceChar([c], a, b) == [if c == a then b else c]
  {
    assert [c][1..] == [];
  }

  lemma {:induction false} LastSegmentStep(s: string)
    requires s != [] && s[|s| - 1] != '/'
    ensures LastSegment(s) == LastSegment(s[..|s| - 1]) + [s[|s| - 1]]
  {
  }

  lemma {:induction false} ReplaceCharPrefix(s: string, n: nat, a: char, b: char)
    requires n <= |s|
    ensures ReplaceChar(s, a, b)[..n] == ReplaceChar(s[..n], a, b)
  {
    ReplaceCharSlice(s, 0, n, a, b);
    assert ReplaceChar(s, a, b)[..n] == ReplaceChar(s, a, b)[0..n] && s[..n] == s[0..n];
  }
}
