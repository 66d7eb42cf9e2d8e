/**
 * The regular-expression rewrites shared by the model-name canonicaliser and
 * the pricing key helpers, each written out as a function on character
 * sequences. `\d`, `\w` and `\s` are taken over the characters `Text`
 * classifies.
 */
module Patterns {
  import opened Wrappers
  import opened Text

  // ---- ^(models?|model)[:/] ----

  predicate IsPrefixSeparator(c: char, slashToo: bool) {
    c == ':' || (slashToo && c == '/')
  }

  /**
   * `re.sub(r"^(models?|model)[:/]", "", s)` when `slashToo`, and the
   * colon-only form `^(models?|model):` otherwise.
   */
  function StripModelPrefix(s: string, slashToo: bool): (r: string)
    ensures |r| <= |s| && r == s[|s| - |r|..]
    ensures forall c :: c in r ==> c in s
    ensures r != s ==> (s[..|s| - |r|] == "model" + [s[|s| - |r| - 1]] || s[..|s| - |r|] == "models" + [s[|s| - |r| - 1]])
    ensures r != s ==> IsPrefixSeparator(s[|s| - |r| - 1], slashToo)
    ensures (StartsWith(s, "model:") || StartsWith(s, "models:")) ==> r != s
    ensures !slashToo ==> '/' !in s[..|s| - |r|]
  {
    if |s| >= 7 && s[..6] == "models" && IsPrefixSeparator(s[6], slashToo) then s[7..]
    else if |s| >= 6 && s[..5] == "model" && IsPrefixSeparator(s[5], slashToo) then s[6..]
    else s
  }

  lemma {:induction false} StripModelPrefixWithoutHead(s: string)
    requires '/' !in s && !StartsWith(s, "model:") && !StartsWith(s, "models:")
    ensures StripModelPrefix(s, true) == s
  {
    if |s| >= 7 { assert s[6] in s; }
    if |s| >= 6 { assert s[5] in s; }
  }

  /** Spelling an underscore as a hyphen does not create or hide a `model:`/`model/` head. */
  lemma {:induction false} StripModelPrefixReplace(s: string)
    ensures StripModelPrefix(ReplaceChar(s, '_', '-'), true) == ReplaceChar(StripModelPrefix(s, true), '_', '-')
  {
    var r := ReplaceChar(s, '_', '-');
    StripModelPrefixCases(s);
    StripModelPrefixCases(r);
    HeadReplace(s, "models");
    HeadReplace(s, "model");
  }

  /** `^w[:/]` */
  predicate HeadThenSeparator(s: string, w: string) {
    |s| > |w| && s[..|w|] == w && IsPrefixSeparator(s[|w|], true)
  }

  lemma {:induction false} StripModelPrefixCases(s: string)
    ensures StripModelPrefix(s, true)
      == if HeadThenSeparator(s, "models") then s[7..]
         else if HeadThenSeparator(s, "model") then s[6..]
         else s
  {
  }

  lemma {:induction false} HeadReplace(s: string, w: string)
    requires w == "models" || w == "model"
    ensures HeadThenSeparator(ReplaceChar(s, '_', '-'), w) == HeadThenSeparator(s, w)
    ensures |w| < |s| ==> ReplaceChar(s, '_', '-')[|w| + 1..] == ReplaceChar(s[|w| + 1..], '_', '-')
  {
    if |w| < |s| {
      HeadSeparatorReplace(s, w);
      ReplaceCharSuffix(s, |w| + 1, '_');
    }
  }

  lemma {:induction false} HeadSeparatorReplace(s: string, w: string)
    requires w == "models" || w == "model"
    requires |w| < |s|
    ensures HeadThenSeparator(ReplaceChar(s, '_', '-'), w) == HeadThenSeparator(s, w)
  {
    var r := ReplaceChar(s, '_', '-');
    assert r[|w|] == (if s[|w|] == '_' then '-' else s[|w|]);
    ReplaceKeepsHead(s, w, '_', '-');
  }

  /** A head with neither character of a replacement is there after it exactly when it was before. */
  lemma {:induction false} ReplaceKeepsHead(s: string, w: string, a: char, b: char)
    requires a !in w && b !in w
    ensures |w| <= |s| ==> (ReplaceChar(s, a, b)[..|w|] == w <==> s[..|w|] == w)
  {
    if |w| <= |s| {
      var h := s[..|w|];
      ReplaceCharPrefix(s, |w|, a, b);
      var rh := ReplaceChar(h, a, b);
      if h == w {
        forall k | 0 <= k < |w| ensures rh[k] == w[k] {
          assert w[k] in w;
        }
      }
      if rh == w {
        forall k | 0 <= k < |w| ensures h[k] == w[k] {
          assert w[k] in w;
        }
      }
    }
  }

  // ---- [\s_]+ -> "-", -+ -> "-", strip("-") ----

  predicate NoDoubleHyphen(s: string) {
    forall i :: 0 <= i < |s| - 1 ==> !(s[i] == '-' && s[i + 1] == '-')
  }

  lemma {:induction false} NoDoubleHyphenSlice(s: string, lo: nat, hi: nat)
    requires lo <= hi <= |s| && NoDoubleHyphen(s)
    ensures NoDoubleHyphen(s[lo..hi])
  {
    var t := s[lo..hi];
    forall i | 0 <= i < |t| - 1 ensures !(t[i] == '-' && t[i + 1] == '-') {
      assert t[i] == s[lo + i] && t[i + 1] == s[lo + i + 1];
    }
  }

  /**
   * `re.sub(r"-+", "-", re.sub(r"[\s_]+", "-", s)).strip("-")`: separators
   * become single hyphens, and no hyphen is left at either end.
   */
  function CollapseSeparators(s: string): (r: string)
    ensures forall c :: c in r ==> c == '-' || (c in s && !InClass(c, BlankOrUnderscore))
    ensures NoDoubleHyphen(r)
    ensures r == [] || (r[0] != '-' && r[|r| - 1] != '-')
    ensures |r| <= |s|
  {
    var b := CollapseRuns(CollapseRuns(s, BlankOrUnderscore), Hyphen);
    StripHyphensKeepsSingle(b);
    StripHyphens(b)
  }

  lemma {:induction false} StripHyphensKeepsSingle(b: string)
    requires NoDoubleHyphen(b)
    ensures NoDoubleHyphen(StripHyphens(b))
  {
    var c := TrimStart(b, Hyphen);
    NoDoubleHyphenSlice(b, |b| - |c|, |b|);
    NoDoubleHyphenSlice(c, 0, |TrimEnd(c, Hyphen)|);
  }

  /** Collapsing separators keeps every character that is neither a separator nor a hyphen. */
  lemma {:induction false} CollapseSeparatorsKeepsCount(s: string, c: char)
    requires c != '-' && !InClass(c, BlankOrUnderscore)
    ensures Occurrences(CollapseSeparators(s), c) == Occurrences(s, c)
  {
    var a := CollapseRuns(s, BlankOrUnderscore);
    var b := CollapseRuns(a, Hyphen);
    OccurrencesCollapseRuns(s, BlankOrUnderscore, c);
    OccurrencesCollapseRuns(a, Hyphen, c);
    OccurrencesTrimStart(b, Hyphen, c);
    OccurrencesTrimEnd(TrimStart(b, Hyphen), Hyphen, c);
  }

  /** A key already in collapsed form: no blank or underscore, single hyphens, none at either end. */
  lemma {:induction false} CollapsedUnchanged(y: string)
    requires forall i :: 0 <= i < |y| ==> !InClass(y[i], BlankOrUnderscore)
    requires NoDoubleHyphen(y) && (y == [] || (y[0] != '-' && y[|y| - 1] != '-'))
    ensures CollapseSeparators(y) == y
  {
    CollapseRunsWithoutSeparator(y, BlankOrUnderscore);
    SingleHyphensUnchanged(y);
    if y != [] {
      assert TrimStart(y, Hyphen) == y;
    }
  }

  lemma {:induction false} SingleHyphensUnchanged(s: string)
    requires NoDoubleHyphen(s)
    ensures CollapseRuns(s, Hyphen) == s
    decreases |s|
  {
    if s != [] {
      NoDoubleHyphenSlice(s, 1, |s|);
      SingleHyphensUnchanged(s[1..]);
      if s[0] == '-' {
        assert RunLength(s, Hyphen) == 1 by {
          assert |s| > 1 ==> s[1] != '-';
        }
        calc {
          CollapseRuns(s, Hyphen);
        == { CollapseRunsAtRun(s, Hyphen); }
          "-" + CollapseRuns(s[1..], Hyphen);
        ==
          [s[0]] + s[1..];
        }
      } else {
        calc {
          CollapseRuns(s, Hyphen);
        == { CollapseRunsAtOther(s, Hyphen); }
          [s[0]] + CollapseRuns(s[1..], Hyphen);
        ==
          [s[0]] + s[1..];
        }
      }
      assert [s[0]] + s[1..] == s;
    }
  }

  /**
   * Collapsing blanks and underscores and then hyphens is one collapse of
   * mixed separator runs: `a _-_b` and `a-b` come out alike.
   */
  lemma {:induction false} TwoPassCollapse(a: string)
    ensures CollapseRuns(CollapseRuns(a, BlankOrUnderscore), Hyphen) == CollapseRuns(a, Separator)
    decreases |a|
  {
    if a != [] {
      if !InClass(a[0], Separator) {
        CollapseRunsAtOther(a, BlankOrUnderscore);
        CollapseRunsAtOther([a[0]] + CollapseRuns(a[1..], BlankOrUnderscore), Hyphen);
        assert ([a[0]] + CollapseRuns(a[1..], BlankOrUnderscore))[1..] == CollapseRuns(a[1..], BlankOrUnderscore);
        CollapseRunsAtOther(a, Separator);
        TwoPassCollapse(a[1..]);
      } else {
        var n := RunLength(a, Separator);
        var rest := a[n..];
        var h := SeparatorRunHyphens(a, n);
        var x := CollapseRuns(rest, BlankOrUnderscore);
        assert x == [] || x[0] != '-';
        HyphensThenCollapse(h, x);
        CollapseRunsAtRun(a, Separator);
        TwoPassCollapse(rest);
      }
    }
  }

  /** Collapsing blanks and underscores turns a leading separator run of `a` into hyphens only. */
  lemma {:induction false} SeparatorRunHyphens(a: string, n: nat) returns (h: string)
    requires n <= |a| && forall k :: 0 <= k < n ==> InClass(a[k], Separator)
    requires n == |a| || !InClass(a[n], Separator)
    ensures CollapseRuns(a, BlankOrUnderscore) == h + CollapseRuns(a[n..], BlankOrUnderscore)
    ensures forall k :: 0 <= k < |h| ==> h[k] == '-'
    ensures n > 0 ==> h != []
    decreases n
  {
    if n == 0 {
      h := [];
    } else {
      var m := SeparatorRunHead(a, n);
      var b := a[m..];
      SeparatorRunDrop(a, n, m);
      var h' := SeparatorRunHyphens(b, n - m);
      h := HyphenCons(h');
      calc {
        CollapseRuns(a, BlankOrUnderscore);
        "-" + CollapseRuns(b, BlankOrUnderscore);
        "-" + (h' + CollapseRuns(a[n..], BlankOrUnderscore));
      == { AppendAssoc("-", h', CollapseRuns(a[n..], BlankOrUnderscore)); }
        h + CollapseRuns(a[n..], BlankOrUnderscore);
      }
    }
  }

  /** The first step inside a separator run: a blank/underscore run or one hyphen becomes one hyphen. */
  lemma {:induction false} SeparatorRunHead(a: string, n: nat) returns (m: nat)
    requires 0 < n <= |a| && forall k :: 0 <= k < n ==> InClass(a[k], Separator)
    requires n == |a| || !InClass(a[n], Separator)
    ensures 0 < m <= n
    ensures CollapseRuns(a, BlankOrUnderscore) == "-" + CollapseRuns(a[m..], BlankOrUnderscore)
  {
    if InClass(a[0], BlankOrUnderscore) {
      m := RunLength(a, BlankOrUnderscore);
      CollapseRunsAtRun(a, BlankOrUnderscore);
      BlankRunInsideSeparatorRun(a, n);
    } else {
      m := 1;
      CollapseRunsAtOther(a, BlankOrUnderscore);
      assert [a[0]] == "-";
    }
  }

  lemma {:induction false} BlankRunInsideSeparatorRun(a: string, n: nat)
    requires 0 < n <= |a| && forall k :: 0 <= k < n ==> InClass(a[k], Separator)
    requires n == |a| || !InClass(a[n], Separator)
    ensures RunLength(a, BlankOrUnderscore) <= n
  {
    assert n < |a| ==> !InClass(a[n], BlankOrUnderscore);
  }

  lemma {:induction false} SeparatorRunDrop(a: string, n: nat, m: nat)
    requires m <= n <= |a| && forall k :: 0 <= k < n ==> InClass(a[k], Separator)
    requires n == |a| || !InClass(a[n], Separator)
    ensures forall k :: 0 <= k < n - m ==> InClass(a[m..][k], Separator)
    ensures n - m == |a[m..]| || !InClass(a[m..][n - m], Separator)
    ensures a[m..][n - m..] == a[n..]
  {
  }

  lemma {:induction false} HyphenCons(h': string) returns (h: string)
    requires forall k :: 0 <= k < |h'| ==> h'[k] == '-'
    ensures h == "-" + h' && h != [] && forall k :: 0 <= k < |h| ==> h[k] == '-'
  {
    h := "-" + h';
  }

  lemma {:induction false} HyphensThenCollapse(h: string, x: string)
    requires h != [] && forall k :: 0 <= k < |h| ==> h[k] == '-'
    requires x == [] || x[0] != '-'
    ensures CollapseRuns(h + x, Hyphen) == "-" + CollapseRuns(x, Hyphen)
  {
    var s := h + x;
    assert |h| < |s| ==> s[|h|] == x[0];
    assert RunLength(s, Hyphen) == |h|;
    assert s[|h|..] == x;
    CollapseRunsAtRun(s, Hyphen);
  }

  /** Replacing one separator character by hyphens leaves the separator runs where they were. */
  lemma {:induction false} ReplaceSeparatorCollapse(a: string, c: char)
    requires InClass(c, Separator)
    ensures CollapseRuns(ReplaceChar(a, c, '-'), Separator) == CollapseRuns(a, Separator)
    decreases |a|
  {
    if a != [] {
      if InClass(a[0], Separator) {
        var n := RunLength(a, Separator);
        ReplaceSeparatorCollapse(a[n..], c);
        ReplaceRunStep(a, c, n);
      } else {
        ReplaceSeparatorCollapse(a[1..], c);
        ReplaceOtherStep(a, c);
      }
    }
  }

  /** The induction step at a separator run: the replaced string has the same run. */
  lemma {:induction false} ReplaceRunStep(a: string, c: char, n: nat)
    requires InClass(c, Separator) && a != [] && InClass(a[0], Separator)
    requires n == RunLength(a, Separator)
    requires CollapseRuns(ReplaceChar(a[n..], c, '-'), Separator) == CollapseRuns(a[n..], Separator)
    ensures CollapseRuns(ReplaceChar(a, c, '-'), Separator) == CollapseRuns(a, Separator)
  {
    var r := ReplaceChar(a, c, '-');
    calc {
      CollapseRuns(r, Separator);
    == { ReplaceKeepsRun(a, c); CollapseRunsAtRun(r, Separator); }
      "-" + CollapseRuns(r[n..], Separator);
    == { ReplaceCharSuffix(a, n, c); }
      "-" + CollapseRuns(ReplaceChar(a[n..], c, '-'), Separator);
    == { CollapseRunsAtRun(a, Separator); }
      CollapseRuns(a, Separator);
    }
  }

  lemma {:induction false} ReplaceCharSuffix(a: string, n: nat, c: char)
    requires n <= |a|
    ensures ReplaceChar(a, c, '-')[n..] == ReplaceChar(a[n..], c, '-')
  {
    ReplaceCharSlice(a, n, |a|, c, '-');
    assert ReplaceChar(a, c, '-')[n..] == ReplaceChar(a, c, '-')[n..|a|] && a[n..] == a[n..|a|];
  }

  lemma {:induction false} ReplaceKeepsRun(a: string, c: char)
    requires InClass(c, Separator) && a != [] && InClass(a[0], Separator)
    ensures var r := ReplaceChar(a, c, '-');
      r != [] && InClass(r[0], Separator) && RunLength(r, Separator) == RunLength(a, Separator)
  {
    ReplaceKeepsSeparators(a, c);
    RunLengthSameClasses(a, ReplaceChar(a, c, '-'), Separator);
  }

  /** The induction step at a character outside the separators, which the replacement keeps. */
  lemma {:induction false} ReplaceOtherStep(a: string, c: char)
    requires InClass(c, Separator) && a != [] && !InClass(a[0], Separator)
    requires CollapseRuns(ReplaceChar(a[1..], c, '-'), Separator) == CollapseRuns(a[1..], Separator)
    ensures CollapseRuns(ReplaceChar(a, c, '-'), Separator) == CollapseRuns(a, Separator)
  {
    var r := ReplaceChar(a, c, '-');
    ReplaceCharSlice(a, 1, |a|, c, '-');
    assert r[1..] == r[1..|a|] && a[1..] == a[1..|a|];
    assert r[0] == a[0];
    CollapseRunsAtOther(a, Separator);
    CollapseRunsAtOther(r, Separator);
  }

  lemma {:induction false} ReplaceKeepsSeparators(a: string, c: char)
    requires InClass(c, Separator)
    ensures SameClasses(a, ReplaceChar(a, c, '-'), Separator)
  {
  }

  /**
   * Spelling a separator as a hyphen does not change the collapsed name:
   * `gpt_4o`, `gpt 4o` and `gpt-4o` collapse alike.
   */
  lemma {:induction false} SeparatorSpellingIgnored(a: string, c: char)
    requires InClass(c, Separator)
    ensures CollapseSeparators(ReplaceChar(a, c, '-')) == CollapseSeparators(a)
  {
    TwoPassCollapse(a);
    TwoPassCollapse(ReplaceChar(a, c, '-'));
    ReplaceSeparatorCollapse(a, c);
  }

  /** The colon-only form of the `model:` prefix removal never removes a "/". */
  lemma {:induction false} ColonPrefixKeepsSlashes(s: string)
    ensures Occurrences(StripModelPrefix(s, false), '/') == Occurrences(s, '/')
  {
    var r := StripModelPrefix(s, false);
    var head := s[..|s| - |r|];
    assert s == head + r;
    OccurrencesAppend(head, r, '/');
  }

  /** A `model/` or `models/` head is not a colon-form prefix and stays. */
  lemma {:induction false} ColonPrefixKeepsSlashHead(s: string)
    requires StartsWith(s, "model/") || StartsWith(s, "models/")
    ensures StripModelPrefix(s, false) == s
  {
    assert s[4] == 'l' && (s[5] == '/' || s[6] == '/');
  }

  // ---- anchored trailing patterns: re.sub(r"<tail>$", "", s) ----

  /**
   * The position a final `$` anchors to. Python's `$` also matches just
   * before a string's last character when that character is "\n"; none of
   * the tails below can end in "\n", so that is the only place a match can end.
   */
  function DollarEnd(s: string): (e: nat)
    ensures e <= |s|
    ensures e == |s| <==> (s == [] || s[|s| - 1] != '\n')
  {
    if s != [] && s[|s| - 1] == '\n' then |s| - 1 else |s|
  }

  lemma {:induction false} NoNewlineEnd(s: string)
    requires '\n' !in s
    ensures DollarEnd(s) == |s|
  {
    if s != [] { assert s[|s| - 1] in s; }
  }

  /** The leftmost start `j >= i` at which `tail` matches `s[j..e]`. */
  function FirstTailStart(s: string, e: nat, i: nat, tail: Tail): (r: Option<nat>)
    requires i <= e <= |s|
    ensures r.Some? ==> i <= r.value <= e && TailMatches(s[r.value..e], tail)
    ensures r.Some? ==> forall j :: i <= j < r.value ==> !TailMatches(s[j..e], tail)
    ensures r.None? ==> forall j :: i <= j <= e ==> !TailMatches(s[j..e], tail)
    decreases e - i
  {
    if TailMatches(s[i..e], tail) then Some(i)
    else if i == e then None
    else
      var r := FirstTailStart(s, e, i + 1, tail);
      assert forall j :: i <= j <= e && TailMatches(s[j..e], tail) ==> j == i || i + 1 <= j;
      r
  }

  /**
   * `re.sub(pattern + "$", "", s)` for a pattern matching exactly the strings
   * `tail` accepts: the leftmost match that ends at the anchor is removed.
   */
  function SubAtEnd(s: string, tail: Tail): (r: string)
    ensures |r| <= |s|
    ensures forall c :: c in r ==> c in s
    ensures DollarEnd(s) == |s| ==> StartsWith(s, r)
    ensures r != s ==> |s| - DollarEnd(s) <= |r| && TailMatches(s[|r| - (|s| - DollarEnd(s))..DollarEnd(s)], tail)
    ensures (forall j :: 0 <= j <= DollarEnd(s) ==> !TailMatches(s[j..DollarEnd(s)], tail)) ==> r == s
  {
    var e := DollarEnd(s);
    match FirstTailStart(s, e, 0, tail)
    case None => s
    case Some(i) => s[..i] + s[e..]
  }

  /** Every tail begins with a hyphen. */
  lemma {:induction false} TailStartsWithHyphen(t: string, tail: Tail)
    ensures TailMatches(t, tail) ==> t != [] && t[0] == '-'
  {
    if t == "-latest" || t == "-stable" || t == "-thinking" {
      assert t[0] == '-';
    }
  }

  /** A string without a hyphen has no tail to remove. */
  lemma {:induction false} SubAtEndWithoutHyphen(s: string, tail: Tail)
    requires '-' !in s
    ensures SubAtEnd(s, tail) == s
  {
    var e := DollarEnd(s);
    forall j | 0 <= j <= e ensures !TailMatches(s[j..e], tail) {
      if j < e {
        assert s[j..e][0] == s[j] && s[j] in s;
      }
      TailStartsWithHyphen(s[j..e], tail);
    }
  }

  /**
   * On a string whose only hyphen starts its tail `t`, `SubAtEnd` removes
   * `t` exactly when `t` matches, and changes nothing otherwise.
   */
  lemma {:induction false} SubAtEndSingleHyphen(x: string, t: string, tail: Tail)
    requires '-' !in x && t != [] && t[0] == '-' && '-' !in t[1..] && t[|t| - 1] != '\n'
    ensures SubAtEnd(x + t, tail) == (if TailMatches(t, tail) then x else x + t)
  {
    var s := x + t;
    assert DollarEnd(s) == |s|;
    forall j | 0 <= j <= |s| && j != |x| ensures !TailMatches(s[j..|s|], tail) {
      TailStartsWithHyphen(s[j..|s|], tail);
      if j < |x| {
        assert s[j..|s|][0] == x[j] && x[j] in x;
      } else if j < |s| {
        assert s[j..|s|][0] == t[j - |x|] && t[j - |x|] == t[1..][j - |x| - 1];
      }
    }
    assert s[|x|..|s|] == t;
    if TailMatches(t, tail) {
      SubAtEndRemovesTail(s, |x|, tail);
      assert s[..|x|] == x;
    }
  }

  /** The anchored suffix patterns the source removes. */
  datatype Tail = Latest | Preview | Date | Thinking

  predicate TailMatches(t: string, tail: Tail) {
    match tail
    case Latest => IsLatestTail(t)
    case Preview => IsPreviewTail(t)
    case Date => IsDateTail(t)
    case Thinking => IsThinkingTail(t)
  }

  predicate IsLatestTail(t: string) { t == "-latest" || t == "-stable" }

  predicate IsThinkingTail(t: string) { t == "-thinking" }

  predicate AllWordChars(s: string) {
    forall k :: 0 <= k < |s| ==> IsWordChar(s[k])
  }

  /** `-(preview|exp|experimental)(?:-[\w\d]+)?` */
  predicate IsPreviewTail(t: string) {
    && t != [] && t[0] == '-'
    && (|| PreviewWordThen(t[1..], "preview")
        || PreviewWordThen(t[1..], "exp")
        || PreviewWordThen(t[1..], "experimental"))
  }

  /** `u` is `w` followed by nothing or by `-[\w\d]+`. */
  predicate PreviewWordThen(u: string, w: string) {
    && StartsWith(u, w)
    && var rest := u[|w|..];
       rest == [] || (|rest| >= 2 && rest[0] == '-' && AllWordChars(rest[1..]))
  }

  /** `-(\d{4}-\d{2}-\d{2}|\d{8})` */
  predicate IsDateTail(t: string) {
    && |t| >= 1 && t[0] == '-'
    && (|| (|t| == 11 && t[5] == '-' && t[8] == '-'
            && (forall k :: 1 <= k < 11 && k != 5 && k != 8 ==> IsDigit(t[k])))
        || (|t| == 9 && (forall k :: 1 <= k < 9 ==> IsDigit(t[k]))))
  }

  /** When the leftmost match of `tail` ends the string, `SubAtEnd` keeps exactly what precedes it. */
  lemma {:induction false} SubAtEndRemovesTail(s: string, m: nat, tail: Tail)
    requires m < |s| && s[|s| - 1] != '\n'
    requires TailMatches(s[m..|s|], tail)
    requires forall j :: 0 <= j < m ==> !TailMatches(s[j..|s|], tail)
    ensures SubAtEnd(s, tail) == s[..m]
  {
    assert DollarEnd(s) == |s|;
    FirstTailStartIs(s, |s|, 0, tail, m);
    assert s[..m] + s[|s|..] == s[..m];
  }

  /**
   * A fixed-width tail at least as long as any string that tail pattern
   * accepts: no match can start further left, so removing it leaves
   * exactly `x`.
   */
  lemma {:induction false} SubAtEndOfWidth(x: string, t: string, tail: Tail)
    requires tail != Preview
    requires TailMatches(t, tail) && t != [] && t[|t| - 1] != '\n' && MaxTailWidth(tail) <= |t|
    ensures SubAtEnd(x + t, tail) == x
  {
    var s := x + t;
    NoLongerTail(s, |x|, tail);
    assert s[|x|..|s|] == t && s[..|x|] == x;
    SubAtEndRemovesTail(s, |x|, tail);
  }

  /** The longest string each fixed-width tail pattern accepts. */
  function MaxTailWidth(tail: Tail): nat {
    match tail
    case Latest => 7
    case Thinking => 9
    case Date => 11
    case Preview => 0
  }

  lemma {:induction false} NoLongerTail(s: string, m: nat, tail: Tail)
    requires tail != Preview
    requires m <= |s| && MaxTailWidth(tail) <= |s| - m
    ensures forall j :: 0 <= j < m ==> !TailMatches(s[j..|s|], tail)
  {
    forall j | 0 <= j < m ensures !TailMatches(s[j..|s|], tail) {
      TailWidths(s[j..|s|]);
    }
  }

  /** A string `SubAtEnd` leaves alone has no match of `tail` ending at the anchor. */
  lemma {:induction false} SubAtEndKeepsOnlyUnmatched(s: string, tail: Tail)
    requires SubAtEnd(s, tail) == s
    ensures forall j :: 0 <= j <= DollarEnd(s) ==> !TailMatches(s[j..DollarEnd(s)], tail)
  {
    var e := DollarEnd(s);
    match FirstTailStart(s, e, 0, tail)
    case None =>
    case Some(i) =>
      TailStartsWithHyphen(s[i..e], tail);
  }

  /** The characters a match of each fixed-width tail can end with. */
  predicate CanEndTail(c: char, tail: Tail) {
    match tail
    case Latest => c == 't' || c == 'e'
    case Thinking => c == 'g'
    case Date => IsDigit(c)
    case Preview => true
  }

  lemma {:induction false} TailLastChar(u: string, tail: Tail)
    requires TailMatches(u, tail)
    ensures u != [] && CanEndTail(u[|u| - 1], tail)
  {
    TailStartsWithHyphen(u, tail);
  }

  /** A string ending in a character no match of `tail` ends with keeps its tail. */
  lemma {:induction false} LastCharRulesOut(s: string, tail: Tail)
    requires s != [] && s[|s| - 1] != '\n' && !CanEndTail(s[|s| - 1], tail)
    ensures SubAtEnd(s, tail) == s
  {
    assert DollarEnd(s) == |s|;
    forall j | 0 <= j <= |s| ensures !TailMatches(s[j..|s|], tail) {
      if TailMatches(s[j..|s|], tail) {
        assert s[j..|s|][|s| - j - 1] == s[|s| - 1];
        TailLastChar(s[j..|s|], tail);
      }
    }
  }

  /**
   * A date stamp at the end is always the leftmost date match: a compact
   * `-YYYYMMDD` cannot be the end of a longer dashed stamp, since a dashed
   * stamp has a hyphen where the compact one has a digit.
   */
  lemma {:induction false} DateTailLeftmost(x: string, t: string)
    requires IsDateTail(t)
    ensures SubAtEnd(x + t, Date) == x
  {
    var s := x + t;
    assert s[|s| - 1] == t[|t| - 1];
    if |t| == 11 {
      SubAtEndOfWidth(x, t, Date);
    } else {
      forall j | 0 <= j < |x| ensures !TailMatches(s[j..|s|], Date) {
        if |s| - j == 11 {
          assert s[j..|s|][5] == t[3];
        }
      }
      assert s[|x|..|s|] == t && s[..|x|] == x;
      SubAtEndRemovesTail(s, |x|, Date);
    }
  }

  /**
   * What a `-(preview|exp|experimental)(?:-[\w\d]+)?` match looks like: it
   * starts with `-p` or `-e`, ends with a word character, has a word
   * character after each hyphen, and cutting it at an inner hyphen leaves
   * a shorter match.
   */
  lemma {:induction false} PreviewTailShape(u: string)
    requires IsPreviewTail(u)
    ensures |u| >= 2 && (u[1] == 'p' || u[1] == 'e')
    ensures IsWordChar(u[|u| - 1])
    ensures forall k :: 0 <= k < |u| - 1 && u[k] == '-' ==> IsWordChar(u[k + 1])
    ensures forall k :: 0 < k < |u| && u[k] == '-' ==> IsPreviewTail(u[..k])
  {
    var w := if PreviewWordThen(u[1..], "preview") then "preview"
      else if PreviewWordThen(u[1..], "exp") then "exp" else "experimental";
    assert IsPreviewTail("-" + w) by {
      assert ("-" + w)[1..] == w;
    }
    PreviewWordChars(u, w);
    PreviewWordCut(u, w);
  }

  /** The words a preview tail may start with are lower-case letters. */
  predicate IsLowerWord(w: string) {
    w != [] && forall k :: 0 <= k < |w| ==> 'a' <= w[k] <= 'z'
  }

  lemma {:induction false} PreviewWordChars(u: string, w: string)
    requires IsLowerWord(w) && (w[0] == 'p' || w[0] == 'e')
    requires u != [] && u[0] == '-' && PreviewWordThen(u[1..], w)
    ensures |u| >= 2 && (u[1] == 'p' || u[1] == 'e')
    ensures IsWordChar(u[|u| - 1])
    ensures forall k :: 0 <= k < |u| - 1 && u[k] == '-' ==> IsWordChar(u[k + 1])
  {
    assert u[1..][..|w|] == w;
    assert forall k :: 0 <= k < |w| ==> u[k + 1] == w[k];
    var rest := u[1..][|w|..];
    assert u[1 + |w|..] == rest;
    forall k | 0 <= k < |u| - 1 && u[k] == '-' ensures IsWordChar(u[k + 1]) {
      if k > 0 {
        assert u[k + 1] == rest[1..][0];
      }
    }
  }

  /** The only inner hyphen of a preview match is the one right after its word. */
  lemma {:induction false} PreviewWordCut(u: string, w: string)
    requires IsLowerWord(w)
    requires u != [] && u[0] == '-' && PreviewWordThen(u[1..], w)
    ensures forall k :: 0 < k < |u| && u[k] == '-' ==> u[..k] == "-" + w
  {
    assert u[1..][..|w|] == w;
    var rest := u[1..][|w|..];
    assert u[1 + |w|..] == rest;
    forall k | 0 < k < |u| && u[k] == '-' ensures u[..k] == "-" + w {
      assert u[..k] == [u[0]] + u[1..][..|w|];
    }
  }

  /**
   * Appending `t` to a string with no preview tail creates no preview match
   * unless one starts inside `t`: a match reaching back into `x` would be
   * cut at `t`'s hyphen into a preview tail of `x`.
   */
  lemma {:induction false} PreviewNoMatchAppend(x: string, t: string)
    requires SubAtEnd(x, Preview) == x
    requires t != [] && t[0] == '-' && t[|t| - 1] != '\n'
    requires forall i :: 0 <= i < |t| - 1 && t[i] == '-' ==> t[i + 1] != 'p' && t[i + 1] != 'e'
    ensures SubAtEnd(x + t, Preview) == x + t
  {
    var s := x + t;
    assert s[|s| - 1] == t[|t| - 1];
    assert DollarEnd(s) == |s|;
    forall j | 0 <= j <= |s| ensures !TailMatches(s[j..|s|], Preview) {
      var u := s[j..|s|];
      if IsPreviewTail(u) {
        if j >= |x| {
          assert u == t[j - |x|..];
          PreviewTailShape(u);
        } else {
          assert u == s[j..];
          PreviewInsideX(x, t, j);
        }
      }
    }
  }

  /** A preview match starting in `x` and running through `t` makes `x` end in a preview tail. */
  lemma {:induction false} PreviewInsideX(x: string, t: string, j: nat)
    requires SubAtEnd(x, Preview) == x
    requires t != [] && t[0] == '-' && j < |x|
    ensures !IsPreviewTail((x + t)[j..])
  {
    var u := (x + t)[j..];
    if IsPreviewTail(u) {
      var k := |x| - j;
      assert u[k] == t[0];
      assert u[..k] == x[j..];
      PreviewTailShape(u);
      PreviewTailChanges(x, j);
    }
  }

  /** A string that ends in a preview match is changed by the preview substitution. */
  lemma {:induction false} PreviewTailChanges(x: string, j: nat)
    requires j < |x| && IsPreviewTail(x[j..])
    ensures SubAtEnd(x, Preview) != x
  {
    PreviewTailShape(x[j..]);
    assert x[|x| - 1] == x[j..][|x| - j - 1];
    assert DollarEnd(x) == |x|;
    assert x[j..|x|] == x[j..];
    if SubAtEnd(x, Preview) == x {
      SubAtEndKeepsOnlyUnmatched(x, Preview);
    }
  }

  /** A preview tail appended to a string with none of its own is exactly what the substitution removes. */
  lemma {:induction false} PreviewTailLeftmost(x: string, t: string)
    requires SubAtEnd(x, Preview) == x && IsPreviewTail(t)
    ensures SubAtEnd(x + t, Preview) == x
  {
    var s := x + t;
    PreviewTailShape(t);
    assert s[|s| - 1] == t[|t| - 1];
    forall j | 0 <= j < |x| ensures !TailMatches(s[j..|s|], Preview) {
      PreviewInsideX(x, t, j);
      assert s[j..|s|] == s[j..];
    }
    assert s[|x|..|s|] == t && s[..|x|] == x;
    SubAtEndRemovesTail(s, |x|, Preview);
  }

  lemma {:induction false} FirstTailStartIs(s: string, e: nat, i: nat, tail: Tail, m: nat)
    requires i <= m <= e <= |s|
    requires TailMatches(s[m..e], tail)
    requires forall j :: i <= j < m ==> !TailMatches(s[j..e], tail)
    ensures FirstTailStart(s, e, i, tail) == Some(m)
  {
  }

  /** `-latest`, `-stable` and `-thinking` have one width each; a date tail is at most 11 long. */
  lemma {:induction false} TailWidths(u: string)
    ensures TailMatches(u, Latest) ==> |u| == 7
    ensures TailMatches(u, Thinking) ==> |u| == 9
    ensures TailMatches(u, Date) ==> |u| <= 11
  {
  }

  // ---- -(\d)-(\d+) -> -\1.\2 ----

  /** Where `-(\d)-(\d)` (the shortest match of `-(\d)-(\d+)`) starts at `p`. */
  predicate VersionHyphenAt(s: string, p: int) {
    0 <= p && p + 4 <= |s| && s[p] == '-' && IsDigit(s[p + 1]) && s[p + 2] == '-' && IsDigit(s[p + 3])
  }

  /**
   * `re.sub(r"-(\d)-(\d+)", r"-\1.\2", s)`: scanning left to right, each
   * match turns its middle hyphen into a dot, and scanning resumes after
   * the digit run. The result has the same length, differs only where a
   * hyphen became a dot, and leaves no match behind.
   */
  function VersionDots(s: string): (r: string)
    ensures |r| == |s|
    ensures forall k :: 0 <= k < |s| ==> r[k] == s[k] || (s[k] == '-' && r[k] == '.')
    ensures forall p :: !VersionHyphenAt(r, p)
    ensures VersionHyphenAt(s, 0) ==> r[2] == '.'
    decreases |s|
  {
    if VersionHyphenAt(s, 0) then
      var k := 3 + RunLength(s[3..], Digit);
      var rest := VersionDots(s[k..]);
      var head := s[..2] + "." + s[3..k];
      VersionHeadHasNoMatch(head, rest);
      NoVersionHyphenAfter(head, rest);
      head + rest
    else if s == [] then []
    else
      var rest := VersionDots(s[1..]);
      NoVersionHyphenAfter([s[0]], rest);
      [s[0]] + rest
  }

  /** A match cannot start inside `head` when `head` is `-d.` and digits. */
  lemma {:induction false} VersionHeadHasNoMatch(head: string, rest: string)
    requires |head| >= 3 && head[2] == '.' && forall k :: 3 <= k < |head| ==> IsDigit(head[k])
    ensures forall p :: 0 <= p < |head| ==> !VersionHyphenAt(head + rest, p)
  {
    var r := head + rest;
    forall p | 0 <= p < |head| ensures !VersionHyphenAt(r, p) {
      if p == 0 { assert r[2] == '.'; }
      else { assert r[p] == '.' || IsDigit(r[p]) || p <= 2; }
    }
  }

  lemma {:induction false} NoVersionHyphenAfter(head: string, rest: string)
    requires forall p :: !VersionHyphenAt(rest, p)
    ensures forall p :: |head| <= p ==> !VersionHyphenAt(head + rest, p)
  {
    var r := head + rest;
    forall p | |head| <= p ensures !VersionHyphenAt(r, p) {
      assert !VersionHyphenAt(rest, p - |head|);
    }
  }

  // ---- k2(?:p|-)5 -> k2.5 ----

  predicate K25VariantAt(s: string, p: int) {
    0 <= p && p + 4 <= |s| && s[p] == 'k' && s[p + 1] == '2' && (s[p + 2] == 'p' || s[p + 2] == '-') && s[p + 3] == '5'
  }

  /**
   * `re.sub(r"k2(?:p|-)5", "k2.5", s)`: every `k2p5` and `k2-5` becomes
   * `k2.5`; nothing else changes and no such spelling is left.
   */
  function K25Dots(s: string): (r: string)
    ensures |r| == |s|
    ensures forall k :: 0 <= k < |s| ==> r[k] == s[k] || ((s[k] == 'p' || s[k] == '-') && r[k] == '.')
    ensures forall p :: !K25VariantAt(r, p)
    decreases |s|
  {
    if K25VariantAt(s, 0) then
      var rest := K25Dots(s[4..]);
      var head := "k2." + [s[3]];
      assert !K25VariantAt(head + rest, 0) by { assert (head + rest)[2] == '.'; }
      assert (head + rest)[1] == '2' && (head + rest)[2] == '.' && (head + rest)[3] == '5';
      NoK25VariantAfter(head, rest);
      head + rest
    else if s == [] then []
    else
      var rest := K25Dots(s[1..]);
      NoK25VariantAfter([s[0]], rest);
      [s[0]] + rest
  }

  lemma {:induction false} NoK25VariantAfter(head: string, rest: string)
    requires forall p :: !K25VariantAt(rest, p)
    ensures forall p :: |head| <= p ==> !K25VariantAt(head + rest, p)
  {
    var r := head + rest;
    forall p | |head| <= p ensures !K25VariantAt(r, p) {
      assert !K25VariantAt(rest, p - |head|);
    }
  }
}
