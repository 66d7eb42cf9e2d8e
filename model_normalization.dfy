/**
 * `normalize_model_name`: one merge key per underlying model, whatever the
 * provider path, case, separators or release suffix a source used.
 */
module ModelNormalization {
  import opened Text
  import opened Patterns

  /** The characters no canonical key contains. */
  predicate IsCleanChar(c: char) {
    c != '/' && c != '\\' && c != '_' && !IsSpace(c) && !IsUpper(c)
  }

  predicate IsClean(s: string) {
    forall c :: c in s ==> IsCleanChar(c)
  }

  /** `(name or "").strip().lower()`, with `None` passed as "". */
  function Trimmed(name: string): (r: string)
    ensures forall c :: c in r ==> !IsUpper(c)
    ensures r == [] <==> Strip(name) == []
  {
    LowerStr(Strip(name))
  }

  /**
   * Backslashes become "/", a leading `model:`/`models:`/`model/`/`models/`
   * is dropped, and only the last "/"-separated segment is kept.
   */
  function LastModelSegment(n: string): (r: string)
    ensures '/' !in r && '\\' !in r
    ensures forall c :: c in r ==> c in n
  {
    var slashed := ReplaceChar(n, '\\', '/');
    var m := StripModelPrefix(slashed, true);
    var r := LastSegment(m);
    assert forall c :: c in r ==> c in slashed && c != '/';
    r
  }

  /** `-latest|-stable`, then `-preview|-exp|-experimental` (with one more token), then a date, then `-thinking`. */
  function StripReleaseNoise(n: string): (r: string)
    ensures |r| <= |n|
    ensures forall c :: c in r ==> c in n
    ensures '\n' !in n ==> StartsWith(n, r)
  {
    var a := SubAtEnd(n, Latest);
    var b := SubAtEnd(a, Preview);
    var c := SubAtEnd(b, Date);
    var d := SubAtEnd(c, Thinking);
    if '\n' !in n then
      NoNewlineEnd(n); NoNewlineEnd(a); NoNewlineEnd(b); NoNewlineEnd(c);
      StartsWithTransitive(n, a, b);
      StartsWithTransitive(n, b, c);
      StartsWithTransitive(n, c, d);
      d
    else d
  }

  /** The family-level alias map. */
  const FamilyAliases: map<string, string> := map[
    "gemini-3-pro-high" := "gemini-3-pro",
    "gemini-3-pro-low" := "gemini-3-pro",
    "gemini-3-pro-preview" := "gemini-3-pro",
    "o3-mini-high" := "o3-mini",
    "o3-mini-low" := "o3-mini",
    "claude-3-5-sonnet" := "claude-3.5-sonnet",
    "claude-3-7-sonnet" := "claude-3.7-sonnet",
    "k2p5" := "k2.5",
    "k2-5" := "k2.5"
  ]

  /** `alias_map.get(n, n)` */
  function ApplyFamilyAlias(n: string): (r: string)
    ensures n !in FamilyAliases ==> r == n
    ensures n in FamilyAliases ==> r == FamilyAliases[n]
  {
    if n in FamilyAliases then FamilyAliases[n] else n
  }

  /**
   * `claude-opus…` is first shortened to `opus…`; every name then starting
   * with `opus` or `sonnet` gets the `claude-` prefix.
   */
  function ClaudePrefix(n: string): (r: string)
    ensures !StartsWith(r, "opus") && !StartsWith(r, "sonnet")
    ensures StartsWith(n, "opus") || StartsWith(n, "sonnet") ==> r == "claude-" + n
    ensures StartsWith(n, "claude-opus") ==> r == n
    ensures !StartsWith(n, "opus") && !StartsWith(n, "sonnet") && !StartsWith(n, "claude-opus") ==> r == n
  {
    var a := if StartsWith(n, "claude-opus") then "opus" + n[11..] else n;
    assert StartsWith(n, "claude-opus") ==> n == "claude-" + a;
    if StartsWith(a, "opus") || StartsWith(a, "sonnet") then
      assert a[0] == 'o' || a[0] == 's';
      var r := if StartsWith(a, "claude-") then a else "claude-" + a;
      assert r[0] == 'c';
      r
    else a
  }

  /** `k2p5`/`k2-5` become `k2.5`; any Kimi name mentioning 2.5 collapses to `kimi-k2.5`. */
  function KimiCollapse(n: string): (r: string)
    ensures StartsWith(r, "kimi") && Contains(r, "2.5") ==> r == "kimi-k2.5"
    ensures r == "kimi-k2.5" || r == K25Dots(n)
  {
    var k := K25Dots(n);
    var k2 := if k in {"k2.5", "kimi2.5", "kimi-2.5", "kimi-k2p5", "kimi-k2-5"} then "kimi-k2.5" else k;
    if StartsWith(k2, "kimi") && (Contains(k2, "k2.5") || Contains(k2, "k2p5") || Contains(k2, "k2-5") || Contains(k2, "2.5"))
    then "kimi-k2.5"
    else k2
  }

  /**
   * Steps 3 to 7 on the last path segment: the `antigravity-` vendor prefix,
   * separator collapsing, release noise and the family alias map.
   */
  function FamilyKey(seg: string): (r: string)
    requires forall c :: c in seg ==> c != '/' && c != '\\' && !IsUpper(c)
    ensures IsClean(r)
  {
    var a := RemovePrefix(seg, "antigravity-");
    var b := CollapseSeparators(a);
    SeparatorsClean(seg);
    var c := StripReleaseNoise(b);
    ReleaseNoiseClean(b);
    FamilyAliasTargetsClean();
    ApplyFamilyAlias(c)
  }

  /** Steps 8 to 10: version dots, the `claude-` prefix and the Kimi collapse. */
  function FinishKey(d: string): (r: string)
    requires IsClean(d)
    ensures IsClean(r)
    ensures !StartsWith(r, "opus") && !StartsWith(r, "sonnet")
    ensures StartsWith(r, "kimi") && Contains(r, "2.5") ==> r == "kimi-k2.5"
  {
    var e := VersionDots(d);
    VersionDotsClean(d);
    var f := ClaudePrefix(e);
    ClaudePrefixClean(e);
    KimiCollapseClean(f);
    KimiCollapseKeepsHead(f, "opus");
    KimiCollapseKeepsHead(f, "sonnet");
    KimiCollapse(f)
  }

  /** `normalize_model_name(name)` */
  function NormalizeModelName(name: string): (r: string)
    ensures r != []
    ensures Strip(name) == [] ==> r == "unknown"
    ensures IsClean(r)
    ensures '/' !in r
    ensures !StartsWith(r, "opus") && !StartsWith(r, "sonnet")
    ensures StartsWith(r, "kimi") && Contains(r, "2.5") ==> r == "kimi-k2.5"
  {
    var n := Trimmed(name);
    UnknownKey();
    if n == [] then "unknown"
    else
      var seg := LastModelSegment(n);
      var out := FinishKey(FamilyKey(seg));
      if out == [] then "unknown" else out
  }

  // ---- proofs ----

  lemma {:induction false} SeparatorsClean(seg: string)
    requires forall c :: c in seg ==> c != '/' && c != '\\' && !IsUpper(c)
    ensures IsClean(CollapseSeparators(RemovePrefix(seg, "antigravity-")))
  {
    var a := RemovePrefix(seg, "antigravity-");
    assert forall c :: c in a ==> c in seg;
    CollapseSeparatorsClean(a);
  }

  /** Collapsing separators leaves a clean key when no slash, backslash or uppercase letter is left. */
  lemma {:induction false} CollapseSeparatorsClean(x: string)
    requires forall c :: c in x ==> c != '/' && c != '\\' && !IsUpper(c)
    ensures IsClean(CollapseSeparators(x))
  {
    var r := CollapseSeparators(x);
    forall c | c in r ensures IsCleanChar(c) {
      if c == '-' {
        HyphenClean();
      } else {
        assert c in x && !InClass(c, BlankOrUnderscore);
        KeptCharClean(c);
      }
    }
  }

  lemma {:induction false} HyphenClean()
    ensures IsCleanChar('-')
  {
  }

  /** A character that is no separator, slash, backslash or uppercase letter is clean. */
  lemma {:induction false} KeptCharClean(c: char)
    requires c != '/' && c != '\\' && !IsUpper(c) && !InClass(c, BlankOrUnderscore)
    ensures IsCleanChar(c)
  {
  }

  lemma {:induction false} FamilyAliasTargetsClean()
    ensures forall k :: k in FamilyAliases ==> IsClean(FamilyAliases[k])
  {
    AliasTargetsClean();
  }

  lemma {:induction false} AliasTargetsClean()
    ensures IsClean("gemini-3-pro") && IsClean("o3-mini") && IsClean("k2.5")
    ensures IsClean("claude-3.5-sonnet") && IsClean("claude-3.7-sonnet")
  {
    LowerAsciiClean("gemini-3-pro");
    LowerAsciiClean("o3-mini");
    LowerAsciiClean("k2.5");
    LowerAsciiClean("claude-3.5-sonnet");
    LowerAsciiClean("claude-3.7-sonnet");
  }

  /** Lower-case letters, digits, dots and hyphens are clean. */
  lemma {:induction false} LowerAsciiClean(s: string)
    requires forall i :: 0 <= i < |s| ==> 'a' <= s[i] <= 'z' || '0' <= s[i] <= '9' || s[i] == '.' || s[i] == '-'
    ensures IsClean(s)
  {
  }

  lemma {:induction false} ReleaseNoiseClean(b: string)
    requires IsClean(b)
    ensures IsClean(StripReleaseNoise(b))
  {
  }

  lemma {:induction false} ClaudePrefixClean(e: string)
    requires IsClean(e)
    ensures IsClean(ClaudePrefix(e))
  {
  }

  lemma {:induction false} VersionDotsClean(d: string)
    requires IsClean(d)
    ensures IsClean(VersionDots(d))
  {
    var e := VersionDots(d);
    forall ch | ch in e ensures IsCleanChar(ch) {
      var k :| 0 <= k < |e| && e[k] == ch;
      assert e[k] == d[k] || e[k] == '.';
    }
  }

  lemma {:induction false} UnknownKey()
    ensures IsClean("unknown") && !StartsWith("unknown", "opus") && !StartsWith("unknown", "sonnet")
    ensures !StartsWith("unknown", "kimi")
  {
    assert "unknown"[0] == 'u';
  }

  lemma {:induction false} KimiKeyClean()
    ensures IsClean("kimi-k2.5")
  {
  }

  lemma {:induction false} KimiCollapseClean(f: string)
    requires IsClean(f)
    ensures IsClean(KimiCollapse(f))
  {
    var g := K25Dots(f);
    KimiKeyClean();
    forall ch | ch in g ensures IsCleanChar(ch) {
      var k :| 0 <= k < |g| && g[k] == ch;
      assert g[k] == f[k] || g[k] == '.';
    }
  }

  /** The Kimi step never creates a head such as `opus` that was not already there. */
  lemma {:induction false} KimiCollapseKeepsHead(f: string, w: string)
    requires w != [] && w[0] != 'k' && '.' !in w
    requires !StartsWith(f, w)
    ensures !StartsWith(KimiCollapse(f), w)
  {
    assert "kimi-k2.5"[0] == 'k';
  }

  // ---- provider paths ----

  /** Dropping a `model(s)[:/]` head never reaches past a "/" that precedes `l`. */
  lemma {:induction false} LastSegmentAfterModelPrefix(w: string, l: string)
    requires w != [] && w[|w| - 1] == '/' && '/' !in l
    ensures LastSegment(StripModelPrefix(w + l, true)) == l
  {
    var s := w + l;
    var t := StripModelPrefix(s, true);
    var k := |s| - |t|;
    assert forall i :: 0 <= i < k - 1 ==> s[i] != '/';
    assert s[|w| - 1] == '/';
    assert k <= |w|;
    assert t == w[k..] + l;
    LastSegmentAfterSlash(w[k..], l);
  }

  lemma {:induction false} LowerKeepsAbsent(s: string, c: char)
    requires c !in s && !IsUpper(c) && !('a' <= c <= 'z')
    ensures c !in LowerStr(s)
  {
  }

  lemma {:induction false} ReplaceAbsent(s: string, a: char, b: char)
    requires a !in s
    ensures ReplaceChar(s, a, b) == s
  {
  }

  /**
   * A provider path in front of a model name does not change its key:
   * `openai/gpt-4o-mini`, `openrouter/openai/gpt-4o-mini` and `gpt-4o-mini`
   * normalise alike. The name itself must not carry a path, a leading blank
   * or a `model:` head of its own.
   */
  lemma {:induction false} ProviderPathIgnored(p: string, m: string)
    requires m != [] && !IsSpace(m[0]) && '/' !in m && '\\' !in m
    requires !StartsWith(LowerStr(m), "model:") && !StartsWith(LowerStr(m), "models:")
    ensures NormalizeModelName(p + "/" + m) == NormalizeModelName(m)
  {
    ProviderPathSegment(p, m);
  }

  lemma {:induction false} ProviderPathSegment(p: string, m: string)
    requires m != [] && !IsSpace(m[0]) && '/' !in m && '\\' !in m
    requires !StartsWith(LowerStr(m), "model:") && !StartsWith(LowerStr(m), "models:")
    ensures Trimmed(p + "/" + m) != [] && Trimmed(m) != []
    ensures LastModelSegment(Trimmed(p + "/" + m)) == LastModelSegment(Trimmed(m))
  {
    var lq := ProviderPathTrimmed(p, m);
    var l := Trimmed(m);
    LowerKeepsAbsent(Strip(m), '/');
    LowerKeepsAbsent(Strip(m), '\\');
    ReplaceAbsent(l, '\\', '/');
    ReplaceCharAppend(lq, l, '\\', '/');
    var w := ReplaceChar(lq, '\\', '/');
    assert w[|w| - 1] == '/';
    LastSegmentAfterModelPrefix(w, l);
    BareNameKeepsSegment(m);
  }

  /** `strip().lower()` of `p + "/" + m` keeps `m`'s own trimmed form at the end. */
  lemma {:induction false} ProviderPathTrimmed(p: string, m: string) returns (lq: string)
    requires m != [] && !IsSpace(m[0])
    ensures Trimmed(m) != []
    ensures lq != [] && lq[|lq| - 1] == '/'
    ensures Trimmed(p + "/" + m) == lq + Trimmed(m)
  {
    var q := ProviderPathStripped(p, m);
    StripOfUnpadded(m);
    LowerStrAppend(q + "/", Strip(m));
    lq := LowerStr(q + "/");
  }

  lemma {:induction false} ProviderPathStripped(p: string, m: string) returns (q: string)
    requires m != [] && !IsSpace(m[0])
    ensures Strip(p + "/" + m) == (q + "/") + TrimEnd(m, Blank)
  {
    q := TrimStart(p, Blank);
    AppendAssoc(p, "/", m);
    StripAppend(p, "/" + m);
    TrimEndAppend("/", m, Blank);
    AppendAssoc(q, "/", TrimEnd(m, Blank));
  }

  lemma {:induction false} StripOfUnpadded(m: string)
    requires m != [] && !IsSpace(m[0])
    ensures Strip(m) == TrimEnd(m, Blank) && Strip(m) != []
  {
    assert TrimStart(m, Blank) == m;
  }

  /** A bare name without a path or a `model:` head is its own last segment. */
  lemma {:induction false} BareNameKeepsSegment(m: string)
    requires m != [] && !IsSpace(m[0]) && '/' !in m && '\\' !in m
    requires !StartsWith(LowerStr(m), "model:") && !StartsWith(LowerStr(m), "models:")
    ensures LastModelSegment(Trimmed(m)) == Trimmed(m)
  {
    var l := Trimmed(m);
    TrimmedIsLowerPrefix(m);
    ReplaceAbsent(l, '\\', '/');
    HeadOfPrefix(LowerStr(m), l, "model:");
    HeadOfPrefix(LowerStr(m), l, "models:");
    StripModelPrefixWithoutHead(l);
  }

  /** A head that `a` lacks is lacked by every long enough prefix of `a`. */
  lemma {:induction false} HeadOfPrefix(a: string, b: string, h: string)
    requires StartsWith(a, b) && !StartsWith(a, h)
    ensures !StartsWith(b, h)
  {
    if |h| <= |b| {
      assert a[..|h|] == b[..|h|];
    }
  }

  lemma {:induction false} TrimmedIsLowerPrefix(m: string)
    requires m != [] && !IsSpace(m[0]) && '/' !in m && '\\' !in m
    ensures StartsWith(LowerStr(m), Trimmed(m))
    ensures '/' !in Trimmed(m) && '\\' !in Trimmed(m)
  {
    StripOfUnpadded(m);
    var tm := Strip(m);
    LowerPrefix(m, tm);
    LowerKeepsAbsent(tm, '/');
    LowerKeepsAbsent(tm, '\\');
  }

  lemma {:induction false} LowerPrefix(a: string, b: string)
    requires StartsWith(a, b)
    ensures StartsWith(LowerStr(a), LowerStr(b))
  {
    var la, lb := LowerStr(a), LowerStr(b);
    forall i | 0 <= i < |b| ensures la[i] == lb[i] {
      assert a[i] == b[i];
    }
    assert la[..|b|] == lb;
  }

  // ---- which release tails come off ----

  /** A name none of the four release patterns matches at its end. */
  predicate NoReleaseTail(x: string) {
    && SubAtEnd(x, Latest) == x && SubAtEnd(x, Preview) == x
    && SubAtEnd(x, Date) == x && SubAtEnd(x, Thinking) == x
  }

  /** A trailing `-latest` or `-stable` comes off, and nothing more when `x` has no tail of its own. */
  lemma {:induction false} ReleaseNoiseLatest(x: string, t: string)
    requires t == "-latest" || t == "-stable"
    requires NoReleaseTail(x)
    ensures StripReleaseNoise(x + t) == x
  {
    SubAtEndOfWidth(x, t, Latest);
  }

  /**
   * A trailing preview tag (`-preview`, `-exp`, `-experimental`, optionally
   * followed by one more `-token`) comes off. When that token is `latest` or
   * `stable`, the first step already takes it and the preview step takes
   * the rest.
   */
  lemma {:induction false} ReleaseNoisePreview(x: string, t: string)
    requires IsPreviewTail(t)
    requires NoReleaseTail(x)
    ensures StripReleaseNoise(x + t) == x
  {
    var s := x + t;
    if SubAtEnd(s, Latest) == s {
      PreviewTailLeftmost(x, t);
    } else {
      var k := LatestCutInPreview(x, t);
      PreviewTailShape(t);
      PreviewTailLeftmost(x, t[..k]);
    }
  }

  /** Where the `-latest`/`-stable` step cuts a name ending in a preview tail, when it cuts at all. */
  lemma {:induction false} LatestCutInPreview(x: string, t: string) returns (k: nat)
    requires IsPreviewTail(t)
    requires SubAtEnd(x + t, Latest) != x + t
    ensures 0 < k < |t| && t[k] == '-'
    ensures SubAtEnd(x + t, Latest) == x + t[..k]
  {
    var s := x + t;
    var a := SubAtEnd(s, Latest);
    PreviewTailShape(t);
    assert s[|s| - 1] == t[|t| - 1];
    LatestCutShape(s);
    var p := |a|;
    assert s[|x|] == t[0];
    LatestTailHasOneHyphen(s, p, |x|);
    assert p != |x| by {
      if p == |x| {
        assert false;
      }
    }
    k := p - |x|;
    assert t[k] == s[p];
    assert a == s[..p] == x + t[..k];
  }

  /** Where the `-latest`/`-stable` step cuts, when it cuts a string not ending in a newline. */
  lemma {:induction false} LatestCutShape(s: string)
    requires s != [] && s[|s| - 1] != '\n' && SubAtEnd(s, Latest) != s
    ensures var p := |SubAtEnd(s, Latest)|;
      p < |s| && IsLatestTail(s[p..]) && s[..p] == SubAtEnd(s, Latest)
  {
    assert DollarEnd(s) == |s|;
    var p := |SubAtEnd(s, Latest)|;
    assert s[p..|s|] == s[p..];
  }

  /** `-latest` and `-stable` have no hyphen after their first character. */
  lemma {:induction false} LatestTailHasOneHyphen(s: string, p: nat, h: nat)
    requires p <= |s| && IsLatestTail(s[p..])
    requires h < |s| && s[h] == '-'
    ensures h <= p
  {
  }

  /** A trailing date stamp comes off whatever precedes it, once `x` has no preview or `-thinking` tail. */
  lemma {:induction false} ReleaseNoiseDate(x: string, d: string)
    requires IsDateTail(d)
    requires SubAtEnd(x, Preview) == x && SubAtEnd(x, Thinking) == x
    ensures StripReleaseNoise(x + d) == x
  {
    var s := x + d;
    assert s[|s| - 1] == d[|d| - 1];
    LastCharRulesOut(s, Latest);
    forall i | 0 <= i < |d| - 1 && d[i] == '-' ensures d[i + 1] != 'p' && d[i + 1] != 'e' {
      assert IsDigit(d[i + 1]);
    }
    PreviewNoMatchAppend(x, d);
    DateTailLeftmost(x, d);
  }

  /** A trailing `-thinking` comes off whatever precedes it, once `x` has no preview tail. */
  lemma {:induction false} ReleaseNoiseThinking(x: string)
    requires SubAtEnd(x, Preview) == x
    ensures StripReleaseNoise(x + "-thinking") == x
  {
    var t := "-thinking";
    var s := x + t;
    assert s[|s| - 1] == 'g';
    LastCharRulesOut(s, Latest);
    PreviewNoMatchAppend(x, t);
    LastCharRulesOut(s, Date);
    SubAtEndOfWidth(x, t, Thinking);
  }

  // ---- names that are already keys ----

  /** A lower-case key with no blank, underscore, slash or doubled hyphen, and no hyphen at either end. */
  predicate IsBareKey(m: string) {
    && m != [] && IsClean(m) && NoDoubleHyphen(m)
    && m[0] != '-' && m[|m| - 1] != '-'
  }

  /** On a bare key the steps before release noise change nothing. */
  lemma {:induction false} BareKeySteps(y: string)
    requires IsBareKey(y)
    requires !StartsWith(y, "model:") && !StartsWith(y, "models:") && !StartsWith(y, "antigravity-")
    ensures Trimmed(y) == y && LastModelSegment(y) == y
    ensures FamilyKey(y) == ApplyFamilyAlias(StripReleaseNoise(y))
  {
    BareKeyTrimmed(y);
    ReplaceAbsent(y, '\\', '/');
    StripModelPrefixWithoutHead(y);
    BareKeyCollapsed(y);
  }

  lemma {:induction false} BareKeyTrimmed(y: string)
    requires IsBareKey(y)
    ensures Trimmed(y) == y
  {
    assert y[0] in y && y[|y| - 1] in y;
    assert TrimStart(y, Blank) == y;
    LowerStrOfLower(y);
  }

  lemma {:induction false} BareKeyCollapsed(y: string)
    requires IsBareKey(y)
    ensures CollapseSeparators(y) == y
  {
    assert forall i :: 0 <= i < |y| ==> y[i] in y;
    CollapsedUnchanged(y);
  }

  /** A head without a hyphen is not created by appending something that starts with one. */
  lemma {:induction false} HeadNotCreated(m: string, t: string, h: string)
    requires !StartsWith(m, h) && t != [] && t[0] == '-'
    requires forall i :: 0 <= i < |h| ==> h[i] != '-'
    ensures !StartsWith(m + t, h)
  {
    if |h| <= |m| {
      assert (m + t)[..|h|] == m[..|h|];
    } else {
      assert (m + t)[|m|] == '-';
    }
  }

  /** The release tails the pipeline removes, in the clean spelling a bare key can carry. */
  predicate IsReleaseSuffix(t: string) {
    || t == "-latest" || t == "-stable" || t == "-thinking"
    || IsDateTail(t)
    || (IsPreviewTail(t) && IsClean(t))
  }

  lemma {:induction false} ReleaseSuffixShape(t: string)
    requires IsReleaseSuffix(t)
    ensures |t| >= 2 && t[0] == '-' && t[1] != '-' && t[|t| - 1] != '-'
    ensures IsClean(t) && NoDoubleHyphen(t)
  {
    if t == "-latest" || t == "-stable" || t == "-thinking" {
      WordSuffixShape(t);
    } else if IsDateTail(t) {
      DateSuffixShape(t);
    } else {
      PreviewSuffixShape(t);
    }
  }

  lemma {:induction false} WordSuffixShape(t: string)
    requires t == "-latest" || t == "-stable" || t == "-thinking"
    ensures |t| >= 2 && t[0] == '-' && t[1] != '-' && t[|t| - 1] != '-'
    ensures IsClean(t) && NoDoubleHyphen(t)
  {
    assert forall k :: 1 <= k < |t| ==> 'a' <= t[k] <= 'z';
  }

  lemma {:induction false} PreviewSuffixShape(t: string)
    requires IsPreviewTail(t)
    ensures |t| >= 2 && t[0] == '-' && t[1] != '-' && t[|t| - 1] != '-' && NoDoubleHyphen(t)
  {
    PreviewTailShape(t);
  }

  lemma {:induction false} DateSuffixShape(t: string)
    requires IsDateTail(t)
    ensures |t| >= 2 && t[0] == '-' && t[1] != '-' && t[|t| - 1] != '-'
    ensures IsClean(t) && NoDoubleHyphen(t)
  {
    forall i | 0 <= i < |t| - 1 && t[i] == '-' ensures t[i + 1] != '-' {
      assert IsDigit(t[i + 1]);
    }
    forall c | c in t ensures IsCleanChar(c) {
      var i :| 0 <= i < |t| && t[i] == c;
      assert c == '-' || IsDigit(c);
    }
  }

  /**
   * A release suffix on a bare key does not change the key: `x-latest`,
   * `x-stable`, `x-preview`, `x-exp-01`, `x-2024-07-18`, `x-20240718` and
   * `x-thinking` all normalise like `x`. The key must carry no release tail
   * of its own and must not start with a `model:` or `antigravity` head,
   * which other steps remove.
   */
  lemma {:induction false} ReleaseSuffixIgnored(m: string, t: string)
    requires IsBareKey(m) && NoReleaseTail(m)
    requires !StartsWith(m, "model:") && !StartsWith(m, "models:") && !StartsWith(m, "antigravity")
    requires IsReleaseSuffix(t)
    ensures NormalizeModelName(m + t) == NormalizeModelName(m)
  {
    var y := m + t;
    ReleaseSuffixShape(t);
    BareKeyAppend(m, t);
    HeadsNotCreated(m, t);
    assert FamilyKey(y) == FamilyKey(m) by {
      BareKeySteps(y);
      BareKeySteps(m);
      ReleaseSuffixNoise(m, t);
    }
    BareKeyNormalizes(y);
    BareKeyNormalizes(m);
  }

  /** Each kind of release suffix comes off a name with no release tail of its own. */
  lemma {:induction false} ReleaseSuffixNoise(m: string, t: string)
    requires NoReleaseTail(m) && IsReleaseSuffix(t)
    ensures StripReleaseNoise(m + t) == m
  {
    if t == "-latest" || t == "-stable" {
      ReleaseNoiseLatest(m, t);
    } else if t == "-thinking" {
      ReleaseNoiseThinking(m);
    } else if IsDateTail(t) {
      ReleaseNoiseDate(m, t);
    } else {
      ReleaseNoisePreview(m, t);
    }
  }

  /** On a bare key the whole pipeline is the family key and the finishing steps. */
  lemma {:induction false} BareKeyNormalizes(y: string)
    requires IsBareKey(y)
    requires !StartsWith(y, "model:") && !StartsWith(y, "models:") && !StartsWith(y, "antigravity-")
    ensures var out := FinishKey(FamilyKey(y));
      NormalizeModelName(y) == if out == [] then "unknown" else out
  {
    BareKeySteps(y);
  }

  lemma {:induction false} BareKeyAppend(m: string, t: string)
    requires IsBareKey(m)
    requires |t| >= 2 && t[0] == '-' && t[1] != '-' && t[|t| - 1] != '-'
    requires IsClean(t) && NoDoubleHyphen(t)
    ensures IsBareKey(m + t)
  {
    var y := m + t;
    assert forall c :: c in y ==> c in m || c in t;
    forall i | 0 <= i < |y| - 1 ensures !(y[i] == '-' && y[i + 1] == '-') {
      if i < |m| - 1 {
        assert y[i] == m[i] && y[i + 1] == m[i + 1];
      } else if i >= |m| {
        assert y[i] == t[i - |m|] && y[i + 1] == t[i - |m| + 1];
      }
    }
  }

  lemma {:induction false} HeadsNotCreated(m: string, t: string)
    requires !StartsWith(m, "model:") && !StartsWith(m, "models:") && !StartsWith(m, "antigravity")
    requires t != [] && t[0] == '-'
    ensures !StartsWith(m + t, "model:") && !StartsWith(m + t, "models:") && !StartsWith(m + t, "antigravity-")
    ensures !StartsWith(m, "antigravity-")
  {
    HeadNotCreated(m, t, "model:");
    HeadNotCreated(m, t, "models:");
    HeadNotCreated(m, t, "antigravity");
    if StartsWith(m + t, "antigravity-") {
      StartsWithTransitive(m + t, "antigravity-", "antigravity");
    }
    if StartsWith(m, "antigravity-") {
      StartsWithTransitive(m, "antigravity-", "antigravity");
    }
  }

  // ---- Kimi K2.5 ----

  /**
   * Every clean Kimi key mentioning K2.5 in any spelling the source folds
   * (`2.5`, `k2p5`, `k2-5`) finishes as `kimi-k2.5`, whatever else it says.
   */
  lemma {:induction false} FinishKeyKimi(d: string)
    requires IsClean(d) && StartsWith(d, "kimi")
    requires Contains(d, "2.5") || Contains(d, "k2p5") || Contains(d, "k2-5")
    ensures FinishKey(d) == "kimi-k2.5"
  {
    var e := VersionDots(d);
    VersionDotsClean(d);
    assert e[..4] == d[..4] == "kimi";
    var f := ClaudePrefix(e);
    assert f == e;
    var k := K25Dots(f);
    assert k[..4] == "kimi";
    var w := if Contains(d, "2.5") then "2.5" else if Contains(d, "k2p5") then "k2p5" else "k2-5";
    var i := ContainsAt(d, w);
    var v := VersionDotsKeepsMention(d, e, i, w);
    var j := K25DotsMention(f, k, i, v);
    AtContains(k, "2.5", j);
  }

  /**
   * Version dotting keeps each K2.5 mention, turning at most `k2-5` into
   * `k2.5`; `e` is any string that differs from `d` only where a hyphen
   * became a dot, as `VersionDots(d)` does.
   */
  lemma {:induction false} VersionDotsKeepsMention(d: string, e: string, i: nat, w: string) returns (v: string)
    requires |e| == |d| && forall k :: 0 <= k < |d| ==> e[k] == d[k] || (d[k] == '-' && e[k] == '.')
    requires w == "2.5" || w == "k2p5" || w == "k2-5"
    requires i + |w| <= |d| && d[i..i + |w|] == w
    ensures v == "2.5" || v == "k2p5" || v == "k2-5" || v == "k2.5"
    ensures |v| == |w| && e[i..i + |v|] == v
  {
    var sl := d[i..i + |w|];
    assert sl[0] == d[i] && sl[1] == d[i + 1] && sl[2] == d[i + 2];
    if w == "2.5" {
      assert e[i] == '2' && e[i + 1] == '.' && e[i + 2] == '5';
      v := w;
      assert e[i..i + 3] == [e[i], e[i + 1], e[i + 2]];
    } else {
      assert sl[3] == d[i + 3];
      assert e[i] == 'k' && e[i + 1] == '2' && e[i + 3] == '5';
      if w == "k2p5" {
        assert e[i + 2] == 'p';
        v := w;
      } else if e[i + 2] == '.' {
        v := "k2.5";
      } else {
        assert e[i + 2] == '-';
        v := w;
      }
      assert e[i..i + 4] == [e[i], e[i + 1], e[i + 2], e[i + 3]];
    }
  }

  /**
   * After the K2.5 rewrite, every K2.5 mention reads `2.5`; `k` is any
   * string that differs from `f` only where a `p` or hyphen became a dot
   * and has no `k2p5`/`k2-5` left, as `K25Dots(f)` does.
   */
  lemma {:induction false} K25DotsMention(f: string, k: string, i: nat, v: string) returns (j: nat)
    requires |k| == |f| && forall n :: 0 <= n < |f| ==> k[n] == f[n] || ((f[n] == 'p' || f[n] == '-') && k[n] == '.')
    requires !K25VariantAt(k, i)
    requires v == "2.5" || v == "k2p5" || v == "k2-5" || v == "k2.5"
    requires i + |v| <= |f| && f[i..i + |v|] == v
    ensures j + 3 <= |f| && k[j..j + 3] == "2.5"
  {
    var sl := f[i..i + |v|];
    if v == "2.5" {
      assert sl[0] == f[i] && sl[1] == f[i + 1] && sl[2] == f[i + 2];
      j := i;
      assert k[i] == '2' && k[i + 1] == '.' && k[i + 2] == '5';
    } else {
      assert sl[0] == f[i] && sl[1] == f[i + 1] && sl[2] == f[i + 2] && sl[3] == f[i + 3];
      assert k[i] == 'k' && k[i + 1] == '2' && k[i + 3] == '5';
      j := i + 1;
      assert k[j] == '2' && k[j + 1] == '.' && k[j + 2] == '5';
    }
    assert k[j..j + 3] == [k[j], k[j + 1], k[j + 2]];
  }

  /** Every Kimi name mentioning K2.5, as a bare key with no release tail, normalises to `kimi-k2.5`. */
  lemma {:induction false} KimiKeyCollapses(m: string)
    requires IsBareKey(m) && NoReleaseTail(m) && StartsWith(m, "kimi")
    requires Contains(m, "2.5") || Contains(m, "k2p5") || Contains(m, "k2-5")
    ensures NormalizeModelName(m) == "kimi-k2.5"
  {
    KimiFamilyKey(m);
    BareKeyNormalizes(m);
    FinishKeyKimi(m);
  }

  /** A Kimi bare key with no release tail is its own family key. */
  lemma {:induction false} KimiFamilyKey(m: string)
    requires IsBareKey(m) && NoReleaseTail(m) && StartsWith(m, "kimi")
    ensures !StartsWith(m, "model:") && !StartsWith(m, "models:") && !StartsWith(m, "antigravity-")
    ensures FamilyKey(m) == m
  {
    assert !StartsWith(m, "model:") && !StartsWith(m, "models:") && !StartsWith(m, "antigravity-") by {
      assert m[0] == 'k';
    }
    BareKeySteps(m);
    KimiNotAliased(m);
  }

  /** No family alias applies to a Kimi name. */
  lemma {:induction false} KimiNotAliased(m: string)
    requires StartsWith(m, "kimi")
    ensures m !in FamilyAliases
  {
    assert m[0] == 'k' && m[1] == 'i';
    assert forall a :: a in FamilyAliases ==> |a| >= 2 && (a[0] != 'k' || a[1] != 'i');
  }

  /** The bare K2.5 spellings, without a `kimi` head, also normalise to `kimi-k2.5`. */
  lemma {:induction false} BareK25Collapses(m: string)
    requires m == "k2p5" || m == "k2-5" || m == "k2.5"
    ensures NormalizeModelName(m) == "kimi-k2.5"
  {
    BareK25Shape(m);
    BareK25NoTail(m);
    AliasedToK25(m);
  }

  lemma {:induction false} BareK25Shape(m: string)
    requires m == "k2p5" || m == "k2-5" || m == "k2.5"
    ensures IsBareKey(m) && ApplyFamilyAlias(m) == "k2.5"
    ensures !StartsWith(m, "model:") && !StartsWith(m, "models:") && !StartsWith(m, "antigravity-")
  {
    assert m[0] == 'k';
  }

  /** A bare key whose family key is `k2.5` normalises like `k2.5`. */
  lemma {:induction false} AliasedToK25(m: string)
    requires IsBareKey(m) && ApplyFamilyAlias(m) == "k2.5" && StripReleaseNoise(m) == m
    requires !StartsWith(m, "model:") && !StartsWith(m, "models:") && !StartsWith(m, "antigravity-")
    ensures NormalizeModelName(m) == "kimi-k2.5"
  {
    BareKeySteps(m);
    BareKeyNormalizes(m);
    K25FinishKey();
  }

  lemma {:induction false} BareK25NoTail(m: string)
    requires m == "k2p5" || m == "k2-5" || m == "k2.5"
    ensures StripReleaseNoise(m) == m
  {
    if m == "k2-5" {
      HyphenK25NoTail();
    } else {
      SubAtEndWithoutHyphen(m, Latest);
      SubAtEndWithoutHyphen(m, Preview);
      SubAtEndWithoutHyphen(m, Date);
      SubAtEndWithoutHyphen(m, Thinking);
    }
  }

  lemma {:induction false} HyphenK25NoTail()
    ensures StripReleaseNoise("k2-5") == "k2-5"
  {
    var m := "k2-5";
    assert m == "k2" + "-5";
    LastCharRulesOut(m, Latest);
    SubAtEndWithoutHyphen("k2", Preview);
    PreviewNoMatchAppend("k2", "-5");
    assert DollarEnd(m) == 4;
    forall j | 0 <= j <= 4 ensures !TailMatches(m[j..4], Date) {
      assert |m[j..4]| < 9;
    }
    LastCharRulesOut(m, Thinking);
  }

  lemma {:induction false} K25FinishKey()
    ensures FinishKey("k2.5") == "kimi-k2.5"
  {
    var n := "k2.5";
    assert '-' !in n && 'p' !in n;
    var e := VersionDots(n);
    assert e == n;
    assert ClaudePrefix(e) == e;
    assert K25Dots(e) == e;
  }

  // ---- case ----

  /** Letter case never matters: `GPT-4o-mini` and `gpt-4o-mini` share one key. */
  lemma {:induction false} CaseIgnored(s: string)
    ensures NormalizeModelName(LowerStr(s)) == NormalizeModelName(s)
  {
    StripLower(s);
    LowerStrIdempotent(Strip(s));
    assert Trimmed(LowerStr(s)) == Trimmed(s);
  }

  // ---- underscores ----

  /**
   * Spelling an underscore as a hyphen never changes the key (`gpt_4o_mini`
   * and `gpt-4o-mini` share one), except for a last segment starting with
   * `antigravity_`: its `antigravity-` head is removed before separators are
   * collapsed, so only the hyphenated spelling loses it.
   */
  lemma {:induction false} UnderscoreIgnored(s: string)
    requires !StartsWith(LastModelSegment(Trimmed(s)), "antigravity_")
    ensures NormalizeModelName(ReplaceChar(s, '_', '-')) == NormalizeModelName(s)
  {
    var r, n := ReplaceChar(s, '_', '-'), Trimmed(s);
    assert |Trimmed(r)| == |n| by {
      TrimmedReplace(s);
    }
    NormalizeSteps(r);
    NormalizeSteps(s);
    if n != [] {
      var seg := LastModelSegment(n);
      assert FamilyKey(LastModelSegment(Trimmed(r))) == FamilyKey(seg) by {
        TrimmedReplace(s);
        LastModelSegmentReplace(n);
        FamilyKeyReplace(seg);
      }
    }
  }

  /** `normalize_model_name` as its steps, one after another. */
  lemma {:induction false} NormalizeSteps(name: string)
    ensures var n := Trimmed(name);
      NormalizeModelName(name) == if n == [] then "unknown" else
        var out := FinishKey(FamilyKey(LastModelSegment(n)));
        if out == [] then "unknown" else out
  {
  }

  lemma {:induction false} TrimmedReplace(s: string)
    ensures Trimmed(ReplaceChar(s, '_', '-')) == ReplaceChar(Trimmed(s), '_', '-')
  {
    StripReplace(s, '_', '-');
    LowerReplace(Strip(s), '_', '-');
  }

  lemma {:induction false} LastModelSegmentReplace(n: string)
    ensures LastModelSegment(ReplaceChar(n, '_', '-')) == ReplaceChar(LastModelSegment(n), '_', '-')
  {
    var slashed := ReplaceChar(n, '\\', '/');
    ReplaceCharsCommute(n, '_', '-', '\\', '/');
    StripModelPrefixReplace(slashed);
    LastSegmentReplace(StripModelPrefix(slashed, true), '_', '-');
  }

  /** Past the `antigravity-` head, the family key sees an underscore and a hyphen alike. */
  lemma {:induction false} FamilyKeyReplace(seg: string)
    requires forall c :: c in seg ==> c != '/' && c != '\\' && !IsUpper(c)
    requires !StartsWith(seg, "antigravity_")
    ensures forall c :: c in ReplaceChar(seg, '_', '-') ==> c != '/' && c != '\\' && !IsUpper(c)
    ensures FamilyKey(ReplaceChar(seg, '_', '-')) == FamilyKey(seg)
  {
    var r := ReplaceChar(seg, '_', '-');
    SegmentCharsReplace(seg);
    FamilyKeySteps(seg);
    FamilyKeySteps(r);
    CollapseAfterHeadReplace(seg);
  }

  lemma {:induction false} SegmentCharsReplace(seg: string)
    requires forall c :: c in seg ==> c != '/' && c != '\\' && !IsUpper(c)
    ensures forall c :: c in ReplaceChar(seg, '_', '-') ==> c != '/' && c != '\\' && !IsUpper(c)
  {
  }

  lemma {:induction false} CollapseAfterHeadReplace(seg: string)
    requires !StartsWith(seg, "antigravity_")
    ensures CollapseSeparators(RemovePrefix(ReplaceChar(seg, '_', '-'), "antigravity-"))
      == CollapseSeparators(RemovePrefix(seg, "antigravity-"))
  {
    RemovePrefixReplace(seg);
    SeparatorSpellingIgnored(RemovePrefix(seg, "antigravity-"), '_');
  }

  lemma {:induction false} FamilyKeySteps(seg: string)
    requires forall c :: c in seg ==> c != '/' && c != '\\' && !IsUpper(c)
    ensures FamilyKey(seg) == ApplyFamilyAlias(StripReleaseNoise(CollapseSeparators(RemovePrefix(seg, "antigravity-"))))
  {
  }

  lemma {:induction false} RemovePrefixReplace(seg: string)
    requires !StartsWith(seg, "antigravity_")
    ensures RemovePrefix(ReplaceChar(seg, '_', '-'), "antigravity-")
      == ReplaceChar(RemovePrefix(seg, "antigravity-"), '_', '-')
  {
    var r := ReplaceChar(seg, '_', '-');
    ReplaceKeepsHead(seg, "antigravity", '_', '-');
    HeadThenChar(seg, '-');
    HeadThenChar(seg, '_');
    HeadThenChar(r, '-');
    if |seg| >= 12 {
      assert r[11] == (if seg[11] == '_' then '-' else seg[11]);
      ReplaceCharSuffix(seg, 12, '_');
    }
  }

  lemma {:induction false} HeadThenChar(s: string, c: char)
    ensures StartsWith(s, "antigravity" + [c]) <==> |s| >= 12 && s[..11] == "antigravity" && s[11] == c
  {
    if |s| >= 12 {
      assert s[..12] == s[..11] + [s[11]];
    }
  }
}
