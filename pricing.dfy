/**
 * `PricingDatabase`: per-million-token rate records keyed by model id, an
 * alias table built when the table is loaded, and a memo of resolved names.
 * Resolution hands candidate keys to a lookup in a fixed order and returns
 * the first non-empty record found; the cost of a usage is linear in its
 * token counts.
 */
module Pricing {
  import opened Wrappers
  import opened Text
  import opened Json
  import opened Patterns
  import opened ModelNormalization

  // ---- key helpers ----

  /**
   * `_normalize_key`: trimmed and lower-cased, backslashes read as "/", a
   * `model(s)[:/]` head dropped, only the last path segment kept, and runs
   * of blanks, underscores and hyphens turned into single inner hyphens.
   */
  function NormalizeKey(s: string): string {
    var t := Trimmed(s);
    if t == [] then [] else CollapseSeparators(LastModelSegment(t))
  }

  /**
   * A normalised key is empty exactly for a blank name, and otherwise has no
   * path separator, underscore, blank or capital, no doubled hyphen and no
   * hyphen at either end.
   */
  lemma {:induction false} NormalizeKeyShape(s: string)
    ensures var r := NormalizeKey(s);
      && (Strip(s) == [] ==> r == [])
      && IsClean(r) && '/' !in r
      && NoDoubleHyphen(r) && (r == [] || (r[0] != '-' && r[|r| - 1] != '-'))
  {
    var t := Trimmed(s);
    if t != [] {
      CollapseSeparatorsClean(LastModelSegment(t));
    }
  }

  /**
   * `_normalize_alias_key`: as `NormalizeKey`, but the provider path is kept
   * and only the colon form `model:`/`models:` of the head is dropped.
   */
  function NormalizeAliasKey(s: string): string {
    var t := Trimmed(s);
    if t == [] then [] else AliasKeyOf(t)
  }

  /** The rewrites `_normalize_alias_key` applies after trimming and lower-casing. */
  function AliasKeyOf(t: string): string {
    CollapseSeparators(StripModelPrefix(ReplaceChar(t, '\\', '/'), false))
  }

  /**
   * An alias key is empty for a blank name, and otherwise has no backslash,
   * underscore, blank or capital, no doubled hyphen and no hyphen at either end.
   */
  lemma {:induction false} NormalizeAliasKeyShape(s: string)
    ensures var r := NormalizeAliasKey(s);
      && (Strip(s) == [] ==> r == [])
      && (forall c :: c in r ==> c != '\\' && c != '_' && !IsSpace(c) && !IsUpper(c))
      && NoDoubleHyphen(r) && (r == [] || (r[0] != '-' && r[|r| - 1] != '-'))
  {
    var t := Trimmed(s);
    if t != [] {
      AliasKeyShape(t);
    }
  }

  lemma {:induction false} AliasKeyShape(t: string)
    requires forall c :: c in t ==> !IsUpper(c)
    ensures var r := AliasKeyOf(t);
      && (forall c :: c in r ==> c != '\\' && c != '_' && !IsSpace(c) && !IsUpper(c))
      && NoDoubleHyphen(r) && (r == [] || (r[0] != '-' && r[|r| - 1] != '-'))
  {
    AliasKeyChars(t);
  }

  lemma {:induction false} AliasKeyChars(t: string)
    requires forall c :: c in t ==> !IsUpper(c)
    ensures forall c :: c in CollapseSeparators(StripModelPrefix(ReplaceChar(t, '\\', '/'), false)) ==>
      c != '\\' && c != '_' && !IsSpace(c) && !IsUpper(c)
  {
    var v := ReplaceChar(t, '\\', '/');
    var u := StripModelPrefix(v, false);
    assert forall c :: c in u ==> c in v;
    AliasSeparatorsClean(u);
  }

  lemma {:induction false} AliasKeyCount(t: string)
    ensures Occurrences(CollapseSeparators(StripModelPrefix(ReplaceChar(t, '\\', '/'), false)), '/')
         == Occurrences(ReplaceChar(t, '\\', '/'), '/')
  {
    var v := ReplaceChar(t, '\\', '/');
    ColonPrefixKeepsSlashes(v);
    CollapseSeparatorsKeepsCount(StripModelPrefix(v, false), '/');
  }

  lemma {:induction false} AliasSeparatorsClean(u: string)
    requires forall c :: c in u ==> c != '\\' && !IsUpper(c)
    ensures forall c :: c in CollapseSeparators(u) ==> c != '\\' && c != '_' && !IsSpace(c) && !IsUpper(c)
  {
    var r := CollapseSeparators(u);
    forall c | c in r ensures c != '\\' && c != '_' && !IsSpace(c) && !IsUpper(c) {
      if c != '-' {
        assert c in u && !InClass(c, BlankOrUnderscore);
      }
    }
  }

  /** The alias key keeps every "/" of the name, so `provider/model` structure survives. */
  lemma {:induction false} AliasKeyKeepsPath(s: string)
    ensures Occurrences(NormalizeAliasKey(s), '/') == Occurrences(ReplaceChar(Trimmed(s), '\\', '/'), '/')
  {
    var t := Trimmed(s);
    if t == [] {
      assert ReplaceChar(t, '\\', '/') == [];
    } else {
      AliasKeyCount(t);
    }
  }

  /**
   * `_strip_common_suffixes`: at most one `-latest`/`-stable`, then one date,
   * then one `-thinking`, each anchored at the end.
   */
  function StripCommonSuffixes(k: string): (r: string)
    ensures |r| <= |k|
    ensures forall c :: c in r ==> c in k
    ensures '\n' !in k ==> StartsWith(k, r)
  {
    var a := SubAtEnd(k, Latest);
    var b := SubAtEnd(a, Date);
    var c := SubAtEnd(b, Thinking);
    if '\n' !in k then
      NoNewlineEnd(k); NoNewlineEnd(a); NoNewlineEnd(b);
      StartsWithTransitive(k, a, b);
      StartsWithTransitive(k, b, c);
      c
    else c
  }

  /** A key without a hyphen carries no suffix to strip. */
  lemma {:induction false} StripCommonSuffixesWithoutHyphen(k: string)
    requires '-' !in k
    ensures StripCommonSuffixes(k) == k
  {
    SubAtEndWithoutHyphen(k, Latest);
    SubAtEndWithoutHyphen(k, Date);
    SubAtEndWithoutHyphen(k, Thinking);
  }

  /** A key with none of the three tails the suffix stripping removes. */
  predicate HasNoCommonSuffix(x: string) {
    SubAtEnd(x, Latest) == x && SubAtEnd(x, Date) == x && SubAtEnd(x, Thinking) == x
  }

  /** A trailing `-thinking` is always stripped, whatever comes before it. */
  lemma {:induction false} StripThinkingSuffix(x: string)
    ensures StripCommonSuffixes(x + "-thinking") == x
  {
    var t := "-thinking";
    var s := x + t;
    assert s[|s| - 1] == 'g';
    LastCharRulesOut(s, Latest);
    LastCharRulesOut(s, Date);
    SubAtEndOfWidth(x, t, Thinking);
  }

  /**
   * A trailing `-latest` or `-stable` is stripped first; the date and
   * `-thinking` steps then see the key without it, so a key with no
   * channel tail of its own strips like `x` alone.
   */
  lemma {:induction false} StripLatestSuffix(x: string, t: string)
    requires t == "-latest" || t == "-stable"
    ensures StripCommonSuffixes(x + t) == SubAtEnd(SubAtEnd(x, Date), Thinking)
    ensures SubAtEnd(x, Latest) == x ==> StripCommonSuffixes(x + t) == StripCommonSuffixes(x)
  {
    SubAtEndOfWidth(x, t, Latest);
  }

  /**
   * A trailing date stamp, compact `-YYYYMMDD` or dashed `-YYYY-MM-DD`, is
   * stripped; only the `-thinking` step then applies to what is left.
   */
  lemma {:induction false} StripDateSuffix(x: string, d: string)
    requires IsDateTail(d)
    ensures StripCommonSuffixes(x + d) == SubAtEnd(x, Thinking)
    ensures SubAtEnd(x, Latest) == x && SubAtEnd(x, Date) == x ==>
              StripCommonSuffixes(x + d) == StripCommonSuffixes(x)
  {
    var s := x + d;
    assert s[|s| - 1] == d[|d| - 1];
    LastCharRulesOut(s, Latest);
    DateTailLeftmost(x, d);
  }

  /**
   * The three tails come off together when stacked in the order the
   * stripping expects, `x[-thinking][date][-latest|-stable]`, and nothing
   * else of the key is touched.
   */
  lemma {:induction false} StripCommonSuffixesLayers(x: string, th: string, d: string, l: string)
    requires HasNoCommonSuffix(x)
    requires th == "" || th == "-thinking"
    requires d == "" || IsDateTail(d)
    requires l == "" || l == "-latest" || l == "-stable"
    ensures StripCommonSuffixes(x + th + d + l) == x
  {
    var c := x + th;
    var b := c + d;
    assert x + th + d + l == b + l;
    if l != "" {
      SubAtEndOfWidth(b, l, Latest);
    } else {
      assert b + l == b;
      if b != x {
        assert b[|b| - 1] == (th + d)[|th + d| - 1];
        LastCharRulesOut(b, Latest);
      }
    }
    assert SubAtEnd(b + l, Latest) == b;
    if d != "" {
      DateTailLeftmost(c, d);
    } else {
      assert b == c;
      if th != "" {
        assert c[|c| - 1] == 'g';
        LastCharRulesOut(c, Date);
      } else {
        assert c == x;
      }
    }
    assert SubAtEnd(b, Date) == c;
    if th != "" {
      SubAtEndOfWidth(x, th, Thinking);
    } else {
      assert c == x;
    }
  }

  /** The Kimi K2.5 spellings that always expand. */
  const KimiSpellings: set<string> := {"k2.5", "k2-5", "k2p5", "kimi2.5", "kimi-k2p5", "kimi-k2-5"}

  /** `_kimi_aliases`: the two K2.5 keys for a Kimi K2.5 spelling, and nothing otherwise. */
  function KimiAliases(k: string): (r: seq<string>)
    ensures r == [] || r == ["k2p5", "kimi-k2.5"]
    ensures k in KimiSpellings ==> r == ["k2p5", "kimi-k2.5"]
    ensures StartsWith(k, "kimi") && (Contains(k, "k2.5") || Contains(k, "k2p5") || Contains(k, "k2-5")) ==> r == ["k2p5", "kimi-k2.5"]
    ensures r != [] ==> k in KimiSpellings || StartsWith(k, "kimi")
  {
    if k in KimiSpellings then ["k2p5", "kimi-k2.5"]
    else if StartsWith(k, "kimi") && (Contains(k, "k2.5") || Contains(k, "k2p5") || Contains(k, "k2-5"))
    then ["k2p5", "kimi-k2.5"]
    else []
  }

  // ---- the candidate keys `_resolve_pricing` probes ----

  /** `raw.split("/")[-1] if "/" in raw else raw`, falling back to `raw` when that is empty. */
  function BaseName(raw: string): (b: string)
    ensures '/' !in raw ==> b == raw
    ensures b == [] <==> raw == []
    ensures b != raw ==> '/' !in b && EndsWith(raw, b)
  {
    var l := if '/' in raw then LastSegment(raw) else raw;
    if l == [] then raw else l
  }

  /** A key, its suffix-stripped form, its dotted form, and its stripped-then-dotted form. */
  function Variants(k: string): seq<string> {
    [k, StripCommonSuffixes(k), VersionDots(k), VersionDots(StripCommonSuffixes(k))]
  }

  /** `alias_variants`: the variants of every non-empty key, in order. */
  function AliasVariants(keys: seq<string>): (r: seq<string>)
    ensures |r| <= 4 * |keys|
  {
    if keys == [] then []
    else
      var k := keys[|keys| - 1];
      AliasVariants(keys[..|keys| - 1]) + (if k == [] then [] else Variants(k))
  }

  /** What one normalised key contributes to `expanded`. */
  function Expansions(k: string): seq<string> {
    var own := Variants(k);
    var withVendor := if StartsWith(k, "antigravity-") then own + Variants(k[12..]) else own;
    withVendor + KimiAliases(k) + KimiAliases(StripCommonSuffixes(k))
  }

  /** `expanded`: the expansions of every non-empty key, in order. */
  function ExpandedCandidates(keys: seq<string>): seq<string> {
    if keys == [] then []
    else
      var k := keys[|keys| - 1];
      ExpandedCandidates(keys[..|keys| - 1]) + (if k == [] then [] else Expansions(k))
  }

  /** Whether the alias loop probes a target for `ak`: a non-empty key with a non-empty target. */
  predicate HasTarget(aliases: map<string, string>, ak: string) {
    ak != [] && ak in aliases && aliases[ak] != []
  }

  /** The alias targets the alias loop probes, in order. */
  function AliasTargets(variants: seq<string>, aliases: map<string, string>): (r: seq<string>)
    ensures forall t :: t in r ==> t != [] && t in aliases.Values
  {
    if variants == [] then []
    else
      (if HasTarget(aliases, variants[0]) then [aliases[variants[0]]] else [])
      + AliasTargets(variants[1..], aliases)
  }

  function AliasKeys(raw: string, base: string): seq<string> {
    [raw, base, NormalizeAliasKey(raw), NormalizeAliasKey(base), NormalizeKey(raw), NormalizeKey(base)]
  }

  /** The first layer `_resolve_pricing` probes: the raw name and its base name. */
  function DirectKeys(model: string): (r: seq<string>)
    ensures |r| == 2 && r[0] == model && r[1] == BaseName(model)
  {
    [model, BaseName(model)]
  }

  /** The second layer: the alias targets of the variants of the name's alias keys. */
  function AliasLayer(aliases: map<string, string>, model: string): seq<string> {
    AliasTargets(AliasVariants(AliasKeys(model, BaseName(model))), aliases)
  }

  /** The third layer: the expansions of the name's normalised keys. */
  function ExpandedLayer(model: string): seq<string> {
    ExpandedCandidates([NormalizeKey(model), NormalizeKey(BaseName(model))])
  }

  /** Every key `_resolve_pricing` looks up, in order, layer after layer. */
  function ProbeKeys(aliases: map<string, string>, model: string): (r: seq<string>)
    ensures |r| >= 2 && r[0] == model && r[1] == BaseName(model)
  {
    DirectKeys(model) + (AliasLayer(aliases, model) + ExpandedLayer(model))
  }

  /** A key whose lookup succeeds: non-empty and stored with a non-empty record. */
  predicate Priced(pricing: map<string, Json>, k: string) {
    k != [] && k in pricing && Truthy(pricing[k])
  }

  /** The record of the first priced key. */
  function FirstPriced(keys: seq<string>, pricing: map<string, Json>): (r: Option<Json>)
    ensures r.Some? ==> Truthy(r.value)
  {
    if keys == [] then None
    else if Priced(pricing, keys[0]) then Some(pricing[keys[0]])
    else FirstPriced(keys[1..], pricing)
  }

  /** A hit is the record of one of the keys, and a miss means no key is priced. */
  lemma {:induction false} FirstPricedFinds(keys: seq<string>, pricing: map<string, Json>)
    ensures var r := FirstPriced(keys, pricing);
      && (r.Some? ==> exists k :: k in keys && Priced(pricing, k) && r.value == pricing[k])
      && (r.None? <==> forall k :: k in keys ==> !Priced(pricing, k))
  {
    if keys != [] && !Priced(pricing, keys[0]) {
      FirstPricedFinds(keys[1..], pricing);
      assert forall k :: k in keys[1..] ==> k in keys;
      assert forall k :: k in keys ==> k == keys[0] || k in keys[1..];
    }
  }

  /** Probing `keys` from position `i`: a priced key there is the hit, otherwise probing goes on. */
  lemma {:induction false} ProbeStep(keys: seq<string>, i: nat, pricing: map<string, Json>)
    requires i < |keys|
    ensures FirstPriced(keys[i..], pricing)
         == if Priced(pricing, keys[i]) then Some(pricing[keys[i]]) else FirstPriced(keys[i + 1..], pricing)
  {
    assert keys[i..][0] == keys[i] && keys[i..][1..] == keys[i + 1..];
  }

  /** `a or b` on lookup results. */
  function OrElse(a: Option<Json>, b: Option<Json>): (r: Option<Json>)
    ensures a.Some? ==> r == a
    ensures a.None? ==> r == b
  {
    if a.Some? then a else b
  }

  /** What `_resolve_pricing(model)` returns on an empty memo. */
  function Resolve(pricing: map<string, Json>, aliases: map<string, string>, model: string): (r: Option<Json>)
    ensures r.Some? ==> r.value in pricing.Values && Truthy(r.value)
  {
    FirstPricedFinds(ProbeKeys(aliases, model), pricing);
    FirstPriced(ProbeKeys(aliases, model), pricing)
  }

  /** Probing `a` then `b` finds what probing `a` finds, or else what probing `b` finds. */
  lemma {:induction false} FirstPricedAppend(a: seq<string>, b: seq<string>, pricing: map<string, Json>)
    ensures FirstPriced(a + b, pricing) == OrElse(FirstPriced(a, pricing), FirstPriced(b, pricing))
  {
    if a == [] {
      assert a + b == b;
    } else {
      assert (a + b)[0] == a[0];
      assert (a + b)[1..] == a[1..] + b;
      FirstPricedAppend(a[1..], b, pricing);
    }
  }

  lemma {:induction false} AliasTargetsStep(variants: seq<string>, v: nat, aliases: map<string, string>)
    requires v < |variants|
    ensures AliasTargets(variants[v..], aliases)
         == (if HasTarget(aliases, variants[v]) then [aliases[variants[v]]] else [])
            + AliasTargets(variants[v + 1..], aliases)
  {
    assert variants[v..][0] == variants[v] && variants[v..][1..] == variants[v + 1..];
  }

  /** One pass of the alias loop: a variant without a target, or with an unpriced one, is passed over. */
  lemma {:induction false} ProbeAliasStep(variants: seq<string>, v: nat, aliases: map<string, string>, pricing: map<string, Json>)
    requires v < |variants|
    ensures var here, rest := FirstPriced(AliasTargets(variants[v..], aliases), pricing),
                              FirstPriced(AliasTargets(variants[v + 1..], aliases), pricing);
      if HasTarget(aliases, variants[v]) && Priced(pricing, aliases[variants[v]])
      then here == Some(pricing[aliases[variants[v]]])
      else here == rest
  {
    AliasTargetsStep(variants, v, aliases);
    var rest := AliasTargets(variants[v + 1..], aliases);
    if HasTarget(aliases, variants[v]) {
      FirstPricedCons(aliases[variants[v]], rest, pricing);
    } else {
      assert [] + rest == rest;
    }
  }

  lemma {:induction false} FirstPricedCons(k: string, rest: seq<string>, pricing: map<string, Json>)
    ensures FirstPriced([k] + rest, pricing)
         == if Priced(pricing, k) then Some(pricing[k]) else FirstPriced(rest, pricing)
  {
    assert ([k] + rest)[0] == k && ([k] + rest)[1..] == rest;
  }

  /** Resolution tries the three layers in turn and stops at the first one with a hit. */
  lemma {:induction false} ResolveLayers(pricing: map<string, Json>, aliases: map<string, string>, model: string)
    ensures Resolve(pricing, aliases, model)
         == OrElse(FirstPriced(DirectKeys(model), pricing),
                   OrElse(FirstPriced(AliasLayer(aliases, model), pricing),
                          FirstPriced(ExpandedLayer(model), pricing)))
  {
    FirstPricedAppend(DirectKeys(model), AliasLayer(aliases, model) + ExpandedLayer(model), pricing);
    FirstPricedAppend(AliasLayer(aliases, model), ExpandedLayer(model), pricing);
  }

  /** A name that is itself a key with a non-empty record resolves to that record. */
  lemma {:induction false} ResolveDirectKey(pricing: map<string, Json>, aliases: map<string, string>, model: string)
    requires Priced(pricing, model)
    ensures Resolve(pricing, aliases, model) == Some(pricing[model])
  {
  }

  /** When the name is not priced but its base name is, the base name's record is used. */
  lemma {:induction false} ResolveBaseName(pricing: map<string, Json>, aliases: map<string, string>, model: string)
    requires !Priced(pricing, model) && Priced(pricing, BaseName(model))
    ensures Resolve(pricing, aliases, model) == Some(pricing[BaseName(model)])
  {
    ResolveLayers(pricing, aliases, model);
    var d := DirectKeys(model);
    assert d[1..][0] == BaseName(model);
  }

  /**
   * When neither the name nor its base name is priced, an alias entry for
   * the name itself decides: its target's record is used.
   */
  lemma {:induction false} ResolveThroughAlias(pricing: map<string, Json>, aliases: map<string, string>, model: string)
    requires !Priced(pricing, model) && !Priced(pricing, BaseName(model))
    requires HasTarget(aliases, model) && Priced(pricing, aliases[model])
    ensures Resolve(pricing, aliases, model) == Some(pricing[aliases[model]])
  {
    ResolveLayers(pricing, aliases, model);
    var d := DirectKeys(model);
    ProbeStep(d, 0, pricing);
    ProbeStep(d, 1, pricing);
    assert d[0..] == d && d[2..] == [];
    var a := AliasLayer(aliases, model);
    AliasLayerStartsWithTarget(aliases, model);
    ProbeStep(a, 0, pricing);
    assert a[0..] == a;
  }

  lemma {:induction false} AliasLayerStartsWithTarget(aliases: map<string, string>, model: string)
    requires HasTarget(aliases, model)
    ensures AliasLayer(aliases, model) != [] && AliasLayer(aliases, model)[0] == aliases[model]
  {
    var variants := AliasVariants(AliasKeys(model, BaseName(model)));
    AliasVariantsStartWithRaw(model, BaseName(model));
    assert AliasTargets(variants, aliases)[0] == aliases[model];
  }

  lemma {:induction false} AliasVariantsStartWithRaw(raw: string, base: string)
    requires raw != []
    ensures AliasVariants(AliasKeys(raw, base)) != [] && AliasVariants(AliasKeys(raw, base))[0] == raw
  {
    AliasVariantsHead(AliasKeys(raw, base));
  }

  /** The variants begin with the first key itself when that key is non-empty. */
  lemma {:induction false} AliasVariantsHead(keys: seq<string>)
    requires keys != [] && keys[0] != []
    ensures AliasVariants(keys) != [] && AliasVariants(keys)[0] == keys[0]
  {
    var init := keys[..|keys| - 1];
    var last := keys[|keys| - 1];
    if |keys| == 1 {
      assert init == [];
      assert AliasVariants(keys) == [] + Variants(last);
    } else {
      assert init[0] == keys[0];
      AliasVariantsHead(init);
      assert AliasVariants(keys) == AliasVariants(init) + (if last == [] then [] else Variants(last));
    }
  }

  // ---- the cost formula ----

  /** The four per-million-token rates of a record. */
  datatype Rates = Rates(input: real, output: real, cacheRead: real, cacheWrite: real)

  /** `float(x or 0.0)` */
  function RateOf(v: Json): (r: Option<real>)
    ensures !Truthy(v) ==> r == Some(0.0)
    ensures v.JInt? || v.JReal? ==> r.Some?
  {
    if !Truthy(v) then Some(0.0) else PyFloat(v)
  }

  /**
   * `float(record.get(key, default) or 0.0)`: `float()` of a list or dict
   * raises `TypeError`, of text it cannot read `ValueError`.
   */
  function RateOrDefault(fields: seq<(string, Json)>, key: string, default: real): (r: Result<real>)
    ensures Find(fields, key).None? ==> r == Ok(default)
    ensures r.Raised? ==> Find(fields, key).Some? && Truthy(Find(fields, key).value)
    ensures r.Raised? ==> (r.reason == "TypeError" <==> Find(fields, key).value.JArr? || Find(fields, key).value.JObj?)
  {
    match Find(fields, key)
    case None => Ok(default)
    case Some(v) =>
      match RateOf(v)
      case Some(x) => Ok(x)
      case None => if v.JArr? || v.JObj? then Raised("TypeError") else Raised("ValueError")
  }

  /**
   * The rates `get_cost` reads from a record: `input` and `output` default to
   * 0, `cache_read` to a tenth of the input rate and `cache_write` to the
   * input rate. A value `float()` rejects makes the call raise, with the
   * first such rate in that order naming the exception.
   */
  function RatesOf(rec: Json): (r: Result<Rates>)
    ensures !rec.JObj? ==> r.Raised?
    ensures r.Ok? && Find(rec.fields, "cache_read").None? ==> r.value.cacheRead == r.value.input * 0.1
    ensures r.Ok? && Find(rec.fields, "cache_write").None? ==> r.value.cacheWrite == r.value.input
    ensures r.Ok? && Find(rec.fields, "input").None? ==> r.value.input == 0.0
    ensures r.Ok? && Find(rec.fields, "output").None? ==> r.value.output == 0.0
  {
    if !rec.JObj? then Raised("AttributeError")
    else
      var fs := rec.fields;
      match RateOrDefault(fs, "input", 0.0)
      case Raised(e) => Raised(e)
      case Ok(i) =>
        match RateOrDefault(fs, "output", 0.0)
        case Raised(e) => Raised(e)
        case Ok(o) =>
          match RateOrDefault(fs, "cache_read", i * 0.1)
          case Raised(e) => Raised(e)
          case Ok(cr) =>
            match RateOrDefault(fs, "cache_write", i)
            case Raised(e) => Raised(e)
            case Ok(cw) => Ok(Rates(i, o, cr, cw))
  }

  /** `(in * input + out * output + cr * cache_read + cw * cache_write) / 1e6` */
  function UsageCost(rt: Rates, i: int, o: int, cr: int, cw: int): real {
    (i as real * rt.input + o as real * rt.output + cr as real * rt.cacheRead + cw as real * rt.cacheWrite) / 1000000.0
  }

  /** `get_cost` given the resolved record: 0 when nothing resolved. */
  function CostOf(rec: Option<Json>, i: int, o: int, cr: int, cw: int): (r: Result<real>)
    ensures rec.None? || !Truthy(rec.value) ==> r == Ok(0.0)
    ensures rec.Some? && Truthy(rec.value) && RatesOf(rec.value).Ok? ==> r == Ok(UsageCost(RatesOf(rec.value).value, i, o, cr, cw))
    ensures rec.Some? && Truthy(rec.value) && RatesOf(rec.value).Raised? ==> r.Raised?
  {
    if rec.None? || !Truthy(rec.value) then Ok(0.0)
    else
      match RatesOf(rec.value)
      case Ok(rt) => Ok(UsageCost(rt, i, o, cr, cw))
      case Raised(e) => Raised(e)
  }

  /** The two tables resolution reads: the records and the alias map. */
  datatype Prices = Prices(pricing: map<string, Json>, aliases: map<string, string>)

  /** `get_cost(model, ...)` as a function of the tables: resolve, then apply the record's rates. */
  function ModelCost(prices: Prices, model: string, i: int, o: int, cr: int, cw: int): Result<real> {
    CostOf(Resolve(prices.pricing, prices.aliases, model), i, o, cr, cw)
  }

  /** The cost of two usages together is the sum of their costs. */
  lemma {:induction false} UsageCostAdds(rt: Rates, i1: int, o1: int, cr1: int, cw1: int, i2: int, o2: int, cr2: int, cw2: int)
    ensures UsageCost(rt, i1 + i2, o1 + o2, cr1 + cr2, cw1 + cw2)
         == UsageCost(rt, i1, o1, cr1, cw1) + UsageCost(rt, i2, o2, cr2, cw2)
  {
    assert (i1 + i2) as real * rt.input == i1 as real * rt.input + i2 as real * rt.input;
    assert (o1 + o2) as real * rt.output == o1 as real * rt.output + o2 as real * rt.output;
    assert (cr1 + cr2) as real * rt.cacheRead == cr1 as real * rt.cacheRead + cr2 as real * rt.cacheRead;
    assert (cw1 + cw2) as real * rt.cacheWrite == cw1 as real * rt.cacheWrite + cw2 as real * rt.cacheWrite;
  }

  /** Non-negative rates and token counts give a non-negative cost. */
  lemma {:induction false} UsageCostNonNegative(rt: Rates, i: nat, o: nat, cr: nat, cw: nat)
    requires rt.input >= 0.0 && rt.output >= 0.0 && rt.cacheRead >= 0.0 && rt.cacheWrite >= 0.0
    ensures UsageCost(rt, i, o, cr, cw) >= 0.0
  {
    assert i as real * rt.input >= 0.0;
    assert o as real * rt.output >= 0.0;
    assert cr as real * rt.cacheRead >= 0.0;
    assert cw as real * rt.cacheWrite >= 0.0;
  }

  // ---- loading ----

  /** What reading `pricing_db.json` gave: no file, a failure to read or decode it, or its decoded value. */
  datatype TableFile = Missing | Unreadable | Decoded(raw: Json)

  /** `(raw.get(key) or {}) if isinstance(raw, dict) else {}` */
  function Section(top: Json, key: string): Json {
    if top.JObj? then Or(Field(top, key), JObj([])) else JObj([])
  }

  /** `json.load(f) or {}` */
  function TopLevel(raw: Json): Json {
    Or(raw, JObj([]))
  }

  /** `load` runs to the end: the file decoded and its `models` section is a dict. */
  predicate LoadCompletes(file: TableFile) {
    file.Decoded? && Section(TopLevel(file.raw), "models").JObj?
  }

  /** `{k: v for k, v in models.items() if isinstance(v, dict)}`, a later entry replacing an earlier one. */
  function PricingTable(fields: seq<(string, Json)>): (r: map<string, Json>)
    ensures forall k :: k in r ==> r[k].JObj?
    ensures forall k :: k in r ==> (k, r[k]) in fields
  {
    if fields == [] then map[]
    else
      var last := fields[|fields| - 1];
      var m := PricingTable(fields[..|fields| - 1]);
      if last.1.JObj? then m[last.0 := last.1] else m - {last.0}
  }

  /**
   * One pass of the alias loop: the pair's own entry `key` is set, and the
   * entry for its base name `base` is added by `setdefault`, so an existing
   * entry stays.
   */
  function AddAlias(m: map<string, string>, key: string, base: string, target: string): (r: map<string, string>)
    ensures key in r && r[key] == target
    ensures base in r
    ensures base != key && base in m ==> r[base] == m[base]
    ensures base !in m ==> r[base] == target
  {
    var m1 := m[key := target];
    if base in m1 then m1 else m1[base := target]
  }

  /** Only the pair's own entry and its base-name entry can appear or change. */
  lemma {:induction false} AddAliasKeepsOthers(m: map<string, string>, key: string, base: string, target: string)
    ensures var r := AddAlias(m, key, base, target);
      && (forall k :: k in r <==> k in m || k == key || k == base)
      && (forall k :: k in m && k != key && k != base ==> r[k] == m[k])
  {
  }

  /**
   * The alias table after one more pair: a pair is kept when its value is a
   * string and its key and value both normalise to something non-empty.
   */
  function AliasStep(m: map<string, string>, p: (string, Json)): map<string, string> {
    if !p.1.JStr? then m
    else
      var nk, nv := NormalizeAliasKey(p.0), NormalizeKey(p.1.s);
      if nk == [] || nv == [] then m else AddAlias(m, nk, LastSegment(nk), nv)
  }

  /** The normalised keys of the string values among the pairs. */
  function NormalizedTargets(pairs: seq<(string, Json)>): set<string> {
    if pairs == [] then {}
    else
      var p := pairs[|pairs| - 1];
      NormalizedTargets(pairs[..|pairs| - 1]) + (if p.1.JStr? then {NormalizeKey(p.1.s)} else {})
  }

  /** The alias table after the given pairs: every target is a non-empty normalised key of one of their values. */
  function BuildAliases(pairs: seq<(string, Json)>): (r: map<string, string>)
    ensures forall k :: k in r ==> r[k] != [] && r[k] in NormalizedTargets(pairs)
  {
    if pairs == [] then map[]
    else
      var m := BuildAliases(pairs[..|pairs| - 1]);
      var p := pairs[|pairs| - 1];
      AliasStepTargets(m, p, NormalizedTargets(pairs[..|pairs| - 1]));
      AliasStep(m, p)
  }

  lemma {:induction false} AliasStepTargets(m: map<string, string>, p: (string, Json), targets: set<string>)
    requires forall k :: k in m ==> m[k] != [] && m[k] in targets
    ensures forall k :: k in AliasStep(m, p) ==>
      AliasStep(m, p)[k] != []
      && AliasStep(m, p)[k] in targets + (if p.1.JStr? then {NormalizeKey(p.1.s)} else {})
  {
    if p.1.JStr? && NormalizeAliasKey(p.0) != [] && NormalizeKey(p.1.s) != [] {
      var nk := NormalizeAliasKey(p.0);
      AddAliasTargets(m, nk, LastSegment(nk), NormalizeKey(p.1.s), targets);
    }
  }

  lemma {:induction false} AddAliasTargets(m: map<string, string>, key: string, base: string, target: string, targets: set<string>)
    requires forall k :: k in m ==> m[k] != [] && m[k] in targets
    requires target != []
    ensures forall k :: k in AddAlias(m, key, base, target) ==>
      AddAlias(m, key, base, target)[k] != [] && AddAlias(m, key, base, target)[k] in targets + {target}
  {
  }

  /** The `pricing` table a completed `load` leaves. */
  function LoadedPricing(file: TableFile): (r: map<string, Json>)
    ensures !LoadCompletes(file) ==> r == map[]
    ensures forall k :: k in r ==> r[k].JObj?
  {
    if LoadCompletes(file) then PricingTable(Section(TopLevel(file.raw), "models").fields) else map[]
  }

  /** The `aliases` table a completed `load` leaves; a non-dict `aliases` section gives none. */
  function LoadedAliases(file: TableFile): (r: map<string, string>)
    ensures !LoadCompletes(file) ==> r == map[]
  {
    if LoadCompletes(file) then
      var a := Section(TopLevel(file.raw), "aliases");
      if a.JObj? then BuildAliases(a.fields) else map[]
    else map[]
  }

  /** The alias loop of `load`: pairs are read in order into a fresh table. */
  method CollectAliases(pairs: seq<(string, Json)>) returns (built: map<string, string>)
    ensures built == BuildAliases(pairs)
  {
    built := map[];
    var i := 0;
    while i < |pairs|
      invariant 0 <= i <= |pairs|
      invariant built == BuildAliases(pairs[..i])
    {
      BuildAliasesStep(pairs, i);
      built := AddPair(built, pairs[i]);
      i := i + 1;
    }
    assert pairs[..|pairs|] == pairs;
  }

  /**
   * One pass of the alias loop: a pair with a string value whose key and
   * value both normalise to something non-empty sets its own entry and, by
   * `setdefault`, the entry of its key's last path segment.
   */
  method AddPair(m: map<string, string>, pair: (string, Json)) returns (built: map<string, string>)
    ensures built == AliasStep(m, pair)
  {
    built := m;
    var (k, v) := pair;
    if v.JStr? {
      var nk := NormalizeAliasKey(k);
      var nv := NormalizeKey(v.s);
      if nk != [] && nv != [] {
        built := SetAlias(built, nk, LastSegment(nk), nv);
      }
    }
  }

  /** `aliases[nk] = nv` followed by `aliases.setdefault(base, nv)`. */
  method SetAlias(m: map<string, string>, key: string, base: string, target: string) returns (built: map<string, string>)
    ensures built == AddAlias(m, key, base, target)
  {
    built := m[key := target];
    if base !in built {
      built := built[base := target];
    }
  }

  lemma {:induction false} BuildAliasesStep(pairs: seq<(string, Json)>, i: nat)
    requires i < |pairs|
    ensures BuildAliases(pairs[..i + 1]) == AliasStep(BuildAliases(pairs[..i]), pairs[i])
  {
    assert pairs[..i + 1][..i] == pairs[..i];
  }

  /** The `alias_variants` loop: the four variants of every non-empty key, in order. */
  method CollectVariants(keys: seq<string>) returns (variants: seq<string>)
    ensures variants == AliasVariants(keys)
  {
    variants := [];
    var j := 0;
    while j < |keys|
      invariant 0 <= j <= |keys|
      invariant variants == AliasVariants(keys[..j])
    {
      var ak := keys[j];
      VariantsStep(keys, j);
      if ak != [] {
        variants := variants + Variants(ak);
      }
      j := j + 1;
    }
    assert keys[..|keys|] == keys;
  }

  lemma {:induction false} VariantsStep(keys: seq<string>, j: nat)
    requires j < |keys|
    ensures keys[j] == [] ==> AliasVariants(keys[..j + 1]) == AliasVariants(keys[..j])
    ensures keys[j] != [] ==> AliasVariants(keys[..j + 1]) == AliasVariants(keys[..j]) + Variants(keys[j])
  {
    assert keys[..j + 1][..j] == keys[..j];
  }

  /** One pass of the `expanded` loop: what the candidate `k` appends. */
  method ExpandKey(k: string) returns (more: seq<string>)
    ensures more == Expansions(k)
  {
    more := Variants(k);
    if StartsWith(k, "antigravity-") {
      var k2 := k[12..];
      more := more + Variants(k2);
    }
    more := more + KimiAliases(k) + KimiAliases(StripCommonSuffixes(k));
  }

  /** The `expanded` loop: the expansions of every non-empty candidate, in order. */
  method CollectExpanded(candidates: seq<string>) returns (expanded: seq<string>)
    ensures expanded == ExpandedCandidates(candidates)
  {
    expanded := [];
    var c := 0;
    while c < |candidates|
      invariant 0 <= c <= |candidates|
      invariant expanded == ExpandedCandidates(candidates[..c])
    {
      var k := candidates[c];
      ExpandedStep(candidates, c);
      if k != [] {
        var more := ExpandKey(k);
        expanded := expanded + more;
      }
      c := c + 1;
    }
    assert candidates[..|candidates|] == candidates;
  }

  lemma {:induction false} ExpandedStep(candidates: seq<string>, c: nat)
    requires c < |candidates|
    ensures candidates[c] == [] ==> ExpandedCandidates(candidates[..c + 1]) == ExpandedCandidates(candidates[..c])
    ensures candidates[c] != [] ==>
      ExpandedCandidates(candidates[..c + 1]) == ExpandedCandidates(candidates[..c]) + Expansions(candidates[c])
  {
    assert candidates[..c + 1][..c] == candidates[..c];
  }

  /** Every memoised name maps to what resolution gives for it. */
  ghost predicate MemoCurrent(cache: map<string, Option<Json>>, pricing: map<string, Json>, aliases: map<string, string>) {
    forall m :: m in cache ==> cache[m] == Resolve(pricing, aliases, m)
  }

  lemma {:induction false} MemoStaysCurrent(cache: map<string, Option<Json>>, pricing: map<string, Json>, aliases: map<string, string>,
                         model: string, p: Option<Json>)
    requires MemoCurrent(cache, pricing, aliases) && p == Resolve(pricing, aliases, model)
    ensures MemoCurrent(cache[model := p], pricing, aliases)
  {
  }

  // ---- the database ----

  class PricingDatabase {
    var pricing: map<string, Json>
    var aliases: map<string, string>
    var resolvedCache: map<string, Option<Json>>

    /** The tables as a value, for the specifications of the callers of `get_cost`. */
    function Tables(): Prices
      reads this
    {
      Prices(pricing, aliases)
    }

    /** Every record is a dict, and every memo entry is what resolution gives now. */
    ghost predicate Valid()
      reads this
    {
      && (forall k :: k in pricing ==> pricing[k].JObj?)
      && MemoCurrent(resolvedCache, pricing, aliases)
    }

    constructor(file: TableFile)
      ensures Valid()
      ensures pricing == LoadedPricing(file) && aliases == LoadedAliases(file)
      ensures resolvedCache == map[]
    {
      pricing := map[];
      aliases := map[];
      resolvedCache := map[];
      new;
      Load(file);
    }

    /**
     * `load`: a missing file changes nothing; a file that cannot be read or
     * decoded, or whose `models` section is not a dict, empties all tables;
     * otherwise both tables are rebuilt and the memo is cleared.
     */
    method Load(file: TableFile)
      modifies this
      ensures file.Missing? ==> pricing == old(pricing) && aliases == old(aliases) && resolvedCache == old(resolvedCache)
      ensures !file.Missing? ==> pricing == LoadedPricing(file) && aliases == LoadedAliases(file) && resolvedCache == map[]
      ensures old(Valid()) || !file.Missing? ==> Valid()
    {
      match file
      case Missing =>
      case Unreadable =>
        pricing, aliases, resolvedCache := map[], map[], map[];
      case Decoded(raw) =>
        var top := TopLevel(raw);
        var models := Section(top, "models");
        if !models.JObj? {
          pricing, aliases, resolvedCache := map[], map[], map[];
          return;
        }
        pricing := PricingTable(models.fields);
        var aliasesRaw := Section(top, "aliases");
        var built: map<string, string> := map[];
        if aliasesRaw.JObj? {
          built := CollectAliases(aliasesRaw.fields);
        }
        aliases := built;
        resolvedCache := map[];
    }

    /** `consider(k)`: an empty or already seen key gives nothing; otherwise it is recorded and looked up. */
    method Consider(k: string, seen: set<string>) returns (p: Option<Json>, seen': set<string>)
      ensures k == [] || k in seen ==> p.None? && seen' == seen
      ensures k != [] && k !in seen ==> seen' == seen + {k}
      ensures k != [] && k !in seen ==> p == (if k in pricing then Some(pricing[k]) else None)
    {
      if k == [] || k in seen {
        return None, seen;
      }
      seen' := seen + {k};
      p := if k in pricing then Some(pricing[k]) else None;
    }

    /**
     * The `for k in ...: p = consider(k); if p: return p` loops: the result is
     * the first priced key's record; on a miss every key seen is unpriced.
     */
    method ProbeInOrder(keys: seq<string>, seen: set<string>) returns (hit: Option<Json>, seen': set<string>)
      requires forall s :: s in seen ==> !Priced(pricing, s)
      ensures hit == FirstPriced(keys, pricing)
      ensures hit.None? ==> forall s :: s in seen' ==> !Priced(pricing, s)
    {
      seen' := seen;
      var i := 0;
      while i < |keys|
        invariant 0 <= i <= |keys|
        invariant forall s :: s in seen' ==> !Priced(pricing, s)
        invariant FirstPriced(keys, pricing) == FirstPriced(keys[i..], pricing)
      {
        var p;
        ProbeStep(keys, i, pricing);
        p, seen' := Consider(keys[i], seen');
        if p.Some? && Truthy(p.value) {
          return p, seen';
        }
        i := i + 1;
      }
      hit := None;
    }

    /**
     * The alias loop of `_resolve_pricing`: each variant with a non-empty
     * target has that target considered, and the first priced one wins.
     */
    method ProbeAliasTargets(variants: seq<string>, seen: set<string>) returns (hit: Option<Json>, seen': set<string>)
      requires forall s :: s in seen ==> !Priced(pricing, s)
      ensures hit == FirstPriced(AliasTargets(variants, aliases), pricing)
      ensures hit.None? ==> forall s :: s in seen' ==> !Priced(pricing, s)
    {
      seen' := seen;
      var v := 0;
      while v < |variants|
        invariant 0 <= v <= |variants|
        invariant forall s :: s in seen' ==> !Priced(pricing, s)
        invariant FirstPriced(AliasTargets(variants, aliases), pricing)
               == FirstPriced(AliasTargets(variants[v..], aliases), pricing)
      {
        var ak := variants[v];
        ProbeAliasStep(variants, v, aliases, pricing);
        if HasTarget(aliases, ak) {
          var target := aliases[ak];
          var p;
          p, seen' := Consider(target, seen');
          if p.Some? && Truthy(p.value) {
            return p, seen';
          }
        }
        v := v + 1;
      }
      hit := None;
    }

    /**
     * The probing part of `_resolve_pricing`: the direct keys, the alias
     * targets and the expanded candidates are probed in order, sharing one
     * `seen` set, and the first non-empty record, or `None`, is returned.
     */
    method Probe(model: string) returns (p: Option<Json>)
      ensures p == Resolve(pricing, aliases, model)
    {
      ResolveLayers(pricing, aliases, model);
      var raw := model;
      var base := BaseName(raw);
      var seen: set<string> := {};

      p, seen := ProbeInOrder([raw, base], seen);
      if p.Some? {
        return;
      }
      var variants := CollectVariants(AliasKeys(raw, base));
      p, seen := ProbeAliasTargets(variants, seen);
      if p.Some? {
        return;
      }
      var expanded := CollectExpanded([NormalizeKey(raw), NormalizeKey(base)]);
      p, seen := ProbeInOrder(expanded, seen);
    }

    /**
     * `_resolve_pricing`: a memoised name returns its memo entry without
     * probing; otherwise the probe's result, found or not, is memoised and
     * returned.
     */
    method ResolvePricing(model: string) returns (p: Option<Json>)
      requires Valid()
      modifies this`resolvedCache
      ensures Valid()
      ensures p == Resolve(pricing, aliases, model)
      ensures model in old(resolvedCache) ==> p == old(resolvedCache)[model] && resolvedCache == old(resolvedCache)
      ensures model !in old(resolvedCache) ==> resolvedCache == old(resolvedCache)[model := p]
    {
      if model in resolvedCache {
        p := resolvedCache[model];
      } else {
        p := Probe(model);
        MemoStaysCurrent(resolvedCache, pricing, aliases, model, p);
        resolvedCache := resolvedCache[model := p];
      }
    }

    /**
     * `get_cost`: the cost of a usage at the rates of the record `model`
     * resolves to, 0 when it resolves to nothing.
     */
    method GetCost(model: string, inputTokens: int, outputTokens: int, cacheRead: int, cacheWrite: int)
      returns (cost: Result<real>)
      requires Valid()
      modifies this`resolvedCache
      ensures Valid()
      ensures cost == ModelCost(Tables(), model, inputTokens, outputTokens, cacheRead, cacheWrite)
      ensures model in old(resolvedCache) ==> resolvedCache == old(resolvedCache)
      ensures model !in old(resolvedCache) ==> resolvedCache == old(resolvedCache)[model := Resolve(pricing, aliases, model)]
    {
      var rec := ResolvePricing(model);
      cost := CostOf(rec, inputTokens, outputTokens, cacheRead, cacheWrite);
    }
  }
}
