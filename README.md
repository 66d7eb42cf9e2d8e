# Tokdash core in Dafny

Tokdash is a local dashboard of LLM token usage and cost. This project models the core that
turns raw usage records into the dashboard's numbers, and proves properties of that model.

- **Model-name normalisation** (`ModelNormalization`, with the regular-expression rewrites in
  `Patterns` and the string helpers in `Text`). `normalize_model_name` maps any vendor
  spelling of a model to one canonical key.
- **The pricing database** (`Pricing`). `PricingDatabase` is a class. Its `pricing`,
  `aliases` and `_resolved_cache` fields are updated in place. The model covers:
  - the normalisation of the alias table when it is loaded;
  - the three layers of candidate keys `_resolve_pricing` probes, with its shared `seen` set;
  - the memo;
  - the per-million-token cost formula of `get_cost`.
- **The OpenClaw session aggregator** (`OpenClaw`). `get_session_usage` folds the decoded
  session entries into three ledgers: per model, per local day, and per model within a day.
  It then reports model rows and daily contributions. `Ledgers` holds the insertion-ordered
  dictionaries of counters it uses, together with the cost sort and the date sort.
- **The coding-tool parsers and the tracker** (`CodingTools`). These are OpenCode's message
  table, Codex and Claude session lines, Gemini CLI session files, and the Amp placeholder.
  Each parser is a fold with a loop method proved against it. `CodingToolsUsageTracker` is a
  class that runs the selected parsers.
- **The aggregation engine** (`Compute`). It covers:
  - `parse_entries_json` (per-app, per-model and global rows);
  - the period helpers;
  - the visibility rule;
  - `compute_usage` (the combined model view);
  - `_contributions_from_entries`;
  - `compute_stats` (calendar merge, model costs, favourite model, totals and span).

Decoded JSON is the datatype `Json.Json`:
- objects keep their key order;
- `Truthy`, `IntOrZero`, `PyFloat` and `PyStr` give Python's truthiness and its `int()`,
  `float()` and `str()` views, within the limits listed under "Left out".

Exceptions that change control flow become explicit outcomes:
- `Result.Raised` ends the whole call;
- a parser either skips the record or aborts the current file, whichever the source's
  `try` blocks do.

What the program takes from its host is a parameter (`Clock.Env`):
- `datetime.fromisoformat`;
- the local UTC offset;
- the local calendar day of an instant.

Dates are local day numbers. Instants are real seconds since the epoch.

Where the description of the system and the code disagree, the model follows the code:

- `get_cost` is described as never raising. The code raises when a matched price record
  holds a truthy rate `float()` cannot read: `TypeError` for a list or dict, `ValueError`
  for text that is not a number. `Pricing.CostOf` returns `Raised` there (`Pricing.RatesOf`).
  Each caller's `except` decides what follows. A record itself is always a dict, because
  loading keeps only dict entries (`Pricing.PricingTable`).
- Parsers are described as failing soft per record. Two places differ:
  - The Codex and Claude loops catch an exception per file, so a decoded line that is not
    a dict ends the rest of its file (`CodingTools.CodexRecord`, `CodingTools.ClaudeRecord`).
    In Codex a truthy `payload` that is not a dict also ends the file, but only on a
    `turn_context`, `session_meta` or `event_msg` line; any other line is skipped. A Claude
    `message` that is not a dict is read as an empty dict, so the line is skipped.
  - A Gemini CLI session file whose top level is not a dict raises outside every `try`. It
    ends the whole collect (`CodingTools.GeminiRunAll`).
- The parsers filter on the half-open window `[since, until)`. `get_session_usage` keeps
  messages in the closed window `[since, until]` (`OpenClaw.ClassifyCounts`).
- `period_to_days("month")` is 30. Only `period_to_range_args` makes "month" the calendar
  month to date (`Compute.PeriodToRangeArgs`).

## Model

| member | source | states |
|---|---|---|
| ModelNormalization.NormalizeModelName | src/tokdash/model_normalization.py:4-75 | The key is never empty, and a blank name gives "unknown". It has no upper-case letter, blank, underscore, backslash or slash. It never starts with a bare `opus`/`sonnet`, and every `kimi…2.5` name collapses to `kimi-k2.5`. |
| ModelNormalization.ProviderPathIgnored | src/tokdash/model_normalization.py:26-28 | A provider path in front of a model name does not change its key: `p/m` normalises like `m`. This holds for any `m` that is non-empty, starts with no blank, has no slash or backslash, and does not start with `model:`/`models:` in any case. |
| ModelNormalization.LastModelSegment | src/tokdash/model_normalization.py:26-28 | After `models?[:/]` and the provider chain are dropped, no slash or backslash is left, and every character comes from the input. |
| ModelNormalization.Trimmed | src/tokdash/model_normalization.py:22-24 | `strip().lower()` leaves no upper-case letter, and is empty exactly when the stripped name is. |
| ModelNormalization.StripReleaseNoise | src/tokdash/model_normalization.py:36-41 | The release, preview, date and thinking suffixes only ever cut a tail off the name. The result is no longer than the name and uses only its characters. It is a prefix of the name when the name has no newline. |
| ModelNormalization.ApplyFamilyAlias | src/tokdash/model_normalization.py:44-55 | A name in the alias map becomes its target, and any other name is left as it is. |
| ModelNormalization.FamilyAliasTargetsClean | src/tokdash/model_normalization.py:44-55 | Every alias target is already a clean key. |
| ModelNormalization.ClaudePrefix | src/tokdash/model_normalization.py:61-66 | A bare `opus`/`sonnet` name gains `claude-`. `claude-opus…` is kept. The result never starts with `opus` or `sonnet`. |
| ModelNormalization.KimiCollapse | src/tokdash/model_normalization.py:69-73 | A `kimi` name that mentions `2.5` becomes `kimi-k2.5`. Otherwise the result is the name with the `k2p5`/`k2-5` spellings dotted. |
| ModelNormalization.CollapseSeparatorsClean | src/tokdash/model_normalization.py:33-34 | Collapsing blank and underscore runs leaves a clean key. |
| ModelNormalization.CaseIgnored | src/tokdash/model_normalization.py:22 | Letter case never matters: a name and its lower-case form have the same key. |
| ModelNormalization.UnderscoreIgnored | src/tokdash/model_normalization.py:31-34 | Underscores and hyphens are the same separator: a name with every `_` turned into `-` has the same key. The exception is a last segment starting `antigravity_`, because that prefix is removed only in its hyphen spelling, before separators are collapsed. |
| ModelNormalization.ReleaseNoiseLatest | src/tokdash/model_normalization.py:36 | A name with none of the four release tails loses an added `-latest` or `-stable` and nothing more. |
| ModelNormalization.ReleaseNoisePreview | src/tokdash/model_normalization.py:37 | A name with none of the four release tails loses an added `-preview`, `-exp` or `-experimental` tail, optionally followed by `-` and word characters, and nothing more. |
| ModelNormalization.ReleaseNoiseDate | src/tokdash/model_normalization.py:38 | A name with no preview or thinking tail loses an added `-YYYY-MM-DD` or `-YYYYMMDD` and nothing more. |
| ModelNormalization.ReleaseNoiseThinking | src/tokdash/model_normalization.py:41 | A name with no preview tail loses an added `-thinking` and nothing more. |
| ModelNormalization.ReleaseSuffixIgnored | src/tokdash/model_normalization.py:22-41 | A release suffix does not change the key. `m` must be a bare key (lower case, no blank, underscore, slash or doubled or edge hyphen) with none of the four release tails, and not start with `model:`, `models:` or `antigravity`. The suffix is `-latest`, `-stable`, `-thinking`, a date in either form, or a lower-case preview tail. |
| ModelNormalization.FinishKeyKimi | src/tokdash/model_normalization.py:58-73 | After the family alias, any clean key starting `kimi` that mentions `2.5`, `k2p5` or `k2-5` ends as `kimi-k2.5`. |
| ModelNormalization.KimiKeyCollapses | src/tokdash/model_normalization.py:68-73 | Every bare `kimi` key with no release tail that mentions `2.5`, `k2p5` or `k2-5` normalises to `kimi-k2.5`. This covers `kimi2.5`, `kimi-2.5`, `kimi-k2p5` and `kimi-k2-5`. |
| ModelNormalization.BareK25Collapses | src/tokdash/model_normalization.py:52-71 | The bare spellings `k2p5`, `k2-5` and `k2.5` normalise to `kimi-k2.5`. |
| ModelNormalization.KimiCollapseKeepsHead | src/tokdash/model_normalization.py:69-73 | The Kimi collapse never creates a head such as `opus` or `sonnet`: a name not starting with such a word (no leading `k`, no dot) does not start with it afterwards. |
| Patterns.StripModelPrefix | src/tokdash/model_normalization.py:27 | Only a leading `model`/`models` followed by `:` (or `/` where the pattern allows it) is removed, and `model:`/`models:` always is. |
| Patterns.CollapseSeparators | src/tokdash/model_normalization.py:33-34 | Blank and underscore runs become one hyphen. No hyphen is doubled, leading or trailing, no blank or underscore is left, and no other character is introduced. |
| Patterns.SeparatorSpellingIgnored | src/tokdash/model_normalization.py:33-34 | Turning every occurrence of one separator (blank, underscore or hyphen) into `-` does not change the collapsed result. |
| Patterns.CollapseSeparatorsKeepsCount | src/tokdash/model_normalization.py:33-34 | Every character other than a hyphen, blank or underscore occurs as often after the collapse as before. |
| Patterns.SubAtEnd | src/tokdash/model_normalization.py:36-41 | An anchored `…$` substitution removes the leftmost matching tail, honouring `$` before a final newline, and otherwise leaves the text unchanged. |
| Patterns.SubAtEndRemovesTail | src/tokdash/model_normalization.py:36-41 | When the tail starting at `m` is the leftmost match, the substitution leaves exactly `s[..m]`. |
| Patterns.SubAtEndSingleHyphen | src/tokdash/model_normalization.py:36-41 | A name with one hyphenated tail loses the tail exactly when the tail matches. |
| Patterns.VersionDots | src/tokdash/model_normalization.py:58 | `-(\d)-(\d+)` → `-\1.\2` only turns hyphens into dots, and leaves no match behind. |
| Patterns.K25Dots | src/tokdash/model_normalization.py:69 | The `k2p5` and `k2-5` spellings become `k2.5`: only a `p` or `-` turns into a dot, and no such spelling is left behind. |
| Pricing.NormalizeKeyShape | src/tokdash/pricing.py:54-63 | `_normalize_key` gives "" for a blank key. Otherwise its key has no upper-case letter, blank, underscore, backslash or slash, and no doubled, leading or trailing hyphen. |
| Pricing.NormalizeAliasKeyShape | src/tokdash/pricing.py:66-75 | `_normalize_alias_key` gives "" for a blank key. Otherwise its key has no backslash, underscore, blank or upper-case letter, and has no doubled or edge hyphen. |
| Pricing.AliasKeyKeepsPath | src/tokdash/pricing.py:66-75 | The alias normalisation keeps the provider structure: the key has as many slashes as the input after backslashes become slashes. |
| Pricing.StripCommonSuffixes | src/tokdash/pricing.py:78-83 | The suffix stripping only cuts a tail off the key. It is a prefix of the key when the key has no newline. |
| Pricing.StripThinkingSuffix | src/tokdash/pricing.py:82 | `x-thinking` becomes `x`, for every `x`. |
| Pricing.StripLatestSuffix | src/tokdash/pricing.py:80 | For every `x`, `x-latest` and `x-stable` lose that tail and then only the date and thinking passes apply to `x`. When `x` has no `-latest`/`-stable` tail of its own, the result is that of `x`. |
| Pricing.StripDateSuffix | src/tokdash/pricing.py:81 | For every `x`, `x-YYYY-MM-DD` and `x-YYYYMMDD` lose the date, and then only the thinking pass applies to `x`. When `x` has no latest or date tail, the result is that of `x`. |
| Pricing.StripCommonSuffixesLayers | src/tokdash/pricing.py:78-83 | A key with none of the three tails, followed by an optional `-thinking`, then an optional date, then an optional `-latest`/`-stable`, comes back as the key. |
| Pricing.KimiAliases | src/tokdash/pricing.py:91-98 | A K2.5 spelling, or a `kimi` key with `k2.5`/`k2p5`/`k2-5`, yields `k2p5` and `kimi-k2.5`. Any key that yields them is one of those. |
| Pricing.BaseName | src/tokdash/pricing.py:105-107 | The base name is the last `/` segment, or the raw name when that segment is empty. It is empty only for an empty name. |
| Pricing.ProbeKeys | src/tokdash/pricing.py:119-184 | The probe order starts with the raw name and then its base name. |
| Pricing.Resolve | src/tokdash/pricing.py:100-187 | Only a truthy record of the pricing table is ever resolved. |
| Pricing.ResolveLayers | src/tokdash/pricing.py:119-187 | Resolution is the first hit among the direct keys, then among the alias targets, then among the expanded keys. |
| Pricing.FirstPricedFinds | src/tokdash/pricing.py:111-124 | A probe finds a priced key of its list, and misses exactly when no key of the list is priced. |
| Pricing.ResolveDirectKey | src/tokdash/pricing.py:119-124 | A model priced under its own name gets that record. |
| Pricing.ResolveBaseName | src/tokdash/pricing.py:119-124 | An unpriced model whose base name is priced gets the base name's record. |
| Pricing.ResolveThroughAlias | src/tokdash/pricing.py:126-154 | When neither the name nor its base is priced and the name is an alias whose target is priced, the target's record is used. |
| Pricing.AliasTargets | src/tokdash/pricing.py:145-150 | Only non-empty alias targets are probed. |
| Pricing.RatesOf | src/tokdash/pricing.py:201-204 | A missing cache-read rate is a tenth of the input rate, and a missing cache-write rate is the input rate. Missing input and output rates are 0. A truthy rate `float()` cannot read raises: `TypeError` for a list or dict, `ValueError` for text. |
| Pricing.RateOrDefault | src/tokdash/pricing.py:201-204 | A missing rate is its default. Only a present, truthy value can raise: `TypeError` exactly when it is a list or dict, `ValueError` otherwise. |
| Pricing.CostOf | src/tokdash/pricing.py:197-211 | No record or a falsy one costs 0.0. Otherwise the cost is the per-million formula of its rates, or an exception when a rate is unreadable. |
| Pricing.UsageCostAdds | src/tokdash/pricing.py:206-211 | The cost formula is additive in the token counts. |
| Pricing.UsageCostNonNegative | src/tokdash/pricing.py:206-211 | Non-negative counts cost nothing negative. |
| Pricing.PricingTable | src/tokdash/pricing.py:28-30 | Only dict entries of `models` are kept, each under its own key. |
| Pricing.AddAlias | src/tokdash/pricing.py:42-44 | The alias key maps to its target. The base model maps to the target too, unless it already had an entry (`setdefault`). |
| Pricing.BuildAliases | src/tokdash/pricing.py:32-45 | Every alias maps to a non-empty normalised target from the file. |
| Pricing.LoadedPricing | src/tokdash/pricing.py:22-51 | A file that fails to load gives an empty table, and every kept record is a dict. |
| Pricing.CollectAliases | src/tokdash/pricing.py:34-44 | The alias loop builds the table `BuildAliases` defines. |
| Pricing.CollectVariants | src/tokdash/pricing.py:136-143 | The variant loop builds the four variants of each non-empty alias key, in order. |
| Pricing.CollectExpanded | src/tokdash/pricing.py:161-178 | The expansion loop builds the expanded candidates, in order. |
| Pricing.MemoStaysCurrent | src/tokdash/pricing.py:101-103 | Storing a resolution keeps every memo entry equal to a fresh resolution. |
| Pricing.PricingDatabase.constructor | src/tokdash/pricing.py:15-20 | A new database holds the loaded tables and an empty memo. |
| Pricing.PricingDatabase.Load | src/tokdash/pricing.py:22-51 | A missing file leaves the state alone. Any other file replaces both tables and clears the memo. |
| Pricing.PricingDatabase.Consider | src/tokdash/pricing.py:111-117 | An empty or already seen key finds nothing and changes nothing. A new key is recorded and looked up. |
| Pricing.PricingDatabase.ProbeInOrder | src/tokdash/pricing.py:119-124 | The loop returns the first priced key's record, and on a miss only unpriced keys are seen. |
| Pricing.PricingDatabase.ProbeAliasTargets | src/tokdash/pricing.py:145-154 | The loop returns the first priced alias target's record. |
| Pricing.PricingDatabase.Probe | src/tokdash/pricing.py:105-187 | The three probing loops compute `Resolve`. |
| Pricing.PricingDatabase.ResolvePricing | src/tokdash/pricing.py:100-187 | A memoised model returns its memo and changes nothing. Otherwise the memo gains exactly the fresh resolution, which is returned. |
| Pricing.PricingDatabase.GetCost | src/tokdash/pricing.py:189-211 | The cost is the formula applied to the resolved record, and only the memo changes. |
| Clock.Utc | src/tokdash/sources/coding_tools.py:35-40 | A naive datetime is read as UTC, and a datetime at offset 0 keeps its wall time. |
| Clock.AdjacentWindowsSplit | src/tokdash/sources/coding_tools.py:43-53 | Adjacent `[a, b)` and `[b, c)` windows split `[a, c)`: every record falls in exactly one of them. |
| Clock.NaiveIsUtc | src/tokdash/sources/coding_tools.py:43-53 | A naive timestamp is in range exactly when the same reading in UTC is. |
| Clock.Millis | src/tokdash/sources/coding_tools.py:208 | `int(ts.timestamp() * 1000)` truncates toward zero: for instants after the epoch it is the whole number of milliseconds. |
| Clock.FromTimestamp | src/tokdash/sources/openclaw.py:50-52 | `fromtimestamp` succeeds exactly for the instants of the years 1 to 9999, at that instant. |
| Clock.ParseIsoUtc | src/tokdash/sources/coding_tools.py:171 | After `astimezone(timezone.utc)` every parsed time is in UTC. |
| Json.IntOrZero | src/tokdash/sources/coding_tools.py:56-60 | `_i` gives 0 for falsy values and for text `int()` rejects, the integer for integers, and 1 or 0 for booleans. |
| Json.IntOrZeroOfDecimalText | src/tokdash/sources/coding_tools.py:56-60 | `_i` of an integer's decimal text is that integer. |
| OpenClaw.ToIntTotal | src/tokdash/sources/openclaw.py:35-39 | `_i` is the integer itself for integers and integer text, and 0 where `int()` raises. |
| OpenClaw.MessageDateTime | src/tokdash/sources/openclaw.py:42-59 | A falsy or non-scalar timestamp gives none. A number is read by `Epoch`, and text through `fromisoformat`. |
| OpenClaw.SecondsAndMillisAgree | src/tokdash/sources/openclaw.py:47-52 | Across the 1e11 threshold, a time given in seconds and the same time in milliseconds give the same datetime. |
| OpenClaw.MessageDateTimeInRange | src/tokdash/sources/openclaw.py:47-53 | A numeric timestamp only ever parses to an instant of the years 1 to 9999. |
| OpenClaw.PayloadCost | src/tokdash/sources/openclaw.py:62-69 | The payload cost is the first truthy of `cost` and `totalCost`, read as a number, or 0.0 when it is neither a number nor a dict. A dict's `total` or else `value` goes through `float()`, which raises `TypeError` for a list or dict and `ValueError` for unreadable text. |
| OpenClaw.PayloadCostPrefersCost | src/tokdash/sources/openclaw.py:63 | A non-zero `cost` wins over `totalCost`. |
| OpenClaw.PayloadCostFallsBack | src/tokdash/sources/openclaw.py:63 | `totalCost` is used when `cost` is missing. |
| OpenClaw.PayloadCostNested | src/tokdash/sources/openclaw.py:64-66 | A nested `{"total": x}` reports `x`. |
| OpenClaw.TokenFieldAlias | src/tokdash/sources/openclaw.py:171-176 | The camel-case token name is read when the short one is missing or falsy. |
| OpenClaw.TokenFieldShort | src/tokdash/sources/openclaw.py:171-176 | A non-zero short token name wins. |
| OpenClaw.ModelKeyShape | src/tokdash/sources/openclaw.py:167-169 | The model key is `provider/model` for a real provider, and the bare model when the provider is missing, empty or "unknown". |
| OpenClaw.ClassifyCounts | src/tokdash/sources/openclaw.py:140-159 | A counted entry is an assistant `message` with a parsed time inside the closed window `[since, until]`, booked on its local day. |
| OpenClaw.MessageTally | src/tokdash/sources/openclaw.py:171-189 | A message's tally counts cache writes as input and cache reads as cache. It is one message at the chosen cost, and its total is the sum of its parts. |
| OpenClaw.PriceWith | src/tokdash/sources/openclaw.py:181-182 | The message is priced through the database, as `Price` says. |
| OpenClaw.PriceFallsBack | src/tokdash/sources/openclaw.py:181-182 | The pricing-table cost is used exactly when it is positive; otherwise the payload's own cost is used. |
| OpenClaw.Accumulate | src/tokdash/sources/openclaw.py:140-205 | The entry loop computes the fold `Fold`. |
| OpenClaw.AccumulateOne | src/tokdash/sources/openclaw.py:140-205 | One loop iteration is one step of the fold, and leaves the tables unchanged. |
| OpenClaw.TakeWith | src/tokdash/sources/openclaw.py:161-205 | One classified entry is applied with its price from the database. |
| OpenClaw.FoldConsistent | src/tokdash/sources/openclaw.py:140-205 | Throughout the fold, the ledgers keep three invariants: each day's totals are the sum of its per-model sources, every tally balances, and the model and day ledgers agree. |
| OpenClaw.TakeConsistent | src/tokdash/sources/openclaw.py:161-205 | One entry keeps the accumulators consistent. |
| OpenClaw.RecordConsistent | src/tokdash/sources/openclaw.py:184-205 | Booking a message to its model, its day and its model within the day keeps the accumulators consistent. |
| OpenClaw.SummariseModels | src/tokdash/sources/openclaw.py:207-223 | The model-row loop emits one row per model in first-seen order, with `total_tokens` and `total_cost` as their sums. |
| OpenClaw.ModelRowsSum | src/tokdash/sources/openclaw.py:211-214 | The model rows' tokens, cost and messages add up to the ledger's totals. |
| OpenClaw.ReportTotals | src/tokdash/sources/openclaw.py:207-223 | The reported tokens equal the tokens of the day ledger, and the reported cost equals the day cost. The message counter bounds the rows' messages, and each row's tokens are its parts. |
| OpenClaw.ModelRowsShape | src/tokdash/sources/openclaw.py:216-223 | Each model row carries its model and that model's counters. |
| OpenClaw.ProviderId | src/tokdash/sources/openclaw.py:234 | The provider id is the text before the first `/`, or "unknown" without one. |
| OpenClaw.ContributionsSorted | src/tokdash/sources/openclaw.py:225-265 | There is one contribution per day with usage, in strictly increasing date order. |
| OpenClaw.ContributionMatchesSources | src/tokdash/sources/openclaw.py:225-265 | Each day's totals are the sums of its source rows. Its tokens are input, output and cache, with no cache writes, reasoning or intensity. Every source row is OpenClaw's. |
| OpenClaw.SourceRowsSum | src/tokdash/sources/openclaw.py:228-245 | A day's source rows add up to the day's per-model ledger. |
| OpenClaw.GetSessionUsage | src/tokdash/sources/openclaw.py:79-273 | The report fails exactly when the fold raises. Otherwise it has the model rows, totals, message count and contributions of the consistent folded state. |
| Ledgers.BumpValid | src/tokdash/sources/openclaw.py:184-189 | `defaultdict` accumulation keeps keys unique and in first-seen order. |
| Ledgers.BumpTotal | src/tokdash/sources/openclaw.py:184-189 | Adding a tally to one key adds it to the ledger's total. |
| Ledgers.BumpNested | src/tokdash/sources/openclaw.py:191-205 | Adding to a day and to the same model within it keeps every day equal to the total of its sources. |
| Ledgers.SortByCostSorted | src/tokdash/compute.py:163 | `sorted(…, key=cost, reverse=True)` is costliest first. |
| Ledgers.SortByCostPermutes | src/tokdash/compute.py:163 | The sort is a permutation of its rows. |
| Ledgers.SortByCostKeepsSum | src/tokdash/compute.py:166-170 | Sorting keeps the sum of the rows. |
| Ledgers.SortIntsIncreasing | src/tokdash/sources/openclaw.py:226 | `sorted` over distinct dates is strictly increasing. |
| Ledgers.SortIntsPermutes | src/tokdash/sources/openclaw.py:226 | The date sort is a permutation. |
| Ledgers.SumItemsIsTotal | src/tokdash/compute.py:166-170 | Summing a ledger's rows gives its total. |
| CodingTools.InferProvider | src/tokdash/sources/coding_tools.py:131-139 | The provider is anthropic, google, openai or the fallback. |
| CodingTools.InferProviderFallback | src/tokdash/sources/coding_tools.py:131-139 | The fallback is returned exactly when none of the `claude`, `gemini`, `gpt` and `codex` rules matches. |
| CodingTools.InferProviderIgnoresCase | src/tokdash/sources/coding_tools.py:132 | Provider inference does not depend on letter case. |
| CodingTools.ClaudeProvider | src/tokdash/sources/coding_tools.py:225-233 | Claude's inference gives one of the three providers or "". |
| CodingTools.SettleWith | src/tokdash/sources/coding_tools.py:87 | A draft is priced through the database, and the parser's handler decides what a raising lookup does. |
| CodingTools.SettleEmits | src/tokdash/sources/coding_tools.py:87 | An emitted entry is its draft with the cost `get_cost` gives for the draft's model. |
| CodingTools.OpenCodeDraft | src/tokdash/sources/coding_tools.py:71-89 | An OpenCode entry names its model, or "unknown" for an empty one, and is priced under the name as given. |
| CodingTools.OpenCodeCacheDefaults | src/tokdash/sources/coding_tools.py:72-76 | Without a `cache` dict both cache counts are 0. |
| CodingTools.OpenCodeCacheNested | src/tokdash/sources/coding_tools.py:72-76 | With a `cache` dict the cache counts are its `read` and `write`. |
| CodingTools.CollectOpenCode | src/tokdash/sources/coding_tools.py:91-120 | The row loop computes `OpenCodeEntries`. |
| CodingTools.OpenCodeEntriesShape | src/tokdash/sources/coding_tools.py:99-118 | Every OpenCode entry comes from a row inside the query bounds, and names a model. |
| CodingTools.CodexTurnContext | src/tokdash/sources/coding_tools.py:158-160 | A `turn_context` with a model switches the model and infers the provider, with the current one as fallback. |
| CodingTools.CodexSessionMeta | src/tokdash/sources/coding_tools.py:161-162 | A `session_meta` with a provider overrides the provider and keeps the model. |
| CodingTools.CodexRecordTracks | src/tokdash/sources/coding_tools.py:157-162 | Only `turn_context` and `session_meta` lines move the running model and provider. |
| CodingTools.CodexInputSplit | src/tokdash/sources/coding_tools.py:186-190 | A kept event's fresh input plus its cache reads is the event's `input_tokens`. |
| CodingTools.CodexAbortSticks | src/tokdash/sources/coding_tools.py:145-212 | Once an exception ends a file, later lines add nothing. |
| CodingTools.CodexSession | src/tokdash/sources/coding_tools.py:146-212 | The line loop of one file computes `CodexFile`. |
| CodingTools.CollectCodex | src/tokdash/sources/coding_tools.py:141-214 | The file loop computes `CodexEntries`. |
| CodingTools.CodexEntriesShape | src/tokdash/sources/coding_tools.py:183-210 | Codex entries have no cache writes, are never all zero, and carry `get_cost` of their model. |
| CodingTools.ClaudeRecordSeen | src/tokdash/sources/coding_tools.py:258-263 | A line only adds to the seen ids. An emitting line's id was unseen, and is recorded when truthy. |
| CodingTools.ClaudeRecordDedupes | src/tokdash/sources/coding_tools.py:251-273 | A line that is not a dict holding an assistant message with truthy usage leaves the seen ids alone and emits nothing. For one that is, with a hashable id: a seen id is skipped; an unseen id is recorded when truthy, whatever the timestamp, and the line is then judged by its timestamp, range and counts alone. |
| CodingTools.ClaudeIdlessNotDeduped | src/tokdash/sources/coding_tools.py:259-263 | When every seen id is truthy, a candidate line with a falsy id is never skipped as a duplicate and records nothing. |
| CodingTools.ClaudeFirstCopyBlocks | src/tokdash/sources/coding_tools.py:259-263 | A candidate line blocks every later line with the same truthy id, even when its own timestamp drops it. |
| CodingTools.ClaudeSeenTruthy | src/tokdash/sources/coding_tools.py:240-263 | Across all files, only truthy ids are ever recorded as seen. |
| CodingTools.ClaudeEmitsEachIdOnce | src/tokdash/sources/coding_tools.py:240-263 | Across all files, each non-empty message id yields at most one entry. |
| CodingTools.ClaudeSession | src/tokdash/sources/coding_tools.py:246-298 | The line loop of one file computes `ClaudeFile` from the seen ids so far. |
| CodingTools.CollectClaude | src/tokdash/sources/coding_tools.py:235-300 | The file loop, with one seen set across files, computes `ClaudeRunAll`. |
| CodingTools.ClaudeFileAppends | src/tokdash/sources/coding_tools.py:244-298 | A file only appends to the entries and ids before it. |
| CodingTools.ClaudeEntriesShape | src/tokdash/sources/coding_tools.py:275-296 | Claude entries have no reasoning tokens and are never all zero. They carry the provider inferred from the model and `get_cost` of the model. |
| CodingTools.GeminiDraft | src/tokdash/sources/coding_tools.py:361-379 | A Gemini entry is Google's. `cached` counts as cache reads and `thoughts` as reasoning, with no cache writes. |
| CodingTools.GeminiSession | src/tokdash/sources/coding_tools.py:395-418 | The message loop of one file computes `GeminiMessages`. |
| CodingTools.CollectGemini | src/tokdash/sources/coding_tools.py:381-419 | The file loop computes `GeminiRunAll`, and raises when it does. |
| CodingTools.GeminiRaisedSticks | src/tokdash/sources/coding_tools.py:386-394 | A file that raises outside the `try` ends the collect. |
| CodingTools.GeminiEmitsEachIdOnce | src/tokdash/sources/coding_tools.py:402-405 | No two Gemini entries share a message id, where a missing id counts as one id. |
| CodingTools.GeminiRecordSeen | src/tokdash/sources/coding_tools.py:396-405 | A message only adds to the seen ids, and an emitting message's id was unseen and is now recorded. A message that is not a dict of `type` "gemini" with a `tokens` dict is skipped and leaves the seen ids alone. So is a candidate whose id is unhashable or already seen. A candidate with a new id, even a missing one, records it whatever its timestamp. |
| CodingTools.Selected | src/tokdash/sources/coding_tools.py:455 | No or empty sources select every registered parser in order. Otherwise exactly the given names are selected. |
| CodingTools.AmpYieldsNothing | src/tokdash/sources/coding_tools.py:429-432 | Selecting only Amp collects nothing. |
| CodingTools.UnknownSourcesIgnored | src/tokdash/sources/coding_tools.py:456-459 | Names that are not registered parsers contribute nothing. |
| CodingTools.GatherConcatenates | src/tokdash/sources/coding_tools.py:456-459 | The entries are the selected parsers' outputs concatenated in order. |
| CodingTools.GatherRaisedSticks | src/tokdash/sources/coding_tools.py:453-459 | A parser that raises ends the collect. |
| CodingTools.CodingToolsUsageTracker.constructor | src/tokdash/sources/coding_tools.py:442-451 | A new tracker has no entries and a freshly loaded pricing database. |
| CodingTools.CodingToolsUsageTracker.Collect | src/tokdash/sources/coding_tools.py:453-459 | `collect` resets the entries and runs the selected parsers, as `GatherAll` defines. |
| CodingTools.CodingToolsUsageTracker.Run | src/tokdash/sources/coding_tools.py:457-459 | One registered parser's `collect`. |
| CodingTools.CodingToolsUsageTracker.ToJson | src/tokdash/sources/coding_tools.py:461-462 | `to_json` reports the entries and their count. |
| Compute.FullName | src/tokdash/compute.py:83 | The full name is `provider/model`, or the bare model without a provider. |
| Compute.EntryTally | src/tokdash/compute.py:85-101 | An entry counts cache writes as input. Its total is the sum of its parts, and it is one message unless it says otherwise. |
| Compute.BookEntries | src/tokdash/compute.py:79-160 | The entry loop computes `BookAll`. |
| Compute.BookAllOk | src/tokdash/compute.py:79-160 | The per-app rows, the per-app model rows and the global rows stay in step: each app is the total of its models, and the apps total the global rows. |
| Compute.BookAllTokens | src/tokdash/compute.py:85-97 | Nothing is lost or counted twice: the global rows hold the tokens of every entry. |
| Compute.BookAllMessages | src/tokdash/compute.py:95-101 | Without `messageCount` fields, the global rows count one message per entry with tokens. |
| Compute.BookEntryCounts | src/tokdash/compute.py:85-160 | One entry adds its tokens to the global rows, and one message when it has tokens. |
| Compute.AppReportsSum | src/tokdash/compute.py:162-164 | Each app's model rows are costliest first, a permutation of its models, and sum to the app's totals. |
| Compute.SummaryTotals | src/tokdash/compute.py:162-173 | The reported totals are the global rows' and the apps' totals. `all_models` is costliest first and a permutation of the global rows. |
| Compute.ParseEntriesJson | src/tokdash/compute.py:71-173 | The call fails exactly when a price lookup raises. Otherwise it reports the summary of consistent accumulators. |
| Compute.PeriodToDays | src/tokdash/compute.py:176-187 | The result is at least 1, and is `max(1, n)` for integer text. Any other period is its table entry when it is a period name, and 1 otherwise. |
| Compute.NumericPeriod | src/tokdash/compute.py:176-178 | `period_to_days(str(n))` is `max(1, n)`. |
| Compute.NamedPeriod | src/tokdash/compute.py:179-187 | No period name reads as an integer, so each maps to its table entry. |
| Compute.PeriodToRangeArgs | src/tokdash/compute.py:190-202 | Month runs from the first of the month to today. A one-day period is `--today`. Any other period ends today and spans its day count. |
| Compute.PeriodWindow | src/tokdash/compute.py:40-60 | The window always ends at the end of today. It spans the period's days, and for "month" it starts on the first of the month. |
| Compute.HasVisibleTokenUsage | src/tokdash/compute.py:217-229 | Visibility reads each count under either name and falls back to `tokens_cache`. It raises when a count is not an integer. |
| Compute.VisibleModelRow | src/tokdash/compute.py:217-229 | A model row is visible exactly when its input, output and cache tokens add up to more than 0. |
| Compute.VisibleEntryRow | src/tokdash/compute.py:217-229 | An entry is visible exactly when its four token counts add up to more than 0. |
| Compute.CodingApps | src/tokdash/compute.py:312 | The coding apps are exactly the apps not named "openclaw" in any case. |
| Compute.CodingModels | src/tokdash/compute.py:313-317 | The coding models are exactly the visible rows from no OpenClaw source. |
| Compute.VisibleRows | src/tokdash/compute.py:334-335 | The rows `add_row` keeps are exactly the visible ones. |
| Compute.CombineAppend | src/tokdash/compute.py:356-359 | The two `add_row` loops are one loop over the concatenated rows. |
| Compute.CombineTotal | src/tokdash/compute.py:331-359 | The combined rows hold exactly the usage of the visible rows. |
| Compute.CombineKeys | src/tokdash/compute.py:336-337 | The combined keys are exactly the normalised names of the visible rows. |
| Compute.AddRows | src/tokdash/compute.py:356-359 | One `add_row` loop computes `Combine`. |
| Compute.CombineModels | src/tokdash/compute.py:356-359 | The coding rows, then the OpenClaw rows, are added to an empty table. |
| Compute.ToolRowsSum | src/tokdash/compute.py:319-322 | The per-tool rows sum to the apps' totals. |
| Compute.Top | src/tokdash/compute.py:371 | `[:5]` is the first five rows, or all of them. |
| Compute.ComputeUsage | src/tokdash/compute.py:308-375 | The usage view is built from the two inputs as `compute_usage` builds it. |
| Compute.UsageByTool | src/tokdash/compute.py:319-323 | The `by_tool` rows sum to the totals. OpenClaw's row comes last and is the only OpenClaw row. Coding model rows are visible and not OpenClaw's. |
| Compute.UsageCombined | src/tokdash/compute.py:325-371 | The combined models are costliest first and hold the usage of the visible coding and OpenClaw rows. The top models are their first five at most. |
| Compute.SourceOf | src/tokdash/compute.py:258-295 | A source row counts cache writes as input and has no cache writes. It is one message, with provider "unknown" when none is given. |
| Compute.ContributionsFromEntries | src/tokdash/compute.py:237-297 | The call fails exactly when a timestamp is out of range. Otherwise it returns the well-formed day records in date order. |
| Compute.ContribAllOk | src/tokdash/compute.py:240-295 | Each date has one record. Its tokens are its parts, its messages are its sources, and its cost is their sum. |
| Compute.ContributionsSorted | src/tokdash/compute.py:297 | Days come in strictly increasing date order, each well formed. |
| Compute.CodingSources | src/tokdash/compute.py:410 | The kept source rows are exactly those not OpenClaw's. |
| Compute.DropOpenClawSources | src/tokdash/compute.py:409-410 | Each day keeps everything but its OpenClaw source rows. |
| Compute.DateMap | src/tokdash/compute.py:381 | Every row's date is a key, and each key maps to a row of that date. |
| Compute.DateMapLastWins | src/tokdash/compute.py:412 | The row a date keeps is the last one of that date. |
| Compute.DatesOf | src/tokdash/compute.py:413 | Each date of the rows is listed once. |
| Compute.AllDatesFacts | src/tokdash/compute.py:413 | The merged dates are each date of either side once, in increasing order. |
| Compute.MergeCalendars | src/tokdash/compute.py:415-447 | The merge loop computes `Merged`. |
| Compute.MergedSorted | src/tokdash/compute.py:415-447 | The merged days are in strictly increasing date order, and every date of either calendar appears. |
| Compute.MergedTotals | src/tokdash/compute.py:419-447 | A merged day's tokens, cost and messages are the sums of both sides. Its sources are OpenClaw's followed by the coding tools'. |
| Compute.ModelCosts | src/tokdash/compute.py:449-453 | The nested loops compute `Costs` over every source row. |
| Compute.CostsOk | src/tokdash/compute.py:449-453 | `model_costs` has exactly the models of the source rows, each once. |
| Compute.BestIndex | src/tokdash/compute.py:454 | `max` finds the first model of highest cost. |
| Compute.Favorite | src/tokdash/compute.py:454 | The favourite is "N/A" without models, and otherwise a model of maximal cost. |
| Compute.SpanCoversActiveDays | src/tokdash/compute.py:459-466 | Strictly increasing dates span at least as many days as there are records. |
| Compute.StatsOf | src/tokdash/compute.py:456-480 | The stats report the merged days and their count. |
| Compute.ComputeStats | src/tokdash/compute.py:378-482 | The call fails exactly when the coding contributions do. Otherwise it reports the statistics of the merged calendar. |
| Compute.StatsFacts | src/tokdash/compute.py:449-466 | Active days never exceed the span. The favourite is "N/A" when there are no source rows. Otherwise it is a model of some source row, and no model's summed cost exceeds its own. |

## Left out

- File-system access: globbing, reading files, `sqlite3`, the `.lock` exclusion, the mtime
  pre-filter, and JSON decoding. The parsers receive decoded records or files. A record that
  fails to decode is skipped in the source, so it is absent from the inputs.
- OpenCode's `ORDER BY time_created`: the rows are taken in the order given.
- Python's `datetime` and the host time zone. Parsing, offsets and local days are `Clock.Env`
  parameters, and dates are local day numbers.
- `strftime("%Y-%m-%d")` strings are not built. Their sort order agrees with day numbers for
  years 1000 to 9999. Earlier years are printed with fewer digits by some C libraries.
- The `TypeError` Python raises when a naive and an aware datetime are compared. Every window
  bound here is read as aware.
- Limits of `fromtimestamp` beyond the years 1 to 9999, and of `astimezone` near those
  bounds.
- Floating-point rounding. Costs are exact reals, and `round(…, 6)` and `round(…, 2)` are
  not applied.
- `float()` of text: only integer spellings are read.
- `int()` of text with non-ASCII decimal digits, such as Arabic-Indic or full-width digits,
  which Python accepts: `Json.ParseIntLiteral` reads ASCII digits only. This affects
  `Compute.PeriodToDays` and `Json.IntOrZero`.
- `str()` of a value that is not text, where it names a model or provider: a non-integral
  float, a list and a dict are rendered by fixed placeholders (`Json.PyStr`). So such names
  differ from Python's, and two different list or dict values share one key. An integral
  float of magnitude 1e16 or more is written out in full, where Python writes an exponent.
- The `OverflowError` of `period_to_range_args` when the start date would fall before year 1:
  `Compute.PeriodToRangeArgs` returns the span on the unbounded day numbers.
- The regular-expression engine and Unicode:
  - the patterns are modelled as the specific rewrites they perform;
  - `lower()` folds ASCII letters only (`strip()` and `\s` use the full Unicode blank set);
  - `\w` is ASCII letters, digits and `_`, and `\d` is the ASCII digits.
- Duplicate keys in decoded JSON objects: the first occurrence is read, except in
  `Pricing.PricingTable`, where the last one wins as with `dict`.
- Hash equality across numeric types, such as `1 == 1.0` as set members. Message ids compare
  as decoded values.
- The tokscale subprocess fallback: `run_tokscale_json` and the `tokscale graph` branch of
  `compute_stats`.
- The data-fetching wrappers: `get_session_data`, `get_openclaw_data`, `get_tools_data`,
  `run_local_coding_tools_json`, and `get_usage_for_days`/month/year.
- `compute_stats`' choice of arguments (year or 365 days). Its inputs are the OpenClaw report
  and the coding entries.
- The `meta`, `summary` and timestamp fields of the results, the zero streak fields, and the
  `period` and timestamp echo of `compute_usage`.
- The memo key when a model name is not text.
- `OpenClaw.MessageDateTime`: the argument-order subtlety of Python comparing an aware
  datetime with a naive bound is not modelled.
- Compute.HasVisibleTokenUsage: it reads the count fields as a key record (`UsageKeys`)
  rather than an arbitrary dict. The two row shapes the source passes are covered by
  `VisibleModelRow` and `VisibleEntryRow`.
- Compute.ParseEntriesJson: entries are typed records (`CodingTools.Entry`) rather than
  arbitrary dicts. The `e.get(…, default)` fallbacks for missing fields and non-integer
  counts are not modelled. The same holds for `Compute.ContributionsFromEntries`.
- ModelNormalization.KimiKeyCollapses: a `kimi` name whose only version spelling is
  `-2-5` (which the version-dot rewrite turns into `-2.5`) is outside the lemma's
  precondition. The source collapses it too.
- ModelNormalization.UnderscoreIgnored: a last segment starting `antigravity_` is excluded,
  because the source keeps that spelling (its prefix is removed only as `antigravity-`).
- Ledgers.SortByCost: the order among rows of equal cost is not stated. Python's stable sort
  keeps their first-seen order.
- The command-line entry points (`main`, `_date_range`) and printing.
