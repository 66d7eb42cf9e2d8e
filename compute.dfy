/**
 * The report layer: the coding-tool entries folded per app and per model,
 * the period names and the date ranges they stand for, the visibility of a
 * usage row, the combined model table of the usage view, the per-day
 * contributions of the coding tools, and the merge of those with the
 * OpenClaw days into the statistics view. Dates are local day numbers; the
 * clock and the local time zone are parameters.
 */
module Compute {
  import opened Wrappers
  import opened Text
  import opened Json
  import opened Clock
  import opened Pricing
  import opened Ledgers
  import opened ModelNormalization
  import CodingTools
  import OpenClaw

  type Entry = CodingTools.Entry
  type DayRow = OpenClaw.DayRow
  type SourceRow = OpenClaw.SourceRow

  // ---- parse_entries_json ----

  /** `f"{provider}/{model}" if provider else model` */
  function FullName(e: Entry): (r: string)
    ensures e.provider == [] ==> r == e.model
    ensures e.provider != [] ==> |r| == |e.provider| + 1 + |e.model| && r[|e.provider|] == '/'
  {
    if e.provider == [] then e.model else e.provider + "/" + e.model
  }

  /** The tokens an entry reports: cache writes are billable input, cache reads are cache. */
  function EntryTokens(e: Entry): int {
    e.input + e.cacheWrite + e.output + e.cacheRead
  }

  /**
   * The counters one entry adds to its app, its model within the app and
   * its global row; an entry without `messageCount` is one message.
   */
  function EntryTally(e: Entry, cost: real): (t: Tally)
    ensures Balanced(t) && t.tokens == EntryTokens(e)
    ensures t.tokensIn == e.input + e.cacheWrite && t.tokensOut == e.output && t.tokensCache == e.cacheRead
    ensures t.cost == cost && t.messages == (if e.messageCount == 0 then 1 else e.messageCount)
  {
    var tokensIn := e.input + e.cacheWrite;
    Tally(tokensIn + e.output + e.cacheRead, tokensIn, e.output, e.cacheRead, cost,
          if e.messageCount == 0 then 1 else e.messageCount)
  }

  /**
   * The three accumulators: `apps` (an app's counters), each app's
   * `models_dict`, and `all_models_dict` keyed by app and model name.
   */
  datatype Books = Books(apps: Ledger<string>, appModels: map<string, Ledger<string>>, all: Ledger<(string, string)>)

  const NoBooks: Books := Books(EmptyLedger(), map[], EmptyLedger())

  /** Adds a priced entry to its app, its model within the app and its global row. */
  function Book(b: Books, e: Entry, t: Tally): Books {
    var name := FullName(e);
    Books(Bump(b.apps, e.source, t),
          b.appModels[e.source := Bump(InnerOf(b.appModels, e.source), name, t)],
          Bump(b.all, (e.source, name), t))
  }

  /** An entry with tokens, once `get_cost` has answered. */
  function BookPriced(b: Books, e: Entry, cost: Result<real>): Result<Books> {
    match cost
    case Raised(x) => Raised(x)
    case Ok(c) => Ok(Book(b, e, EntryTally(e, c)))
  }

  /** One entry of the loop: an entry without tokens is skipped before it is priced. */
  function BookEntry(b: Books, e: Entry, prices: Prices): Result<Books> {
    if EntryTokens(e) == 0 then Ok(b)
    else BookPriced(b, e, ModelCost(prices, FullName(e), e.input, e.output, e.cacheRead, e.cacheWrite))
  }

  function BooksAfter(r: Result<Books>, e: Entry, prices: Prices): Result<Books> {
    if r.Raised? then r else BookEntry(r.value, e, prices)
  }

  /** The entry loop of `parse_entries_json`; a `get_cost` that raises ends the call. */
  function BookAll(entries: seq<Entry>, prices: Prices): Result<Books> {
    if entries == [] then Ok(NoBooks)
    else BooksAfter(BookAll(entries[..|entries| - 1], prices), entries[|entries| - 1], prices)
  }

  lemma {:induction false} BookAllStep(entries: seq<Entry>, i: nat, prices: Prices)
    requires i < |entries|
    ensures BookAll(entries[..i + 1], prices) == BooksAfter(BookAll(entries[..i], prices), entries[i], prices)
  {
    assert entries[..i + 1][..i] == entries[..i];
  }

  lemma {:induction false} BookAllRaisedSticks(entries: seq<Entry>, i: nat, prices: Prices)
    requires i <= |entries| && BookAll(entries[..i], prices).Raised?
    ensures BookAll(entries, prices) == BookAll(entries[..i], prices)
    decreases |entries| - i
  {
    if i < |entries| {
      var init := entries[..|entries| - 1];
      assert init[..i] == entries[..i];
      BookAllRaisedSticks(init, i, prices);
    } else {
      assert entries[..i] == entries;
    }
  }

  /** One entry through the loop body, priced by the database. */
  method BookWith(b: Books, e: Entry, db: PricingDatabase) returns (r: Result<Books>)
    requires db.Valid()
    modifies db`resolvedCache
    ensures db.Valid()
    ensures r == BookEntry(b, e, db.Tables())
  {
    if EntryTokens(e) == 0 {
      return Ok(b);
    }
    var cost := db.GetCost(FullName(e), e.input, e.output, e.cacheRead, e.cacheWrite);
    r := BookPriced(b, e, cost);
  }

  /** The loop of `parse_entries_json` over the entries, in order. */
  method BookEntries(entries: seq<Entry>, db: PricingDatabase) returns (r: Result<Books>)
    requires db.Valid()
    modifies db`resolvedCache
    ensures db.Valid()
    ensures r == BookAll(entries, db.Tables())
  {
    var b := NoBooks;
    var i := 0;
    while i < |entries|
      invariant 0 <= i <= |entries| && db.Valid()
      invariant BookAll(entries[..i], db.Tables()) == Ok(b)
    {
      ghost var prices := db.Tables();
      BookAllStep(entries, i, prices);
      var next := BookWith(b, entries[i], db);
      if next.Raised? {
        BookAllRaisedSticks(entries, i + 1, prices);
        return next;
      }
      b := next.value;
      i := i + 1;
    }
    assert entries[..i] == entries;
    r := Ok(b);
  }

  /**
   * What the loop keeps: well-formed dicts, each app's counters the total
   * of its models, every counter row balanced, and the apps together
   * holding what the global rows hold.
   */
  ghost predicate BooksOk(b: Books) {
    && Valid(b.apps) && Valid(b.all)
    && Nested(b.apps, b.appModels)
    && Total(b.apps) == Total(b.all)
  }

  lemma {:induction false} NoBooksOk()
    ensures BooksOk(NoBooks)
  {
    EmptyLedgerTotal<string>();
    EmptyLedgerTotal<(string, string)>();
  }

  lemma {:induction false} BookOk(b: Books, e: Entry, t: Tally)
    requires BooksOk(b)
    ensures BooksOk(Book(b, e, t))
  {
    BumpTotal(b.apps, e.source, t);
    BumpTotal(b.all, (e.source, FullName(e)), t);
    BumpNested(b.apps, b.appModels, e.source, FullName(e), t);
  }

  /** The loop keeps the accumulators consistent. */
  lemma {:induction false} BookAllOk(entries: seq<Entry>, prices: Prices)
    requires BookAll(entries, prices).Ok?
    ensures BooksOk(BookAll(entries, prices).value)
  {
    if entries == [] {
      NoBooksOk();
    } else {
      var init, e := entries[..|entries| - 1], entries[|entries| - 1];
      BookAllOk(init, prices);
      var b := BookAll(init, prices).value;
      if EntryTokens(e) != 0 {
        var c := ModelCost(prices, FullName(e), e.input, e.output, e.cacheRead, e.cacheWrite).value;
        BookOk(b, e, EntryTally(e, c));
      }
    }
  }

  /** An app of the result: its counters and its model rows, costliest first. */
  datatype AppReport = AppReport(name: string, totals: Tally, models: seq<(string, Tally)>)

  /** The result of `parse_entries_json`. */
  datatype EntriesSummary = EntriesSummary(
    totalCost: real, totalTokens: int, totalMessages: int,
    apps: seq<AppReport>, allModels: seq<((string, string), Tally)>)

  /** Each app, in first-seen order, with `models_dict` replaced by its rows sorted by cost. */
  function AppReports(keys: seq<string>, b: Books): (r: seq<AppReport>)
    requires Nested(b.apps, b.appModels)
    requires forall k :: k in keys ==> k in b.appModels
    ensures |r| == |keys|
    ensures forall i :: 0 <= i < |keys| ==> r[i].name == keys[i]
  {
    if keys == [] then []
    else
      var k := keys[|keys| - 1];
      AppReports(keys[..|keys| - 1], b) + [AppReport(k, b.apps.rows[k], SortByCost(Items(b.appModels[k])))]
  }

  /** The result dict: totals summed over `all_models`, which is sorted by cost. */
  function Summarise(b: Books): EntriesSummary
    requires BooksOk(b)
  {
    var all := SortByCost(Items(b.all));
    var sum := SumItems(all);
    assert forall k :: k in b.apps.keys ==> k in b.appModels by {
      forall k | k in b.apps.keys ensures k in b.appModels {
        var i :| 0 <= i < |b.apps.keys| && b.apps.keys[i] == k;
      }
    }
    EntriesSummary(sum.cost, sum.tokens, sum.messages, AppReports(b.apps.keys, b), all)
  }

  /** `parse_entries_json` over the decoded `entries` list. */
  method ParseEntriesJson(entries: seq<Entry>, db: PricingDatabase) returns (r: Result<EntriesSummary>)
    requires db.Valid()
    modifies db`resolvedCache
    ensures db.Valid()
    ensures BookAll(entries, db.Tables()).Raised? <==> r.Raised?
    ensures r.Ok? ==> BooksOk(BookAll(entries, db.Tables()).value) && r.value == Summarise(BookAll(entries, db.Tables()).value)
  {
    var booked := BookEntries(entries, db);
    if booked.Raised? {
      return Raised(booked.reason);
    }
    BookAllOk(entries, db.Tables());
    r := Ok(Summarise(booked.value));
  }

  // ---- what parse_entries_json promises ----

  /** The tokens of all entries, skipped ones included (they have none). */
  function TokenSum(entries: seq<Entry>): int {
    if entries == [] then 0 else TokenSum(entries[..|entries| - 1]) + EntryTokens(entries[|entries| - 1])
  }

  /** The entries that carry tokens. */
  function Counted(entries: seq<Entry>): nat {
    if entries == [] then 0
    else Counted(entries[..|entries| - 1]) + (if EntryTokens(entries[|entries| - 1]) == 0 then 0 else 1)
  }

  /** No entry carries `messageCount`, as with every local parser. */
  predicate NoMessageCounts(entries: seq<Entry>) {
    forall k :: 0 <= k < |entries| ==> entries[k].messageCount == 0
  }

  /** The last entry of the loop, when it does not raise, applied to the rows of the ones before it. */
  lemma {:induction false} BookAllLast(entries: seq<Entry>, prices: Prices)
    requires entries != [] && BookAll(entries, prices).Ok?
    ensures BookAll(entries[..|entries| - 1], prices).Ok?
    ensures BookAll(entries, prices) == BookEntry(BookAll(entries[..|entries| - 1], prices).value, entries[|entries| - 1], prices)
  {
  }

  /** Nothing is lost or counted twice: the global rows hold the tokens of every entry. */
  lemma {:induction false} BookAllTokens(entries: seq<Entry>, prices: Prices)
    requires BookAll(entries, prices).Ok?
    ensures Valid(BookAll(entries, prices).value.all)
    ensures Total(BookAll(entries, prices).value.all).tokens == TokenSum(entries)
  {
    if entries == [] {
      EmptyLedgerTotal<(string, string)>();
    } else {
      var init, e := entries[..|entries| - 1], entries[|entries| - 1];
      BookAllLast(entries, prices);
      BookAllTokens(init, prices);
      BookEntryCounts(BookAll(init, prices).value, e, prices);
    }
  }

  /**
   * When no entry carries `messageCount`, the global rows count one
   * message per entry with tokens.
   */
  lemma {:induction false} BookAllMessages(entries: seq<Entry>, prices: Prices)
    requires BookAll(entries, prices).Ok? && NoMessageCounts(entries)
    ensures Valid(BookAll(entries, prices).value.all)
    ensures Total(BookAll(entries, prices).value.all).messages == Counted(entries)
  {
    if entries == [] {
      EmptyLedgerTotal<(string, string)>();
    } else {
      var init, e := entries[..|entries| - 1], entries[|entries| - 1];
      BookAllLast(entries, prices);
      NoMessageCountsInit(entries);
      BookAllMessages(init, prices);
      BookEntryCounts(BookAll(init, prices).value, e, prices);
    }
  }

  lemma {:induction false} NoMessageCountsInit(entries: seq<Entry>)
    requires entries != [] && NoMessageCounts(entries)
    ensures NoMessageCounts(entries[..|entries| - 1]) && entries[|entries| - 1].messageCount == 0
  {
    var init := entries[..|entries| - 1];
    forall k | 0 <= k < |init| ensures init[k].messageCount == 0 {
      assert init[k] == entries[k];
    }
  }

  /** One entry adds its tokens to the global rows, and one message when it has tokens. */
  lemma {:induction false} BookEntryCounts(b: Books, e: Entry, prices: Prices)
    requires Valid(b.all) && BookEntry(b, e, prices).Ok?
    ensures Valid(BookEntry(b, e, prices).value.all)
    ensures Total(BookEntry(b, e, prices).value.all).tokens == Total(b.all).tokens + EntryTokens(e)
    ensures e.messageCount == 0 ==>
      Total(BookEntry(b, e, prices).value.all).messages == Total(b.all).messages + (if EntryTokens(e) == 0 then 0 else 1)
  {
    if EntryTokens(e) != 0 {
      var c := ModelCost(prices, FullName(e), e.input, e.output, e.cacheRead, e.cacheWrite).value;
      BumpTotal(b.all, (e.source, FullName(e)), EntryTally(e, c));
    }
  }

  /** The app rows of the result, each equal to the sum of its own model rows. */
  lemma {:induction false} AppReportsSum(keys: seq<string>, b: Books)
    requires Nested(b.apps, b.appModels)
    requires forall k :: k in keys ==> k in b.appModels
    ensures forall i :: 0 <= i < |keys| ==>
      && AppReports(keys, b)[i].totals == SumItems(AppReports(keys, b)[i].models)
      && ByCostDescending(AppReports(keys, b)[i].models)
      && multiset(AppReports(keys, b)[i].models) == multiset(Items(b.appModels[keys[i]]))
  {
    if keys != [] {
      var init, k := keys[..|keys| - 1], keys[|keys| - 1];
      AppReportsSum(init, b);
      var items := Items(b.appModels[k]);
      SortByCostKeepsSum(items);
      SumItemsIsTotal(b.appModels[k]);
      SortByCostSorted(items);
      SortByCostPermutes(items);
      var r := AppReports(keys, b);
      assert r[..|init|] == AppReports(init, b);
      forall i | 0 <= i < |keys|
        ensures r[i].totals == SumItems(r[i].models) && ByCostDescending(r[i].models)
        ensures multiset(r[i].models) == multiset(Items(b.appModels[keys[i]]))
      {
        if i < |init| {
          assert r[i] == AppReports(init, b)[i];
        }
      }
    }
  }

  /**
   * The result of `parse_entries_json`: the totals are the sums over
   * `all_models`, which equal what the apps hold together; `all_models`
   * is every global row, costliest first; each app's counters are the sum
   * of its model rows, costliest first.
   */
  lemma {:induction false} SummaryTotals(b: Books)
    requires BooksOk(b)
    ensures var s := Summarise(b);
      && s.totalTokens == Total(b.all).tokens == Total(b.apps).tokens
      && s.totalCost == Total(b.all).cost == Total(b.apps).cost
      && s.totalMessages == Total(b.all).messages == Total(b.apps).messages
      && ByCostDescending(s.allModels) && multiset(s.allModels) == multiset(Items(b.all))
      && |s.apps| == |b.apps.keys|
      && forall i :: 0 <= i < |s.apps| ==>
           && s.apps[i].name == b.apps.keys[i]
           && s.apps[i].totals == SumItems(s.apps[i].models)
           && ByCostDescending(s.apps[i].models)
  {
    var items := Items(b.all);
    SortByCostKeepsSum(items);
    SumItemsIsTotal(b.all);
    SortByCostSorted(items);
    SortByCostPermutes(items);
    assert forall k :: k in b.apps.keys ==> k in b.appModels by {
      forall k | k in b.apps.keys ensures k in b.appModels {
        var i :| 0 <= i < |b.apps.keys| && b.apps.keys[i] == k;
      }
    }
    AppReportsSum(b.apps.keys, b);
  }

  // ---- period_to_days and period_to_range_args ----

  /** The named periods and the days each covers. */
  const PeriodNames: map<string, int> := map["today" := 1, "3days" := 3, "week" := 7, "14days" := 14, "month" := 30]

  /**
   * `period_to_days`: a period that `int()` reads counts that many days,
   * at least one; otherwise a named period its table entry; anything else
   * one day.
   */
  function PeriodToDays(period: string): (n: int)
    ensures n >= 1
    ensures ParseIntLiteral(period).Some? ==> n == if ParseIntLiteral(period).value >= 1 then ParseIntLiteral(period).value else 1
    ensures ParseIntLiteral(period).None? ==> n == if period in PeriodNames then PeriodNames[period] else 1
  {
    match ParseIntLiteral(period)
    case Some(k) => if k >= 1 then k else 1
    case None => if period in PeriodNames then PeriodNames[period] else 1
  }

  /** `period_to_days(str(n))` is `max(1, n)`: the numeric periods the API receives. */
  lemma {:induction false} NumericPeriod(n: int)
    ensures PeriodToDays(IntToDecimal(n)) == if n >= 1 then n else 1
  {
    ParseDecimalText(n);
  }

  /** No period name reads as an integer, so each maps to its table entry. */
  lemma {:induction false} NamedPeriod(period: string)
    requires period in PeriodNames
    ensures ParseIntLiteral(period).None?
    ensures PeriodToDays(period) == PeriodNames[period]
  {
    assert period[0] != '-' && period[0] != '+';
    assert !IsSpace(period[0]) && !IsSpace(period[|period| - 1]);
    StripKeepsTrimmed(period);
    assert !IsDigit(period[|period| - 1]);
    assert !DigitBody(period);
  }

  /** What `period_to_range_args` returns, with dates as local day numbers. */
  datatype RangeArgs = TodayOnly | Span(since: int, until: int)

  /**
   * `period_to_range_args`: the calendar month so far for "month", the
   * current day for a one-day period, otherwise the period's days ending
   * today. `today` is the local day number and `monthStart` the day number
   * of the first of the current month.
   */
  function PeriodToRangeArgs(period: string, today: int, monthStart: int): (r: RangeArgs)
    ensures r.TodayOnly? <==> period != "month" && PeriodToDays(period) == 1
    ensures period == "month" ==> r == Span(monthStart, today)
    ensures period != "month" && r.Span? ==> r.until == today && r.until - r.since + 1 == PeriodToDays(period)
  {
    if period == "month" then Span(monthStart, today)
    else
      var days := PeriodToDays(period);
      if days == 1 then TodayOnly else Span(today - (days - 1), today)
  }

  /**
   * The `[since, until)` days the tracker is handed for the arguments:
   * the current day alone, or the span with its inclusive `--until` day
   * taken in.
   */
  function RangeDays(args: RangeArgs, today: int): (int, int) {
    match args
    case TodayOnly => (today, today + 1)
    case Span(since, until) => (since, until + 1)
  }

  /**
   * A period other than "month" becomes a window of exactly its days that
   * ends with the current day; "month" one that runs from the first of the
   * month through the current day.
   */
  lemma {:induction false} PeriodWindow(period: string, today: int, monthStart: int)
    ensures var w := RangeDays(PeriodToRangeArgs(period, today, monthStart), today);
      && w.1 == today + 1
      && (period != "month" ==> w.1 - w.0 == PeriodToDays(period))
      && (period == "month" ==> w.0 == monthStart)
  {
    var r := PeriodToRangeArgs(period, today, monthStart);
    if r.Span? && period != "month" {
      assert r.until - r.since + 1 == PeriodToDays(period);
    }
  }

  // ---- _has_visible_token_usage ----

  /** `int(v or 0)`: `None` where `int()` raises. */
  function IntOrNone(v: Json): Option<int> {
    if Truthy(v) then PyInt(v) else Some(0)
  }

  /**
   * What a row holds under each name `_has_visible_token_usage` reads
   * (`None` where the key is absent): a count under its row name
   * (`tokens_in`, `tokens_out`, `cache_read`, `cache_write`) and under its
   * entry name (`input`, `output`, `cacheRead`, `cacheWrite`), and the
   * aggregate `tokens_cache`.
   */
  datatype UsageKeys = UsageKeys(
    inRow: Option<Json>, inEntry: Option<Json>, outRow: Option<Json>, outEntry: Option<Json>,
    readRow: Option<Json>, readEntry: Option<Json>, writeRow: Option<Json>, writeEntry: Option<Json>,
    cacheTotal: Option<Json>)

  function UsageKeysOf(fields: seq<(string, Json)>): UsageKeys {
    UsageKeys(Find(fields, "tokens_in"), Find(fields, "input"), Find(fields, "tokens_out"), Find(fields, "output"),
              Find(fields, "cache_read"), Find(fields, "cacheRead"), Find(fields, "cache_write"), Find(fields, "cacheWrite"),
              Find(fields, "tokens_cache"))
  }

  /** `int(row.get(name, row.get(alt, 0)) or 0)` */
  function Count(name: Option<Json>, alt: Option<Json>): Option<int> {
    IntOrNone(name.GetOr(alt.GetOr(JInt(0))))
  }

  /**
   * Whether input, output, cache read and cache write tokens add up to
   * more than 0, with the aggregate cache count standing in for cache
   * reads when both cache fields are 0; `None` where `int()` raises.
   */
  function VisibleKeys(k: UsageKeys): Option<bool> {
    match (Count(k.inRow, k.inEntry), Count(k.outRow, k.outEntry), Count(k.readRow, k.readEntry), Count(k.writeRow, k.writeEntry))
    case (Some(i), Some(o), Some(cr), Some(cw)) =>
      if cr == 0 && cw == 0 then
        match Count(k.cacheTotal, None)
        case Some(c) => Some(i + o + c + cw > 0)
        case None => None
      else Some(i + o + cr + cw > 0)
    case _ => None
  }

  /**
   * `_has_visible_token_usage`: a value that is not a dict, or a count
   * `int()` refuses, raises.
   */
  function HasVisibleTokenUsage(row: Json): (r: Result<bool>)
    ensures !row.JObj? ==> r.Raised?
    ensures row.JObj? ==> (r.Raised? <==> VisibleKeys(UsageKeysOf(row.fields)).None?)
    ensures row.JObj? && r.Ok? ==> r.value == VisibleKeys(UsageKeysOf(row.fields)).value
  {
    if !row.JObj? then Raised("AttributeError")
    else
      match VisibleKeys(UsageKeysOf(row.fields))
      case Some(v) => Ok(v)
      case None => Raised("ValueError")
  }

  /** A usage row is visible when its input, output and cache tokens add up to more than 0. */
  predicate VisibleTally(t: Tally) {
    t.tokensIn + t.tokensOut + t.tokensCache > 0
  }

  /**
   * The keys of a model row (`tokens_in`, `tokens_out`, `tokens_cache`,
   * no entry names and no separate cache fields), as in `all_models` and
   * the OpenClaw `models`.
   */
  function ModelRowKeys(t: Tally): UsageKeys {
    UsageKeys(Some(JInt(t.tokensIn)), None, Some(JInt(t.tokensOut)), None, None, None, None, None, Some(JInt(t.tokensCache)))
  }

  /**
   * A model row falls back to its aggregate cache count, so it is visible
   * exactly when `VisibleTally` holds.
   */
  lemma {:induction false} VisibleModelRow(t: Tally)
    ensures VisibleKeys(ModelRowKeys(t)) == Some(VisibleTally(t))
  {
    assert Count(Some(JInt(t.tokensCache)), None) == Some(t.tokensCache);
  }

  /** The keys of an entry as the tracker reports it: entry names only. */
  function EntryKeys(e: Entry): UsageKeys {
    UsageKeys(None, Some(JInt(e.input)), None, Some(JInt(e.output)), None, Some(JInt(e.cacheRead)), None, Some(JInt(e.cacheWrite)), None)
  }

  /** An entry is read under its entry names: visible when its four token counts add up to more than 0. */
  lemma {:induction false} VisibleEntryRow(e: Entry)
    ensures VisibleKeys(EntryKeys(e)) == Some(e.input + e.output + e.cacheRead + e.cacheWrite > 0)
  {
    assert Count(None, None) == Some(0);
  }

  // ---- compute_usage ----

  /** `name.lower() == "openclaw"` */
  predicate IsOpenClaw(name: string) {
    LowerStr(name) == "openclaw"
  }

  /** `{k: v for k, v in apps.items() if k.lower() != "openclaw"}` */
  function CodingApps(apps: seq<AppReport>): (r: seq<AppReport>)
    ensures forall a :: a in r <==> a in apps && !IsOpenClaw(a.name)
  {
    if apps == [] then []
    else
      var init, a := apps[..|apps| - 1], apps[|apps| - 1];
      assert apps == init + [a];
      if IsOpenClaw(a.name) then CodingApps(init) else CodingApps(init) + [a]
  }

  /** The rows of `all_models` that belong to no OpenClaw source and have visible usage. */
  function CodingModels(rows: seq<((string, string), Tally)>): (r: seq<((string, string), Tally)>)
    ensures forall m :: m in r <==> m in rows && !IsOpenClaw(m.0.0) && VisibleTally(m.1)
  {
    if rows == [] then []
    else
      var init, m := rows[..|rows| - 1], rows[|rows| - 1];
      assert rows == init + [m];
      if !IsOpenClaw(m.0.0) && VisibleTally(m.1) then CodingModels(init) + [m] else CodingModels(init)
  }

  /** A global row as `add_row` reads it: its model name and its counters. */
  function Named(rows: seq<((string, string), Tally)>): (r: seq<(string, Tally)>)
    ensures |r| == |rows|
    ensures forall i :: 0 <= i < |rows| ==> r[i] == (rows[i].0.1, rows[i].1)
  {
    seq(|rows|, i requires 0 <= i < |rows| => (rows[i].0.1, rows[i].1))
  }

  function ModelRowTally(m: OpenClaw.ModelRow): Tally {
    Tally(m.tokens, m.tokensIn, m.tokensOut, m.tokensCache, m.cost, m.messages)
  }

  /** The rows with visible usage, in order. */
  function VisibleRows(rows: seq<(string, Tally)>): (r: seq<(string, Tally)>)
    ensures forall x :: x in r <==> x in rows && VisibleTally(x.1)
  {
    if rows == [] then []
    else
      var init, x := rows[..|rows| - 1], rows[|rows| - 1];
      assert rows == init + [x];
      if VisibleTally(x.1) then VisibleRows(init) + [x] else VisibleRows(init)
  }

  /** `openclaw_models`: the OpenClaw model rows with visible usage, costliest first. */
  function OpenClawModels(models: seq<OpenClaw.ModelRow>): seq<(string, Tally)> {
    SortByCost(VisibleRows(seq(|models|, i requires 0 <= i < |models| => (models[i].model, ModelRowTally(models[i])))))
  }

  /** `add_row`: a visible row is added to the row of its normalised model name. */
  function AddRow(l: Ledger<string>, row: (string, Tally)): Ledger<string> {
    if VisibleTally(row.1) then Bump(l, NormalizeModelName(row.0), row.1) else l
  }

  /** `combined_by_model`, starting from `l`, after `add_row` on each row in order. */
  function Combine(l: Ledger<string>, rows: seq<(string, Tally)>): (r: Ledger<string>)
    requires Valid(l)
    ensures Valid(r)
  {
    if rows == [] then l
    else
      var before := Combine(l, rows[..|rows| - 1]);
      var x := rows[|rows| - 1];
      BumpValid(before, NormalizeModelName(x.0), x.1);
      AddRow(before, x)
  }

  lemma {:induction false} CombineStep(l: Ledger<string>, rows: seq<(string, Tally)>, i: nat)
    requires Valid(l) && i < |rows|
    ensures Combine(l, rows[..i + 1]) == AddRow(Combine(l, rows[..i]), rows[i])
  {
    assert rows[..i + 1][..i] == rows[..i];
  }

  /** Adding two lists of rows one after the other is adding their concatenation. */
  lemma {:induction false} CombineAppend(l: Ledger<string>, a: seq<(string, Tally)>, b: seq<(string, Tally)>)
    requires Valid(l)
    ensures Combine(Combine(l, a), b) == Combine(l, a + b)
  {
    if b != [] {
      CombineAppend(l, a, b[..|b| - 1]);
      assert (a + b)[..|a + b| - 1] == a + b[..|b| - 1];
    } else {
      assert a + b == a;
    }
  }

  /** One `for r in rows: add_row(r)` loop. */
  method AddRows(start: Ledger<string>, rows: seq<(string, Tally)>) returns (combined: Ledger<string>)
    requires Valid(start)
    ensures combined == Combine(start, rows)
  {
    combined := start;
    var i := 0;
    while i < |rows|
      invariant 0 <= i <= |rows|
      invariant combined == Combine(start, rows[..i])
    {
      CombineStep(start, rows, i);
      combined := AddRow(combined, rows[i]);
      i := i + 1;
    }
    assert rows[..i] == rows;
  }

  /** The two `add_row` loops: the coding rows, then the OpenClaw rows. */
  method CombineModels(coding: seq<(string, Tally)>, openclaw: seq<(string, Tally)>) returns (combined: Ledger<string>)
    ensures combined == Combine(EmptyLedger(), coding + openclaw)
  {
    EmptyLedgerTotal<string>();
    combined := AddRows(EmptyLedger(), coding);
    combined := AddRows(combined, openclaw);
    CombineAppend(EmptyLedger(), coding, openclaw);
  }

  /** `by_tool`: one row per app. */
  datatype ToolRow = ToolRow(name: string, tokens: int, cost: real)

  /** The result of `compute_usage`, without its period echo, time stamp and rounding. */
  datatype UsageView = UsageView(
    totalTokens: int, totalCost: real, byTool: seq<ToolRow>,
    codingApps: seq<AppReport>, codingModels: seq<((string, string), Tally)>,
    openclawModels: seq<(string, Tally)>, combinedModels: seq<(string, Tally)>, topModels: seq<(string, Tally)>)

  /** The counters of the apps added up. */
  function AppsTotal(apps: seq<AppReport>): Tally {
    if apps == [] then Zero else Plus(AppsTotal(apps[..|apps| - 1]), apps[|apps| - 1].totals)
  }

  function ToolRows(apps: seq<AppReport>): (r: seq<ToolRow>)
    ensures |r| == |apps|
    ensures forall i :: 0 <= i < |apps| ==> r[i] == ToolRow(apps[i].name, apps[i].totals.tokens, apps[i].totals.cost)
  {
    seq(|apps|, i requires 0 <= i < |apps| => ToolRow(apps[i].name, apps[i].totals.tokens, apps[i].totals.cost))
  }

  /** The first `n` rows, or all of them when there are fewer. */
  function Top<T>(rows: seq<T>, n: nat): (r: seq<T>)
    ensures |r| == if |rows| < n then |rows| else n
    ensures forall i :: 0 <= i < |r| ==> r[i] == rows[i]
  {
    if |rows| <= n then rows else rows[..n]
  }

  /**
   * `compute_usage` over the OpenClaw report and the coding-tool summary
   * of the same period.
   */
  method ComputeUsage(openclaw: OpenClaw.Report, coding: EntriesSummary) returns (v: UsageView)
    ensures UsageViewOf(openclaw, coding, v)
  {
    var apps := CodingApps(coding.apps);
    var models := CodingModels(coding.allModels);
    var total := AppsTotal(apps);
    var ocl := OpenClawModels(openclaw.models);
    var combined := CombineModels(Named(models), ocl);
    var rows := SortByCost(Items(combined));
    v := UsageView(openclaw.totalTokens + total.tokens, openclaw.totalCost + total.cost,
                   ToolRows(apps) + [ToolRow("openclaw", openclaw.totalTokens, openclaw.totalCost)],
                   apps, models, ocl, rows, Top(rows, 5));
  }

  // ---- what compute_usage promises ----

  /** The combined rows hold exactly the usage of the visible rows. */
  lemma {:induction false} CombineTotal(rows: seq<(string, Tally)>)
    ensures Total(Combine(EmptyLedger(), rows)) == SumItems(VisibleRows(rows))
  {
    EmptyLedgerTotal<string>();
    if rows != [] {
      var init, x := rows[..|rows| - 1], rows[|rows| - 1];
      CombineTotal(init);
      if VisibleTally(x.1) {
        BumpTotal(Combine(EmptyLedger(), init), NormalizeModelName(x.0), x.1);
        var v := VisibleRows(init) + [x];
        assert v[..|v| - 1] == VisibleRows(init);
      }
    }
  }

  /** The normalised names of the visible rows, in order. */
  function CombinedNames(rows: seq<(string, Tally)>): seq<string> {
    if rows == [] then []
    else
      var init, x := rows[..|rows| - 1], rows[|rows| - 1];
      if VisibleTally(x.1) then CombinedNames(init) + [NormalizeModelName(x.0)] else CombinedNames(init)
  }

  /** The combined table has a row for a model exactly when some visible row normalises to it. */
  lemma {:induction false} CombineKeys(rows: seq<(string, Tally)>)
    ensures forall k :: k in Combine(EmptyLedger(), rows).keys <==> k in CombinedNames(rows)
  {
    EmptyLedgerTotal<string>();
    if rows != [] {
      var init, x := rows[..|rows| - 1], rows[|rows| - 1];
      CombineKeys(init);
      if VisibleTally(x.1) {
        BumpValid(Combine(EmptyLedger(), init), NormalizeModelName(x.0), x.1);
      }
    }
  }

  function ToolTokens(rows: seq<ToolRow>): int {
    if rows == [] then 0 else ToolTokens(rows[..|rows| - 1]) + rows[|rows| - 1].tokens
  }

  function ToolCost(rows: seq<ToolRow>): real {
    if rows == [] then 0.0 else ToolCost(rows[..|rows| - 1]) + rows[|rows| - 1].cost
  }

  lemma {:induction false} ToolRowsSum(apps: seq<AppReport>)
    ensures ToolTokens(ToolRows(apps)) == AppsTotal(apps).tokens
    ensures ToolCost(ToolRows(apps)) == AppsTotal(apps).cost
  {
    if apps != [] {
      var init := apps[..|apps| - 1];
      ToolRowsSum(init);
      var r := ToolRows(apps);
      assert r[..|r| - 1] == ToolRows(init);
    }
  }

  /** The usage view's inputs, as `ComputeUsage` produces them. */
  ghost predicate UsageViewOf(openclaw: OpenClaw.Report, coding: EntriesSummary, v: UsageView) {
    && v.codingApps == CodingApps(coding.apps)
    && v.codingModels == CodingModels(coding.allModels)
    && v.openclawModels == OpenClawModels(openclaw.models)
    && v.totalTokens == openclaw.totalTokens + AppsTotal(v.codingApps).tokens
    && v.totalCost == openclaw.totalCost + AppsTotal(v.codingApps).cost
    && v.byTool == ToolRows(v.codingApps) + [ToolRow("openclaw", openclaw.totalTokens, openclaw.totalCost)]
    && v.combinedModels == SortByCost(Items(Combine(EmptyLedger(), Named(v.codingModels) + v.openclawModels)))
    && v.topModels == Top(v.combinedModels, 5)
  }

  /**
   * The `by_tool` rows sum to the totals, the OpenClaw row comes last and
   * no other row is an OpenClaw source, and every coding model row is
   * visible and from no OpenClaw source.
   */
  lemma {:induction false} UsageByTool(openclaw: OpenClaw.Report, coding: EntriesSummary, v: UsageView)
    requires UsageViewOf(openclaw, coding, v)
    ensures ToolTokens(v.byTool) == v.totalTokens && ToolCost(v.byTool) == v.totalCost
    ensures v.byTool[|v.byTool| - 1].name == "openclaw"
    ensures forall i :: 0 <= i < |v.byTool| - 1 ==> !IsOpenClaw(v.byTool[i].name)
    ensures forall m :: m in v.codingModels ==> VisibleTally(m.1) && !IsOpenClaw(m.0.0)
  {
    ToolRowsSum(v.codingApps);
    var r := ToolRows(v.codingApps);
    assert v.byTool[..|r|] == r;
    forall i | 0 <= i < |v.byTool| - 1 ensures !IsOpenClaw(v.byTool[i].name) {
      assert v.byTool[i] == r[i];
      assert v.codingApps[i] in v.codingApps;
    }
  }

  /**
   * The combined table is sorted by cost, holds exactly the visible usage
   * of the coding and OpenClaw rows, and the top models are its first five
   * rows.
   */
  lemma {:induction false} UsageCombined(openclaw: OpenClaw.Report, coding: EntriesSummary, v: UsageView)
    requires UsageViewOf(openclaw, coding, v)
    ensures ByCostDescending(v.combinedModels)
    ensures SumItems(v.combinedModels) == SumItems(VisibleRows(Named(v.codingModels) + v.openclawModels))
    ensures |v.topModels| <= 5 && v.topModels == v.combinedModels[..|v.topModels|]
  {
    var rows := Named(v.codingModels) + v.openclawModels;
    EmptyLedgerTotal<string>();
    CombineTotal(rows);
    var l := Combine(EmptyLedger(), rows);
    SortByCostSorted(Items(l));
    SortByCostKeepsSum(Items(l));
    SumItemsIsTotal(l);
  }

  // ---- _contributions_from_entries ----

  /** An entry as a source row of its day: cache writes count as input, and it is one message. */
  function SourceOf(e: Entry): (s: SourceRow)
    ensures s.input == e.input + e.cacheWrite && s.output == e.output && s.cacheRead == e.cacheRead
    ensures s.cacheWrite == 0 && s.reasoning == e.reasoning && s.cost == e.cost && s.messages == 1
    ensures s.providerId == if e.provider == [] then "unknown" else e.provider
  {
    OpenClaw.SourceRow(e.source, e.model, if e.provider == [] then "unknown" else e.provider,
                       e.input + e.cacheWrite, e.output, e.cacheRead, 0, e.reasoning, e.cost, 1)
  }

  /** The record `setdefault` creates for a date. */
  function EmptyDay(date: int): DayRow {
    OpenClaw.DayRow(date, 0, 0.0, 0, 0, 0, 0, 0, 0, 0, [])
  }

  /** A source row added to its day: totals, breakdown, and the row appended. */
  function AddSource(d: DayRow, s: SourceRow): DayRow {
    d.(tokens := d.tokens + s.input + s.output + s.cacheRead + s.reasoning,
       cost := d.cost + s.cost, messages := d.messages + 1,
       input := d.input + s.input, output := d.output + s.output, cacheRead := d.cacheRead + s.cacheRead,
       reasoning := d.reasoning + s.reasoning, sources := d.sources + [s])
  }

  /** The costs of source rows added up. */
  function SourcesCost(ss: seq<SourceRow>): real {
    if ss == [] then 0.0 else SourcesCost(ss[..|ss| - 1]) + ss[|ss| - 1].cost
  }

  /**
   * A day built from entries: its total is input, output, cache read and
   * reasoning tokens, its cost the sum of its sources' costs, one message
   * per source, and no cache writes or intensity.
   */
  predicate DayShaped(d: DayRow) {
    && d.tokens == d.input + d.output + d.cacheRead + d.reasoning
    && d.cacheWrite == 0 && d.intensity == 0
    && d.messages == |d.sources| && d.cost == SourcesCost(d.sources)
  }

  /** `by_date`: the dates in first-seen order and the record of each. */
  datatype ByDate = ByDate(dates: seq<int>, days: map<int, DayRow>)

  /** An entry added to the record of its local date. */
  function AddEntry(b: ByDate, date: int, e: Entry): ByDate {
    if date in b.days then ByDate(b.dates, b.days[date := AddSource(b.days[date], SourceOf(e))])
    else ByDate(b.dates + [date], b.days[date := AddSource(EmptyDay(date), SourceOf(e))])
  }

  /**
   * One entry of the loop: a time stamp of 0 or less is skipped; one
   * outside the years `datetime` can hold raises; otherwise the entry goes
   * to its local date.
   */
  function ContribAfter(r: Result<ByDate>, e: Entry, env: Env): Result<ByDate> {
    if r.Raised? || e.timestamp <= 0 then r
    else
      var t := e.timestamp as real / 1000.0;
      if FromTimestamp(t).None? then Raised("ValueError")
      else Ok(AddEntry(r.value, env.localDay(t), e))
  }

  /** The entry loop of `_contributions_from_entries`. */
  function ContribAll(entries: seq<Entry>, env: Env): Result<ByDate> {
    if entries == [] then Ok(ByDate([], map[]))
    else ContribAfter(ContribAll(entries[..|entries| - 1], env), entries[|entries| - 1], env)
  }

  lemma {:induction false} ContribAllStep(entries: seq<Entry>, i: nat, env: Env)
    requires i < |entries|
    ensures ContribAll(entries[..i + 1], env) == ContribAfter(ContribAll(entries[..i], env), entries[i], env)
  {
    assert entries[..i + 1][..i] == entries[..i];
  }

  lemma {:induction false} ContribRaisedSticks(entries: seq<Entry>, i: nat, env: Env)
    requires i <= |entries| && ContribAll(entries[..i], env).Raised?
    ensures ContribAll(entries, env) == ContribAll(entries[..i], env)
    decreases |entries| - i
  {
    if i < |entries| {
      var init := entries[..|entries| - 1];
      assert init[..i] == entries[..i];
      ContribRaisedSticks(init, i, env);
    } else {
      assert entries[..i] == entries;
    }
  }

  /**
   * What the loop keeps: each date listed once, a record for exactly the
   * listed dates, each record carrying its own date and shaped as
   * `DayShaped` says.
   */
  ghost predicate ByDateOk(b: ByDate) {
    && Distinct(b.dates)
    && (forall d :: d in b.days <==> d in b.dates)
    && (forall d :: d in b.days ==> b.days[d].date == d && DayShaped(b.days[d]))
  }

  lemma {:induction false} AddSourceShaped(d: DayRow, s: SourceRow)
    requires DayShaped(d) && s.cacheWrite == 0 && s.messages == 1
    ensures DayShaped(AddSource(d, s))
  {
    var ss := d.sources + [s];
    assert ss[..|ss| - 1] == d.sources;
  }

  lemma {:induction false} AddEntryOk(b: ByDate, date: int, e: Entry)
    requires ByDateOk(b)
    ensures ByDateOk(AddEntry(b, date, e))
  {
    var s := SourceOf(e);
    var b' := AddEntry(b, date, e);
    if date in b.days {
      AddSourceShaped(b.days[date], s);
    } else {
      AddSourceShaped(EmptyDay(date), s);
      assert Distinct(b'.dates) by {
        forall i, j | 0 <= i < j < |b'.dates| ensures b'.dates[i] != b'.dates[j] {
          if j == |b.dates| {
            assert b'.dates[i] == b.dates[i];
          }
        }
      }
    }
  }

  /** The loop keeps the records well formed. */
  lemma {:induction false} ContribAllOk(entries: seq<Entry>, env: Env)
    requires ContribAll(entries, env).Ok?
    ensures ByDateOk(ContribAll(entries, env).value)
  {
    if entries != [] {
      var init := entries[..|entries| - 1];
      ContribAllOk(init, env);
      ContribAfterOk(ContribAll(init, env).value, entries[|entries| - 1], env);
    }
  }

  lemma {:induction false} ContribAfterOk(b: ByDate, e: Entry, env: Env)
    requires ByDateOk(b) && ContribAfter(Ok(b), e, env).Ok?
    ensures ByDateOk(ContribAfter(Ok(b), e, env).value)
  {
    if e.timestamp > 0 {
      var date := env.localDay(e.timestamp as real / 1000.0);
      assert ContribAfter(Ok(b), e, env) == Ok(AddEntry(b, date, e));
      AddEntryOk(b, date, e);
    } else {
      assert ContribAfter(Ok(b), e, env) == Ok(b);
    }
  }

  /** Sorting the dates of well-formed records lists each of them once, in increasing order. */
  lemma {:induction false} SortedDates(b: ByDate)
    requires ByDateOk(b)
    ensures Increasing(SortInts(b.dates))
    ensures forall k :: 0 <= k < |SortInts(b.dates)| ==> SortInts(b.dates)[k] in b.days
  {
    SortIntsIncreasing(b.dates);
    SortIntsPermutes(b.dates);
    var ds := SortInts(b.dates);
    forall k | 0 <= k < |ds| ensures ds[k] in b.days {
      assert ds[k] in multiset(ds);
    }
  }

  /** `[by_date[k] for k in sorted(by_date.keys())]` */
  function DayList(b: ByDate): (r: seq<DayRow>)
    requires ByDateOk(b)
  {
    var ds := SortInts(b.dates);
    SortedDates(b);
    seq(|ds|, i requires 0 <= i < |ds| => b.days[ds[i]])
  }

  /** `_contributions_from_entries`: the entry loop, then the records by date. */
  method ContributionsFromEntries(entries: seq<Entry>, env: Env) returns (r: Result<seq<DayRow>>)
    ensures ContribAll(entries, env).Raised? <==> r.Raised?
    ensures r.Ok? ==> ByDateOk(ContribAll(entries, env).value) && r.value == DayList(ContribAll(entries, env).value)
  {
    var b := ByDate([], map[]);
    var i := 0;
    while i < |entries|
      invariant 0 <= i <= |entries|
      invariant ContribAll(entries[..i], env) == Ok(b)
    {
      ContribAllStep(entries, i, env);
      var e := entries[i];
      if e.timestamp > 0 {
        var t := e.timestamp as real / 1000.0;
        if FromTimestamp(t).None? {
          ContribRaisedSticks(entries, i + 1, env);
          return Raised("ValueError");
        }
        b := AddEntry(b, env.localDay(t), e);
      }
      i := i + 1;
    }
    assert entries[..i] == entries;
    ContribAllOk(entries, env);
    r := Ok(DayList(b));
  }

  /**
   * The contributions come in strictly increasing date order, one per
   * date, each shaped as `DayShaped` says.
   */
  lemma {:induction false} ContributionsSorted(b: ByDate)
    requires ByDateOk(b)
    ensures forall i, j :: 0 <= i < j < |DayList(b)| ==> DayList(b)[i].date < DayList(b)[j].date
    ensures forall i :: 0 <= i < |DayList(b)| ==> DayShaped(DayList(b)[i]) && DayList(b)[i].date in b.dates
  {
    SortedDates(b);
    var ds := SortInts(b.dates);
    var r := DayList(b);
    forall i | 0 <= i < |r| ensures r[i].date == ds[i] {
    }
  }

  // ---- compute_stats: one calendar from the two ----

  /** The source rows of a coding day that are not OpenClaw's, in order. */
  function CodingSources(ss: seq<SourceRow>): (r: seq<SourceRow>)
    ensures forall s :: s in r <==> s in ss && !IsOpenClaw(s.source)
    ensures |r| <= |ss|
  {
    if ss == [] then []
    else
      var init, last := ss[..|ss| - 1], ss[|ss| - 1];
      assert ss == init + [last];
      CodingSources(init) + (if IsOpenClaw(last.source) then [] else [last])
  }

  /** The loop over the coding days that drops OpenClaw's rows from each. */
  method DropOpenClawSources(days: seq<DayRow>) returns (r: seq<DayRow>)
    ensures |r| == |days|
    ensures forall i :: 0 <= i < |r| ==> r[i] == days[i].(sources := CodingSources(days[i].sources))
  {
    r := [];
    for i := 0 to |days|
      invariant |r| == i
      invariant forall k :: 0 <= k < i ==> r[k] == days[k].(sources := CodingSources(days[k].sources))
    {
      r := r + [days[i].(sources := CodingSources(days[i].sources))];
    }
  }

  /** `{c.get("date"): c for c in rows}`: each date's row, a later one replacing an earlier. */
  function DateMap(rows: seq<DayRow>): (m: map<int, DayRow>)
    ensures forall i :: 0 <= i < |rows| ==> rows[i].date in m
    ensures forall d :: d in m ==> m[d].date == d && m[d] in rows
  {
    if rows == [] then map[]
    else
      var init, last := rows[..|rows| - 1], rows[|rows| - 1];
      assert forall i :: 0 <= i < |init| ==> init[i] == rows[i];
      DateMap(init)[last.date := last]
  }

  /** The row a date keeps is the last one of that date. */
  lemma {:induction false} DateMapLastWins(rows: seq<DayRow>, i: nat)
    requires i < |rows|
    requires forall j :: i < j < |rows| ==> rows[j].date != rows[i].date
    ensures DateMap(rows)[rows[i].date] == rows[i]
  {
    if i < |rows| - 1 {
      var init := rows[..|rows| - 1];
      DateMapLastWins(init, i);
    }
  }

  /** The dates of rows, each once, in first-seen order. */
  function DatesOf(rows: seq<DayRow>): (r: seq<int>)
    ensures Distinct(r)
    ensures forall d :: d in r <==> d in DateMap(rows)
  {
    if rows == [] then []
    else
      var init, last := rows[..|rows| - 1], rows[|rows| - 1];
      var ds := DatesOf(init);
      assert forall i :: 0 <= i < |init| ==> init[i] == rows[i];
      if last.date in ds then ds
      else
        var r := ds + [last.date];
        assert forall i :: 0 <= i < |ds| ==> r[i] == ds[i];
        r
  }

  /** `sorted(set(ocl_map.keys()) | set(coding_map.keys()))` */
  function AllDates(ocl: seq<DayRow>, coding: seq<DayRow>): seq<int> {
    SortInts(DatesOf(ocl + coding))
  }

  /** The merged dates: each date of either side once, in increasing order. */
  lemma {:induction false} AllDatesFacts(ocl: seq<DayRow>, coding: seq<DayRow>)
    ensures Increasing(AllDates(ocl, coding))
    ensures forall d :: d in AllDates(ocl, coding) <==> d in DateMap(ocl) || d in DateMap(coding)
  {
    var both := DatesOf(ocl + coding);
    SortIntsIncreasing(both);
    SortIntsPermutes(both);
    forall d ensures d in DateMap(ocl + coding) <==> d in DateMap(ocl) || d in DateMap(coding) {
      DateMapOfAppend(ocl, coding, d);
    }
    assert forall d :: d in SortInts(both) <==> d in multiset(both);
  }

  lemma {:induction false} DateMapOfAppend(a: seq<DayRow>, b: seq<DayRow>, d: int)
    ensures d in DateMap(a + b) <==> d in DateMap(a) || d in DateMap(b)
  {
    var ab := DateMap(a + b);
    if d in ab {
      var row := ab[d];
      assert row in a + b;
    }
    if d in DateMap(a) {
      var row := DateMap(a)[d];
      var i :| 0 <= i < |a| && a[i] == row;
      assert (a + b)[i] == row;
    }
    if d in DateMap(b) {
      var row := DateMap(b)[d];
      var i :| 0 <= i < |b| && b[i] == row;
      assert (a + b)[|a| + i] == row;
    }
  }

  /** Two records of the same date added up: sums, the larger intensity, both source lists. */
  function MergeDays(date: int, o: DayRow, c: DayRow): DayRow {
    OpenClaw.DayRow(date, o.tokens + c.tokens, o.cost + c.cost, o.messages + c.messages,
                    if o.intensity >= c.intensity then o.intensity else c.intensity,
                    o.input + c.input, o.output + c.output, o.cacheRead + c.cacheRead,
                    o.cacheWrite + c.cacheWrite, o.reasoning + c.reasoning, o.sources + c.sources)
  }

  /** The merged record of a date: both added up, or the one that has it. */
  function MergedOn(date: int, om: map<int, DayRow>, cm: map<int, DayRow>): DayRow
    requires date in om || date in cm
  {
    if date in om && date in cm then MergeDays(date, om[date], cm[date])
    else if date in om then om[date]
    else cm[date]
  }

  /** `merged`: the record of each date of either calendar, by date. */
  function Merged(ocl: seq<DayRow>, coding: seq<DayRow>): (r: seq<DayRow>)
    ensures |r| == |AllDates(ocl, coding)|
  {
    var ds := AllDates(ocl, coding);
    AllDatesFacts(ocl, coding);
    assert forall i :: 0 <= i < |ds| ==> ds[i] in ds;
    seq(|ds|, i requires 0 <= i < |ds| => MergedOn(ds[i], DateMap(ocl), DateMap(coding)))
  }

  /** The loop over `all_dates` building `merged`. */
  method MergeCalendars(ocl: seq<DayRow>, coding: seq<DayRow>) returns (merged: seq<DayRow>)
    ensures merged == Merged(ocl, coding)
  {
    var om, cm := DateMap(ocl), DateMap(coding);
    var dates := AllDates(ocl, coding);
    AllDatesFacts(ocl, coding);
    merged := [];
    for i := 0 to |dates|
      invariant |merged| == i
      invariant forall k :: 0 <= k < i ==> dates[k] in om + cm && merged[k] == MergedOn(dates[k], om, cm)
    {
      assert dates[i] in dates;
      var d := dates[i];
      if d in om && d in cm {
        merged := merged + [MergeDays(d, om[d], cm[d])];
      } else if d in om {
        merged := merged + [om[d]];
      } else {
        merged := merged + [cm[d]];
      }
    }
  }

  /** A date's tokens, cost and messages on one side, zero when that side lacks the date. */
  function TokensOn(m: map<int, DayRow>, d: int): int { if d in m then m[d].tokens else 0 }
  function CostOn(m: map<int, DayRow>, d: int): real { if d in m then m[d].cost else 0.0 }
  function MessagesOn(m: map<int, DayRow>, d: int): int { if d in m then m[d].messages else 0 }
  function SourcesOn(m: map<int, DayRow>, d: int): seq<SourceRow> { if d in m then m[d].sources else [] }

  /** Each merged record carries the date it is listed under. */
  lemma {:induction false} MergedDates(ocl: seq<DayRow>, coding: seq<DayRow>)
    ensures forall i :: 0 <= i < |Merged(ocl, coding)| ==> Merged(ocl, coding)[i].date == AllDates(ocl, coding)[i]
  {
    var ds, r := AllDates(ocl, coding), Merged(ocl, coding);
    AllDatesFacts(ocl, coding);
    forall i | 0 <= i < |r| ensures r[i].date == ds[i] {
      assert ds[i] in ds;
    }
  }

  /**
   * The merged calendar lists each date of either side once, in
   * increasing order.
   */
  lemma {:induction false} MergedSorted(ocl: seq<DayRow>, coding: seq<DayRow>)
    ensures forall i, j :: 0 <= i < j < |Merged(ocl, coding)| ==> Merged(ocl, coding)[i].date < Merged(ocl, coding)[j].date
    ensures forall d :: d in DateMap(ocl) || d in DateMap(coding) <==> exists i :: 0 <= i < |Merged(ocl, coding)| && Merged(ocl, coding)[i].date == d
  {
    var ds, r := AllDates(ocl, coding), Merged(ocl, coding);
    AllDatesFacts(ocl, coding);
    MergedDates(ocl, coding);
    forall d | d in DateMap(ocl) || d in DateMap(coding) ensures exists i :: 0 <= i < |r| && r[i].date == d {
      var i :| 0 <= i < |ds| && ds[i] == d;
      assert r[i].date == d;
    }
  }

  /**
   * Each merged record carries both sides' totals and sources, OpenClaw's
   * first, whichever branch built it.
   */
  lemma {:induction false} MergedTotals(ocl: seq<DayRow>, coding: seq<DayRow>, i: nat)
    requires i < |Merged(ocl, coding)|
    ensures var r, d, om, cm := Merged(ocl, coding)[i], AllDates(ocl, coding)[i], DateMap(ocl), DateMap(coding);
      && r.date == d
      && r.tokens == TokensOn(om, d) + TokensOn(cm, d)
      && r.cost == CostOn(om, d) + CostOn(cm, d)
      && r.messages == MessagesOn(om, d) + MessagesOn(cm, d)
      && r.sources == SourcesOn(om, d) + SourcesOn(cm, d)
  {
    var ds, om, cm := AllDates(ocl, coding), DateMap(ocl), DateMap(coding);
    AllDatesFacts(ocl, coding);
    assert ds[i] in ds;
    var d := ds[i];
    if d !in om {
      assert [] + cm[d].sources == cm[d].sources;
    } else if d !in cm {
      assert om[d].sources + [] == om[d].sources;
    }
  }

  // ---- compute_stats: model costs, favourite model and totals ----

  /** Every source row of the days, day by day. */
  function AllSources(days: seq<DayRow>): seq<SourceRow> {
    if days == [] then [] else AllSources(days[..|days| - 1]) + days[|days| - 1].sources
  }

  /** `model_costs`: each model once, in first-seen order, and its summed cost. */
  datatype CostBook = CostBook(models: seq<string>, costs: map<string, real>)

  /** Each listed model once, and a cost for exactly the listed models. */
  ghost predicate CostBookOk(b: CostBook) {
    Distinct(b.models) && forall m :: m in b.costs <==> m in b.models
  }

  /** One source row's cost added to its model. */
  function AddCost(b: CostBook, s: SourceRow): CostBook {
    if s.modelId in b.costs then CostBook(b.models, b.costs[s.modelId := b.costs[s.modelId] + s.cost])
    else CostBook(b.models + [s.modelId], b.costs[s.modelId := 0.0 + s.cost])
  }

  /** `model_costs` over a list of source rows. */
  function Costs(ss: seq<SourceRow>): CostBook {
    if ss == [] then CostBook([], map[]) else AddCost(Costs(ss[..|ss| - 1]), ss[|ss| - 1])
  }

  lemma {:induction false} CostsAppendStep(xs: seq<SourceRow>, ys: seq<SourceRow>, j: nat)
    requires j < |ys|
    ensures Costs(xs + ys[..j + 1]) == AddCost(Costs(xs + ys[..j]), ys[j])
  {
    assert (xs + ys[..j + 1])[..|xs| + j] == xs + ys[..j];
  }

  lemma {:induction false} AllSourcesStep(days: seq<DayRow>, i: nat)
    requires i < |days|
    ensures AllSources(days[..i + 1]) == AllSources(days[..i]) + days[i].sources
  {
    assert days[..i + 1][..i] == days[..i];
  }

  /** The nested loops over the merged days and their sources that fill `model_costs`. */
  method ModelCosts(days: seq<DayRow>) returns (b: CostBook)
    ensures b == Costs(AllSources(days))
  {
    b := CostBook([], map[]);
    for i := 0 to |days|
      invariant b == Costs(AllSources(days[..i]))
    {
      AllSourcesStep(days, i);
      var ss := days[i].sources;
      assert AllSources(days[..i]) + ss[..0] == AllSources(days[..i]);
      for j := 0 to |ss|
        invariant b == Costs(AllSources(days[..i]) + ss[..j])
      {
        CostsAppendStep(AllSources(days[..i]), ss, j);
        b := AddCost(b, ss[j]);
      }
      assert ss[..|ss|] == ss;
    }
    assert days[..|days|] == days;
  }

  /** The book lists every model of the rows once, and nothing else. */
  lemma {:induction false} CostsOk(ss: seq<SourceRow>)
    ensures CostBookOk(Costs(ss))
    ensures forall i :: 0 <= i < |ss| ==> ss[i].modelId in Costs(ss).costs
    ensures forall m :: m in Costs(ss).costs ==> exists i :: 0 <= i < |ss| && ss[i].modelId == m
  {
    if ss != [] {
      var init, last := ss[..|ss| - 1], ss[|ss| - 1];
      CostsOk(init);
      var b := Costs(init);
      if last.modelId !in b.costs {
        var ms := b.models + [last.modelId];
        assert Distinct(ms) by {
          forall i, j | 0 <= i < j < |ms| ensures ms[i] != ms[j] {
            if j == |b.models| {
              assert ms[i] == b.models[i];
            }
          }
        }
      }
      forall i | 0 <= i < |ss| ensures ss[i].modelId in Costs(ss).costs {
        if i < |init| {
          assert ss[i] == init[i];
        }
      }
      forall m | m in Costs(ss).costs ensures exists i :: 0 <= i < |ss| && ss[i].modelId == m {
        if m != last.modelId {
          var i :| 0 <= i < |init| && init[i].modelId == m;
          assert ss[i] == init[i];
        }
      }
    }
  }

  /** The position of the first model of highest cost, as `max` over the items finds it. */
  function BestIndex(models: seq<string>, costs: map<string, real>): (k: nat)
    requires models != [] && forall m :: m in models ==> m in costs
    ensures k < |models|
    ensures forall i :: 0 <= i < |models| ==> costs[models[i]] <= costs[models[k]]
    ensures forall i :: 0 <= i < k ==> costs[models[i]] < costs[models[k]]
  {
    if |models| == 1 then 0
    else
      var init := models[..|models| - 1];
      assert forall m :: m in init ==> m in models;
      var j := BestIndex(init, costs);
      assert forall i :: 0 <= i < |init| ==> init[i] == models[i];
      if costs[models[|models| - 1]] > costs[models[j]] then |models| - 1 else j
  }

  /** `favorite_model`: the first model of highest cost, or "N/A" when no day has a source. */
  function Favorite(b: CostBook): (f: string)
    requires CostBookOk(b)
    ensures b.models == [] ==> f == "N/A"
    ensures b.models != [] ==> f in b.costs && forall m :: m in b.costs ==> b.costs[m] <= b.costs[f]
    ensures b.models != [] ==> forall i :: 0 <= i < |b.models| && b.models[i] != f ==> b.costs[b.models[i]] <= b.costs[f]
  {
    if b.models == [] then "N/A"
    else
      var k := BestIndex(b.models, b.costs);
      assert forall m :: m in b.costs ==> exists i :: 0 <= i < |b.models| && b.models[i] == m;
      b.models[k]
  }

  /** Tokens, cost and messages summed over days. */
  function DaysTokens(days: seq<DayRow>): int {
    if days == [] then 0 else DaysTokens(days[..|days| - 1]) + days[|days| - 1].tokens
  }
  function DaysCost(days: seq<DayRow>): real {
    if days == [] then 0.0 else DaysCost(days[..|days| - 1]) + days[|days| - 1].cost
  }
  function DaysMessages(days: seq<DayRow>): int {
    if days == [] then 0 else DaysMessages(days[..|days| - 1]) + days[|days| - 1].messages
  }

  /** `total_days_span`: the days from the first merged date to the last, or 0 without any. */
  function DaySpan(days: seq<DayRow>): int {
    if days == [] then 0 else days[|days| - 1].date - days[0].date + 1
  }

  /** Strictly increasing dates span at least as many days as there are records. */
  lemma {:induction false} SpanCoversActiveDays(days: seq<DayRow>)
    requires forall i, j :: 0 <= i < j < |days| ==> days[i].date < days[j].date
    ensures DaySpan(days) >= |days|
  {
    if |days| > 1 {
      var init := days[..|days| - 1];
      SpanCoversActiveDays(init);
      assert init[0] == days[0];
    }
  }

  /** What `compute_stats` returns. */
  datatype Stats = Stats(favoriteModel: string, totalTokens: int, totalCost: real, sessions: int,
                         activeDays: int, totalDays: int, contributions: seq<DayRow>)

  /** The statistics of a merged calendar. */
  function StatsOf(merged: seq<DayRow>): (s: Stats)
    ensures s.contributions == merged && s.activeDays == |merged|
  {
    var b := Costs(AllSources(merged));
    CostsOk(AllSources(merged));
    Stats(Favorite(b), DaysTokens(merged), DaysCost(merged), DaysMessages(merged), |merged|, DaySpan(merged), merged)
  }

  /**
   * `compute_stats`: the coding entries become days, OpenClaw's rows leave
   * them, the two calendars merge, and the statistics are taken. OpenClaw's
   * days are the contributions of its report over the same period.
   */
  method ComputeStats(openclaw: OpenClaw.Report, entries: seq<Entry>, env: Env) returns (r: Result<Stats>)
    ensures r.Raised? <==> ContribAll(entries, env).Raised?
    ensures r.Ok? ==> ByDateOk(ContribAll(entries, env).value)
    ensures r.Ok? ==> r.value == StatsOf(Merged(openclaw.contributions, Dropped(DayList(ContribAll(entries, env).value))))
  {
    var days := ContributionsFromEntries(entries, env);
    if days.Raised? {
      return Raised(days.reason);
    }
    var coding := DropOpenClawSources(days.value);
    assert coding == Dropped(days.value);
    var merged := MergeCalendars(openclaw.contributions, coding);
    var book := ModelCosts(merged);
    CostsOk(AllSources(merged));
    r := Ok(Stats(Favorite(book), DaysTokens(merged), DaysCost(merged), DaysMessages(merged),
                  |merged|, DaySpan(merged), merged));
  }

  /** The coding days with OpenClaw's rows dropped from each. */
  function Dropped(days: seq<DayRow>): (r: seq<DayRow>)
    ensures |r| == |days|
  {
    seq(|days|, i requires 0 <= i < |days| => days[i].(sources := CodingSources(days[i].sources)))
  }

  /**
   * Across the statistics: at most as many active days as the span covers,
   * and the favourite model is one of the merged calendar's models whose
   * cost no other model exceeds, or "N/A" when no day has a source.
   */
  lemma {:induction false} StatsFacts(ocl: seq<DayRow>, coding: seq<DayRow>)
    ensures var s := StatsOf(Merged(ocl, coding)); s.activeDays <= s.totalDays
    ensures var s, ss := StatsOf(Merged(ocl, coding)), AllSources(Merged(ocl, coding));
      (ss == [] ==> s.favoriteModel == "N/A") &&
      (ss != [] ==>
         && (exists i :: 0 <= i < |ss| && ss[i].modelId == s.favoriteModel)
         && s.favoriteModel in Costs(ss).costs
         && (forall i :: 0 <= i < |ss| ==>
               (ss[i].modelId in Costs(ss).costs && Costs(ss).costs[ss[i].modelId] <= Costs(ss).costs[s.favoriteModel])))
  {
    var merged := Merged(ocl, coding);
    MergedSorted(ocl, coding);
    SpanCoversActiveDays(merged);
    var ss := AllSources(merged);
    CostsOk(ss);
    if ss != [] {
      assert ss[0].modelId in Costs(ss).costs;
    }
  }
}
