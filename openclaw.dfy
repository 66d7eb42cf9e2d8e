/**
 * The OpenClaw session aggregator. It folds the assistant messages of
 * already-decoded session entries into per-model and per-day tallies,
 * and then assembles the report: model rows, totals and one contribution
 * record per day in date order.
 *
 * Days are day numbers of the local calendar, given by the host (`Env`).
 * The `since`/`until` bounds are UTC instants in seconds.
 */
module OpenClaw {
  import opened Wrappers
  import opened Text
  import opened Json
  import opened Clock
  import opened Pricing
  import opened Ledgers

  // ---- helpers ----

  /** `_i(v)`: `int(v or 0)`, or 0 when `int` raises. */
  function ToInt(v: Json): (n: int)
    ensures !Truthy(v) ==> n == 0
    ensures v.JInt? ==> n == v.i
  {
    IntOrZero(v)
  }

  /** `_i` is the integer itself on integers and 0 on anything it cannot convert. */
  lemma {:induction false} ToIntTotal(v: Json)
    ensures v.JArr? || v.JObj? || v.JNull? ==> ToInt(v) == 0
    ensures v.JStr? && ParseIntLiteral(v.s).None? ==> ToInt(v) == 0
    ensures v.JStr? && ParseIntLiteral(v.s).Some? ==> ToInt(v) == ParseIntLiteral(v.s).value
  {
  }

  /** Timestamps above 1e11 are taken as milliseconds, others as seconds. */
  const MillisThreshold: real := 100000000000.0

  function Epoch(t: real): Option<DateTime> {
    if t > MillisThreshold then FromTimestamp(t / 1000.0) else FromTimestamp(t)
  }

  /**
   * `_parse_message_datetime`: a falsy value gives nothing; a number (a
   * bool counts as one) is seconds or milliseconds since the epoch; text is
   * ISO-8601 with `Z` read as `+00:00`, and may come back naive; anything
   * else, or any failure, gives nothing.
   */
  function MessageDateTime(env: Env, ts: Json): (r: Option<DateTime>)
    ensures !Truthy(ts) ==> r.None?
    ensures ts.JNull? || ts.JArr? || ts.JObj? ==> r.None?
    ensures ts.JInt? && ts.i != 0 ==> r == Epoch(ts.i as real)
    ensures ts.JStr? && ts.s != [] ==> r == env.fromIso(ZuluToOffset(ts.s))
  {
    if !Truthy(ts) then None
    else
      match ts
      case JBool(_) => FromTimestamp(1.0)
      case JInt(i) => Epoch(i as real)
      case JReal(x) => Epoch(x)
      case JStr(s) => env.fromIso(ZuluToOffset(s))
      case _ => None
  }

  /**
   * The seconds/milliseconds switch reads the same instant both ways for
   * every whole second after 1973-03-03 that the millisecond form can
   * reach: `s` seconds and `1000 * s` milliseconds agree.
   */
  lemma {:induction false} SecondsAndMillisAgree(env: Env, s: int)
    requires 100000000 < s && s as real <= MillisThreshold
    ensures MessageDateTime(env, JInt(1000 * s)) == MessageDateTime(env, JInt(s))
  {
    assert (1000 * s) as real / 1000.0 == s as real;
  }

  /** A parsed message instant lies in the years 1 to 9999. */
  lemma {:induction false} MessageDateTimeInRange(env: Env, ts: Json)
    requires MessageDateTime(env, ts).Some? && !ts.JStr?
    ensures MinInstant <= Utc(MessageDateTime(env, ts).value) < EndInstant
  {
  }

  /**
   * `_usage_cost_from_payload`: the cost the provider reported, under
   * `cost` or else `totalCost`; a dict there holds it under `total` or else
   * `value`. A number is taken as it is; any other value gives 0. The
   * value in a dict goes through `float`, which raises `TypeError` for a
   * list or dict and `ValueError` for text it cannot read.
   */
  function PayloadCost(usage: seq<(string, Json)>): (r: Result<real>)
    ensures var data := Or(Or(FieldOr(JObj(usage), "cost", JReal(0.0)), FieldOr(JObj(usage), "totalCost", JReal(0.0))), JReal(0.0));
      && (data.JInt? ==> r == Ok(data.i as real))
      && (data.JReal? ==> r == Ok(data.r))
      && (data.JStr? || data.JArr? || data.JNull? ==> r == Ok(0.0))
      && (data.JObj? ==>
            var c := Or(Or(FieldOr(data, "total", JReal(0.0)), FieldOr(data, "value", JReal(0.0))), JReal(0.0));
            && (c.JInt? || c.JReal? ==> r.Ok?)
            && (c.JArr? || c.JObj? ==> r == Raised("TypeError"))
            && (c.JStr? && ParseIntLiteral(c.s).None? ==> r == Raised("ValueError")))
  {
    var u := JObj(usage);
    var data := Or(Or(FieldOr(u, "cost", JReal(0.0)), FieldOr(u, "totalCost", JReal(0.0))), JReal(0.0));
    if data.JObj? then
      var c := Or(Or(FieldOr(data, "total", JReal(0.0)), FieldOr(data, "value", JReal(0.0))), JReal(0.0));
      match PyFloat(c)
      case Some(x) => Ok(x)
      case None => if c.JArr? || c.JObj? then Raised("TypeError") else Raised("ValueError")
    else if data.JInt? || data.JReal? || data.JBool? then Ok(PyFloat(data).value)
    else Ok(0.0)
  }

  /** A non-zero `cost` wins over `totalCost`; `totalCost` is read only when `cost` is missing or zero. */
  lemma {:induction false} PayloadCostPrefersCost(usage: seq<(string, Json)>, n: int)
    requires n != 0 && Find(usage, "cost") == Some(JInt(n))
    ensures PayloadCost(usage) == Ok(n as real)
  {
  }

  lemma {:induction false} PayloadCostFallsBack(usage: seq<(string, Json)>, n: int)
    requires Find(usage, "cost").None? && n != 0 && Find(usage, "totalCost") == Some(JInt(n))
    ensures PayloadCost(usage) == Ok(n as real)
  {
  }

  /** A nested `{"total": x}` reports `x`. */
  lemma {:induction false} PayloadCostNested(usage: seq<(string, Json)>, n: int)
    requires n != 0 && Find(usage, "cost") == Some(JObj([("total", JInt(n))]))
    ensures PayloadCost(usage) == Ok(n as real)
  {
    assert Find([("total", JInt(n))], "total") == Some(JInt(n));
  }

  // ---- one entry ----

  /** What an assistant message with usage contributes, before pricing. */
  datatype UsageRecord = UsageRecord(
    model: string, inputRaw: int, cacheWrite: int, output: int, cacheRead: int, usage: seq<(string, Json)>)

  /**
   * What one entry is to the aggregator: not counted, counted on its day
   * without usage, or counted with its usage.
   */
  datatype Seen = Ignored | Counted(day: int) | Used(day: int, u: UsageRecord)

  /** A token count under either of its two names: `_i(usage.get(a, 0) or usage.get(b, 0) or 0)`. */
  function TokenField(usage: Json, a: string, b: string): int
    requires usage.JObj?
  {
    ToInt(Or(FieldOr(usage, a, JInt(0)), FieldOr(usage, b, JInt(0))))
  }

  /** The camel-case name is read exactly when the short one is missing or zero. */
  lemma {:induction false} TokenFieldAlias(fields: seq<(string, Json)>, a: string, b: string)
    requires Find(fields, a).None? || !Truthy(Find(fields, a).value)
    ensures TokenField(JObj(fields), a, b) == ToInt(FieldOr(JObj(fields), b, JInt(0)))
  {
  }

  lemma {:induction false} TokenFieldShort(fields: seq<(string, Json)>, a: string, b: string, n: int)
    requires n != 0 && Find(fields, a) == Some(JInt(n))
    ensures TokenField(JObj(fields), a, b) == n
  {
  }

  /**
   * The model key: `provider/model` unless the provider is missing, empty
   * or "unknown", in which case the bare model id (as `str` prints it).
   */
  function ModelKey(message: Json): (key: string)
    requires message.JObj?
  {
    var provider := Or(Field(message, "provider"), JStr("unknown"));
    var modelId := FieldOr(message, "model", JStr("unknown"));
    if provider != JStr("unknown") then PyStr(provider) + "/" + PyStr(modelId) else PyStr(modelId)
  }

  lemma {:induction false} ModelKeyShape(message: Json)
    requires message.JObj?
    ensures var p := Field(message, "provider");
      var m := PyStr(FieldOr(message, "model", JStr("unknown")));
      && (p.JStr? && p.s != "" && p.s != "unknown" ==> ModelKey(message) == p.s + "/" + m)
      && (p.JNull? || p == JStr("") || p == JStr("unknown") ==> ModelKey(message) == m)
  {
  }

  function ReadUsage(message: Json, usage: Json): (u: UsageRecord)
    requires message.JObj? && usage.JObj?
  {
    UsageRecord(ModelKey(message),
      TokenField(usage, "input", "inputTokens"), TokenField(usage, "cacheWrite", "cacheWriteTokens"),
      TokenField(usage, "output", "outputTokens"), TokenField(usage, "cacheRead", "cacheReadTokens"),
      usage.fields)
  }

  /**
   * One entry. Only `type == "message"` entries from the assistant whose
   * timestamp parses and lies in `[since, until]` (both ends included;
   * naive timestamps read as UTC) are counted. Python raises, ending the
   * whole call, when the entry, its `message` or a non-empty `usage` is
   * not a dict.
   */
  function Classify(entry: Json, since: Option<real>, until: Option<real>, env: Env): Result<Seen> {
    if !entry.JObj? then Raised("AttributeError")
    else if Field(entry, "type") != JStr("message") then Ok(Ignored)
    else
      var message := FieldOr(entry, "message", JObj([]));
      if !message.JObj? then Raised("AttributeError")
      else if Field(message, "role") != JStr("assistant") then Ok(Ignored)
      else
        match MessageDateTime(env, Field(entry, "timestamp"))
        case None => Ok(Ignored)
        case Some(dt) =>
          var t := Utc(dt);
          if (since.Some? && t < since.value) || (until.Some? && t > until.value) then Ok(Ignored)
          else
            var usage := FieldOr(message, "usage", JObj([]));
            if !Truthy(usage) then Ok(Counted(env.localDay(t)))
            else if !usage.JObj? then Raised("AttributeError")
            else Ok(Used(env.localDay(t), ReadUsage(message, usage)))
  }

  /** A counted entry is an assistant message whose instant lies in `[since, until]`. */
  lemma {:induction false} ClassifyCounts(entry: Json, since: Option<real>, until: Option<real>, env: Env)
    requires Classify(entry, since, until, env).Ok? && !Classify(entry, since, until, env).value.Ignored?
    ensures entry.JObj? && Field(entry, "type") == JStr("message")
    ensures var message := FieldOr(entry, "message", JObj([]));
      message.JObj? && Field(message, "role") == JStr("assistant")
    ensures var dt := MessageDateTime(env, Field(entry, "timestamp"));
      && dt.Some?
      && (since.Some? ==> since.value <= Utc(dt.value))
      && (until.Some? ==> Utc(dt.value) <= until.value)
      && Classify(entry, since, until, env).value.day == env.localDay(Utc(dt.value))
  {
  }

  /**
   * The cost of a message: the pricing database's when positive, otherwise
   * what the payload reports.
   */
  function Price(u: UsageRecord, prices: Prices): Result<real> {
    match ModelCost(prices, u.model, u.inputRaw, u.output, u.cacheRead, u.cacheWrite)
    case Raised(e) => Raised(e)
    case Ok(c) => if c > 0.0 then Ok(c) else PayloadCost(u.usage)
  }

  method PriceWith(u: UsageRecord, db: PricingDatabase) returns (r: Result<real>)
    requires db.Valid()
    modifies db`resolvedCache
    ensures db.Valid()
    ensures r == Price(u, db.Tables())
  {
    var c := db.GetCost(u.model, u.inputRaw, u.output, u.cacheRead, u.cacheWrite);
    if c.Raised? {
      r := Raised(c.reason);
    } else if c.value > 0.0 {
      r := c;
    } else {
      r := PayloadCost(u.usage);
    }
  }

  /** The pricing cost is used exactly when it is positive. */
  lemma {:induction false} PriceFallsBack(u: UsageRecord, prices: Prices)
    requires ModelCost(prices, u.model, u.inputRaw, u.output, u.cacheRead, u.cacheWrite).Ok?
    ensures var c := ModelCost(prices, u.model, u.inputRaw, u.output, u.cacheRead, u.cacheWrite).value;
      Price(u, prices) == if c > 0.0 then Ok(c) else PayloadCost(u.usage)
  {
  }

  /**
   * The tally of one priced message: cache writes count as input, cache
   * reads as cache, and the total is all three.
   */
  function MessageTally(u: UsageRecord, cost: real): (t: Tally)
    ensures t.tokensIn == u.inputRaw + u.cacheWrite && t.tokensOut == u.output && t.tokensCache == u.cacheRead
    ensures Balanced(t) && t.messages == 1 && t.cost == cost
  {
    var tokensIn := u.inputRaw + u.cacheWrite;
    Tally(tokensIn + u.output + u.cacheRead, tokensIn, u.output, u.cacheRead, cost, 1)
  }

  // ---- the fold ----

  /** The accumulators: the message counter, `model_stats`, `daily_contribs` and each day's `sources`. */
  datatype Acc = Acc(totalMessages: int, models: Ledger<string>, days: Ledger<int>, sources: map<int, Ledger<string>>)

  const Start: Acc := Acc(0, EmptyLedger(), EmptyLedger(), map[])

  /** One day's per-model ledger, empty before its first message. */
  function SourcesOn(sources: map<int, Ledger<string>>, day: int): Ledger<string> {
    if day in sources then sources[day] else EmptyLedger()
  }

  /** Adds a priced message to its model, its day, and its model within the day. */
  function Record(acc: Acc, day: int, model: string, t: Tally): Acc {
    Acc(acc.totalMessages, Bump(acc.models, model, t), Bump(acc.days, day, t),
        acc.sources[day := Bump(SourcesOn(acc.sources, day), model, t)])
  }

  /** A message with usage, once priced: counted, then added to its model, its day and its model within the day. */
  function TakeUsed(acc: Acc, day: int, u: UsageRecord, cost: Result<real>): Result<Acc> {
    match cost
    case Raised(e) => Raised(e)
    case Ok(c) => Ok(Record(acc.(totalMessages := acc.totalMessages + 1), day, u.model, MessageTally(u, c)))
  }

  /** What a classified entry does to the accumulators. */
  function Take(acc: Acc, s: Seen, prices: Prices): Result<Acc> {
    match s
    case Ignored => Ok(acc)
    case Counted(_) => Ok(acc.(totalMessages := acc.totalMessages + 1))
    case Used(day, u) => TakeUsed(acc, day, u, Price(u, prices))
  }

  function After(r: Result<Acc>, entry: Json, since: Option<real>, until: Option<real>, env: Env, prices: Prices): Result<Acc> {
    if r.Raised? then r
    else
      match Classify(entry, since, until, env)
      case Raised(e) => Raised(e)
      case Ok(s) => Take(r.value, s, prices)
  }

  /** The per-entry fold of `get_session_usage`, entries in file order. */
  function Fold(entries: seq<Json>, since: Option<real>, until: Option<real>, env: Env, prices: Prices): Result<Acc> {
    if entries == [] then Ok(Start)
    else After(Fold(entries[..|entries| - 1], since, until, env, prices), entries[|entries| - 1], since, until, env, prices)
  }

  lemma {:induction false} FoldStep(entries: seq<Json>, i: nat, since: Option<real>, until: Option<real>, env: Env, prices: Prices)
    requires i < |entries|
    ensures Fold(entries[..i + 1], since, until, env, prices) == After(Fold(entries[..i], since, until, env, prices), entries[i], since, until, env, prices)
  {
    assert entries[..i + 1][..i] == entries[..i];
  }

  lemma {:induction false} FoldRaisedSticks(entries: seq<Json>, i: nat, since: Option<real>, until: Option<real>, env: Env, prices: Prices)
    requires i <= |entries| && Fold(entries[..i], since, until, env, prices).Raised?
    ensures Fold(entries, since, until, env, prices) == Fold(entries[..i], since, until, env, prices)
    decreases |entries| - i
  {
    if i < |entries| {
      var init := entries[..|entries| - 1];
      assert init[..i] == entries[..i];
      FoldRaisedSticks(init, i, since, until, env, prices);
    } else {
      assert entries[..i] == entries;
    }
  }

  /**
   * The fold loop of `get_session_usage`: the counter and the three
   * accumulators are updated entry by entry; an exception ends the call.
   */
  method Accumulate(entries: seq<Json>, since: Option<real>, until: Option<real>, env: Env, db: PricingDatabase)
    returns (r: Result<Acc>)
    requires db.Valid()
    modifies db`resolvedCache
    ensures db.Valid()
    ensures r == Fold(entries, since, until, env, db.Tables())
  {
    ghost var prices := db.Tables();
    var acc := Start;
    var i := 0;
    while i < |entries|
      invariant 0 <= i <= |entries| && db.Valid() && db.Tables() == prices
      invariant Fold(entries[..i], since, until, env, prices) == Ok(acc)
    {
      FoldStep(entries, i, since, until, env, prices);
      var next := AccumulateOne(acc, entries[i], since, until, env, db);
      if next.Raised? {
        FoldRaisedSticks(entries, i + 1, since, until, env, prices);
        return Raised(next.reason);
      }
      acc := next.value;
      i := i + 1;
    }
    assert entries[..i] == entries;
    r := Ok(acc);
  }

  /** One entry of the loop: classified, then applied to the accumulators. */
  method AccumulateOne(acc: Acc, entry: Json, since: Option<real>, until: Option<real>, env: Env, db: PricingDatabase)
    returns (next: Result<Acc>)
    requires db.Valid()
    modifies db`resolvedCache
    ensures db.Valid() && db.Tables() == old(db.Tables())
    ensures next == After(Ok(acc), entry, since, until, env, db.Tables())
  {
    var s := Classify(entry, since, until, env);
    if s.Raised? {
      return Raised(s.reason);
    }
    next := TakeWith(acc, s.value, db);
  }

  /** One classified entry applied to the accumulators, the message priced through the database. */
  method TakeWith(acc: Acc, s: Seen, db: PricingDatabase) returns (next: Result<Acc>)
    requires db.Valid()
    modifies db`resolvedCache
    ensures db.Valid()
    ensures next == Take(acc, s, db.Tables())
  {
    match s {
      case Ignored =>
        next := Ok(acc);
      case Counted(_) =>
        next := Ok(acc.(totalMessages := acc.totalMessages + 1));
      case Used(day, u) =>
        var cost := PriceWith(u, db);
        next := TakeUsed(acc, day, u, cost);
    }
  }

  // ---- what the fold keeps ----

  /** Every tally in the ledger has its total equal to its parts. */
  ghost predicate AllBalanced<K>(l: Ledger<K>) {
    forall k :: k in l.rows ==> Balanced(l.rows[k])
  }

  /**
   * The shape of the accumulators: well-formed, balanced ledgers, and
   * per-model sources for exactly the days with totals.
   */
  ghost predicate LedgersOk(acc: Acc) {
    && Valid(acc.models) && Valid(acc.days) && AllBalanced(acc.models) && AllBalanced(acc.days)
    && acc.sources.Keys == acc.days.rows.Keys
    && (forall d :: d in acc.sources ==> Valid(acc.sources[d]) && AllBalanced(acc.sources[d]))
  }

  /** Each day's totals are the sum of its per-model sources. */
  ghost predicate DaysAreSums(acc: Acc)
    requires LedgersOk(acc)
  {
    forall d :: d in acc.sources ==> acc.days.rows[d] == Total(acc.sources[d])
  }

  /**
   * The invariant of the accumulators: their shape, each day the sum of
   * its sources, the days together holding what the models hold, and every
   * message with usage counted.
   */
  ghost predicate Consistent(acc: Acc) {
    && LedgersOk(acc) && DaysAreSums(acc)
    && Total(acc.days) == Total(acc.models)
    && acc.totalMessages >= Total(acc.models).messages
  }

  lemma {:induction false} BumpBalanced<K>(l: Ledger<K>, k: K, t: Tally)
    requires AllBalanced(l) && Balanced(t)
    ensures AllBalanced(Bump(l, k, t))
  {
    var r := Bump(l, k, t);
    forall x | x in r.rows ensures Balanced(r.rows[x]) {
      if x == k {
        assert r.rows[x] == Plus(if k in l.rows then l.rows[k] else Zero, t);
      }
    }
  }

  lemma {:induction false} StartConsistent()
    ensures Consistent(Start)
  {
    var e: Ledger<string> := EmptyLedger();
    var d: Ledger<int> := EmptyLedger();
    assert Valid(e) && Valid(d);
    assert Total(e) == Zero && Total(d) == Zero;
  }

  lemma {:induction false} RecordConsistent(acc: Acc, day: int, model: string, t: Tally)
    requires Consistent(acc) && Balanced(t) && t.messages == 1
    ensures Consistent(Record(acc.(totalMessages := acc.totalMessages + 1), day, model, t))
  {
    var next := Record(acc.(totalMessages := acc.totalMessages + 1), day, model, t);
    BumpTotal(acc.models, model, t);
    BumpTotal(acc.days, day, t);
    RecordLedgersOk(acc, day, model, t);
    RecordDaysAreSums(acc, day, model, t);
  }

  lemma {:induction false} EmptySources()
    ensures Valid(EmptyLedger<string>()) && AllBalanced(EmptyLedger<string>()) && Total(EmptyLedger<string>()) == Zero
  {
  }

  lemma {:induction false} RecordLedgersOk(acc: Acc, day: int, model: string, t: Tally)
    requires LedgersOk(acc) && Balanced(t)
    ensures LedgersOk(Record(acc.(totalMessages := acc.totalMessages + 1), day, model, t))
  {
    var next := Record(acc.(totalMessages := acc.totalMessages + 1), day, model, t);
    BumpValid(acc.models, model, t);
    BumpValid(acc.days, day, t);
    BumpBalanced(acc.models, model, t);
    BumpBalanced(acc.days, day, t);
    var src := SourcesOn(acc.sources, day);
    EmptySources();
    assert Valid(src) && AllBalanced(src);
    BumpValid(src, model, t);
    BumpBalanced(src, model, t);
    assert next.sources.Keys == next.days.rows.Keys;
    forall d | d in next.sources ensures Valid(next.sources[d]) && AllBalanced(next.sources[d]) {
      if d != day {
        assert next.sources[d] == acc.sources[d];
      }
    }
  }

  lemma {:induction false} RecordDaysAreSums(acc: Acc, day: int, model: string, t: Tally)
    requires LedgersOk(acc) && DaysAreSums(acc) && Balanced(t)
    ensures LedgersOk(Record(acc.(totalMessages := acc.totalMessages + 1), day, model, t))
    ensures DaysAreSums(Record(acc.(totalMessages := acc.totalMessages + 1), day, model, t))
  {
    RecordLedgersOk(acc, day, model, t);
    var next := Record(acc.(totalMessages := acc.totalMessages + 1), day, model, t);
    var src := SourcesOn(acc.sources, day);
    EmptySources();
    assert Valid(src);
    BumpTotal(src, model, t);
    assert next.sources[day] == Bump(src, model, t);
    assert next.days.rows[day] == Total(next.sources[day]) by {
      if day in acc.days.rows {
        assert next.days.rows[day] == Plus(acc.days.rows[day], t);
        assert acc.days.rows[day] == Total(src);
      } else {
        assert next.days.rows[day] == Plus(Zero, t);
        assert Total(src) == Zero;
      }
    }
    forall d | d in next.sources ensures next.days.rows[d] == Total(next.sources[d]) {
      if d != day {
        assert next.sources[d] == acc.sources[d];
        assert next.days.rows[d] == acc.days.rows[d];
      }
    }
  }

  lemma {:induction false} TakeConsistent(acc: Acc, s: Seen, prices: Prices)
    requires Consistent(acc) && Take(acc, s, prices).Ok?
    ensures Consistent(Take(acc, s, prices).value)
  {
    if s.Used? {
      var c := Price(s.u, prices).value;
      RecordConsistent(acc, s.day, s.u.model, MessageTally(s.u, c));
    }
  }

  /** The fold keeps the accumulators consistent. */
  lemma {:induction false} FoldConsistent(entries: seq<Json>, since: Option<real>, until: Option<real>, env: Env, prices: Prices)
    requires Fold(entries, since, until, env, prices).Ok?
    ensures Consistent(Fold(entries, since, until, env, prices).value)
  {
    if entries == [] {
      StartConsistent();
    } else {
      var init := entries[..|entries| - 1];
      FoldConsistent(init, since, until, env, prices);
      var s := Classify(entries[|entries| - 1], since, until, env);
      TakeConsistent(Fold(init, since, until, env, prices).value, s.value, prices);
    }
  }

  // ---- the report ----

  /** A `models[...]` row. */
  datatype ModelRow = ModelRow(model: string, tokens: int, tokensIn: int, tokensOut: int, tokensCache: int, cost: real, messages: int)

  /** A contribution's per-model source row. */
  datatype SourceRow = SourceRow(
    source: string, modelId: string, providerId: string,
    input: int, output: int, cacheRead: int, cacheWrite: int, reasoning: int, cost: real, messages: int)

  /** A contribution: one local day. */
  datatype DayRow = DayRow(
    date: int, tokens: int, cost: real, messages: int, intensity: int,
    input: int, output: int, cacheRead: int, cacheWrite: int, reasoning: int, sources: seq<SourceRow>)

  datatype Report = Report(totalTokens: int, totalCost: real, totalMessages: int, models: seq<ModelRow>, contributions: seq<DayRow>)

  function ModelRowOf(model: string, t: Tally): ModelRow {
    ModelRow(model, t.tokensIn + t.tokensOut + t.tokensCache, t.tokensIn, t.tokensOut, t.tokensCache, t.cost, t.messages)
  }

  /** The model rows in first-seen order. */
  function ModelRows(keys: seq<string>, rows: map<string, Tally>): (r: seq<ModelRow>)
    requires forall k :: k in keys ==> k in rows
    ensures |r| == |keys|
  {
    if keys == [] then [] else ModelRows(keys[..|keys| - 1], rows) + [ModelRowOf(keys[|keys| - 1], rows[keys[|keys| - 1]])]
  }

  function SumTokens(rows: seq<ModelRow>): int {
    if rows == [] then 0 else SumTokens(rows[..|rows| - 1]) + rows[|rows| - 1].tokens
  }

  function SumCost(rows: seq<ModelRow>): real {
    if rows == [] then 0.0 else SumCost(rows[..|rows| - 1]) + rows[|rows| - 1].cost
  }

  function SumMessages(rows: seq<ModelRow>): int {
    if rows == [] then 0 else SumMessages(rows[..|rows| - 1]) + rows[|rows| - 1].messages
  }

  /** The model-rows loop: each row, and the running `total_tokens` and `total_cost`. */
  method SummariseModels(models: Ledger<string>) returns (rows: seq<ModelRow>, totalTokens: int, totalCost: real)
    requires Valid(models)
    ensures rows == ModelRows(models.keys, models.rows)
    ensures totalTokens == SumTokens(rows) && totalCost == SumCost(rows)
  {
    rows, totalTokens, totalCost := [], 0, 0.0;
    var i := 0;
    while i < |models.keys|
      invariant 0 <= i <= |models.keys|
      invariant rows == ModelRows(models.keys[..i], models.rows)
      invariant totalTokens == SumTokens(rows) && totalCost == SumCost(rows)
    {
      assert models.keys[..i + 1][..i] == models.keys[..i];
      var row := ModelRowOf(models.keys[i], models.rows[models.keys[i]]);
      assert rows + [row] == ModelRows(models.keys[..i + 1], models.rows);
      assert (rows + [row])[..|rows|] == rows;
      totalTokens := totalTokens + row.tokens;
      totalCost := totalCost + row.cost;
      rows := rows + [row];
      i := i + 1;
    }
    assert models.keys[..i] == models.keys;
  }

  /** `model.split("/")[0] if "/" in model else "unknown"` */
  function ProviderId(model: string): (p: string)
    ensures '/' !in p
    ensures '/' in model ==> |p| < |model| && model[..|p|] == p && model[|p|] == '/'
    ensures '/' !in model ==> p == "unknown"
  {
    if '/' in model then FirstSegment(model) else "unknown"
  }

  function SourceRowOf(model: string, t: Tally): SourceRow {
    SourceRow("openclaw", model, ProviderId(model), t.tokensIn, t.tokensOut, t.tokensCache, 0, 0, t.cost, t.messages)
  }

  function SourceRows(keys: seq<string>, rows: map<string, Tally>): (r: seq<SourceRow>)
    requires forall k :: k in keys ==> k in rows
    ensures |r| == |keys|
  {
    if keys == [] then [] else SourceRows(keys[..|keys| - 1], rows) + [SourceRowOf(keys[|keys| - 1], rows[keys[|keys| - 1]])]
  }

  function DayRowOf(date: int, t: Tally, src: Ledger<string>): DayRow
    requires Valid(src)
  {
    DayRow(date, t.tokens, t.cost, t.messages, 0, t.tokensIn, t.tokensOut, t.tokensCache, 0, 0,
           SourceRows(src.keys, src.rows))
  }

  /** Every date has totals and valid sources. */
  ghost predicate DatesKnown(dates: seq<int>, acc: Acc) {
    forall k :: 0 <= k < |dates| ==> dates[k] in acc.days.rows && dates[k] in acc.sources && Valid(acc.sources[dates[k]])
  }

  function DayRows(dates: seq<int>, acc: Acc): (r: seq<DayRow>)
    requires DatesKnown(dates, acc)
    ensures |r| == |dates|
    ensures forall k :: 0 <= k < |dates| ==> r[k].date == dates[k]
  {
    if dates == [] then []
    else
      var d := dates[|dates| - 1];
      DayRows(dates[..|dates| - 1], acc) + [DayRowOf(d, acc.days.rows[d], acc.sources[d])]
  }

  /** `for date in sorted(daily_contribs.keys())` */
  function Contributions(acc: Acc): seq<DayRow>
    requires Consistent(acc)
  {
    var dates := SortInts(acc.days.keys);
    SortIntsPermutes(acc.days.keys);
    SortedDatesKnown(acc);
    DayRows(dates, acc)
  }

  lemma {:induction false} SortedDatesKnown(acc: Acc)
    requires LedgersOk(acc)
    ensures DatesKnown(SortInts(acc.days.keys), acc)
  {
    var dates := SortInts(acc.days.keys);
    SortIntsPermutes(acc.days.keys);
    forall k | 0 <= k < |dates|
      ensures dates[k] in acc.days.rows && dates[k] in acc.sources && Valid(acc.sources[dates[k]])
    {
      assert dates[k] in multiset(dates);
      assert dates[k] in acc.days.keys;
      var j :| 0 <= j < |acc.days.keys| && acc.days.keys[j] == dates[k];
      assert dates[k] in acc.days.rows.Keys;
    }
  }

  /** `get_session_usage`: fold the entries, then assemble the report. */
  method GetSessionUsage(entries: seq<Json>, since: Option<real>, until: Option<real>, env: Env, db: PricingDatabase)
    returns (r: Result<Report>)
    requires db.Valid()
    modifies db`resolvedCache
    ensures db.Valid()
    ensures Fold(entries, since, until, env, db.Tables()).Raised? <==> r.Raised?
    ensures r.Ok? ==> var acc := Fold(entries, since, until, env, db.Tables()).value;
      && Consistent(acc)
      && r.value.models == ModelRows(acc.models.keys, acc.models.rows)
      && r.value.totalTokens == SumTokens(r.value.models) && r.value.totalCost == SumCost(r.value.models)
      && r.value.totalMessages == acc.totalMessages
      && r.value.contributions == Contributions(acc)
  {
    var folded := Accumulate(entries, since, until, env, db);
    if folded.Raised? {
      return Raised(folded.reason);
    }
    var acc := folded.value;
    FoldConsistent(entries, since, until, env, db.Tables());
    var rows, totalTokens, totalCost := SummariseModels(acc.models);
    r := Ok(Report(totalTokens, totalCost, acc.totalMessages, rows, Contributions(acc)));
  }

  // ---- properties of the report ----

  lemma {:induction false} ModelRowsSum(keys: seq<string>, rows: map<string, Tally>)
    requires forall k :: k in keys ==> k in rows
    requires forall k :: k in rows ==> Balanced(rows[k])
    ensures SumTokens(ModelRows(keys, rows)) == SumOver(keys, rows).tokens
    ensures SumCost(ModelRows(keys, rows)) == SumOver(keys, rows).cost
    ensures SumMessages(ModelRows(keys, rows)) == SumOver(keys, rows).messages
  {
    if keys != [] {
      var init := keys[..|keys| - 1];
      ModelRowsSum(init, rows);
      var r := ModelRows(keys, rows);
      assert r[..|r| - 1] == ModelRows(init, rows);
    }
  }

  /**
   * The report's totals agree at every level: `total_tokens` and
   * `total_cost` are the sums over the model rows and equal what the days
   * hold together, each model row's tokens are its input, output and cache
   * tokens, and `total_messages` is at least the messages of all rows (it
   * also counts messages without usage).
   */
  lemma {:induction false} ReportTotals(acc: Acc)
    requires Consistent(acc)
    ensures var rows := ModelRows(acc.models.keys, acc.models.rows);
      && SumTokens(rows) == Total(acc.models).tokens == Total(acc.days).tokens
      && SumCost(rows) == Total(acc.days).cost
      && acc.totalMessages >= SumMessages(rows)
      && forall k :: 0 <= k < |rows| ==> rows[k].tokens == rows[k].tokensIn + rows[k].tokensOut + rows[k].tokensCache
  {
    ModelRowsSum(acc.models.keys, acc.models.rows);
    ModelRowsShape(acc.models.keys, acc.models.rows);
  }

  lemma {:induction false} ModelRowsShape(keys: seq<string>, rows: map<string, Tally>)
    requires forall k :: k in keys ==> k in rows
    ensures var r := ModelRows(keys, rows);
      forall k :: 0 <= k < |r| ==> r[k].model == keys[k] && r[k].tokens == r[k].tokensIn + r[k].tokensOut + r[k].tokensCache
  {
    if keys != [] {
      ModelRowsShape(keys[..|keys| - 1], rows);
    }
  }

  /** Contributions come in strictly increasing date order, one per day with usage. */
  lemma {:induction false} ContributionsSorted(acc: Acc)
    requires Consistent(acc)
    ensures var c := Contributions(acc);
      && |c| == |acc.days.keys|
      && (forall i, j :: 0 <= i < j < |c| ==> c[i].date < c[j].date)
      && (forall i :: 0 <= i < |c| ==> c[i].date in acc.days.rows)
  {
    var dates := SortInts(acc.days.keys);
    SortIntsIncreasing(acc.days.keys);
    SortIntsPermutes(acc.days.keys);
    SortedDatesKnown(acc);
    assert |dates| == |acc.days.keys| by {
      assert |multiset(dates)| == |multiset(acc.days.keys)|;
    }
    var c := DayRows(dates, acc);
    assert c == Contributions(acc);
  }

  /** The per-model sums of a day's source rows. */
  function SourceTotals(rows: seq<SourceRow>): (int, int, int, real, int) {
    if rows == [] then (0, 0, 0, 0.0, 0)
    else
      var s := SourceTotals(rows[..|rows| - 1]);
      var x := rows[|rows| - 1];
      (s.0 + x.input, s.1 + x.output, s.2 + x.cacheRead, s.3 + x.cost, s.4 + x.messages)
  }

  lemma {:induction false} SourceRowsSum(keys: seq<string>, rows: map<string, Tally>)
    requires forall k :: k in keys ==> k in rows
    ensures var t := SumOver(keys, rows);
      SourceTotals(SourceRows(keys, rows)) == (t.tokensIn, t.tokensOut, t.tokensCache, t.cost, t.messages)
  {
    if keys != [] {
      var init := keys[..|keys| - 1];
      SourceRowsSum(init, rows);
      var r := SourceRows(keys, rows);
      assert r[..|r| - 1] == SourceRows(init, rows);
    }
  }

  lemma {:induction false} SourceRowsShape(keys: seq<string>, rows: map<string, Tally>)
    requires forall k :: k in keys ==> k in rows
    ensures var r := SourceRows(keys, rows);
      forall k :: 0 <= k < |r| ==>
        && r[k].source == "openclaw" && r[k].modelId == keys[k] && r[k].providerId == ProviderId(keys[k])
        && r[k].cacheWrite == 0 && r[k].reasoning == 0
  {
    if keys != [] {
      SourceRowsShape(keys[..|keys| - 1], rows);
    }
  }

  /**
   * Each contribution's counters are the sums over its source rows; its
   * total is input plus output plus cache reads; intensity, cache writes and
   * reasoning are 0, in the day and in every source row.
   */
  lemma {:induction false} ContributionMatchesSources(acc: Acc, i: int)
    requires Consistent(acc) && 0 <= i < |Contributions(acc)|
    ensures var c := Contributions(acc)[i];
      && SourceTotals(c.sources) == (c.input, c.output, c.cacheRead, c.cost, c.messages)
      && c.tokens == c.input + c.output + c.cacheRead
      && c.intensity == 0 && c.cacheWrite == 0 && c.reasoning == 0
      && forall k :: 0 <= k < |c.sources| ==>
           c.sources[k].source == "openclaw" && c.sources[k].cacheWrite == 0 && c.sources[k].reasoning == 0
  {
    SortedDatesKnown(acc);
    var dates := SortInts(acc.days.keys);
    var d := dates[i];
    DayRowsAt(dates, acc, i);
    var src := acc.sources[d];
    SourceRowsSum(src.keys, src.rows);
    SourceRowsShape(src.keys, src.rows);
    assert acc.days.rows[d] == Total(src);
    assert Balanced(acc.days.rows[d]);
  }

  lemma {:induction false} DayRowsAt(dates: seq<int>, acc: Acc, i: int)
    requires DatesKnown(dates, acc)
    requires 0 <= i < |dates|
    ensures DayRows(dates, acc)[i] == DayRowOf(dates[i], acc.days.rows[dates[i]], acc.sources[dates[i]])
    decreases |dates|
  {
    if i < |dates| - 1 {
      DayRowsAt(dates[..|dates| - 1], acc, i);
    }
  }
}
