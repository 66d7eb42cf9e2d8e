/**
 * The coding-tool parsers. Each turns one tool's local records into
 * tokscale-compatible usage entries: OpenCode's message table, Codex and
 * Claude session lines, Gemini CLI session files, and Amp (which yields
 * nothing). `CodingToolsUsageTracker` runs the selected parsers in order.
 *
 * Records arrive already decoded. A line that fails to decode is skipped
 * by every parser, so the inputs hold only the decoded ones. Where an
 * exception inside a parser's loop ends the current file (Codex, Claude)
 * or only the current record (Gemini, OpenCode), the model says which.
 */
module CodingTools {
  import opened Wrappers
  import opened Text
  import opened Json
  import opened Clock
  import opened Pricing

  /**
   * One tokscale-compatible usage entry. `messageCount` is the optional
   * field of that format; 0 stands for absent, and no local parser sets it.
   */
  datatype Entry = Entry(
    source: string, model: string, provider: string,
    input: int, output: int, cacheRead: int, cacheWrite: int, reasoning: int,
    cost: real, timestamp: int, messageCount: int)

  /** The `[since, until)` bounds handed to every parser. */
  datatype Window = Window(since: Option<DateTime>, until: Option<DateTime>)

  /** An entry whose cost is still to be looked up under the name `priceAs`. */
  datatype Draft = Draft(
    priceAs: string, source: string, model: string, provider: string,
    input: int, output: int, cacheRead: int, cacheWrite: int, reasoning: int, timestamp: int)

  /** What one record contributes: nothing, an entry, or an exception that ends the current file. */
  datatype Outcome = Skip | Emit(entry: Entry) | Abort

  /** A record's outcome before the price lookup, or the draft waiting for it. */
  datatype Pending = Settled(outcome: Outcome) | ToPrice(draft: Draft)

  function Priced(d: Draft, cost: real): Entry {
    Entry(d.source, d.model, d.provider, d.input, d.output, d.cacheRead, d.cacheWrite, d.reasoning, cost, d.timestamp, 0)
  }

  /**
   * `self.pricing_db.get_cost(...)` for a draft: its cost on success;
   * `onRaise` when the lookup raises, which is what the parser's `except`
   * makes of it.
   */
  function Settle(p: Pending, prices: Prices, onRaise: Outcome): Outcome {
    match p
    case Settled(o) => o
    case ToPrice(d) =>
      match ModelCost(prices, d.priceAs, d.input, d.output, d.cacheRead, d.cacheWrite)
      case Ok(c) => Emit(Priced(d, c))
      case Raised(_) => onRaise
  }

  method SettleWith(p: Pending, db: PricingDatabase, onRaise: Outcome) returns (o: Outcome)
    requires db.Valid()
    modifies db`resolvedCache
    ensures db.Valid()
    ensures o == Settle(p, db.Tables(), onRaise)
  {
    match p
    case Settled(x) =>
      o := x;
    case ToPrice(d) =>
      var cost := db.GetCost(d.priceAs, d.input, d.output, d.cacheRead, d.cacheWrite);
      o := if cost.Ok? then Emit(Priced(d, cost.value)) else onRaise;
  }

  /** An emitted entry carries the cost `get_cost` gives for its draft. */
  predicate PricedAt(e: Entry, prices: Prices, priceAs: string) {
    ModelCost(prices, priceAs, e.input, e.output, e.cacheRead, e.cacheWrite) == Ok(e.cost)
  }

  lemma {:induction false} SettleEmits(p: Pending, prices: Prices, onRaise: Outcome)
    requires p.ToPrice? && Settle(p, prices, onRaise).Emit?
    requires !onRaise.Emit?
    ensures Settle(p, prices, onRaise).entry == Priced(p.draft, Settle(p, prices, onRaise).entry.cost)
    ensures PricedAt(Settle(p, prices, onRaise).entry, prices, p.draft.priceAs)
  {
  }

  // ---- shared helpers of BaseParser ----

  /**
   * `_infer_provider(model, fallback)`: on the lower-cased name, a `claude`
   * head means anthropic, any `gemini` means google, a `gpt` head or any
   * `codex` means openai; otherwise `fallback`. Codex passes the current
   * provider as the fallback.
   */
  function InferProvider(model: string, fallback: string): (r: string)
    ensures r == "anthropic" || r == "google" || r == "openai" || r == fallback
  {
    var m := LowerStr(model);
    if StartsWith(m, "claude") then "anthropic"
    else if Contains(m, "gemini") then "google"
    else if StartsWith(m, "gpt") || Contains(m, "codex") then "openai"
    else fallback
  }

  /** `ClaudeParser._infer_provider`: the same rules, with "" when none matches. */
  function ClaudeProvider(model: string): (r: string)
    ensures r == "anthropic" || r == "google" || r == "openai" || r == ""
  {
    InferProvider(model, "")
  }

  /** Provider inference does not depend on letter case. */
  lemma {:induction false} InferProviderIgnoresCase(model: string, fallback: string)
    ensures InferProvider(LowerStr(model), fallback) == InferProvider(model, fallback)
  {
    LowerStrIdempotent(model);
  }

  /**
   * The fallback is used exactly when no rule matches (for a fallback that
   * is not itself one of the three providers).
   */
  lemma {:induction false} InferProviderFallback(model: string, fallback: string)
    requires fallback != "anthropic" && fallback != "google" && fallback != "openai"
    ensures var m := LowerStr(model);
      InferProvider(model, fallback) == fallback
      <==> !StartsWith(m, "claude") && !Contains(m, "gemini") && !StartsWith(m, "gpt") && !Contains(m, "codex")
  {
  }

  // ---- OpenCodeParser ----

  /** A row of OpenCode's `message` table: the decoded `data` column (None if it fails to decode) and `time_created`. */
  datatype OpenCodeRow = OpenCodeRow(data: Option<Json>, created: int)

  /** The millisecond bounds of the query: 0 and 9999999999999 stand in for missing bounds. */
  function QueryBounds(w: Window): (int, int) {
    (if w.since.Some? then Millis(w.since.value) else 0,
     if w.until.Some? then Millis(w.until.value) else 9999999999999)
  }

  /**
   * `OpenCodeParser._build_entry`: token counts read with `_i`, cache
   * counts from the nested `cache` dict (0 when it is absent or not a
   * dict), priced under the model name as given.
   */
  function OpenCodeDraft(model: string, provider: string, tokens: Json, ts: int): (d: Draft)
    requires tokens.JObj?
    ensures d.priceAs == model && d.source == "opencode"
    ensures d.model == (if model == "" then "unknown" else model)
  {
    var cache := DictField(tokens, "cache");
    Draft(model, "opencode", if model == "" then "unknown" else model, provider,
          IntOrZero(Field(tokens, "input")), IntOrZero(Field(tokens, "output")),
          IntOrZero(Field(cache, "read")), IntOrZero(Field(cache, "write")),
          IntOrZero(Field(tokens, "reasoning")), ts)
  }

  /** Without a `cache` dict both cache counts are 0. */
  lemma {:induction false} OpenCodeCacheDefaults(model: string, provider: string, tokens: Json, ts: int)
    requires tokens.JObj? && !Field(tokens, "cache").JObj?
    ensures OpenCodeDraft(model, provider, tokens, ts).cacheRead == 0
    ensures OpenCodeDraft(model, provider, tokens, ts).cacheWrite == 0
  {
    assert Find([], "read").None? && Find([], "write").None?;
  }

  /** With a `cache` dict the cache counts are its `read` and `write`. */
  lemma {:induction false} OpenCodeCacheNested(model: string, provider: string, tokens: Json, ts: int)
    requires tokens.JObj? && Field(tokens, "cache").JObj?
    ensures var c := Field(tokens, "cache");
      && OpenCodeDraft(model, provider, tokens, ts).cacheRead == IntOrZero(Field(c, "read"))
      && OpenCodeDraft(model, provider, tokens, ts).cacheWrite == IntOrZero(Field(c, "write"))
  {
  }

  /** One selected row: skipped when undecodable, not a dict, or without a `tokens` dict. */
  function OpenCodeRecord(data: Option<Json>, ts: int): Pending {
    if data.None? || !data.value.JObj? then Settled(Skip)
    else
      var tokens := Field(data.value, "tokens");
      if !tokens.JObj? then Settled(Skip)
      else
        var model := PyStr(Or(Field(data.value, "modelID"), JStr("unknown")));
        var provider := PyStr(Or(Field(data.value, "providerID"), JStr("")));
        ToPrice(OpenCodeDraft(model, provider, tokens, ts))
  }

  /** The query's `time_created >= ? AND time_created < ?`. */
  predicate InQuery(w: Window, created: int) {
    QueryBounds(w).0 <= created < QueryBounds(w).1
  }

  /** Appends an emitted entry. */
  function Keep(out: seq<Entry>, o: Outcome): seq<Entry> {
    if o.Emit? then out + [o.entry] else out
  }

  function OpenCodeAfter(out: seq<Entry>, row: OpenCodeRow, w: Window, prices: Prices): seq<Entry> {
    if !InQuery(w, row.created) then out
    else Keep(out, Settle(OpenCodeRecord(row.data, row.created), prices, Skip))
  }

  /** `OpenCodeParser.collect` over the table rows, in `time_created` order. */
  function OpenCodeEntries(rows: seq<OpenCodeRow>, w: Window, prices: Prices): seq<Entry> {
    if rows == [] then []
    else OpenCodeAfter(OpenCodeEntries(rows[..|rows| - 1], w, prices), rows[|rows| - 1], w, prices)
  }

  lemma {:induction false} OpenCodeStep(rows: seq<OpenCodeRow>, i: nat, w: Window, prices: Prices)
    requires i < |rows|
    ensures OpenCodeEntries(rows[..i + 1], w, prices) == OpenCodeAfter(OpenCodeEntries(rows[..i], w, prices), rows[i], w, prices)
  {
    assert rows[..i + 1][..i] == rows[..i];
  }

  method CollectOpenCode(rows: seq<OpenCodeRow>, w: Window, db: PricingDatabase) returns (out: seq<Entry>)
    requires db.Valid()
    modifies db`resolvedCache
    ensures db.Valid()
    ensures out == OpenCodeEntries(rows, w, db.Tables())
  {
    out := [];
    var i := 0;
    while i < |rows|
      invariant 0 <= i <= |rows| && db.Valid()
      invariant out == OpenCodeEntries(rows[..i], w, db.Tables())
    {
      OpenCodeStep(rows, i, w, db.Tables());
      var row := rows[i];
      if InQuery(w, row.created) {
        var o := SettleWith(OpenCodeRecord(row.data, row.created), db, Skip);
        out := Keep(out, o);
      }
      i := i + 1;
    }
    assert rows[..i] == rows;
  }

  /** What every OpenCode entry satisfies. */
  predicate OpenCodeShaped(e: Entry, w: Window, prices: Prices) {
    && e.source == "opencode" && e.model != "" && e.messageCount == 0
    && InQuery(w, e.timestamp)
  }

  /** Every OpenCode entry comes from a row inside the query bounds and names a model. */
  lemma {:induction false} OpenCodeEntriesShape(rows: seq<OpenCodeRow>, w: Window, prices: Prices)
    ensures forall e :: e in OpenCodeEntries(rows, w, prices) ==> OpenCodeShaped(e, w, prices)
  {
    if rows != [] {
      OpenCodeEntriesShape(rows[..|rows| - 1], w, prices);
      OpenCodeAfterShape(OpenCodeEntries(rows[..|rows| - 1], w, prices), rows[|rows| - 1], w, prices);
    }
  }

  lemma {:induction false} OpenCodeAfterShape(out: seq<Entry>, row: OpenCodeRow, w: Window, prices: Prices)
    requires forall e :: e in out ==> OpenCodeShaped(e, w, prices)
    ensures forall e :: e in OpenCodeAfter(out, row, w, prices) ==> OpenCodeShaped(e, w, prices)
  {
    if InQuery(w, row.created) {
      var p := OpenCodeRecord(row.data, row.created);
      var o := Settle(p, prices, Skip);
      if o.Emit? {
        assert p.ToPrice?;
        SettleEmits(p, prices, Skip);
        assert p.draft.timestamp == row.created && p.draft.model != "" && p.draft.source == "opencode";
        assert OpenCodeShaped(o.entry, w, prices);
        assert OpenCodeAfter(out, row, w, prices) == out + [o.entry];
      }
    }
  }

  // ---- CodexParser ----

  /** The model and provider a Codex file has reached. */
  datatype CodexState = CodexState(model: string, provider: string)

  /** Every Codex session file starts from `gpt-5.3-codex` by `openai`. */
  const CodexStart: CodexState := CodexState("gpt-5.3-codex", "openai")

  /**
   * The tracking part of a Codex record: a `turn_context` with a model
   * sets the model and infers the provider from it, keeping the current one
   * as fallback; a `session_meta` with a `model_provider` sets the provider.
   */
  function CodexTrack(st: CodexState, kind: Json, p: Json): CodexState
    requires p.JObj?
  {
    if kind == JStr("turn_context") && Truthy(Field(p, "model")) then
      var m := PyStr(Field(p, "model"));
      CodexState(m, InferProvider(m, st.provider))
    else if kind == JStr("session_meta") && Truthy(Field(p, "model_provider")) then
      CodexState(st.model, PyStr(Field(p, "model_provider")))
    else st
  }

  /**
   * One Codex line: the new running state and what the line contributes.
   * A line that is not a dict, or a `turn_context`, `session_meta` or
   * `event_msg` whose payload is not a dict, raises and ends the file.
   */
  function CodexRecord(st: CodexState, msg: Json, w: Window, env: Env): (CodexState, Pending) {
    if !msg.JObj? then (st, Settled(Abort))
    else
      var kind := Field(msg, "type");
      var p := Or(Field(msg, "payload"), JObj([]));
      if !p.JObj? then
        (st, Settled(if kind == JStr("turn_context") || kind == JStr("session_meta") || kind == JStr("event_msg")
                     then Abort else Skip))
      else
        var st' := CodexTrack(st, kind, p);
        if kind != JStr("event_msg") || Field(p, "type") != JStr("token_count") then (st', Settled(Skip))
        else (st', CodexTokenCount(st', msg, p, w, env))
  }

  /**
   * A `token_count` event: kept when its timestamp parses and is in range
   * and `info.last_token_usage` is a non-empty dict. Codex's `input_tokens`
   * includes the cached ones, so fresh input is the difference, unclamped;
   * an event whose four counts are all 0 is dropped.
   */
  function CodexTokenCount(st: CodexState, msg: Json, p: Json, w: Window, env: Env): Pending
    requires msg.JObj? && p.JObj?
  {
    var tsRaw := Field(msg, "timestamp");
    if !Truthy(tsRaw) then Settled(Skip)
    else
      match ParseIsoUtc(env, PyStr(tsRaw))
      case None => Settled(Skip)
      case Some(ts) =>
        if !InRange(ts, w.since, w.until) then Settled(Skip)
        else
          var usage := DictField(DictField(p, "info"), "last_token_usage");
          if !Truthy(usage) then Settled(Skip)
          else
            var totalInput := IntOrZero(Field(usage, "input_tokens"));
            var cacheRead := IntOrZero(Field(usage, "cached_input_tokens"));
            var input := totalInput - cacheRead;
            var output := IntOrZero(Field(usage, "output_tokens"));
            var reasoning := IntOrZero(Field(usage, "reasoning_output_tokens"));
            if input == 0 && output == 0 && cacheRead == 0 && reasoning == 0 then Settled(Skip)
            else ToPrice(Draft(st.model, "codex", st.model, st.provider, input, output, cacheRead, 0, reasoning, Millis(ts)))
  }

  /** A Codex file part-way: running state, entries so far, and whether an exception ended it. */
  datatype CodexRun = CodexRun(st: CodexState, out: seq<Entry>, aborted: bool)

  /** How one line's outcome moves a Codex file along. */
  function CodexApply(run: CodexRun, st: CodexState, o: Outcome): CodexRun {
    match o
    case Skip => CodexRun(st, run.out, false)
    case Emit(e) => CodexRun(st, run.out + [e], false)
    case Abort => CodexRun(st, run.out, true)
  }

  function CodexAfter(run: CodexRun, msg: Json, w: Window, env: Env, prices: Prices): CodexRun {
    if run.aborted then run
    else
      var r := CodexRecord(run.st, msg, w, env);
      CodexApply(run, r.0, Settle(r.1, prices, Abort))
  }

  /** One Codex session file, line by line; the entries before an exception are kept. */
  function CodexFile(lines: seq<Json>, w: Window, env: Env, prices: Prices): CodexRun {
    if lines == [] then CodexRun(CodexStart, [], false)
    else CodexAfter(CodexFile(lines[..|lines| - 1], w, env, prices), lines[|lines| - 1], w, env, prices)
  }

  /** `CodexParser.collect`: the session files in turn. */
  function CodexEntries(files: seq<seq<Json>>, w: Window, env: Env, prices: Prices): seq<Entry> {
    if files == [] then []
    else CodexEntries(files[..|files| - 1], w, env, prices) + CodexFile(files[|files| - 1], w, env, prices).out
  }

  /** Once an exception has ended a file, later lines change nothing. */
  lemma {:induction false} CodexAbortSticks(lines: seq<Json>, i: nat, w: Window, env: Env, prices: Prices)
    requires i <= |lines| && CodexFile(lines[..i], w, env, prices).aborted
    ensures CodexFile(lines, w, env, prices) == CodexFile(lines[..i], w, env, prices)
    decreases |lines| - i
  {
    if i < |lines| {
      var init := lines[..|lines| - 1];
      assert init[..i] == lines[..i];
      CodexAbortSticks(init, i, w, env, prices);
    } else {
      assert lines[..i] == lines;
    }
  }

  lemma {:induction false} CodexFileStep(lines: seq<Json>, i: nat, w: Window, env: Env, prices: Prices)
    requires i < |lines|
    ensures CodexFile(lines[..i + 1], w, env, prices) == CodexAfter(CodexFile(lines[..i], w, env, prices), lines[i], w, env, prices)
  {
    assert lines[..i + 1][..i] == lines[..i];
  }

  method CodexSession(lines: seq<Json>, w: Window, env: Env, db: PricingDatabase) returns (entries: seq<Entry>)
    requires db.Valid()
    modifies db`resolvedCache
    ensures db.Valid()
    ensures entries == CodexFile(lines, w, env, db.Tables()).out
  {
    var run := CodexRun(CodexStart, [], false);
    var i := 0;
    while i < |lines| && !run.aborted
      invariant 0 <= i <= |lines| && db.Valid()
      invariant run == CodexFile(lines[..i], w, env, db.Tables())
    {
      CodexFileStep(lines, i, w, env, db.Tables());
      var r := CodexRecord(run.st, lines[i], w, env);
      var o := SettleWith(r.1, db, Abort);
      run := CodexApply(run, r.0, o);
      i := i + 1;
    }
    if run.aborted {
      CodexAbortSticks(lines, i, w, env, db.Tables());
    } else {
      assert lines[..i] == lines;
    }
    entries := run.out;
  }

  method CollectCodex(files: seq<seq<Json>>, w: Window, env: Env, db: PricingDatabase) returns (out: seq<Entry>)
    requires db.Valid()
    modifies db`resolvedCache
    ensures db.Valid()
    ensures out == CodexEntries(files, w, env, db.Tables())
  {
    out := [];
    var f := 0;
    while f < |files|
      invariant 0 <= f <= |files| && db.Valid()
      invariant out == CodexEntries(files[..f], w, env, db.Tables())
    {
      assert files[..f + 1][..f] == files[..f];
      var more := CodexSession(files[f], w, env, db);
      out := out + more;
      f := f + 1;
    }
    assert files[..f] == files;
  }

  /** What every Codex entry satisfies. */
  predicate CodexShaped(e: Entry, prices: Prices) {
    && e.source == "codex" && e.cacheWrite == 0
    && !(e.input == 0 && e.output == 0 && e.cacheRead == 0 && e.reasoning == 0)
    && PricedAt(e, prices, e.model)
  }

  /** Emitted Codex entries have no cache writes, are never all zero, and carry `get_cost` of their model. */
  lemma {:induction false} CodexEntriesShape(files: seq<seq<Json>>, w: Window, env: Env, prices: Prices)
    ensures forall e :: e in CodexEntries(files, w, env, prices) ==> CodexShaped(e, prices)
  {
    if files != [] {
      CodexEntriesShape(files[..|files| - 1], w, env, prices);
      CodexFileShape(files[|files| - 1], w, env, prices);
    }
  }

  lemma {:induction false} CodexFileShape(lines: seq<Json>, w: Window, env: Env, prices: Prices)
    ensures forall e :: e in CodexFile(lines, w, env, prices).out ==> CodexShaped(e, prices)
  {
    if lines != [] {
      CodexFileShape(lines[..|lines| - 1], w, env, prices);
      CodexAfterShape(CodexFile(lines[..|lines| - 1], w, env, prices), lines[|lines| - 1], w, env, prices);
    }
  }

  lemma {:induction false} CodexAfterShape(run: CodexRun, msg: Json, w: Window, env: Env, prices: Prices)
    requires forall e :: e in run.out ==> CodexShaped(e, prices)
    ensures forall e :: e in CodexAfter(run, msg, w, env, prices).out ==> CodexShaped(e, prices)
  {
    if !run.aborted {
      var r := CodexRecord(run.st, msg, w, env);
      var o := Settle(r.1, prices, Abort);
      if o.Emit? {
        assert r.1.ToPrice?;
        SettleEmits(r.1, prices, Abort);
        CodexDraftShape(run.st, msg, w, env);
        assert CodexShaped(o.entry, prices);
        assert CodexAfter(run, msg, w, env, prices).out == run.out + [o.entry];
      } else {
        assert CodexAfter(run, msg, w, env, prices).out == run.out;
      }
    }
  }

  lemma {:induction false} CodexDraftShape(st: CodexState, msg: Json, w: Window, env: Env)
    requires CodexRecord(st, msg, w, env).1.ToPrice?
    ensures var d := CodexRecord(st, msg, w, env).1.draft;
      && d.source == "codex" && d.cacheWrite == 0 && d.priceAs == d.model
      && !(d.input == 0 && d.output == 0 && d.cacheRead == 0 && d.reasoning == 0)
  {
  }

  /**
   * A kept `token_count` event splits the reported input: the entry's
   * fresh input plus its cache reads is the event's `input_tokens`.
   */
  lemma {:induction false} CodexInputSplit(st: CodexState, msg: Json, w: Window, env: Env)
    requires CodexRecord(st, msg, w, env).1.ToPrice?
    ensures msg.JObj?
    ensures var p := Or(Field(msg, "payload"), JObj([]));
      && p.JObj?
      && var usage := DictField(DictField(p, "info"), "last_token_usage");
      && var d := CodexRecord(st, msg, w, env).1.draft;
      && d.input + d.cacheRead == IntOrZero(Field(usage, "input_tokens"))
      && d.cacheRead == IntOrZero(Field(usage, "cached_input_tokens"))
  {
  }

  /** Only `turn_context` and `session_meta` lines move the model and provider. */
  lemma {:induction false} CodexRecordTracks(st: CodexState, msg: Json, w: Window, env: Env)
    requires msg.JObj? && Or(Field(msg, "payload"), JObj([])).JObj?
    ensures CodexRecord(st, msg, w, env).0 == CodexTrack(st, Field(msg, "type"), Or(Field(msg, "payload"), JObj([])))
  {
  }

  /** A `turn_context` line with a model switches the model and infers its provider. */
  lemma {:induction false} CodexTurnContext(st: CodexState, msg: Json, w: Window, env: Env)
    requires msg.JObj? && Field(msg, "type") == JStr("turn_context")
    requires var p := Field(msg, "payload"); p.JObj? && Truthy(Field(p, "model"))
    ensures var m := PyStr(Field(Field(msg, "payload"), "model"));
      CodexRecord(st, msg, w, env).0 == CodexState(m, InferProvider(m, st.provider))
  {
    var p := Field(msg, "payload");
    FieldMakesTruthy(p, "model");
    assert Or(p, JObj([])) == p;
    CodexRecordTracks(st, msg, w, env);
  }

  /** A `session_meta` line with a provider overrides the provider and keeps the model. */
  lemma {:induction false} CodexSessionMeta(st: CodexState, msg: Json, w: Window, env: Env)
    requires msg.JObj? && Field(msg, "type") == JStr("session_meta")
    requires var p := Field(msg, "payload"); p.JObj? && Truthy(Field(p, "model_provider"))
    ensures CodexRecord(st, msg, w, env).0 == CodexState(st.model, PyStr(Field(Field(msg, "payload"), "model_provider")))
  {
    var p := Field(msg, "payload");
    FieldMakesTruthy(p, "model_provider");
    assert Or(p, JObj([])) == p;
    CodexRecordTracks(st, msg, w, env);
  }

  /** A dict with a truthy field is not empty, so it is truthy itself. */
  lemma {:induction false} FieldMakesTruthy(v: Json, key: string)
    requires v.JObj? && Truthy(Field(v, key))
    ensures Truthy(v)
  {
  }

  // ---- ClaudeParser ----

  /** A value Python can hash (put in a set): anything but a list or a dict. */
  predicate Hashable(v: Json) {
    !v.JArr? && !v.JObj?
  }

  /**
   * One Claude line, given the message ids seen so far (across all files):
   * the new seen set, the line's pending outcome and its message id. An
   * assistant message with usage is checked against the seen ids BEFORE
   * its timestamp and range, and a truthy id is recorded even when the
   * message is then dropped; an id-less message is never de-duplicated.
   */
  function ClaudeRecord(seen: set<Json>, obj: Json, w: Window, env: Env): (set<Json>, Pending, Json) {
    if !obj.JObj? then (seen, Settled(Abort), JNull)
    else
      var msg := DictField(obj, "message");
      if Field(msg, "role") != JStr("assistant") then (seen, Settled(Skip), JNull)
      else
        var usage := DictField(msg, "usage");
        if !Truthy(usage) then (seen, Settled(Skip), JNull)
        else
          var id := Field(msg, "id");
          if !Hashable(id) then (seen, Settled(Abort), id)
          else if id in seen then (seen, Settled(Skip), id)
          else
            var seen' := if Truthy(id) then seen + {id} else seen;
            (seen', ClaudeUsage(obj, msg, usage, w, env), id)
  }

  /**
   * The token part of a Claude message: each count is read under its
   * `*_tokens` name, falling back to the short name only when the long one
   * is absent; a message whose four counts sum to 0 is dropped.
   */
  function ClaudeUsage(obj: Json, msg: Json, usage: Json, w: Window, env: Env): Pending
    requires obj.JObj? && msg.JObj? && usage.JObj?
  {
    var tsRaw := Field(obj, "timestamp");
    if !Truthy(tsRaw) then Settled(Skip)
    else
      match ParseIsoUtc(env, PyStr(tsRaw))
      case None => Settled(Skip)
      case Some(ts) =>
        if !InRange(ts, w.since, w.until) then Settled(Skip)
        else
          var input := IntOrZero(FieldOr(usage, "input_tokens", Field(usage, "input")));
          var output := IntOrZero(FieldOr(usage, "output_tokens", Field(usage, "output")));
          var cacheRead := IntOrZero(FieldOr(usage, "cache_read_input_tokens", Field(usage, "cache_read_tokens")));
          var cacheWrite := IntOrZero(FieldOr(usage, "cache_creation_input_tokens", Field(usage, "cache_write_tokens")));
          if input + output + cacheRead + cacheWrite == 0 then Settled(Skip)
          else
            var model := PyStr(Or(Field(msg, "model"), JStr("unknown")));
            ToPrice(Draft(model, "claude", model, ClaudeProvider(model), input, output, cacheRead, cacheWrite, 0, Millis(ts)))
  }

  /** The Claude parser part-way: seen ids, entries so far with their message ids, and whether the current file ended. */
  datatype ClaudeRun = ClaudeRun(seen: set<Json>, out: seq<Entry>, ids: seq<Json>, aborted: bool)

  /** How one line's outcome moves the Claude parser along. */
  function ClaudeApply(run: ClaudeRun, seen: set<Json>, id: Json, o: Outcome): ClaudeRun {
    match o
    case Skip => ClaudeRun(seen, run.out, run.ids, false)
    case Emit(e) => ClaudeRun(seen, run.out + [e], run.ids + [id], false)
    case Abort => ClaudeRun(seen, run.out, run.ids, true)
  }

  function ClaudeAfter(run: ClaudeRun, obj: Json, w: Window, env: Env, prices: Prices): ClaudeRun {
    if run.aborted then run
    else
      var r := ClaudeRecord(run.seen, obj, w, env);
      ClaudeApply(run, r.0, r.2, Settle(r.1, prices, Abort))
  }

  function ClaudeFile(start: ClaudeRun, lines: seq<Json>, w: Window, env: Env, prices: Prices): ClaudeRun {
    if lines == [] then start
    else ClaudeAfter(ClaudeFile(start, lines[..|lines| - 1], w, env, prices), lines[|lines| - 1], w, env, prices)
  }

  /** `ClaudeParser.collect`: one seen set for all files; an exception ends only its own file. */
  function ClaudeRunAll(files: seq<seq<Json>>, w: Window, env: Env, prices: Prices): ClaudeRun {
    if files == [] then ClaudeRun({}, [], [], false)
    else
      var r := ClaudeRunAll(files[..|files| - 1], w, env, prices);
      ClaudeFile(ClaudeRun(r.seen, r.out, r.ids, false), files[|files| - 1], w, env, prices)
  }

  lemma {:induction false} ClaudeAbortSticks(start: ClaudeRun, lines: seq<Json>, i: nat, w: Window, env: Env, prices: Prices)
    requires i <= |lines| && ClaudeFile(start, lines[..i], w, env, prices).aborted
    ensures ClaudeFile(start, lines, w, env, prices) == ClaudeFile(start, lines[..i], w, env, prices)
    decreases |lines| - i
  {
    if i < |lines| {
      var init := lines[..|lines| - 1];
      assert init[..i] == lines[..i];
      ClaudeAbortSticks(start, init, i, w, env, prices);
    } else {
      assert lines[..i] == lines;
    }
  }

  lemma {:induction false} ClaudeFileStep(start: ClaudeRun, lines: seq<Json>, i: nat, w: Window, env: Env, prices: Prices)
    requires i < |lines|
    ensures ClaudeFile(start, lines[..i + 1], w, env, prices)
         == ClaudeAfter(ClaudeFile(start, lines[..i], w, env, prices), lines[i], w, env, prices)
  {
    assert lines[..i + 1][..i] == lines[..i];
  }

  method ClaudeSession(seen0: set<Json>, lines: seq<Json>, w: Window, env: Env, db: PricingDatabase)
    returns (seen: set<Json>, entries: seq<Entry>)
    requires db.Valid()
    modifies db`resolvedCache
    ensures db.Valid()
    ensures var r := ClaudeFile(ClaudeRun(seen0, [], [], false), lines, w, env, db.Tables());
      seen == r.seen && entries == r.out
  {
    var start := ClaudeRun(seen0, [], [], false);
    var run := start;
    var i := 0;
    while i < |lines| && !run.aborted
      invariant 0 <= i <= |lines| && db.Valid()
      invariant run == ClaudeFile(start, lines[..i], w, env, db.Tables())
    {
      ClaudeFileStep(start, lines, i, w, env, db.Tables());
      var r := ClaudeRecord(run.seen, lines[i], w, env);
      var o := SettleWith(r.1, db, Abort);
      run := ClaudeApply(run, r.0, r.2, o);
      i := i + 1;
    }
    if run.aborted {
      ClaudeAbortSticks(start, lines, i, w, env, db.Tables());
    } else {
      assert lines[..i] == lines;
    }
    seen, entries := run.seen, run.out;
  }

  method CollectClaude(files: seq<seq<Json>>, w: Window, env: Env, db: PricingDatabase) returns (out: seq<Entry>)
    requires db.Valid()
    modifies db`resolvedCache
    ensures db.Valid()
    ensures out == ClaudeRunAll(files, w, env, db.Tables()).out
  {
    var seen: set<Json> := {};
    out := [];
    var f := 0;
    while f < |files|
      invariant 0 <= f <= |files| && db.Valid()
      invariant var r := ClaudeRunAll(files[..f], w, env, db.Tables()); seen == r.seen && out == r.out
    {
      assert files[..f + 1][..f] == files[..f];
      ghost var r := ClaudeRunAll(files[..f], w, env, db.Tables());
      var more;
      seen, more := ClaudeSession(seen, files[f], w, env, db);
      ClaudeFileAppends(ClaudeRun(r.seen, r.out, r.ids, false), files[f], w, env, db.Tables());
      out := out + more;
      f := f + 1;
    }
    assert files[..f] == files;
  }

  /** `a` is `b` run after the entries and ids of `pre`. */
  predicate Extends(a: ClaudeRun, b: ClaudeRun, pre: ClaudeRun) {
    a.seen == b.seen && a.aborted == b.aborted && a.out == pre.out + b.out && a.ids == pre.ids + b.ids
  }

  /** Running a file from a state with earlier entries appends to them. */
  lemma {:induction false} ClaudeFileAppends(start: ClaudeRun, lines: seq<Json>, w: Window, env: Env, prices: Prices)
    requires !start.aborted
    ensures Extends(ClaudeFile(start, lines, w, env, prices),
                    ClaudeFile(ClaudeRun(start.seen, [], [], false), lines, w, env, prices), start)
  {
    if lines == [] {
      assert start.out == start.out + [] && start.ids == start.ids + [];
    } else {
      var init := lines[..|lines| - 1];
      ClaudeFileAppends(start, init, w, env, prices);
      ClaudeAfterAppends(ClaudeFile(start, init, w, env, prices),
                         ClaudeFile(ClaudeRun(start.seen, [], [], false), init, w, env, prices),
                         start, lines[|lines| - 1], w, env, prices);
    }
  }

  lemma {:induction false} ClaudeAfterAppends(a: ClaudeRun, b: ClaudeRun, pre: ClaudeRun, obj: Json, w: Window, env: Env, prices: Prices)
    requires Extends(a, b, pre)
    ensures Extends(ClaudeAfter(a, obj, w, env, prices), ClaudeAfter(b, obj, w, env, prices), pre)
  {
    if !a.aborted {
      var r := ClaudeRecord(a.seen, obj, w, env);
      ClaudeApplyAppends(a, b, pre, r.0, r.2, Settle(r.1, prices, Abort));
    }
  }

  lemma {:induction false} ClaudeApplyAppends(a: ClaudeRun, b: ClaudeRun, pre: ClaudeRun, seen: set<Json>, id: Json, o: Outcome)
    requires Extends(a, b, pre)
    ensures Extends(ClaudeApply(a, seen, id, o), ClaudeApply(b, seen, id, o), pre)
  {
    if o.Emit? {
      assert (pre.out + b.out) + [o.entry] == pre.out + (b.out + [o.entry]);
      assert (pre.ids + b.ids) + [id] == pre.ids + (b.ids + [id]);
    }
  }

  /**
   * The de-duplication invariant: every entry has its message id, each
   * truthy id among them is recorded as seen, and no truthy id belongs to
   * two entries.
   */
  ghost predicate ClaudeDeduped(r: ClaudeRun) {
    && |r.ids| == |r.out|
    && (forall i :: 0 <= i < |r.ids| && Truthy(r.ids[i]) ==> r.ids[i] in r.seen)
    && (forall i, j :: 0 <= i < j < |r.ids| && Truthy(r.ids[i]) ==> r.ids[i] != r.ids[j])
  }

  /** Across all files, each non-empty `message.id` yields at most one entry. */
  lemma {:induction false} ClaudeEmitsEachIdOnce(files: seq<seq<Json>>, w: Window, env: Env, prices: Prices)
    ensures ClaudeDeduped(ClaudeRunAll(files, w, env, prices))
  {
    if files != [] {
      var r := ClaudeRunAll(files[..|files| - 1], w, env, prices);
      ClaudeEmitsEachIdOnce(files[..|files| - 1], w, env, prices);
      ClaudeFileDeduped(ClaudeRun(r.seen, r.out, r.ids, false), files[|files| - 1], w, env, prices);
    }
  }

  lemma {:induction false} ClaudeFileDeduped(start: ClaudeRun, lines: seq<Json>, w: Window, env: Env, prices: Prices)
    requires ClaudeDeduped(start)
    ensures ClaudeDeduped(ClaudeFile(start, lines, w, env, prices))
  {
    if lines != [] {
      var run := ClaudeFile(start, lines[..|lines| - 1], w, env, prices);
      ClaudeFileDeduped(start, lines[..|lines| - 1], w, env, prices);
      if !run.aborted {
        ClaudeStepDeduped(run, lines[|lines| - 1], w, env, prices);
      }
    }
  }

  lemma {:induction false} ClaudeStepDeduped(run: ClaudeRun, obj: Json, w: Window, env: Env, prices: Prices)
    requires ClaudeDeduped(run) && !run.aborted
    ensures ClaudeDeduped(ClaudeAfter(run, obj, w, env, prices))
  {
    var (seen, p, id) := ClaudeRecord(run.seen, obj, w, env);
    ClaudeRecordSeen(run.seen, obj, w, env);
    var next := ClaudeAfter(run, obj, w, env, prices);
    if Settle(p, prices, Abort).Emit? {
      assert id !in run.seen;
      assert next.ids == run.ids + [id];
      forall i, j | 0 <= i < j < |next.ids| && Truthy(next.ids[i]) ensures next.ids[i] != next.ids[j] {
        if j == |run.ids| {
          assert next.ids[i] == run.ids[i] && run.ids[i] in run.seen;
        }
      }
    }
  }

  /** A Claude line that reaches the de-duplication: a dict holding an assistant message with a truthy usage dict. */
  predicate ClaudeCandidate(obj: Json) {
    && obj.JObj?
    && Field(DictField(obj, "message"), "role") == JStr("assistant")
    && Truthy(DictField(DictField(obj, "message"), "usage"))
  }

  /** A Claude line only ever adds to the seen set; an emitting line had an unseen id, now recorded if truthy. */
  lemma {:induction false} ClaudeRecordSeen(seen: set<Json>, obj: Json, w: Window, env: Env)
    ensures var (seen', p, id) := ClaudeRecord(seen, obj, w, env);
      && seen <= seen'
      && (p.ToPrice? ==> id !in seen && (Truthy(id) ==> id in seen'))
  {
  }

  /**
   * How a Claude line meets the seen set: a line that is not a candidate
   * leaves it alone. A candidate with a hashable id already seen is
   * skipped; one with an unseen id records that id when it is truthy,
   * whatever its timestamp, and is then judged on timestamp and counts alone.
   */
  lemma {:induction false} ClaudeRecordDedupes(seen: set<Json>, obj: Json, w: Window, env: Env)
    ensures var (seen', p, id) := ClaudeRecord(seen, obj, w, env);
      && (!ClaudeCandidate(obj) ==> seen' == seen && !p.ToPrice?)
      && (ClaudeCandidate(obj) ==> id == Field(DictField(obj, "message"), "id"))
      && (ClaudeCandidate(obj) && Hashable(id) && id in seen ==> seen' == seen && p == Settled(Skip))
      && (ClaudeCandidate(obj) && Hashable(id) && id !in seen ==>
            && seen' == (if Truthy(id) then seen + {id} else seen)
            && var msg := DictField(obj, "message");
               p == ClaudeUsage(obj, msg, DictField(msg, "usage"), w, env))
  {
  }

  /**
   * With only truthy ids seen so far, a candidate line without a truthy id
   * is never taken for a duplicate: it goes on to the timestamp check and
   * leaves the seen set as it was.
   */
  lemma {:induction false} ClaudeIdlessNotDeduped(seen: set<Json>, obj: Json, w: Window, env: Env)
    requires forall v :: v in seen ==> Truthy(v)
    requires ClaudeCandidate(obj)
    requires var id := Field(DictField(obj, "message"), "id"); Hashable(id) && !Truthy(id)
    ensures var msg := DictField(obj, "message");
      ClaudeRecord(seen, obj, w, env).0 == seen
      && ClaudeRecord(seen, obj, w, env).1 == ClaudeUsage(obj, msg, DictField(msg, "usage"), w, env)
  {
    var id := Field(DictField(obj, "message"), "id");
    assert id !in seen;
    ClaudeRecordDedupes(seen, obj, w, env);
  }

  /**
   * A candidate line blocks every later line with the same truthy id, even
   * when its own timestamp drops it: the second line is skipped.
   */
  lemma {:induction false} ClaudeFirstCopyBlocks(seen: set<Json>, a: Json, b: Json, w: Window, env: Env)
    requires ClaudeCandidate(a) && ClaudeCandidate(b)
    requires var id := Field(DictField(a, "message"), "id");
      Hashable(id) && Truthy(id) && Field(DictField(b, "message"), "id") == id
    ensures ClaudeRecord(ClaudeRecord(seen, a, w, env).0, b, w, env).1 == Settled(Skip)
  {
    var id := Field(DictField(a, "message"), "id");
    ClaudeRecordDedupes(seen, a, w, env);
    var seen' := ClaudeRecord(seen, a, w, env).0;
    assert id in seen';
    ClaudeRecordDedupes(seen', b, w, env);
  }

  /** The Claude parser only ever records truthy message ids. */
  lemma {:induction false} ClaudeSeenTruthy(files: seq<seq<Json>>, w: Window, env: Env, prices: Prices)
    ensures forall v :: v in ClaudeRunAll(files, w, env, prices).seen ==> Truthy(v)
  {
    if files != [] {
      var r := ClaudeRunAll(files[..|files| - 1], w, env, prices);
      ClaudeSeenTruthy(files[..|files| - 1], w, env, prices);
      ClaudeFileSeenTruthy(ClaudeRun(r.seen, r.out, r.ids, false), files[|files| - 1], w, env, prices);
    }
  }

  lemma {:induction false} ClaudeFileSeenTruthy(start: ClaudeRun, lines: seq<Json>, w: Window, env: Env, prices: Prices)
    requires forall v :: v in start.seen ==> Truthy(v)
    ensures forall v :: v in ClaudeFile(start, lines, w, env, prices).seen ==> Truthy(v)
  {
    if lines != [] {
      var run := ClaudeFile(start, lines[..|lines| - 1], w, env, prices);
      ClaudeFileSeenTruthy(start, lines[..|lines| - 1], w, env, prices);
      ClaudeAfterSeenTruthy(run, lines[|lines| - 1], w, env, prices);
    }
  }

  lemma {:induction false} ClaudeAfterSeenTruthy(run: ClaudeRun, obj: Json, w: Window, env: Env, prices: Prices)
    requires forall v :: v in run.seen ==> Truthy(v)
    ensures forall v :: v in ClaudeAfter(run, obj, w, env, prices).seen ==> Truthy(v)
  {
    if !run.aborted {
      var r := ClaudeRecord(run.seen, obj, w, env);
      assert ClaudeAfter(run, obj, w, env, prices).seen == r.0;
    }
  }

  /** What every Claude entry satisfies. */
  predicate ClaudeShaped(e: Entry, prices: Prices) {
    && e.source == "claude" && e.reasoning == 0
    && e.input + e.output + e.cacheRead + e.cacheWrite != 0
    && e.provider == ClaudeProvider(e.model)
    && PricedAt(e, prices, e.model)
  }

  /** Claude entries have no reasoning tokens, are never all zero, and carry the provider inferred from the model. */
  lemma {:induction false} ClaudeEntriesShape(files: seq<seq<Json>>, w: Window, env: Env, prices: Prices)
    ensures forall e :: e in ClaudeRunAll(files, w, env, prices).out ==> ClaudeShaped(e, prices)
  {
    if files != [] {
      var r := ClaudeRunAll(files[..|files| - 1], w, env, prices);
      ClaudeEntriesShape(files[..|files| - 1], w, env, prices);
      ClaudeFileShape(ClaudeRun(r.seen, r.out, r.ids, false), files[|files| - 1], w, env, prices);
    }
  }

  lemma {:induction false} ClaudeFileShape(start: ClaudeRun, lines: seq<Json>, w: Window, env: Env, prices: Prices)
    requires forall e :: e in start.out ==> ClaudeShaped(e, prices)
    ensures forall e :: e in ClaudeFile(start, lines, w, env, prices).out ==> ClaudeShaped(e, prices)
  {
    if lines != [] {
      ClaudeFileShape(start, lines[..|lines| - 1], w, env, prices);
      ClaudeAfterShape(ClaudeFile(start, lines[..|lines| - 1], w, env, prices), lines[|lines| - 1], w, env, prices);
    }
  }

  lemma {:induction false} ClaudeAfterShape(run: ClaudeRun, obj: Json, w: Window, env: Env, prices: Prices)
    requires forall e :: e in run.out ==> ClaudeShaped(e, prices)
    ensures forall e :: e in ClaudeAfter(run, obj, w, env, prices).out ==> ClaudeShaped(e, prices)
  {
    if !run.aborted {
      var r := ClaudeRecord(run.seen, obj, w, env);
      var o := Settle(r.1, prices, Abort);
      assert ClaudeAfter(run, obj, w, env, prices) == ClaudeApply(run, r.0, r.2, o);
      if o.Emit? {
        ClaudeRecordSettles(run.seen, obj, w, env);
        ClaudeDraftShape(run.seen, obj, w, env);
        ClaudeEmitShaped(r.1.draft, prices, o);
      }
    }
  }

  /** A Claude line settled without pricing never emits. */
  lemma {:induction false} ClaudeRecordSettles(seen: set<Json>, obj: Json, w: Window, env: Env)
    ensures ClaudeRecord(seen, obj, w, env).1.Settled? ==> !ClaudeRecord(seen, obj, w, env).1.outcome.Emit?
  {
  }

  /** A priced Claude draft makes an entry of the Claude shape. */
  lemma {:induction false} ClaudeEmitShaped(d: Draft, prices: Prices, o: Outcome)
    requires o == Settle(ToPrice(d), prices, Abort) && o.Emit?
    requires d.source == "claude" && d.reasoning == 0 && d.priceAs == d.model
    requires d.input + d.output + d.cacheRead + d.cacheWrite != 0 && d.provider == ClaudeProvider(d.model)
    ensures ClaudeShaped(o.entry, prices)
  {
    SettleEmits(ToPrice(d), prices, Abort);
  }

  lemma {:induction false} ClaudeDraftShape(seen: set<Json>, obj: Json, w: Window, env: Env)
    requires ClaudeRecord(seen, obj, w, env).1.ToPrice?
    ensures var d := ClaudeRecord(seen, obj, w, env).1.draft;
      && d.source == "claude" && d.reasoning == 0 && d.priceAs == d.model
      && d.input + d.output + d.cacheRead + d.cacheWrite != 0
      && d.provider == ClaudeProvider(d.model)
  {
  }

  // ---- GeminiCLIParser ----

  /**
   * `GeminiCLIParser._build_entry`: provider `google`, `cached` read as
   * cache reads, `thoughts` as reasoning, no cache writes.
   */
  function GeminiDraft(model: string, tokens: Json, ts: int): (d: Draft)
    requires tokens.JObj?
    ensures d.source == "gemini_cli" && d.provider == "google" && d.cacheWrite == 0
    ensures d.cacheRead == IntOrZero(Field(tokens, "cached")) && d.reasoning == IntOrZero(Field(tokens, "thoughts"))
  {
    Draft(model, "gemini_cli", if model == "" then "unknown" else model, "google",
          IntOrZero(Field(tokens, "input")), IntOrZero(Field(tokens, "output")),
          IntOrZero(Field(tokens, "cached")), 0, IntOrZero(Field(tokens, "thoughts")), ts)
  }

  /**
   * One Gemini message, given the ids seen so far (across all files): every
   * exception skips just this message. Only `type == "gemini"` messages with
   * a `tokens` dict are used; the id, even a missing one, is recorded before
   * the timestamp is looked at. A model that is not text makes `get_cost`
   * raise, so the message is skipped.
   */
  function GeminiRecord(seen: set<Json>, msg: Json, w: Window, env: Env): (set<Json>, Pending, Json) {
    if !msg.JObj? || Field(msg, "type") != JStr("gemini") then (seen, Settled(Skip), JNull)
    else
      var tokens := Field(msg, "tokens");
      if !tokens.JObj? then (seen, Settled(Skip), JNull)
      else
        var id := Field(msg, "id");
        if !Hashable(id) || id in seen then (seen, Settled(Skip), id)
        else
          var seen' := seen + {id};
          var tsStr := Field(msg, "timestamp");
          if !Truthy(tsStr) || !tsStr.JStr? then (seen', Settled(Skip), id)
          else
            match ParseIsoUtc(env, tsStr.s)
            case None => (seen', Settled(Skip), id)
            case Some(ts) =>
              var model := Or(Field(msg, "model"), JStr("unknown"));
              if !InRange(ts, w.since, w.until) || !model.JStr? then (seen', Settled(Skip), id)
              else (seen', ToPrice(GeminiDraft(model.s, tokens, Millis(ts))), id)
  }

  /** The Gemini parser part-way: seen ids, and the entries so far with their message ids. */
  datatype GeminiRun = GeminiRun(seen: set<Json>, out: seq<Entry>, ids: seq<Json>)

  /** How one message's outcome moves the Gemini parser along. */
  function GeminiApply(run: GeminiRun, seen: set<Json>, id: Json, o: Outcome): GeminiRun {
    if o.Emit? then GeminiRun(seen, run.out + [o.entry], run.ids + [id])
    else GeminiRun(seen, run.out, run.ids)
  }

  function GeminiAfter(run: GeminiRun, msg: Json, w: Window, env: Env, prices: Prices): GeminiRun {
    var r := GeminiRecord(run.seen, msg, w, env);
    GeminiApply(run, r.0, r.2, Settle(r.1, prices, Skip))
  }

  function GeminiMessages(start: GeminiRun, msgs: seq<Json>, w: Window, env: Env, prices: Prices): GeminiRun {
    if msgs == [] then start
    else GeminiAfter(GeminiMessages(start, msgs[..|msgs| - 1], w, env, prices), msgs[|msgs| - 1], w, env, prices)
  }

  /**
   * `GeminiCLIParser.collect` over the session files, each the decoded
   * file or `None` when it cannot be read or decoded (skipped). A file whose
   * top level is not a dict raises outside any `try`: the whole collect
   * raises. A file without a `messages` list is skipped.
   */
  function GeminiRunAll(files: seq<Option<Json>>, w: Window, env: Env, prices: Prices): Result<GeminiRun> {
    if files == [] then Ok(GeminiRun({}, [], []))
    else
      match GeminiRunAll(files[..|files| - 1], w, env, prices)
      case Raised(e) => Raised(e)
      case Ok(r) =>
        var file := files[|files| - 1];
        if file.None? then Ok(r)
        else if !file.value.JObj? then Raised("AttributeError")
        else
          var msgs := Field(file.value, "messages");
          if !msgs.JArr? then Ok(r)
          else Ok(GeminiMessages(r, msgs.items, w, env, prices))
  }

  lemma {:induction false} GeminiMessagesStep(start: GeminiRun, msgs: seq<Json>, i: nat, w: Window, env: Env, prices: Prices)
    requires i < |msgs|
    ensures GeminiMessages(start, msgs[..i + 1], w, env, prices)
         == GeminiAfter(GeminiMessages(start, msgs[..i], w, env, prices), msgs[i], w, env, prices)
  {
    assert msgs[..i + 1][..i] == msgs[..i];
  }

  method GeminiSession(run0: GeminiRun, msgs: seq<Json>, w: Window, env: Env, db: PricingDatabase) returns (run: GeminiRun)
    requires db.Valid()
    modifies db`resolvedCache
    ensures db.Valid()
    ensures run == GeminiMessages(run0, msgs, w, env, db.Tables())
  {
    run := run0;
    var i := 0;
    while i < |msgs|
      invariant 0 <= i <= |msgs| && db.Valid()
      invariant run == GeminiMessages(run0, msgs[..i], w, env, db.Tables())
    {
      GeminiMessagesStep(run0, msgs, i, w, env, db.Tables());
      var r := GeminiRecord(run.seen, msgs[i], w, env);
      var o := SettleWith(r.1, db, Skip);
      run := GeminiApply(run, r.0, r.2, o);
      i := i + 1;
    }
    assert msgs[..i] == msgs;
  }

  method CollectGemini(files: seq<Option<Json>>, w: Window, env: Env, db: PricingDatabase) returns (out: Result<seq<Entry>>)
    requires db.Valid()
    modifies db`resolvedCache
    ensures db.Valid()
    ensures var r := GeminiRunAll(files, w, env, db.Tables());
      out == (if r.Ok? then Ok(r.value.out) else Raised(r.reason))
  {
    var run := GeminiRun({}, [], []);
    var f := 0;
    while f < |files|
      invariant 0 <= f <= |files| && db.Valid()
      invariant GeminiRunAll(files[..f], w, env, db.Tables()) == Ok(run)
    {
      assert files[..f + 1][..f] == files[..f];
      var file := files[f];
      if file.Some? {
        if !file.value.JObj? {
          GeminiRaisedSticks(files, f + 1, w, env, db.Tables());
          return Raised("AttributeError");
        }
        var msgs := Field(file.value, "messages");
        if msgs.JArr? {
          run := GeminiSession(run, msgs.items, w, env, db);
        }
      }
      f := f + 1;
    }
    assert files[..f] == files;
    out := Ok(run.out);
  }

  lemma {:induction false} GeminiRaisedSticks(files: seq<Option<Json>>, i: nat, w: Window, env: Env, prices: Prices)
    requires i <= |files| && GeminiRunAll(files[..i], w, env, prices).Raised?
    ensures GeminiRunAll(files, w, env, prices) == GeminiRunAll(files[..i], w, env, prices)
    decreases |files| - i
  {
    if i < |files| {
      var init := files[..|files| - 1];
      assert init[..i] == files[..i];
      GeminiRaisedSticks(init, i, w, env, prices);
    } else {
      assert files[..i] == files;
    }
  }

  /** Among the Gemini entries, no two come from messages with the same id (a missing id is one id). */
  ghost predicate GeminiDeduped(r: GeminiRun) {
    && |r.ids| == |r.out|
    && (forall i :: 0 <= i < |r.ids| ==> r.ids[i] in r.seen)
    && (forall i, j :: 0 <= i < j < |r.ids| ==> r.ids[i] != r.ids[j])
  }

  lemma {:induction false} GeminiEmitsEachIdOnce(files: seq<Option<Json>>, w: Window, env: Env, prices: Prices)
    requires GeminiRunAll(files, w, env, prices).Ok?
    ensures GeminiDeduped(GeminiRunAll(files, w, env, prices).value)
  {
    if files != [] {
      var init := files[..|files| - 1];
      GeminiEmitsEachIdOnce(init, w, env, prices);
      var r := GeminiRunAll(init, w, env, prices).value;
      var file := files[|files| - 1];
      if file.Some? && file.value.JObj? && Field(file.value, "messages").JArr? {
        GeminiMessagesDeduped(r, Field(file.value, "messages").items, w, env, prices);
      }
    }
  }

  lemma {:induction false} GeminiMessagesDeduped(start: GeminiRun, msgs: seq<Json>, w: Window, env: Env, prices: Prices)
    requires GeminiDeduped(start)
    ensures GeminiDeduped(GeminiMessages(start, msgs, w, env, prices))
  {
    if msgs != [] {
      GeminiMessagesDeduped(start, msgs[..|msgs| - 1], w, env, prices);
      GeminiStepDeduped(GeminiMessages(start, msgs[..|msgs| - 1], w, env, prices), msgs[|msgs| - 1], w, env, prices);
    }
  }

  lemma {:induction false} GeminiStepDeduped(run: GeminiRun, msg: Json, w: Window, env: Env, prices: Prices)
    requires GeminiDeduped(run)
    ensures GeminiDeduped(GeminiAfter(run, msg, w, env, prices))
  {
    var r := GeminiRecord(run.seen, msg, w, env);
    GeminiRecordSeen(run.seen, msg, w, env);
    var o := Settle(r.1, prices, Skip);
    if o.Emit? {
      assert r.1.ToPrice?;
      GeminiApplyDeduped(run, r.0, r.2, o);
    } else {
      assert GeminiAfter(run, msg, w, env, prices) == GeminiRun(r.0, run.out, run.ids);
    }
  }

  lemma {:induction false} GeminiApplyDeduped(run: GeminiRun, seen: set<Json>, id: Json, o: Outcome)
    requires GeminiDeduped(run) && o.Emit? && run.seen <= seen && id !in run.seen && id in seen
    ensures GeminiDeduped(GeminiApply(run, seen, id, o))
  {
    var next := GeminiApply(run, seen, id, o);
    forall i, j | 0 <= i < j < |next.ids| ensures next.ids[i] != next.ids[j] {
      if j == |run.ids| {
        assert next.ids[i] == run.ids[i] && run.ids[i] in run.seen;
      }
    }
  }

  /** A Gemini message that reaches the de-duplication: a dict of `type` "gemini" with a `tokens` dict. */
  predicate GeminiCandidate(msg: Json) {
    msg.JObj? && Field(msg, "type") == JStr("gemini") && Field(msg, "tokens").JObj?
  }

  /**
   * A Gemini message only ever adds to the seen set. A message that is not
   * a candidate is skipped and leaves the set alone, as is a candidate whose
   * id is unhashable or already seen; a candidate with a new id records it,
   * even a missing one, whatever its timestamp.
   */
  lemma {:induction false} GeminiRecordSeen(seen: set<Json>, msg: Json, w: Window, env: Env)
    ensures var (seen', p, id) := GeminiRecord(seen, msg, w, env);
      && seen <= seen'
      && (p.ToPrice? ==> id !in seen && id in seen')
      && (!GeminiCandidate(msg) ==> seen' == seen && p == Settled(Skip))
      && (GeminiCandidate(msg) ==> id == Field(msg, "id"))
      && (GeminiCandidate(msg) && (!Hashable(id) || id in seen) ==> seen' == seen && p == Settled(Skip))
      && (GeminiCandidate(msg) && Hashable(id) && id !in seen ==> seen' == seen + {id})
  {
  }

  // ---- AmpParser and the tracker ----

  /** What the tracker reads for each parser: OpenCode's table rows, Codex's and Claude's session files, Gemini's session files. */
  datatype ToolLogs = ToolLogs(
    opencode: seq<OpenCodeRow>, codex: seq<seq<Json>>, claude: seq<seq<Json>>, gemini: seq<Option<Json>>)

  /** The registered parsers, in registration order. */
  const ParserNames: seq<string> := ["opencode", "codex", "claude", "gemini_cli", "amp"]

  /** One registered parser's `collect`; Amp is a placeholder that yields nothing. */
  function RunParser(name: string, logs: ToolLogs, w: Window, env: Env, prices: Prices): Result<seq<Entry>> {
    if name == "opencode" then Ok(OpenCodeEntries(logs.opencode, w, prices))
    else if name == "codex" then Ok(CodexEntries(logs.codex, w, env, prices))
    else if name == "claude" then Ok(ClaudeRunAll(logs.claude, w, env, prices).out)
    else if name == "gemini_cli" then
      (match GeminiRunAll(logs.gemini, w, env, prices)
       case Ok(r) => Ok(r.out)
       case Raised(e) => Raised(e))
    else Ok([])
  }

  /** `sources or list(self.parsers.keys())` */
  function Selected(sources: Option<seq<string>>): (names: seq<string>)
    ensures sources.None? || sources.value == [] ==> names == ParserNames
    ensures sources.Some? && sources.value != [] ==> names == sources.value
  {
    if sources.None? || sources.value == [] then ParserNames else sources.value
  }

  /** The entries gathered so far, and whether a parser raised (which ends the collect). */
  datatype Gathered = Gathered(entries: seq<Entry>, raised: bool)

  /** Adds one parser's result: its entries, or the end of the collect when it raised. */
  function GatherApply(g: Gathered, r: Result<seq<Entry>>): Gathered {
    match r
    case Ok(es) => Gathered(g.entries + es, false)
    case Raised(_) => Gathered(g.entries, true)
  }

  function GatherAfter(g: Gathered, name: string, logs: ToolLogs, w: Window, env: Env, prices: Prices): Gathered {
    if g.raised || name !in ParserNames then g
    else GatherApply(g, RunParser(name, logs, w, env, prices))
  }

  /** The tracker's loop: unknown names are ignored, each known parser's output is appended in turn. */
  function GatherAll(names: seq<string>, logs: ToolLogs, w: Window, env: Env, prices: Prices): Gathered {
    if names == [] then Gathered([], false)
    else GatherAfter(GatherAll(names[..|names| - 1], logs, w, env, prices), names[|names| - 1], logs, w, env, prices)
  }

  lemma {:induction false} GatherStep(names: seq<string>, i: nat, logs: ToolLogs, w: Window, env: Env, prices: Prices)
    requires i < |names|
    ensures GatherAll(names[..i + 1], logs, w, env, prices)
         == GatherAfter(GatherAll(names[..i], logs, w, env, prices), names[i], logs, w, env, prices)
  {
    assert names[..i + 1][..i] == names[..i];
  }

  /** `to_json()`: the entries and their count. */
  datatype EntriesReport = EntriesReport(entries: seq<Entry>, total: int)

  class CodingToolsUsageTracker {
    var entries: seq<Entry>
    const pricingDb: PricingDatabase

    constructor(file: TableFile)
      ensures entries == [] && fresh(pricingDb) && pricingDb.Valid()
      ensures pricingDb.Tables() == Prices(LoadedPricing(file), LoadedAliases(file))
    {
      entries := [];
      pricingDb := new PricingDatabase(file);
    }

    /**
     * `collect`: resets the entries, then runs the selected parsers in
     * order. `ok` is false when a parser raised; the entries then hold
     * what the earlier parsers produced.
     */
    method Collect(w: Window, sources: Option<seq<string>>, logs: ToolLogs, env: Env) returns (ok: bool)
      requires pricingDb.Valid()
      modifies this`entries, pricingDb`resolvedCache
      ensures pricingDb.Valid()
      ensures Gathered(entries, !ok) == GatherAll(Selected(sources), logs, w, env, pricingDb.Tables())
    {
      var names := Selected(sources);
      var g := Gathered([], false);
      var n := 0;
      while n < |names| && !g.raised
        invariant 0 <= n <= |names| && pricingDb.Valid()
        invariant g == GatherAll(names[..n], logs, w, env, pricingDb.Tables())
      {
        GatherStep(names, n, logs, w, env, pricingDb.Tables());
        if names[n] in ParserNames {
          var out := Run(names[n], logs, w, env);
          g := GatherApply(g, out);
        }
        n := n + 1;
      }
      if g.raised {
        GatherRaisedSticks(names, n, logs, w, env, pricingDb.Tables());
      } else {
        assert names[..n] == names;
      }
      entries, ok := g.entries, !g.raised;
    }

    method Run(name: string, logs: ToolLogs, w: Window, env: Env) returns (out: Result<seq<Entry>>)
      requires pricingDb.Valid()
      modifies pricingDb`resolvedCache
      ensures pricingDb.Valid()
      ensures out == RunParser(name, logs, w, env, pricingDb.Tables())
    {
      var db := pricingDb;
      if name == "opencode" {
        var es := CollectOpenCode(logs.opencode, w, db);
        out := Ok(es);
      } else if name == "codex" {
        var es := CollectCodex(logs.codex, w, env, db);
        out := Ok(es);
      } else if name == "claude" {
        var es := CollectClaude(logs.claude, w, env, db);
        out := Ok(es);
      } else if name == "gemini_cli" {
        out := CollectGemini(logs.gemini, w, env, db);
      } else {
        out := Ok([]);
      }
    }

    /** `to_json()`: the collected entries and how many there are. */
    function ToJson(): (r: EntriesReport)
      reads this
      ensures r.entries == entries && r.total == |entries|
    {
      EntriesReport(entries, |entries|)
    }
  }

  lemma {:induction false} GatherRaisedSticks(names: seq<string>, i: nat, logs: ToolLogs, w: Window, env: Env, prices: Prices)
    requires i <= |names| && GatherAll(names[..i], logs, w, env, prices).raised
    ensures GatherAll(names, logs, w, env, prices) == GatherAll(names[..i], logs, w, env, prices)
    decreases |names| - i
  {
    if i < |names| {
      var init := names[..|names| - 1];
      assert init[..i] == names[..i];
      GatherRaisedSticks(init, i, logs, w, env, prices);
    } else {
      assert names[..i] == names;
    }
  }

  /** Asking only for Amp collects nothing. */
  lemma {:induction false} AmpYieldsNothing(logs: ToolLogs, w: Window, env: Env, prices: Prices)
    ensures GatherAll(["amp"], logs, w, env, prices) == Gathered([], false)
  {
    assert ["amp"][..0] == [];
    assert "amp" in ParserNames by { assert ParserNames[4] == "amp"; }
  }

  /** Names that are not registered parsers contribute nothing. */
  lemma {:induction false} UnknownSourcesIgnored(names: seq<string>, logs: ToolLogs, w: Window, env: Env, prices: Prices)
    requires forall k :: 0 <= k < |names| ==> names[k] !in ParserNames
    ensures GatherAll(names, logs, w, env, prices) == Gathered([], false)
  {
    if names != [] {
      UnknownSourcesIgnored(names[..|names| - 1], logs, w, env, prices);
    }
  }

  /** When no parser raises, the entries are the selected parsers' outputs concatenated in order. */
  lemma {:induction false} GatherConcatenates(names: seq<string>, more: string, logs: ToolLogs, w: Window, env: Env, prices: Prices)
    requires !GatherAll(names, logs, w, env, prices).raised
    requires more in ParserNames && RunParser(more, logs, w, env, prices).Ok?
    ensures GatherAll(names + [more], logs, w, env, prices)
         == Gathered(GatherAll(names, logs, w, env, prices).entries + RunParser(more, logs, w, env, prices).value, false)
  {
    assert (names + [more])[..|names|] == names;
  }
}
