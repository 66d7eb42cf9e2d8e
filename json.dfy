/**
 * Already-decoded JSON values and the Python conversions the source applies
 * to them: truthiness (`v or default`), `dict.get`, `int()`, `float()` and
 * `str()`. Objects keep their key order, as Python dicts do.
 */
module Json {
  import opened Wrappers
  import opened Text

  datatype Json =
    | JNull
    | JBool(b: bool)
    | JInt(i: int)
    | JReal(r: real)
    | JStr(s: string)
    | JArr(items: seq<Json>)
    | JObj(fields: seq<(string, Json)>)

  /** Python truthiness: None, False, 0, 0.0, "", [] and {} are false. */
  predicate Truthy(v: Json) {
    match v
    case JNull => false
    case JBool(b) => b
    case JInt(i) => i != 0
    case JReal(r) => r != 0.0
    case JStr(s) => s != []
    case JArr(xs) => xs != []
    case JObj(fs) => fs != []
  }

  /** `a or b` */
  function Or(a: Json, b: Json): (r: Json)
    ensures Truthy(a) ==> r == a
    ensures !Truthy(a) ==> r == b
  {
    if Truthy(a) then a else b
  }

  /** The value stored under `key` in an object's fields, if any. */
  function Find(fields: seq<(string, Json)>, key: string): (r: Option<Json>)
    ensures r.Some? ==> (key, r.value) in fields
    ensures r.None? ==> forall p :: p in fields ==> p.0 != key
  {
    if fields == [] then None
    else if fields[0].0 == key then Some(fields[0].1)
    else Find(fields[1..], key)
  }

  /**
   * `v.get(key, default)`: `None` when `v` is not a dict (the source then
   * raises AttributeError), otherwise the stored value or `default`.
   */
  function GetOr(v: Json, key: string, default: Json): (r: Option<Json>)
    ensures r.Some? <==> v.JObj?
    ensures v.JObj? && Find(v.fields, key).None? ==> r == Some(default)
  {
    match v
    case JObj(fs) => Some(Find(fs, key).GetOr(default))
    case _ => None
  }

  /** `v.get(key)` */
  function Get(v: Json, key: string): Option<Json> {
    GetOr(v, key, JNull)
  }

  /** `v.get(key)` for a value already known to be a dict. */
  function Field(v: Json, key: string): Json
    requires v.JObj?
  {
    Find(v.fields, key).GetOr(JNull)
  }

  /** `v.get(key, default)` for a value already known to be a dict. */
  function FieldOr(v: Json, key: string, default: Json): (r: Json)
    requires v.JObj?
    ensures Find(v.fields, key).None? ==> r == default
    ensures Find(v.fields, key).Some? ==> r == Find(v.fields, key).value
  {
    Find(v.fields, key).GetOr(default)
  }

  /** `v.get(key) if isinstance(v.get(key), dict) else {}` */
  function DictField(v: Json, key: string): (r: Json)
    requires v.JObj?
    ensures r.JObj?
  {
    var f := Field(v, key);
    if f.JObj? then f else JObj([])
  }

  // ---- decimal digits ----

  function DigitValue(c: char): nat
    requires IsDigit(c)
  {
    c as int - '0' as int
  }

  function DigitChar(d: nat): (c: char)
    requires d < 10
    ensures IsDigit(c) && DigitValue(c) == d
  {
    ('0' as int + d) as char
  }

  predicate AllDigits(s: string) {
    forall k :: 0 <= k < |s| ==> IsDigit(s[k])
  }

  /** The number a string of ASCII digits spells, most significant first. */
  function DigitsValue(s: string): nat
    requires AllDigits(s)
  {
    if s == [] then 0 else DigitsValue(s[..|s| - 1]) * 10 + DigitValue(s[|s| - 1])
  }

  /** The shortest decimal spelling of `n` (as `str(n)` for a non-negative int). */
  function NatToDigits(n: nat): (s: string)
    ensures s != [] && AllDigits(s)
  {
    if n < 10 then [DigitChar(n)] else NatToDigits(n / 10) + [DigitChar(n % 10)]
  }

  lemma {:induction false} DigitsValueOfNatToDigits(n: nat)
    ensures DigitsValue(NatToDigits(n)) == n
  {
    if n >= 10 {
      var s := NatToDigits(n);
      assert s[..|s| - 1] == NatToDigits(n / 10);
      DigitsValueOfNatToDigits(n / 10);
    }
  }

  /** `str(i)` for an int. */
  function IntToDecimal(i: int): string {
    if i < 0 then "-" + NatToDigits(-i) else NatToDigits(i)
  }

  /**
   * The digit part `int(str)` accepts: ASCII digits, with single underscores
   * allowed between two digits.
   */
  predicate DigitBody(b: string) {
    && b != []
    && IsDigit(b[0]) && IsDigit(b[|b| - 1])
    && (forall k :: 0 <= k < |b| ==> IsDigit(b[k]) || b[k] == '_')
    && (forall k :: 0 <= k < |b| - 1 ==> !(b[k] == '_' && b[k + 1] == '_'))
  }

  function DropUnderscores(b: string): (r: string)
    requires forall k :: 0 <= k < |b| ==> IsDigit(b[k]) || b[k] == '_'
    ensures AllDigits(r)
    ensures AllDigits(b) ==> r == b
  {
    if b == [] then []
    else (if b[0] == '_' then [] else [b[0]]) + DropUnderscores(b[1..])
  }

  /** `int(s)` for a string: `None` when Python raises ValueError. */
  function ParseIntLiteral(s: string): (r: Option<int>)
    ensures r.Some? ==> Strip(s) != []
  {
    ParseSigned(Strip(s))
  }

  /** `int` of text without surrounding blanks: an optional sign, then a digit body. */
  function ParseSigned(t: string): (r: Option<int>)
    ensures r.Some? ==> t != []
  {
    if t == [] then None
    else if t[0] == '-' then
      match ParseBody(t[1..])
      case Some(n) => Some(-n)
      case None => None
    else if t[0] == '+' then ParseBody(t[1..])
    else ParseBody(t)
  }

  function ParseBody(b: string): (r: Option<int>)
    ensures r.Some? ==> DigitBody(b) && r.value >= 0
  {
    if DigitBody(b) then Some(DigitsValue(DropUnderscores(b))) else None
  }

  /** `int(r)` for a float: truncation toward zero. */
  function Truncate(r: real): (i: int)
    ensures r >= 0.0 ==> i as real <= r < i as real + 1.0
    ensures r < 0.0 ==> i as real - 1.0 < r <= i as real
  {
    if r >= 0.0 then r.Floor else -((-r).Floor)
  }

  /** `int(v)`: `None` when Python raises (None, a list, a dict, a malformed string). */
  function PyInt(v: Json): Option<int> {
    match v
    case JBool(b) => Some(if b then 1 else 0)
    case JInt(i) => Some(i)
    case JReal(r) => Some(Truncate(r))
    case JStr(s) => ParseIntLiteral(s)
    case _ => None
  }

  /**
   * `int(v or 0)`, with any exception mapped to 0: the helper `_i` that both
   * the OpenClaw aggregator and the coding-tool parsers use for token counts.
   */
  function IntOrZero(v: Json): (n: int)
    ensures !Truthy(v) ==> n == 0
    ensures v.JInt? ==> n == v.i
    ensures v.JBool? ==> n == (if v.b then 1 else 0)
    ensures v.JArr? || v.JObj? || v.JNull? ==> n == 0
    ensures v.JStr? && ParseIntLiteral(v.s).None? ==> n == 0
  {
    if !Truthy(v) then 0
    else
      match PyInt(v)
      case Some(n) => n
      case None => 0
  }

  lemma {:induction false} StripKeepsTrimmed(s: string)
    requires s != [] && !IsSpace(s[0]) && !IsSpace(s[|s| - 1])
    ensures Strip(s) == s
  {
    assert TrimStart(s, Blank) == s;
  }

  lemma {:induction false} DigitsAreBody(ds: string)
    requires ds != [] && AllDigits(ds)
    ensures DigitBody(ds) && DropUnderscores(ds) == ds
  {
  }

  lemma {:induction false} ParseDigits(ds: string)
    requires ds != [] && AllDigits(ds)
    ensures ParseIntLiteral(ds) == Some(DigitsValue(ds))
  {
    assert !IsSpace(ds[0]) && !IsSpace(ds[|ds| - 1]);
    StripKeepsTrimmed(ds);
    DigitsAreBody(ds);
    assert ds[0] != '-' && ds[0] != '+';
  }

  lemma {:induction false} ParseNegativeDigits(ds: string)
    requires ds != [] && AllDigits(ds)
    ensures ParseIntLiteral("-" + ds) == Some(-(DigitsValue(ds) as int))
  {
    NegativeTextIsTrimmed(ds);
    ParseSignedNegative(ds);
  }

  lemma {:induction false} NegativeTextIsTrimmed(ds: string)
    requires ds != [] && AllDigits(ds)
    ensures Strip("-" + ds) == "-" + ds
  {
    var neg := "-" + ds;
    assert neg[|neg| - 1] == ds[|ds| - 1];
    StripKeepsTrimmed(neg);
  }

  lemma {:induction false} ParseSignedNegative(ds: string)
    requires ds != [] && AllDigits(ds)
    ensures ParseSigned("-" + ds) == Some(-(DigitsValue(ds) as int))
  {
    var neg := "-" + ds;
    DigitsAreBody(ds);
    assert neg[0] == '-' && neg[1..] == ds;
  }

  /** `int(str(n)) == n`: the decimal text of an int parses back to it. */
  lemma {:induction false} ParseDecimalText(n: int)
    ensures ParseIntLiteral(IntToDecimal(n)) == Some(n)
  {
    var m := if n < 0 then -n else n;
    DigitsValueOfNatToDigits(m);
    if n < 0 {
      ParseNegativeDigits(NatToDigits(m));
    } else {
      ParseDigits(NatToDigits(m));
    }
  }

  /** Reading a token count back from its own decimal text gives the count. */
  lemma {:induction false} IntOrZeroOfDecimalText(n: int)
    ensures IntOrZero(JStr(IntToDecimal(n))) == n
  {
    ParseDecimalText(n);
  }

  /**
   * `float(v)`: `None` when Python raises. Of strings, the integer spellings
   * `int()` accepts are read; other numeric spellings are not modelled and
   * count as raising.
   */
  function PyFloat(v: Json): (r: Option<real>)
    ensures v.JInt? ==> r == Some(v.i as real)
    ensures v.JReal? ==> r == Some(v.r)
    ensures v.JNull? || v.JArr? || v.JObj? ==> r.None?
  {
    match v
    case JBool(b) => Some(if b then 1.0 else 0.0)
    case JInt(i) => Some(i as real)
    case JReal(r) => Some(r)
    case JStr(s) =>
      (match ParseIntLiteral(s)
       case Some(i) => Some(i as real)
       case None => None)
    case _ => None
  }

  /**
   * `str(v)`: exact for strings, None, booleans, ints and integral floats
   * of magnitude below 1e16; other floats, lists and dicts are rendered by
   * a fixed placeholder, and an integral float of magnitude 1e16 or more in
   * positional form where Python writes an exponent.
   */
  function PyStr(v: Json): (s: string)
    ensures v.JStr? ==> s == v.s
  {
    match v
    case JNull => "None"
    case JBool(b) => if b then "True" else "False"
    case JInt(i) => IntToDecimal(i)
    case JReal(r) => if r == r.Floor as real then IntToDecimal(r.Floor) + ".0" else "<float>"
    case JStr(s) => s
    case JArr(_) => "<list>"
    case JObj(_) => "<dict>"
  }
}
