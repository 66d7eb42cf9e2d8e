/**
 * Datetimes as the aggregators use them. A `datetime` is a wall-clock
 * reading in seconds since the epoch together with its UTC offset, or no
 * offset for a naive value. Parsing ISO-8601 text and the local time zone
 * belong to the host, and are parameters (`Env`).
 */
module Clock {
  import opened Wrappers
  import opened Json
  import opened Text

  /** A `datetime`: wall-clock seconds since the epoch and the UTC offset in seconds (`None`: naive). */
  datatype DateTime = DateTime(wall: real, offset: Option<real>)

  /**
   * What the program takes from its host: `datetime.fromisoformat` (None
   * when it raises), the local UTC offset in force at a local wall-clock
   * reading, and the local calendar day (a day number) of a UTC instant.
   */
  datatype Env = Env(fromIso: string -> Option<DateTime>, localOffset: real -> real, localDay: real -> int)

  /** `_to_utc(dt)` as an instant: a naive value is read as UTC, an aware one converted. */
  function Utc(dt: DateTime): (t: real)
    ensures dt.offset.None? ==> t == dt.wall
    ensures dt.offset == Some(0.0) ==> t == dt.wall
  {
    match dt.offset
    case None => dt.wall
    case Some(o) => dt.wall - o
  }

  /** An aware UTC datetime at instant `t`. */
  function AtUtc(t: real): (dt: DateTime)
    ensures Utc(dt) == t
  {
    DateTime(t, Some(0.0))
  }

  /**
   * `BaseParser._in_range`: the half-open interval `[since, until)`, a
   * missing bound leaving that side open, every value compared in UTC.
   */
  predicate InRange(ts: DateTime, since: Option<DateTime>, until: Option<DateTime>) {
    var t := Utc(ts);
    if since.Some? && t < Utc(since.value) then false
    else if until.Some? && t >= Utc(until.value) then false
    else true
  }

  /**
   * Consecutive windows `[a, b)` and `[b, c)` split `[a, c)`: a timestamp
   * falls in exactly one of them, so adjacent periods never count a record
   * twice or lose it.
   */
  lemma {:induction false} AdjacentWindowsSplit(ts: DateTime, a: DateTime, b: DateTime, c: DateTime)
    requires Utc(a) <= Utc(b) <= Utc(c)
    ensures InRange(ts, Some(a), Some(c)) <==> (InRange(ts, Some(a), Some(b)) != InRange(ts, Some(b), Some(c)))
  {
  }

  /** A naive value is in range exactly when the same reading in UTC is. */
  lemma {:induction false} NaiveIsUtc(wall: real, since: Option<DateTime>, until: Option<DateTime>)
    ensures InRange(DateTime(wall, None), since, until) == InRange(AtUtc(wall), since, until)
  {
  }

  /** `int(ts.timestamp() * 1000)`: milliseconds, truncated toward zero. */
  function Millis(dt: DateTime): (ms: int)
    ensures Utc(dt) >= 0.0 ==> ms as real <= Utc(dt) * 1000.0 < ms as real + 1.0
  {
    Truncate(Utc(dt) * 1000.0)
  }

  /** The instants a `datetime` can hold: 0001-01-01T00:00:00Z up to the end of 9999-12-31. */
  const MinInstant: real := -62135596800.0
  const EndInstant: real := 253402300800.0

  /**
   * `datetime.fromtimestamp(t, timezone.utc)`: `None` where Python raises
   * because the instant is outside the years 1 to 9999.
   */
  function FromTimestamp(t: real): (r: Option<DateTime>)
    ensures r.Some? <==> MinInstant <= t < EndInstant
    ensures r.Some? ==> Utc(r.value) == t
  {
    if MinInstant <= t < EndInstant then Some(AtUtc(t)) else None
  }

  /** `text.replace("Z", "+00:00")` */
  function ZuluToOffset(text: string): (r: string)
    ensures 'Z' !in r
  {
    ReplaceCharBy(text, 'Z', "+00:00")
  }

  /**
   * `datetime.fromisoformat(text.replace("Z", "+00:00")).astimezone(timezone.utc)`:
   * a naive result is read in local time, as `astimezone` does.
   */
  function ParseIsoUtc(env: Env, text: string): (r: Option<DateTime>)
    ensures r.Some? ==> r.value.offset == Some(0.0)
  {
    match env.fromIso(ZuluToOffset(text))
    case None => None
    case Some(dt) =>
      if dt.offset.None? then Some(AtUtc(dt.wall - env.localOffset(dt.wall)))
      else Some(AtUtc(Utc(dt)))
  }
}
