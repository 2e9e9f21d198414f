/**
 * Fractional-day timestamps (WindGen.py:67-91): a date or datetime becomes
 * its proleptic Gregorian day ordinal plus the elapsed fraction of that day,
 * after an aware datetime is moved back to UTC by its offset.
 *
 * date.toordinal() and tzinfo.utcoffset() are library calls: a moment
 * carries its day ordinal, and a tzinfo carries the offset it answers,
 * in microseconds.
 */
module OrdinalDays {
  import opened Wrappers

  type Hour = h: int | 0 <= h < 24
  type Minute = m: int | 0 <= m < 60
  type Second = s: int | 0 <= s < 60
  type Microsecond = us: int | 0 <= us < 1000000

  /** A tzinfo object, reduced to what utcoffset() answers for the datetime it is attached to. */
  datatype TzInfo = TzInfo(utcOffset: Option<int>)

  /** A datetime.date (no time attributes) or a datetime.datetime. */
  datatype Moment =
    | Date(ordinal: int)
    | DateTime(ordinal: int, hour: Hour, minute: Minute, second: Second,
               microsecond: Microsecond, tzinfo: Option<TzInfo>)

  // The divisors of WindGen.py:67-70.
  const HoursPerDay: real := 24.0
  const MinutesPerDay: real := 60.0 * HoursPerDay
  const SecondsPerDay: real := 60.0 * MinutesPerDay
  const MicrosecondsPerDay: real := 1000000.0 * SecondsPerDay

  const UsPerSecond: int := 1000000
  const UsPerMinute: int := 60 * UsPerSecond
  const UsPerHour: int := 60 * UsPerMinute
  const UsPerDay: int := 24 * UsPerHour

  /** Wall-clock time in microseconds since midnight of day ordinal 0. */
  function LocalMicros(m: Moment): int
  {
    match m
    case Date(d) => d * UsPerDay
    case DateTime(d, h, mi, s, us, _) =>
      d * UsPerDay + h * UsPerHour + mi * UsPerMinute + s * UsPerSecond + us
  }

  /** The offset WindGen.py:80-82 subtracts: present only for an aware datetime whose tzinfo answers. */
  function UtcOffset(m: Moment): Option<int>
  {
    if m.DateTime? && m.tzinfo.Some? then m.tzinfo.value.utcOffset else None
  }

  /** The instant in UTC, in microseconds since midnight of day ordinal 0. */
  function UtcMicros(m: Moment): int
  {
    match UtcOffset(m)
    case Some(delta) => LocalMicros(m) - delta
    case None => LocalMicros(m)
  }

  /**
   * `dt - delta` for a timedelta of `delta` microseconds: the sum is
   * normalised as Python's timedelta does (floor division into days,
   * seconds and microseconds), and the tzinfo is kept.
   */
  function Subtract(m: Moment, delta: int): (r: Moment)
    requires m.DateTime?
    ensures r.DateTime? && r.tzinfo == m.tzinfo
    ensures LocalMicros(r) == LocalMicros(m) - delta
  {
    var t := LocalMicros(m) - delta;
    var days, rest := t / UsPerDay, t % UsPerDay;
    var seconds, us := rest / UsPerSecond, rest % UsPerSecond;
    var hour, minuteSeconds := seconds / 3600, seconds % 3600;
    var minute, second := minuteSeconds / 60, minuteSeconds % 60;
    DateTime(days, hour, minute, second, us, m.tzinfo)
  }

  /**
   * The fraction of the day elapsed at a time of day: always in [0, 1),
   * and equal to the microseconds since midnight over a day's microseconds.
   */
  function DayFraction(hour: Hour, minute: Minute, second: Second, microsecond: Microsecond): (r: real)
    ensures 0.0 <= r < 1.0
    ensures r == (hour * UsPerHour + minute * UsPerMinute + second * UsPerSecond + microsecond) as real
                 / MicrosecondsPerDay
  {
    hour as real / HoursPerDay + minute as real / MinutesPerDay
    + second as real / SecondsPerDay + microsecond as real / MicrosecondsPerDay
  }

  /**
   * _to_ordinalf (WindGen.py:73-91). The result is the UTC instant counted
   * in days since midnight of day ordinal 0; for a naive datetime or a date
   * it lies in [ordinal, ordinal + 1).
   */
  function ToOrdinalF(dt: Moment): (f: real)
    ensures f == UtcMicros(dt) as real / MicrosecondsPerDay
    ensures UtcOffset(dt).None? ==> dt.ordinal as real <= f < dt.ordinal as real + 1.0
  {
    var dt := match UtcOffset(dt)
      case Some(delta) => Subtract(dt, delta)
      case None => dt;
    var base := dt.ordinal as real;
    match dt
    case Date(_) => base
    case DateTime(_, h, mi, s, us, _) => base + DayFraction(h, mi, s, us)
  }

  /**
   * An aware datetime's value is the value of the same wall-clock fields
   * read as naive, less its offset counted in days.
   */
  lemma OffsetSubtracted(dt: Moment, delta: int)
    requires dt.DateTime? && dt.tzinfo == Some(TzInfo(Some(delta)))
    ensures ToOrdinalF(dt) == ToOrdinalF(dt.(tzinfo := None)) - delta as real / MicrosecondsPerDay
  {
  }

  /**
   * The fractional-day value orders moments as their UTC instants do, and
   * gives equal values exactly to equal instants.
   */
  lemma OrdinalFOrder(a: Moment, b: Moment)
    ensures UtcMicros(a) < UtcMicros(b) <==> ToOrdinalF(a) < ToOrdinalF(b)
    ensures UtcMicros(a) == UtcMicros(b) <==> ToOrdinalF(a) == ToOrdinalF(b)
  {
  }
}
