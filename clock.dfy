/** Wall-clock arithmetic on millisecond timestamps, the parts of JavaScript's `Date` the
    screens use: hours and minutes of the day, `setHours`, `setMinutes` and moving a time of
    day onto another calendar day. Local time is taken to have a fixed offset. */
module Clock {
  import opened Types

  const MinuteMs: int := 60_000
  const HourMs: int := 3_600_000
  const DayMs: int := 86_400_000

  /** Milliseconds since the start of the day. */
  function TimeOfDay(t: Timestamp): (r: int)
    ensures 0 <= r < DayMs
  {
    t % DayMs
  }

  /** The first millisecond of `t`'s day. */
  function DayStart(t: Timestamp): (r: Timestamp)
    ensures r % DayMs == 0 && r <= t < r + DayMs
    ensures r + TimeOfDay(t) == t
  {
    (t / DayMs) * DayMs
  }

  /** `getHours()`. */
  function Hours(t: Timestamp): (h: int)
    ensures 0 <= h < 24
  {
    TimeOfDay(t) / HourMs
  }

  /** `getMinutes()`. */
  function Minutes(t: Timestamp): (m: int)
    ensures 0 <= m < 60
  {
    (TimeOfDay(t) % HourMs) / MinuteMs
  }

  /** `setHours(h)`: the hour of the day becomes `h` (an out-of-range `h` moves on to another
      day), minutes, seconds and milliseconds are kept. */
  function SetHours(t: Timestamp, h: int): Timestamp {
    DayStart(t) + h * HourMs + TimeOfDay(t) % HourMs
  }

  /** `setMinutes(m)`: likewise for the minute of the hour. */
  function SetMinutes(t: Timestamp, m: int): Timestamp {
    DayStart(t) + Hours(t) * HourMs + m * MinuteMs + TimeOfDay(t) % MinuteMs
  }

  /** Euclidean division has unique quotient and remainder. */
  lemma DivModUnique(a: int, b: int, k: int)
    requires k > 0 && 0 <= b < k
    ensures (a * k + b) / k == a && (a * k + b) % k == b
  {
    var n := a * k + b;
    var q, r := n / k, n % k;
    assert (q - a) * k == b - r;
    if q > a {
      MulAtLeast(q - a, k);
    } else if q < a {
      MulAtLeast(a - q, k);
    }
  }

  lemma MulAtLeast(x: int, k: int)
    requires x >= 1 && k > 0
    ensures x * k >= k
  {
  }

  /** A time of day below one day, placed on day `q`, reads back as itself. */
  lemma DayPlacement(q: int, x: int)
    requires 0 <= x < DayMs
    ensures (q * DayMs + x) / DayMs == q && (q * DayMs + x) % DayMs == x
  {
    DivModUnique(q, x, DayMs);
  }

  /** The clock fields of a timestamp built from a day, an hour, a minute and a remainder. */
  lemma {:induction false} ClockFields(q: int, h: int, m: int, r: int)
    requires 0 <= h < 24 && 0 <= m < 60 && 0 <= r < MinuteMs
    ensures var t := q * DayMs + h * HourMs + m * MinuteMs + r;
      && TimeOfDay(t) == h * HourMs + m * MinuteMs + r
      && DayStart(t) == q * DayMs
      && Hours(t) == h && Minutes(t) == m
      && t % MinuteMs == r
  {
    var x := h * HourMs + m * MinuteMs + r;
    DayPlacement(q, x);
    DivModUnique(h, m * MinuteMs + r, HourMs);
    DivModUnique(m, r, MinuteMs);
    DivModUnique(q * 1440 + h * 60 + m, r, MinuteMs);
    assert q * DayMs + x == (q * 1440 + h * 60 + m) * MinuteMs + r;
  }

  /** Every timestamp is so built from its own fields. */
  lemma {:induction false} FieldsOf(t: Timestamp)
    ensures t == (t / DayMs) * DayMs + Hours(t) * HourMs + Minutes(t) * MinuteMs + t % MinuteMs
    ensures t % MinuteMs == TimeOfDay(t) % MinuteMs
  {
    var d := TimeOfDay(t);
    assert d == Hours(t) * HourMs + d % HourMs;
    var r := d % HourMs;
    assert r == Minutes(t) * MinuteMs + r % MinuteMs;
    DivModUnique(Hours(t) * 60 + Minutes(t), r % MinuteMs, MinuteMs);
    assert d == (Hours(t) * 60 + Minutes(t)) * MinuteMs + r % MinuteMs;
    assert d % MinuteMs == r % MinuteMs;
    DivModUnique((t / DayMs) * 1440 + Hours(t) * 60 + Minutes(t), r % MinuteMs, MinuteMs);
    assert t == ((t / DayMs) * 1440 + Hours(t) * 60 + Minutes(t)) * MinuteMs + r % MinuteMs;
  }

  lemma {:induction false} SetHoursReads(t: Timestamp, h: int)
    requires 0 <= h < 24
    ensures Hours(SetHours(t, h)) == h && Minutes(SetHours(t, h)) == Minutes(t)
    ensures DayStart(SetHours(t, h)) == DayStart(t)
    ensures SetHours(t, h) % MinuteMs == t % MinuteMs
  {
    FieldsOf(t);
    var r := TimeOfDay(t) % HourMs;
    assert r == Minutes(t) * MinuteMs + t % MinuteMs;
    ClockFields(t / DayMs, h, Minutes(t), t % MinuteMs);
  }

  lemma {:induction false} SetMinutesReads(t: Timestamp, m: int)
    requires 0 <= m < 60
    ensures Hours(SetMinutes(t, m)) == Hours(t) && Minutes(SetMinutes(t, m)) == m
    ensures DayStart(SetMinutes(t, m)) == DayStart(t)
    ensures SetMinutes(t, m) % MinuteMs == t % MinuteMs
  {
    FieldsOf(t);
    ClockFields(t / DayMs, Hours(t), m, t % MinuteMs);
  }
}
