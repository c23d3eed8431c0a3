/** The web date and time input: in time mode it shows the value as "HH:MM" and reads a
    typed "HH:MM" back into the value's day; in date mode it reads a typed date and keeps
    the value's hour and minute. Reading a date string is the parameter `parseDate`
    (`None` when the string does not denote a date). */
module DatePicker {
  import opened Wrappers
  import opened Types
  import opened Text
  import opened Clock

  datatype Mode = DateMode | TimeMode

  /** Time-mode `formatValue`: the hour and the minute, each as two digits. */
  function FormatTime(t: Timestamp): (r: string)
    ensures |r| == 5 && r[2] == ':'
    ensures IsDigits(r[..2]) && DigitsValue(r[..2]) == Hours(t)
    ensures IsDigits(r[3..]) && DigitsValue(r[3..]) == Minutes(t)
  {
    var r := Pad2(Hours(t)) + ":" + Pad2(Minutes(t));
    assert r[..2] == Pad2(Hours(t)) && r[3..] == Pad2(Minutes(t));
    r
  }

  /** `setHours(h, m, 0, 0)`: the clock of `d`'s day set to `h:m:00.000`. */
  function AtClock(d: Timestamp, h: int, m: int): Timestamp {
    DayStart(d) + h * HourMs + m * MinuteMs
  }

  /** The time-mode reading of `text` into `value`: with a ':' the hour and the minute are
      set from the parts before and after the first ':' (each `parseInt || 0`); without
      one, the value is kept. */
  function TimeChange(value: Timestamp, text: string): Timestamp {
    var parts := Split(text, ':');
    if |parts| >= 2 then SetMinutes(SetHours(value, ParseIntOrZero(parts[0])), ParseIntOrZero(parts[1]))
    else value
  }

  /** The date-mode reading: the picked day at the value's hour and minute, or the value
      itself when the text is not a date. */
  function DateChange(value: Timestamp, picked: Option<Timestamp>): Timestamp {
    match picked
    case Some(d) => AtClock(d, Hours(value), Minutes(value))
    case None => value
  }

  /** `handleChange`: `None` when nothing is reported (an empty input), otherwise the new
      value passed to `onChange`. */
  method HandleChange(value: Timestamp, mode: Mode, newValue: string, parseDate: string -> Option<Timestamp>)
    returns (r: Option<Timestamp>)
    ensures newValue == "" <==> r.None?
    ensures newValue != "" && mode == DateMode ==> r == Some(DateChange(value, parseDate(newValue)))
    ensures newValue != "" && mode == TimeMode ==> r == Some(TimeChange(value, newValue))
  {
    if newValue == "" {
      return None;
    }
    var newDate: Timestamp;
    if mode == DateMode {
      var parsed := parseDate(newValue);
      if parsed.Some? {
        newDate := parsed.value;
        newDate := AtClock(newDate, Hours(value), Minutes(value));
      } else {
        newDate := value;
      }
    } else {
      var parts := Split(newValue, ':');
      newDate := value;
      if |parts| >= 2 {
        newDate := SetHours(newDate, ParseIntOrZero(parts[0]));
        newDate := SetMinutes(newDate, ParseIntOrZero(parts[1]));
      }
    }
    r := Some(newDate);
  }

  /** Typing back what the time input shows for `t` gives the value `t`'s hour and minute,
      on the value's own day and with its seconds and milliseconds kept. */
  lemma TimeRoundTrip(value: Timestamp, t: Timestamp)
    ensures var r := TimeChange(value, FormatTime(t));
      && Hours(r) == Hours(t) && Minutes(r) == Minutes(t)
      && DayStart(r) == DayStart(value) && r % MinuteMs == value % MinuteMs
  {
    var hh, mm := Pad2(Hours(t)), Pad2(Minutes(t));
    DigitsExclude(hh, ':');
    DigitsExclude(mm, ':');
    assert FormatTime(t) == hh + [':'] + mm;
    SplitPair(hh, ':', mm);
    ParseIntDigits(hh);
    ParseIntDigits(mm);
    var withHours := SetHours(value, Hours(t));
    SetHoursReads(value, Hours(t));
    SetMinutesReads(withHours, Minutes(t));
  }

  /** Any "H:M" with in-range parts sets exactly that hour and minute on the value's day. */
  lemma TimeDigits(value: Timestamp, h: string, m: string)
    requires IsDigits(h) && IsDigits(m) && h != [] && m != []
    requires DigitsValue(h) < 24 && DigitsValue(m) < 60
    ensures var r := TimeChange(value, h + ":" + m);
      Hours(r) == DigitsValue(h) && Minutes(r) == DigitsValue(m) && DayStart(r) == DayStart(value)
  {
    DigitsExclude(h, ':');
    DigitsExclude(m, ':');
    assert h + ":" + m == h + [':'] + m;
    SplitPair(h, ':', m);
    ParseIntDigits(h);
    ParseIntDigits(m);
    SetHoursReads(value, DigitsValue(h));
    SetMinutesReads(SetHours(value, DigitsValue(h)), DigitsValue(m));
  }

  /** Text without a colon leaves the value as it is. */
  lemma TimeNoColon(value: Timestamp, text: string)
    requires ':' !in text
    ensures TimeChange(value, text) == value
  {
    SplitNone(text, ':');
  }

  /** An hour part that is not a number reads as 0. */
  lemma TimeNotNumber(value: Timestamp, text: string, m: string)
    requires ':' !in text && ParseInt(text).None?
    requires IsDigits(m) && m != [] && DigitsValue(m) < 60
    ensures var r := TimeChange(value, text + ":" + m);
      Hours(r) == 0 && Minutes(r) == DigitsValue(m) && DayStart(r) == DayStart(value)
  {
    DigitsExclude(m, ':');
    assert text + ":" + m == text + [':'] + m;
    SplitPair(text, ':', m);
    ParseIntDigits(m);
    assert ParseIntOrZero(text) == 0;
    SetHoursReads(value, 0);
    SetMinutesReads(SetHours(value, 0), DigitsValue(m));
  }

  /** In date mode the new value is on the picked day at the value's hour and minute, with
      seconds and milliseconds zeroed; text that is not a date keeps the value. */
  lemma DateKeepsClock(value: Timestamp, picked: Option<Timestamp>)
    ensures picked.None? ==> DateChange(value, picked) == value
    ensures picked.Some? ==>
      var r := DateChange(value, picked);
      && DayStart(r) == DayStart(picked.value)
      && Hours(r) == Hours(value) && Minutes(r) == Minutes(value)
      && r % MinuteMs == 0
  {
    if picked.Some? {
      var d := picked.value;
      ClockFields(d / DayMs, Hours(value), Minutes(value), 0);
      assert DayStart(d) == (d / DayMs) * DayMs;
    }
  }
}
