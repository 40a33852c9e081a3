/**
 * The configured earliest opening time, an "HH:MM:SS" string, parsed as
 * `datetime.time(*(int(x) for x in EARLIEST_OPEN.split(":")))`: exactly
 * three colon-separated integer fields, hour 0..23, minute and second 0..59.
 * Any failure (wrong field count, a field that is not an integer, a value
 * out of range) gives `None`.
 *
 * Python's `int(x)` is modelled as: strip whitespace, an optional '+' or
 * '-', then one or more ASCII decimal digits. Its acceptance of '_' between
 * digits and of non-ASCII digits is not modelled.
 */
module EarliestOpen {
  import opened Optional
  import opened Text

  datatype TimeOfDay = TimeOfDay(hour: int, minute: int, second: int)

  /** The ranges `datetime.time` accepts. */
  predicate ValidTime(t: TimeOfDay) {
    0 <= t.hour < 24 && 0 <= t.minute < 60 && 0 <= t.second < 60
  }

  const MicrosPerSecond: nat := 1_000_000
  const MicrosPerDay: nat := 86_400 * MicrosPerSecond

  /** `int(field)` */
  function ParseInt(field: string): (r: Option<int>)
    ensures IsDigits(field) ==> r == Some(DigitsValue(field))
    // accepted exactly when the stripped field is digits with an optional sign
    ensures var t := Strip(field);
      r.Some? <==> IsDigits(t) || (|t| > 0 && (t[0] == '+' || t[0] == '-') && IsDigits(t[1..]))
    ensures var t := Strip(field);
      |t| > 0 && (t[0] == '+' || t[0] == '-') && IsDigits(t[1..]) ==>
        var magnitude: int := DigitsValue(t[1..]);
        r == Some(if t[0] == '-' then -magnitude else magnitude)
    ensures IsDigits(Strip(field)) ==> r == Some(DigitsValue(Strip(field)))
  {
    var t := Strip(field);
    if |t| > 0 && (t[0] == '+' || t[0] == '-') then
      if IsDigits(t[1..]) then
        var magnitude: int := DigitsValue(t[1..]);
        Some(if t[0] == '-' then -magnitude else magnitude)
      else None
    else if IsDigits(t) then Some(DigitsValue(t))
    else None
  }

  /** The earliest-open parse of `calculate_sunrise_and_sunset`. */
  function ParseEarliestOpen(s: string): (r: Option<TimeOfDay>)
    ensures r.Some? ==> ValidTime(r.value) && Count(s, ':') == 2
    // a time exactly when there are three integer fields forming a valid time
    ensures var f := Split(s, ':');
      r.Some? <==> (|f| == 3 && ParseInt(f[0]).Some? && ParseInt(f[1]).Some? && ParseInt(f[2]).Some? &&
                    ValidTime(TimeOfDay(ParseInt(f[0]).value, ParseInt(f[1]).value, ParseInt(f[2]).value)))
    ensures var f := Split(s, ':');
      r.Some? ==> r.value == TimeOfDay(ParseInt(f[0]).value, ParseInt(f[1]).value, ParseInt(f[2]).value)
  {
    var fields := Split(s, ':');
    if |fields| != 3 then None
    else
      match (ParseInt(fields[0]), ParseInt(fields[1]), ParseInt(fields[2]))
      case (Some(h), Some(m), Some(sec)) =>
        var t := TimeOfDay(h, m, sec);
        if ValidTime(t) then Some(t) else None
      case _ => None
  }

  /** Microseconds since midnight, the resolution of `datetime.time`. */
  function ToMicros(t: TimeOfDay): (r: int)
    requires ValidTime(t)
    ensures 0 <= r < MicrosPerDay
    ensures r % MicrosPerSecond == 0
  {
    ((t.hour * 60 + t.minute) * 60 + t.second) * MicrosPerSecond
  }

  /** `datetime.time` compares lexicographically by (hour, minute, second);
      microseconds since midnight order valid times the same way. */
  lemma ToMicrosOrder(t: TimeOfDay, u: TimeOfDay)
    requires ValidTime(t) && ValidTime(u)
    ensures ToMicros(t) < ToMicros(u) <==>
      t.hour < u.hour || (t.hour == u.hour && (t.minute < u.minute ||
        (t.minute == u.minute && t.second < u.second)))
  {
    var st := (t.hour * 60 + t.minute) * 60 + t.second;
    var su := (u.hour * 60 + u.minute) * 60 + u.second;
    assert ToMicros(t) == st * MicrosPerSecond && ToMicros(u) == su * MicrosPerSecond;
    assert ToMicros(t) < ToMicros(u) <==> st < su;
  }

  /** The canonical "HH:MM:SS" spelling of a time of day, against which the
      parse is checked; each field is two zero-padded digits. */
  function Format(t: TimeOfDay): string
    requires ValidTime(t)
  {
    TwoDigits(t.hour) + ":" + TwoDigits(t.minute) + ":" + TwoDigits(t.second)
  }

  lemma ParseTwoDigits(n: nat)
    requires n < 100
    ensures ParseInt(TwoDigits(n)) == Some(n)
  {
  }

  /** The three fields of a formatted time. */
  lemma SplitFormatted(t: TimeOfDay)
    requires ValidTime(t)
    ensures Split(Format(t), ':') == [TwoDigits(t.hour), TwoDigits(t.minute), TwoDigits(t.second)]
  {
    var h, m, s := TwoDigits(t.hour), TwoDigits(t.minute), TwoDigits(t.second);
    assert ':' !in h && ':' !in m && ':' !in s;
    assert Format(t) == h + [':'] + (m + [':'] + s);
    SplitField(h, ':', m + [':'] + s);
    SplitField(m, ':', s);
    SplitNoSeparator(s, ':');
  }

  /** Every valid time, written as "HH:MM:SS", parses back to itself. */
  lemma ParseFormatted(t: TimeOfDay)
    requires ValidTime(t)
    ensures ParseEarliestOpen(Format(t)) == Some(t)
  {
    SplitFormatted(t);
    ParseTwoDigits(t.hour);
    ParseTwoDigits(t.minute);
    ParseTwoDigits(t.second);
  }
}
