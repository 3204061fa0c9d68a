/**
 * The wall-clock time the teardown stamps a screenshot with. The clock itself is not
 * modelled: the time is an input. Only its "yyyyMMdd_HHmmss" rendering matters.
 */
module Clock {
  import opened Wrappers
  import opened Strings

  predicate IsLeapYear(y: int) {
    y % 4 == 0 && (y % 100 != 0 || y % 400 == 0)
  }

  function DaysInMonth(y: int, m: int): int {
    if m == 2 then (if IsLeapYear(y) then 29 else 28)
    else if m == 4 || m == 6 || m == 9 || m == 11 then 30
    else 31
  }

  datatype Fields = Fields(year: int, month: int, day: int, hour: int, minute: int, second: int)

  /** The range of a .NET DateTime, kept to the second: the stamp has no finer field. */
  predicate IsValid(f: Fields) {
    && 1 <= f.year <= 9999
    && 1 <= f.month <= 12
    && 1 <= f.day <= DaysInMonth(f.year, f.month)
    && 0 <= f.hour < 24
    && 0 <= f.minute < 60
    && 0 <= f.second < 60
  }

  /** A local date and time as DateTime.Now yields it. */
  type DateTime = f: Fields | IsValid(f) witness Fields(1, 1, 1, 0, 0, 0)

  /** Eight digits, an underscore, six digits. */
  predicate IsStampShaped(s: string) {
    |s| == 15 && s[8] == '_' && forall i :: 0 <= i < 15 && i != 8 ==> IsDigit(s[i])
  }

  /** DateTime.ToString("yyyyMMdd_HHmmss"). */
  function FormatStamp(t: DateTime): (s: string)
    ensures IsStampShaped(s)
  {
    var date := PadDigits(t.year, 4) + PadDigits(t.month, 2) + PadDigits(t.day, 2);
    var time := PadDigits(t.hour, 2) + PadDigits(t.minute, 2) + PadDigits(t.second, 2);
    assert AllDigits(date) && AllDigits(time);
    date + "_" + time
  }

  /** Reads a "yyyyMMdd_HHmmss" stamp back; None when it is not one. */
  function ParseStamp(s: string): (r: Option<DateTime>)
    ensures r.Some? ==> IsStampShaped(s)
  {
    if !IsStampShaped(s) then None
    else
      var f := Fields(DecimalValue(s[0..4]), DecimalValue(s[4..6]), DecimalValue(s[6..8]),
                      DecimalValue(s[9..11]), DecimalValue(s[11..13]), DecimalValue(s[13..15]));
      if IsValid(f) then Some(f) else None
  }

  /** Where each field sits in the stamp. */
  lemma FormatStampFields(t: DateTime)
    ensures var s := FormatStamp(t);
      && s[0..4] == PadDigits(t.year, 4) && s[4..6] == PadDigits(t.month, 2) && s[6..8] == PadDigits(t.day, 2)
      && s[9..11] == PadDigits(t.hour, 2) && s[11..13] == PadDigits(t.minute, 2) && s[13..15] == PadDigits(t.second, 2)
  {
    var date := PadDigits(t.year, 4) + PadDigits(t.month, 2) + PadDigits(t.day, 2);
    var time := PadDigits(t.hour, 2) + PadDigits(t.minute, 2) + PadDigits(t.second, 2);
    var s := FormatStamp(t);
    assert s[0..8] == date && s[9..15] == time;
    assert date[0..4] == PadDigits(t.year, 4) && date[4..6] == PadDigits(t.month, 2) && date[6..8] == PadDigits(t.day, 2);
    assert time[0..2] == PadDigits(t.hour, 2) && time[2..4] == PadDigits(t.minute, 2) && time[4..6] == PadDigits(t.second, 2);
  }

  /** Every timestamp survives being written and read back. */
  lemma StampRoundTrip(t: DateTime)
    ensures ParseStamp(FormatStamp(t)) == Some(t)
  {
    FormatStampFields(t);
    assert Pow10(2) == 100 && Pow10(4) == 10000;
    PadDigitsValue(t.year, 4);
    PadDigitsValue(t.month, 2);
    PadDigitsValue(t.day, 2);
    PadDigitsValue(t.hour, 2);
    PadDigitsValue(t.minute, 2);
    PadDigitsValue(t.second, 2);
  }

  /** Two times that differ at the second or above never render to the same stamp. */
  lemma StampInjective(t1: DateTime, t2: DateTime)
    requires FormatStamp(t1) == FormatStamp(t2)
    ensures t1 == t2
  {
    StampRoundTrip(t1);
    StampRoundTrip(t2);
  }
}
