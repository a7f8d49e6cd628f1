/** Timestamps as the clock hands them over, and their `yyyyMMdd` / `HHmmss` renderings. */
module Clock {
  import opened Numerals

  /** A local date and time, as `LocalDateTime.now()` would give it. */
  datatype DateTime = DateTime(year: int, month: int, day: int, hour: int, minute: int, second: int)

  predicate ValidDateTime(t: DateTime) {
    && 1 <= t.year <= 9999
    && 1 <= t.month <= 12
    && 1 <= t.day <= 31
    && 0 <= t.hour <= 23
    && 0 <= t.minute <= 59
    && 0 <= t.second <= 59
  }

  predicate SameDate(a: DateTime, b: DateTime) {
    a.year == b.year && a.month == b.month && a.day == b.day
  }

  predicate SameSecond(a: DateTime, b: DateTime) {
    SameDate(a, b) && a.hour == b.hour && a.minute == b.minute && a.second == b.second
  }

  /** The `yyyyMMdd` rendering: eight digits that read back as year, month and day. */
  function DateStamp(t: DateTime): (s: string)
    requires ValidDateTime(t)
    ensures |s| == 8 && IsDigits(s)
    ensures DecimalValue(s[..4]) == t.year && DecimalValue(s[4..6]) == t.month && DecimalValue(s[6..]) == t.day
  {
    assert Pow10(4) == 10000 && Pow10(2) == 100;
    var y, m, d := Digits(t.year, 4), Digits(t.month, 2), Digits(t.day, 2);
    var s := y + m + d;
    assert s[..4] == y && s[4..6] == m && s[6..] == d;
    s
  }

  /** The `HHmmss` rendering: six digits that read back as hour, minute and second. */
  function TimeStamp(t: DateTime): (s: string)
    requires ValidDateTime(t)
    ensures |s| == 6 && IsDigits(s)
    ensures DecimalValue(s[..2]) == t.hour && DecimalValue(s[2..4]) == t.minute && DecimalValue(s[4..]) == t.second
  {
    assert Pow10(2) == 100;
    var h, m, sec := Digits(t.hour, 2), Digits(t.minute, 2), Digits(t.second, 2);
    var s := h + m + sec;
    assert s[..2] == h && s[2..4] == m && s[4..] == sec;
    s
  }
}
