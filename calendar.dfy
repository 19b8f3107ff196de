/** Calendar dates as already-parsed (year, month, day) triples, and the two
    text keys the analytics group cost entries by: the day key `str(date)`
    of the summary's trend and the month key `f"{year}-{month:02d}"` of the
    dashboard's monthly trend. */
module Calendar {
  import opened Wrappers
  import opened Text

  datatype Date = Date(year: nat, month: nat, day: nat)

  predicate IsLeapYear(y: nat) {
    y % 4 == 0 && (y % 100 != 0 || y % 400 == 0)
  }

  function DaysInMonth(y: nat, m: nat): (days: nat)
    requires 1 <= m <= 12
  {
    if m == 2 then (if IsLeapYear(y) then 29 else 28)
    else if m == 4 || m == 6 || m == 9 || m == 11 then 30
    else 31
  }

  /** A date Python's `date` type accepts (years 1 to 9999). */
  predicate Valid(d: Date) {
    1 <= d.year <= 9999 && 1 <= d.month <= 12 && 1 <= d.day <= DaysInMonth(d.year, d.month)
  }

  /** Chronological order of dates. */
  predicate Before(d: Date, e: Date) {
    d.year < e.year
    || (d.year == e.year && (d.month < e.month || (d.month == e.month && d.day < e.day)))
  }

  /** `str(d)` for a `date`: ISO `YYYY-MM-DD`, every field zero-padded. */
  function IsoDate(d: Date): (s: string)
    ensures Valid(d) ==> |s| == 10 && s[4] == '-' && s[7] == '-'
    ensures Valid(d) ==> IsDigits(s[..4]) && IsDigits(s[5..7]) && IsDigits(s[8..])
  {
    var s := Padded(d.year, 4) + "-" + Padded(d.month, 2) + "-" + Padded(d.day, 2);
    assert Valid(d) ==> && |s| == 10 && s[4] == '-' && s[7] == '-'
                        && s[..4] == Padded(d.year, 4) && s[5..7] == Padded(d.month, 2) && s[8..] == Padded(d.day, 2) by {
      if Valid(d) {
        assert Pow10(4) == 10000 && Pow10(2) == 100;
        PaddedLength(d.year, 4);
        PaddedLength(d.month, 2);
        PaddedLength(d.day, 2);
      }
    }
    s
  }

  /** The dashboard's month key `f"{d.year}-{d.month:02d}"`: the month is
      padded to two digits, the year is not padded at all. */
  function MonthKey(d: Date): (k: string)
    ensures Valid(d) ==> |k| >= 4 && k[|k| - 3] == '-' && IsDigits(k[..|k| - 3]) && IsDigits(k[|k| - 2..])
  {
    var k := Padded(d.year, 1) + "-" + Padded(d.month, 2);
    assert Valid(d) ==> k[..|k| - 3] == Padded(d.year, 1) && k[|k| - 2..] == Padded(d.month, 2) by {
      if Valid(d) {
        assert Pow10(2) == 100;
        PaddedLength(d.month, 2);
      }
    }
    k
  }

  /** The month-and-day part of an ISO date, after the year and its separator. */
  function MonthDay(d: Date): (s: string) {
    Padded(d.month, 2) + "-" + Padded(d.day, 2)
  }

  /** Within a year, the month-and-day texts sort and compare as the month
      and day do. */
  lemma MonthDayOrder(d: Date, e: Date)
    requires Valid(d) && Valid(e)
    ensures LexLess(MonthDay(d), MonthDay(e)) <==> d.month < e.month || (d.month == e.month && d.day < e.day)
    ensures MonthDay(d) == MonthDay(e) <==> d.month == e.month && d.day == e.day
  {
    assert Pow10(2) == 100;
    assert MonthDay(d) == Padded(d.month, 2) + ['-'] + Padded(d.day, 2);
    assert MonthDay(e) == Padded(e.month, 2) + ['-'] + Padded(e.day, 2);
    FieldThenCompare(d.month, e.month, 2, '-', Padded(d.day, 2), Padded(e.day, 2));
    FieldThenEqual(d.month, e.month, 2, '-', Padded(d.day, 2), Padded(e.day, 2));
    PaddedCompare(d.day, e.day, 2);
  }

  /** Day keys sort as strings exactly in chronological order, so the summary's
      trend, sorted by key, runs from the earliest day to the latest. */
  lemma IsoDateOrder(d: Date, e: Date)
    requires Valid(d) && Valid(e)
    ensures LexLess(IsoDate(d), IsoDate(e)) <==> Before(d, e)
    ensures IsoDate(d) == IsoDate(e) <==> d == e
  {
    assert Pow10(4) == 10000;
    assert IsoDate(d) == Padded(d.year, 4) + ['-'] + MonthDay(d);
    assert IsoDate(e) == Padded(e.year, 4) + ['-'] + MonthDay(e);
    FieldThenCompare(d.year, e.year, 4, '-', MonthDay(d), MonthDay(e));
    FieldThenEqual(d.year, e.year, 4, '-', MonthDay(d), MonthDay(e));
    MonthDayOrder(d, e);
  }

  /** For four-digit years the month keys sort chronologically by month. */
  lemma MonthKeyChronological(d: Date, e: Date)
    requires Valid(d) && Valid(e) && d.year >= 1000 && e.year >= 1000
    ensures LexLess(MonthKey(d), MonthKey(e))
        <==> d.year < e.year || (d.year == e.year && d.month < e.month)
  {
    assert Pow10(3) == 1000 && Pow10(4) == 10000 && Pow10(2) == 100;
    PaddedUnpadded(d.year, 4);
    PaddedUnpadded(e.year, 4);
    assert MonthKey(d) == Padded(d.year, 4) + ['-'] + Padded(d.month, 2);
    assert MonthKey(e) == Padded(e.year, 4) + ['-'] + Padded(e.month, 2);
    FieldThenCompare(d.year, e.year, 4, '-', Padded(d.month, 2), Padded(e.month, 2));
    PaddedCompare(d.month, e.month, 2);
  }

  /** Because the year is not padded, the text order of month keys is not
      chronological once a year has fewer than four digits: December 999
      sorts after January 1000. */
  lemma MonthKeyMisorders()
    ensures Before(Date(999, 12, 31), Date(1000, 1, 1))
    ensures Valid(Date(999, 12, 31)) && Valid(Date(1000, 1, 1))
    ensures LexLess(MonthKey(Date(1000, 1, 1)), MonthKey(Date(999, 12, 31)))
  {
    var early, late := Padded(999, 1), Padded(1000, 1);
    assert early[0] == '9' by {
      assert Padded(9, 0) == ['9'];
      assert Padded(99, 0) == Padded(9, 0) + ['9'];
      assert early == Padded(99, 0) + ['9'];
    }
    assert late[0] == '1' by {
      assert Padded(1, 0) == ['1'];
      assert Padded(10, 0) == Padded(1, 0) + ['0'];
      assert Padded(100, 0) == Padded(10, 0) + ['0'];
      assert late == Padded(100, 0) + ['0'];
    }
    assert MonthKey(Date(1000, 1, 1))[0] == '1';
    assert MonthKey(Date(999, 12, 31))[0] == '9';
  }

  /** Reads a month key back into (year, month); `None` if the text is not of
      the form digits, `-`, two digits. */
  function ParseMonthKey(k: string): (r: Option<(nat, nat)>) {
    if |k| >= 4 && k[|k| - 3] == '-' && IsDigits(k[..|k| - 3]) && IsDigits(k[|k| - 2..])
    then Some((Value(k[..|k| - 3]), Value(k[|k| - 2..])))
    else None
  }

  /** A month key always has a two-digit month after the separator and
      identifies its year and month exactly. */
  lemma MonthKeyRoundTrip(d: Date)
    requires Valid(d)
    ensures |MonthKey(d)| >= 4 && MonthKey(d)[|MonthKey(d)| - 3] == '-'
    ensures ParseMonthKey(MonthKey(d)) == Some((d.year, d.month))
  {
    var y, m := Padded(d.year, 1), Padded(d.month, 2);
    assert Pow10(2) == 100;
    PaddedLength(d.month, 2);
    var k := MonthKey(d);
    assert k == y + "-" + m;
    assert k[..|k| - 3] == y;
    assert k[|k| - 2..] == m;
    ValueOfPadded(d.year, 1);
    ValueOfPadded(d.month, 2);
  }
}
