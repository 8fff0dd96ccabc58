/** Calendar dates as Python's datetime.date and Qt's QDate treat them:
    the proleptic Gregorian calendar, years 1..9999, day numbers counted as
    date.toordinal() does (0001-01-01 is day 1, a Monday), and the three
    textual forms the program reads or writes: strftime("%Y-%m-%d"),
    date.fromisoformat and datetime.strptime(s, "%Y-%m-%d"). */
module Dates {
  import opened Common

  datatype Date = Date(year: int, month: int, day: int)

  /** A wall-clock instant reduced to a date and the second within that day. */
  datatype DateTime = DateTime(date: Date, hour: int, minute: int, second: int)

  predicate IsLeap(y: int) {
    y % 4 == 0 && (y % 100 != 0 || y % 400 == 0)
  }

  function DaysInMonth(y: int, m: int): (r: int)
    requires 1 <= m <= 12
    ensures 28 <= r <= 31
  {
    if m == 2 then (if IsLeap(y) then 29 else 28)
    else if m == 4 || m == 6 || m == 9 || m == 11 then 30
    else 31
  }

  /** The dates datetime.date can represent. */
  predicate ValidDate(d: Date) {
    1 <= d.year <= 9999 && 1 <= d.month <= 12 && 1 <= d.day <= DaysInMonth(d.year, d.month)
  }

  predicate ValidDateTime(t: DateTime) {
    ValidDate(t.date) && 0 <= t.hour < 24 && 0 <= t.minute < 60 && 0 <= t.second < 60
  }

  function DaysBeforeMonth(y: int, m: int): int
    requires 1 <= m <= 12
  {
    [0, 31, 59, 90, 120, 151, 181, 212, 243, 273, 304, 334][m - 1]
      + (if m > 2 && IsLeap(y) then 1 else 0)
  }

  function DaysBeforeYear(y: int): int
    requires y >= 1
  {
    var p := y - 1;
    p * 365 + p / 4 - p / 100 + p / 400
  }

  /** date.toordinal(). */
  function Ordinal(d: Date): int
    requires ValidDate(d)
  {
    DaysBeforeYear(d.year) + DaysBeforeMonth(d.year, d.month) + d.day
  }

  /** Seconds since 0001-01-01 00:00:00, for differences of instants. */
  function Seconds(t: DateTime): int
    requires ValidDateTime(t)
  {
    (Ordinal(t.date) - 1) * 86400 + t.hour * 3600 + t.minute * 60 + t.second
  }

  /** QDate.dayOfWeek() of a day number: 1 is Monday, 7 is Sunday. */
  function DayOfWeek(ordinal: int): (r: int)
    ensures 1 <= r <= 7
  {
    (ordinal - 1) % 7 + 1
  }

  /** Python's comparison of dates, which compares (year, month, day). */
  predicate DateBefore(a: Date, b: Date) {
    a.year < b.year || (a.year == b.year && (a.month < b.month || (a.month == b.month && a.day < b.day)))
  }

  // ---------------------------------------------------------------------------
  // Day numbers respect the calendar order
  // ---------------------------------------------------------------------------

  lemma DaysBeforeMonthStep(y: int, m: int)
    requires 1 <= m < 12
    ensures DaysBeforeMonth(y, m) + DaysInMonth(y, m) == DaysBeforeMonth(y, m + 1)
  {
  }

  lemma DaysInYear(y: int)
    ensures DaysBeforeMonth(y, 12) + DaysInMonth(y, 12) == if IsLeap(y) then 366 else 365
  {
  }

  lemma DaysBeforeYearStep(y: int)
    requires y >= 1
    ensures DaysBeforeYear(y + 1) == DaysBeforeYear(y) + if IsLeap(y) then 366 else 365
  {
    var p := y - 1;
    assert (p + 1) / 4 == p / 4 + (if y % 4 == 0 then 1 else 0);
    assert (p + 1) / 100 == p / 100 + (if y % 100 == 0 then 1 else 0);
    assert (p + 1) / 400 == p / 400 + (if y % 400 == 0 then 1 else 0);
  }

  /** Every day of a month lies before the first day of the next month. */
  lemma {:induction false} DaysBeforeMonthBound(y: int, m1: int, m2: int)
    requires 1 <= m1 < m2 <= 12
    ensures DaysBeforeMonth(y, m1) + DaysInMonth(y, m1) <= DaysBeforeMonth(y, m2)
    decreases m2 - m1
  {
    DaysBeforeMonthStep(y, m1);
    if m1 + 1 < m2 {
      DaysBeforeMonthBound(y, m1 + 1, m2);
    }
  }

  lemma {:induction false} DaysBeforeYearBound(y1: int, y2: int)
    requires 1 <= y1 < y2
    ensures DaysBeforeYear(y1) + 365 <= DaysBeforeYear(y2)
    ensures DaysBeforeYear(y1) + (if IsLeap(y1) then 366 else 365) <= DaysBeforeYear(y2)
    decreases y2 - y1
  {
    DaysBeforeYearStep(y1);
    if y1 + 1 < y2 {
      DaysBeforeYearBound(y1 + 1, y2);
    }
  }

  lemma OrdinalWithinYear(d: Date)
    requires ValidDate(d)
    ensures DaysBeforeYear(d.year) < Ordinal(d) <= DaysBeforeYear(d.year) + (if IsLeap(d.year) then 366 else 365)
  {
    if d.month < 12 {
      DaysBeforeMonthBound(d.year, d.month, 12);
    }
    DaysInYear(d.year);
  }

  /** Comparing day numbers is comparing dates, so a window of day numbers
      selects the same dates as Python's comparisons of date objects. */
  lemma OrdinalOrder(a: Date, b: Date)
    requires ValidDate(a) && ValidDate(b)
    ensures DateBefore(a, b) <==> Ordinal(a) < Ordinal(b)
    ensures a == b <==> Ordinal(a) == Ordinal(b)
  {
    OrdinalWithinYear(a);
    OrdinalWithinYear(b);
    if a.year < b.year {
      DaysBeforeYearBound(a.year, b.year);
    } else if b.year < a.year {
      DaysBeforeYearBound(b.year, a.year);
    } else if a.month < b.month {
      DaysBeforeMonthBound(a.year, a.month, b.month);
    } else if b.month < a.month {
      DaysBeforeMonthBound(a.year, b.month, a.month);
    }
  }

  /** The day numbers of one month are consecutive from its first day. */
  lemma MonthStart(d: Date)
    requires ValidDate(d)
    ensures ValidDate(Date(d.year, d.month, 1))
    ensures Ordinal(Date(d.year, d.month, 1)) == Ordinal(d) - (d.day - 1)
  {
  }

  // ---------------------------------------------------------------------------
  // Text forms
  // ---------------------------------------------------------------------------

  predicate IsDigit(c: char) {
    '0' <= c <= '9'
  }

  function DigitChar(n: int): (c: char)
    requires 0 <= n <= 9
    ensures IsDigit(c)
  {
    ['0', '1', '2', '3', '4', '5', '6', '7', '8', '9'][n]
  }

  function DigitValue(c: char): (n: int)
    requires IsDigit(c)
    ensures 0 <= n <= 9 && DigitChar(n) == c
  {
    if c == '0' then 0 else if c == '1' then 1 else if c == '2' then 2
    else if c == '3' then 3 else if c == '4' then 4 else if c == '5' then 5
    else if c == '6' then 6 else if c == '7' then 7 else if c == '8' then 8 else 9
  }

  lemma DigitRoundTrip(n: int)
    requires 0 <= n <= 9
    ensures DigitValue(DigitChar(n)) == n
  {
  }

  /** A number written without leading zeros, as `%Y` renders a year on glibc. */
  function Decimal(n: nat): (s: string)
    ensures |s| >= 1
    ensures forall i :: 0 <= i < |s| ==> IsDigit(s[i])
  {
    if n < 10 then [DigitChar(n)] else Decimal(n / 10) + [DigitChar(n % 10)]
  }

  /** `%02d`. */
  function Pad2(n: int): (s: string)
    requires 0 <= n <= 99
    ensures |s| == 2 && IsDigit(s[0]) && IsDigit(s[1])
  {
    [DigitChar(n / 10), DigitChar(n % 10)]
  }

  /** `%04d`. */
  function Pad4(n: int): (s: string)
    requires 0 <= n <= 9999
    ensures |s| == 4 && forall i :: 0 <= i < 4 ==> IsDigit(s[i])
  {
    Pad2(n / 100) + Pad2(n % 100)
  }

  function Value2(s: string): int
    requires |s| == 2 && IsDigit(s[0]) && IsDigit(s[1])
  {
    DigitValue(s[0]) * 10 + DigitValue(s[1])
  }

  function Value4(s: string): int
    requires |s| == 4 && forall i :: 0 <= i < 4 ==> IsDigit(s[i])
  {
    Value2(s[..2]) * 100 + Value2(s[2..])
  }

  lemma Pad2RoundTrip(n: int)
    requires 0 <= n <= 99
    ensures Value2(Pad2(n)) == n
  {
    DigitRoundTrip(n / 10);
    DigitRoundTrip(n % 10);
  }

  lemma Pad2Inverse(s: string)
    requires |s| == 2 && IsDigit(s[0]) && IsDigit(s[1])
    ensures 0 <= Value2(s) <= 99 && Pad2(Value2(s)) == s
  {
    var n := Value2(s);
    assert n / 10 == DigitValue(s[0]);
    assert n % 10 == DigitValue(s[1]);
  }

  lemma Pad4RoundTrip(n: int)
    requires 0 <= n <= 9999
    ensures Value4(Pad4(n)) == n
  {
    var s := Pad4(n);
    assert s[..2] == Pad2(n / 100);
    assert s[2..] == Pad2(n % 100);
    Pad2RoundTrip(n / 100);
    Pad2RoundTrip(n % 100);
  }

  lemma Pad4Inverse(s: string)
    requires |s| == 4 && forall i :: 0 <= i < 4 ==> IsDigit(s[i])
    ensures 0 <= Value4(s) <= 9999 && Pad4(Value4(s)) == s
  {
    Pad2Inverse(s[..2]);
    Pad2Inverse(s[2..]);
    var n := Value4(s);
    assert n / 100 == Value2(s[..2]);
    assert n % 100 == Value2(s[2..]);
    assert s == s[..2] + s[2..];
  }

  /** A four-digit year is written the same padded or not. */
  lemma DecimalOfFourDigits(n: int)
    requires 1000 <= n <= 9999
    ensures Decimal(n) == Pad4(n)
  {
    var a, b, c, e := n / 1000, (n / 100) % 10, (n / 10) % 10, n % 10;
    assert n / 10 / 10 == n / 100 && n / 100 / 10 == n / 1000;
    assert Decimal(n / 1000) == [DigitChar(a)];
    assert Decimal(n / 100) == [DigitChar(a), DigitChar(b)];
    assert Decimal(n / 10) == [DigitChar(a), DigitChar(b), DigitChar(c)];
    assert Decimal(n) == [DigitChar(a), DigitChar(b), DigitChar(c), DigitChar(e)];
    assert (n / 100) / 10 == a && (n / 100) % 10 == b;
    assert (n % 100) / 10 == c && (n % 100) % 10 == e;
  }

  /** strftime("%Y-%m-%d") as the C library renders it: the year is not
      zero-padded. */
  function StrftimeYmd(d: Date): (s: string)
    requires ValidDate(d)
  {
    Decimal(d.year) + "-" + Pad2(d.month) + "-" + Pad2(d.day)
  }

  /** date.isoformat(): YYYY-MM-DD with a four-digit year. */
  function IsoFormat(d: Date): (s: string)
    requires ValidDate(d)
    ensures |s| == 10
  {
    Pad4(d.year) + "-" + Pad2(d.month) + "-" + Pad2(d.day)
  }

  lemma StrftimeIsIso(d: Date)
    requires ValidDate(d) && d.year >= 1000
    ensures StrftimeYmd(d) == IsoFormat(d)
  {
    DecimalOfFourDigits(d.year);
  }

  predicate IsoShaped(s: string) {
    |s| == 10 && s[4] == '-' && s[7] == '-'
    && (forall i :: 0 <= i < 4 ==> IsDigit(s[i]))
    && IsDigit(s[5]) && IsDigit(s[6]) && IsDigit(s[8]) && IsDigit(s[9])
  }

  /** date.fromisoformat as in Python 3.7 to 3.10: exactly YYYY-MM-DD
      naming an existing date, else ValueError (None). */
  function ParseIso(s: string): (r: Option<Date>)
    ensures r.Some? ==> ValidDate(r.value)
  {
    if !IsoShaped(s) then None
    else
      var d := Date(Value4(s[..4]), Value2(s[5..7]), Value2(s[8..]));
      if ValidDate(d) then Some(d) else None
  }

  /** Writing a date and reading it back gives the date. */
  lemma ParseIsoFormat(d: Date)
    requires ValidDate(d)
    ensures ParseIso(IsoFormat(d)) == Some(d)
  {
    var s := IsoFormat(d);
    assert s[..4] == Pad4(d.year);
    assert s[5..7] == Pad2(d.month);
    assert s[8..] == Pad2(d.day);
    Pad4RoundTrip(d.year);
    Pad2RoundTrip(d.month);
    Pad2RoundTrip(d.day);
  }

  /** Reading a string as a date and writing it back gives the same string. */
  lemma FormatParseIso(s: string)
    requires ParseIso(s).Some?
    ensures IsoFormat(ParseIso(s).value) == s
  {
    var d := ParseIso(s).value;
    Pad4Inverse(s[..4]);
    Pad2Inverse(s[5..7]);
    Pad2Inverse(s[8..]);
    assert s == s[..4] + "-" + s[5..7] + "-" + s[8..];
  }

  // ---------------------------------------------------------------------------
  // datetime.strptime(s, "%Y-%m-%d")
  // ---------------------------------------------------------------------------

  /** `%m`: the first of the alternatives 1[0-2], 0[1-9], [1-9] that matches
      at the start of t, as (value, characters used). */
  function MatchMonth(t: string): Option<(int, nat)> {
    if |t| >= 2 && t[0] == '1' && '0' <= t[1] <= '2' then Some((10 + DigitValue(t[1]), 2))
    else if |t| >= 2 && t[0] == '0' && '1' <= t[1] <= '9' then Some((DigitValue(t[1]), 2))
    else if |t| >= 1 && '1' <= t[0] <= '9' then Some((DigitValue(t[0]), 1))
    else None
  }

  /** `%d`: the first of 3[01], [12]\d, 0[1-9], [1-9], " "[1-9] that matches. */
  function MatchDay(t: string): Option<(int, nat)> {
    if |t| >= 2 && t[0] == '3' && '0' <= t[1] <= '1' then Some((30 + DigitValue(t[1]), 2))
    else if |t| >= 2 && '1' <= t[0] <= '2' && IsDigit(t[1]) then Some((DigitValue(t[0]) * 10 + DigitValue(t[1]), 2))
    else if |t| >= 2 && t[0] == '0' && '1' <= t[1] <= '9' then Some((DigitValue(t[1]), 2))
    else if |t| >= 1 && '1' <= t[0] <= '9' then Some((DigitValue(t[0]), 1))
    else if |t| >= 2 && t[0] == ' ' && '1' <= t[1] <= '9' then Some((DigitValue(t[1]), 2))
    else None
  }

  /** datetime.strptime(s, "%Y-%m-%d").date(): four digits, '-', a month,
      '-', a day, nothing left over, and an existing date; None where
      strptime raises ValueError. */
  function ParseYmd(s: string): (r: Option<Date>)
    ensures r.Some? ==> ValidDate(r.value)
  {
    if |s| < 5 || !(forall i :: 0 <= i < 4 ==> IsDigit(s[i])) || s[4] != '-' then None
    else
      var year := Value4(s[..4]);
      match MatchMonth(s[5..])
      case None => None
      case Some(mm) =>
        var rest := s[5 + mm.1..];
        if rest == [] || rest[0] != '-' then None
        else
          match MatchDay(rest[1..])
          case None => None
          case Some(dd) =>
            if dd.1 != |rest| - 1 then None
            else
              var d := Date(year, mm.0, dd.0);
              if ValidDate(d) then Some(d) else None
  }

  /** The pieces of an ISO date. */
  lemma IsoPieces(d: Date)
    requires ValidDate(d)
    ensures var s := IsoFormat(d);
      (forall i :: 0 <= i < 4 ==> IsDigit(s[i])) && s[4] == '-'
      && Value4(s[..4]) == d.year && s[5..] == Pad2(d.month) + "-" + Pad2(d.day)
  {
    var s := IsoFormat(d);
    assert s[..4] == Pad4(d.year);
    Pad4RoundTrip(d.year);
  }

  lemma MatchPaddedMonth(m: int, rest: string)
    requires 1 <= m <= 12
    ensures MatchMonth(Pad2(m) + rest) == Some((m, 2))
  {
    Pad2RoundTrip(m);
  }

  lemma MatchPaddedDay(d: int)
    requires 1 <= d <= 31
    ensures MatchDay(Pad2(d)) == Some((d, 2))
  {
    Pad2RoundTrip(d);
  }

  /** strptime reads back every date strftime writes with a four-digit year. */
  lemma ParseYmdOfStrftime(d: Date)
    requires ValidDate(d) && d.year >= 1000
    ensures ParseYmd(StrftimeYmd(d)) == Some(d)
  {
    StrftimeIsIso(d);
    IsoPieces(d);
    var s := IsoFormat(d);
    var dd := Pad2(d.day);
    MatchPaddedMonth(d.month, "-" + dd);
    MatchPaddedDay(d.day);
    assert s[5..][2..] == "-" + dd;
    assert ("-" + dd)[1..] == dd;
  }

  /** Unlike fromisoformat, strptime also takes unpadded months and days. */
  lemma ParseYmdLenient()
    ensures ParseYmd("2024-1-5") == Some(Date(2024, 1, 5))
    ensures ParseIso("2024-1-5") == None
  {
    assert MatchMonth("1-5") == Some((1, 1));
    assert "2024-1-5"[5..] == "1-5";
    assert "2024-1-5"[..4] == "2024";
    assert MatchDay("5") == Some((5, 1));
  }
}
