/**
  Seconds since 1970 to a civil date (`iso8601_utc_now`,
  crates/cairn-app/build.rs), by walking years and months.  Fields as in
  sections 5.6 and 5.7 of RFC 3339, leap years as in its Appendix C.

  The walk is proved against a closed form of the proleptic Gregorian calendar
  that does not walk.
 */
module CivilDate {

  datatype DateTime = DateTime(year: nat, month: nat, day: nat, hour: nat, minute: nat, second: nat)

  predicate IsLeap(year: nat) {
    (year % 4 == 0 && year % 100 != 0) || year % 400 == 0
  }

  function YearDays(year: nat): nat {
    if IsLeap(year) then 366 else 365
  }

  function MonthDays(year: nat, month: nat): nat
    requires 1 <= month <= 12
  {
    if month == 2 then (if IsLeap(year) then 29 else 28)
    else if month == 4 || month == 6 || month == 9 || month == 11 then 30
    else 31
  }

  // ----- the calendar, without walking

  /** Days from the first day of year 1 to the first day of `year`. */
  function DaysToYear(year: int): int {
    var y := year - 1;
    365 * y + y / 4 - y / 100 + y / 400
  }

  /** Days of the year before a month begins; month 13 is the next year. */
  function DaysToMonth(year: nat, month: nat): nat
    requires 1 <= month <= 13
  {
    var common := [0, 31, 59, 90, 120, 151, 181, 212, 243, 273, 304, 334, 365];
    common[month - 1] + (if month > 2 && IsLeap(year) then 1 else 0)
  }

  predicate Valid(d: DateTime) {
    && 1970 <= d.year
    && 1 <= d.month <= 12
    && 1 <= d.day <= MonthDays(d.year, d.month)
    && d.hour < 24 && d.minute < 60 && d.second < 60
  }

  /** The day number of a date, 0 for 1970-01-01. */
  function DayNumber(d: DateTime): int
    requires Valid(d)
  {
    DaysToYear(d.year) - DaysToYear(1970) + DaysToMonth(d.year, d.month) + d.day - 1
  }

  function SecondsOf(d: DateTime): int
    requires Valid(d)
  {
    86_400 * DayNumber(d) + 3_600 * d.hour + 60 * d.minute + d.second
  }

  /** Calendar order. */
  predicate Earlier(a: DateTime, b: DateTime) {
    || a.year < b.year
    || (a.year == b.year && a.month < b.month)
    || (a.year == b.year && a.month == b.month && a.day < b.day)
    || (a.year == b.year && a.month == b.month && a.day == b.day &&
        3_600 * a.hour + 60 * a.minute + a.second < 3_600 * b.hour + 60 * b.minute + b.second)
  }

  // ----- the walk

  /** A quotient goes up exactly when the divisor divides the new number. */
  lemma QuotientSteps(y: nat)
    requires y >= 1
    ensures y / 4 == (y - 1) / 4 + (if y % 4 == 0 then 1 else 0)
    ensures y / 100 == (y - 1) / 100 + (if y % 100 == 0 then 1 else 0)
    ensures y / 400 == (y - 1) / 400 + (if y % 400 == 0 then 1 else 0)
  {
  }

  lemma Divisibility(y: nat)
    ensures y % 400 == 0 ==> y % 100 == 0
    ensures y % 100 == 0 ==> y % 4 == 0
  {
    if y % 400 == 0 {
      var q := y / 400;
      assert y == 400 * q;
      assert 4 * q <= y / 100 <= 4 * q;
    }
    if y % 100 == 0 {
      var q := y / 100;
      assert y == 100 * q;
      assert 25 * q <= y / 4 <= 25 * q;
    }
  }

  lemma NextYear(year: nat)
    requires year >= 1
    ensures DaysToYear(year + 1) == DaysToYear(year) + YearDays(year)
  {
    QuotientSteps(year);
    Divisibility(year);
  }

  lemma NextMonth(year: nat, month: nat)
    requires 1 <= month <= 12
    ensures DaysToMonth(year, month + 1) == DaysToMonth(year, month) + MonthDays(year, month)
    ensures DaysToMonth(year, 13) == YearDays(year)
  {
  }

  lemma ClockParts(rem: nat)
    requires rem < 86_400
    ensures rem / 3_600 < 24 && rem % 3_600 / 60 < 60 && rem % 60 < 60
    ensures rem == 3_600 * (rem / 3_600) + 60 * (rem % 3_600 / 60) + rem % 60
  {
    assert rem % 3_600 % 60 == rem % 60;
  }

  lemma MonthTable(year: nat, lens: seq<nat>)
    requires lens == [31, if IsLeap(year) then 29 else 28, 31, 30, 31, 30, 31, 31, 30, 31, 30, 31]
    ensures forall m :: 0 <= m < 12 ==> lens[m] == MonthDays(year, m + 1)
  {
  }

  /**
    For every number of seconds the walk ends, the month stays within the
    table, every field is in its calendar range, and the date converts back to
    the same seconds.
   */
  method CivilFromSeconds(secs: nat) returns (d: DateTime)
    ensures Valid(d) && SecondsOf(d) == secs
  {
    var daySecs := 86_400;
    var days := secs / daySecs;
    var rem := secs % daySecs;
    var hour := rem / 3_600;
    var min := (rem % 3_600) / 60;
    var sec := rem % 60;

    var year := 1970;
    var daysLeft := days;
    while true
      invariant year >= 1970 && daysLeft >= 0
      invariant DaysToYear(year) - DaysToYear(1970) + daysLeft == days
      decreases daysLeft
    {
      var yearDays := if IsLeap(year) then 366 else 365;
      if daysLeft < yearDays {
        break;
      }
      NextYear(year);
      daysLeft := daysLeft - yearDays;
      year := year + 1;
    }

    var monthLens := [31, if IsLeap(year) then 29 else 28, 31, 30, 31, 30, 31, 31, 30, 31, 30, 31];
    MonthTable(year, monthLens);
    ghost var dayOfYear := daysLeft;
    var month := 0;
    while month < 12 && daysLeft >= monthLens[month]
      invariant 0 <= month < 12 && daysLeft >= 0
      invariant DaysToMonth(year, month + 1) + daysLeft == dayOfYear < YearDays(year)
    {
      NextMonth(year, month + 1);
      daysLeft := daysLeft - monthLens[month];
      month := month + 1;
    }
    d := DateTime(year, month + 1, daysLeft + 1, hour, min, sec);
    ClockParts(rem);
  }

  // ----- order

  lemma {:induction false} YearsInOrder(a: nat, b: nat)
    requires 1 <= a < b
    ensures DaysToYear(a) + YearDays(a) <= DaysToYear(b)
  {
    NextYear(b - 1);
    if a < b - 1 {
      YearsInOrder(a, b - 1);
    }
  }

  lemma {:induction false} MonthsInOrder(year: nat, a: nat, b: nat)
    requires 1 <= a < b <= 13
    ensures DaysToMonth(year, a) + MonthDays(year, a) <= DaysToMonth(year, b)
  {
    NextMonth(year, b - 1);
    if a < b - 1 {
      MonthsInOrder(year, a, b - 1);
    }
  }

  lemma EarlierMeansFewerSeconds(a: DateTime, b: DateTime)
    requires Valid(a) && Valid(b) && Earlier(a, b)
    ensures SecondsOf(a) < SecondsOf(b)
  {
    MonthsInOrder(a.year, a.month, 13);
    NextMonth(a.year, 12);
    if a.year < b.year {
      YearsInOrder(a.year, b.year);
      assert DayNumber(a) < DayNumber(b);
    } else if a.month < b.month {
      MonthsInOrder(a.year, a.month, b.month);
      assert DayNumber(a) < DayNumber(b);
    }
  }

  lemma NeitherEarlier(a: DateTime, b: DateTime)
    requires Valid(a) && Valid(b) && !Earlier(a, b) && !Earlier(b, a)
    ensures a == b
  {
    assert a.year == b.year && a.month == b.month && a.day == b.day;
    SameTime(a.hour, a.minute, a.second, b.hour, b.minute, b.second);
  }

  lemma SameTime(h: nat, m: nat, s: nat, h': nat, m': nat, s': nat)
    requires m < 60 && s < 60 && m' < 60 && s' < 60
    requires 3_600 * h + 60 * m + s == 3_600 * h' + 60 * m' + s'
    ensures h == h' && m == m' && s == s'
  {
    assert 60 * (60 * h + m) + s == 60 * (60 * h' + m') + s';
    assert 60 * h + m == 60 * h' + m';
  }

  /** Calendar order is the order of seconds, so no two seconds get the same
      date, and a later second gets a later one. */
  lemma OrderAgrees(a: DateTime, b: DateTime)
    requires Valid(a) && Valid(b)
    ensures Earlier(a, b) <==> SecondsOf(a) < SecondsOf(b)
    ensures SecondsOf(a) == SecondsOf(b) ==> a == b
  {
    if Earlier(a, b) {
      EarlierMeansFewerSeconds(a, b);
    } else if Earlier(b, a) {
      EarlierMeansFewerSeconds(b, a);
    } else {
      NeitherEarlier(a, b);
    }
  }
}
