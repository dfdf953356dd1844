/**
 * Proleptic Gregorian calendar arithmetic as Python's `datetime` does it:
 * dates from 0001-01-01 to 9999-12-31, the day ordinal (`toordinal`, day 1 is
 * 0001-01-01), Monday-based weekdays, and subtraction of days and minutes that
 * fails like Python's OverflowError below the first day.
 */
module Calendar {
  import opened Wrappers

  datatype Date = Date(year: int, month: int, day: int)

  /** A wall-clock instant; `microsecond` is kept because Python keeps it. */
  datatype DateTime = DateTime(date: Date, hour: int, minute: int, second: int, microsecond: int)

  const MinYear := 1
  const MaxYear := 9999

  predicate IsLeap(y: int)
  {
    y % 4 == 0 && (y % 100 != 0 || y % 400 == 0)
  }

  function DaysInMonth(y: int, m: int): (n: int)
    requires 1 <= m <= 12
    ensures m == 2 ==> (n == 29 <==> IsLeap(y)) && (n == 28 <==> !IsLeap(y))
    ensures m != 2 ==> (n == 30 <==> m in {4, 6, 9, 11}) && (n == 31 <==> m !in {4, 6, 9, 11})
  {
    if m == 2 then (if IsLeap(y) then 29 else 28)
    else if m == 4 || m == 6 || m == 9 || m == 11 then 30
    else 31
  }

  function DaysInYear(y: int): int
  {
    if IsLeap(y) then 366 else 365
  }

  predicate ValidDate(d: Date)
  {
    MinYear <= d.year <= MaxYear && 1 <= d.month <= 12 && 1 <= d.day <= DaysInMonth(d.year, d.month)
  }

  predicate ValidDateTime(t: DateTime)
  {
    ValidDate(t.date) && 0 <= t.hour < 24 && 0 <= t.minute < 60
    && 0 <= t.second < 60 && 0 <= t.microsecond < 1000000
  }

  /** Days in the years before year y, counted one year at a time. */
  function DaysBeforeYear(y: int): int
    requires y >= 1
    decreases y
  {
    if y == 1 then 0 else DaysBeforeYear(y - 1) + DaysInYear(y - 1)
  }

  /** Days in the months of year y before month m (Python's `_days_before_month`). */
  function DaysBeforeMonth(y: int, m: int): int
    requires 1 <= m <= 12
  {
    var common :=
      if m <= 6 then
        (if m == 1 then 0 else if m == 2 then 31 else if m == 3 then 59
         else if m == 4 then 90 else if m == 5 then 120 else 151)
      else
        (if m == 7 then 181 else if m == 8 then 212 else if m == 9 then 243
         else if m == 10 then 273 else if m == 11 then 304 else 334);
    common + (if m > 2 && IsLeap(y) then 1 else 0)
  }

  /** `date.toordinal()`. */
  function Ordinal(d: Date): int
    requires ValidDate(d)
  {
    DaysBeforeYear(d.year) + DaysBeforeMonth(d.year, d.month) + d.day
  }

  /** `date.weekday()`: Monday is 0, Sunday is 6. */
  function Weekday(d: Date): (w: int)
    requires ValidDate(d)
    ensures 0 <= w < 7
  {
    (Ordinal(d) + 6) % 7
  }

  /** The day before d, or None where Python would overflow. */
  function PrevDay(d: Date): (r: Option<Date>)
    requires ValidDate(d)
    ensures r.Some? ==> ValidDate(r.value)
  {
    if d.day > 1 then Some(Date(d.year, d.month, d.day - 1))
    else if d.month > 1 then Some(Date(d.year, d.month - 1, DaysInMonth(d.year, d.month - 1)))
    else if d.year > MinYear then Some(Date(d.year - 1, 12, 31))
    else None
  }

  /** The weekdays are anchored on the calendar: 2024-04-01 was a Monday. */
  lemma WeekdayAnchor()
    ensures ValidDate(Date(2024, 4, 1)) && Weekday(Date(2024, 4, 1)) == 0
  {
    DaysBeforeYearClosed(2024);
    assert DaysBeforeYear(2024) == 738885;
    assert Ordinal(Date(2024, 4, 1)) == 738977;
  }

  /** A Monday-based weekday one ordinal earlier is the previous weekday. */
  lemma WeekdayStepBack(o: int)
    ensures (o - 1 + 6) % 7 == ((o + 6) % 7 + 6) % 7
  {
    var q, r := (o + 6) / 7, (o + 6) % 7;
    if r == 0 {
      assert o - 1 + 6 == 7 * (q - 1) + 6;
    } else {
      assert o - 1 + 6 == 7 * q + (r - 1);
    }
  }

  /** The day before d falls on the weekday before d's, Monday following Sunday. */
  lemma WeekdayPrev(d: Date)
    requires ValidDate(d) && PrevDay(d).Some?
    ensures Weekday(PrevDay(d).value) == (Weekday(d) + 6) % 7
  {
    var o := Ordinal(d);
    PrevDayOrdinal(d);
    assert Ordinal(PrevDay(d).value) == o - 1;
    WeekdayStepBack(o);
  }

  /** Going from p to p + 1 adds one multiple of 4, of 100, of 400 exactly when p + 1 is one. */
  lemma DivStep(p: int)
    requires p >= 0
    ensures (p + 1) / 4 - p / 4 == if (p + 1) % 4 == 0 then 1 else 0
    ensures (p + 1) / 100 - p / 100 == if (p + 1) % 100 == 0 then 1 else 0
    ensures (p + 1) / 400 - p / 400 == if (p + 1) % 400 == 0 then 1 else 0
  {
  }

  /** The closed form of Python's `_days_before_year`, on p = y - 1 whole years. */
  function ClosedDaysBefore(p: int): int
  {
    p * 365 + p / 4 - p / 100 + p / 400
  }

  /** A multiple of 400 is a multiple of 100, and a multiple of 100 one of 4. */
  lemma MultipleOf400(y: int)
    ensures y % 400 == 0 ==> y % 100 == 0
    ensures y % 100 == 0 ==> y % 4 == 0
  {
    if y % 400 == 0 {
      var q := y / 400;
      assert y == 400 * q;
      assert y == 100 * (4 * q) + 0;
    }
    if y % 100 == 0 {
      var q := y / 100;
      assert y == 100 * q;
      assert y == 4 * (25 * q) + 0;
    }
  }

  /** One more year in the closed form adds the length of that year. */
  lemma ClosedStep(p: int)
    requires p >= 0
    ensures ClosedDaysBefore(p + 1) == ClosedDaysBefore(p) + DaysInYear(p + 1)
  {
    DivStep(p);
    MultipleOf400(p + 1);
    var a, b, c := (p + 1) / 4 - p / 4, (p + 1) / 100 - p / 100, (p + 1) / 400 - p / 400;
    assert ClosedDaysBefore(p + 1) == ClosedDaysBefore(p) + 365 + a - b + c;
    assert DaysInYear(p + 1) == 365 + a - b + c;
  }

  /** The year count agrees with the closed form of Python's `_days_before_year`. */
  lemma {:induction false} DaysBeforeYearClosed(y: int)
    requires y >= 1
    ensures DaysBeforeYear(y) == ClosedDaysBefore(y - 1)
    decreases y
  {
    if y > 1 {
      DaysBeforeYearClosed(y - 1);
      ClosedStep(y - 2);
    }
  }

  lemma DaysBeforeNextMonth(y: int, m: int)
    requires 1 <= m < 12
    ensures DaysBeforeMonth(y, m + 1) == DaysBeforeMonth(y, m) + DaysInMonth(y, m)
  {
  }

  lemma {:induction false} DaysBeforeYearMonotone(y: int)
    requires y >= 1
    ensures DaysBeforeYear(y) >= (y - 1) * 365
    decreases y
  {
    if y > 1 {
      DaysBeforeYearMonotone(y - 1);
    }
  }

  /** Every valid date has a positive ordinal, and only 0001-01-01 has ordinal 1. */
  lemma OrdinalPositive(d: Date)
    requires ValidDate(d)
    ensures Ordinal(d) >= 1
    ensures Ordinal(d) == 1 <==> d == Date(1, 1, 1)
  {
    DaysBeforeYearMonotone(d.year);
  }

  /** PrevDay steps the ordinal back by exactly one, and fails only on the first day. */
  lemma PrevDayOrdinal(d: Date)
    requires ValidDate(d)
    ensures PrevDay(d).None? <==> Ordinal(d) == 1
    ensures PrevDay(d).Some? ==> Ordinal(PrevDay(d).value) == Ordinal(d) - 1
  {
    if PrevDay(d).Some? {
      PrevDayStep(d);
      OrdinalPositive(PrevDay(d).value);
    } else {
      PrevDayFirst(d);
    }
  }

  /** Only 0001-01-01, the date of ordinal 1, has no day before it. */
  lemma PrevDayFirst(d: Date)
    requires ValidDate(d) && PrevDay(d).None?
    ensures Ordinal(d) == 1
  {
    assert d == Date(1, 1, 1);
    OrdinalPositive(d);
  }

  /** The day before d, when there is one, has ordinal one less. */
  lemma PrevDayStep(d: Date)
    requires ValidDate(d) && PrevDay(d).Some?
    ensures Ordinal(PrevDay(d).value) == Ordinal(d) - 1
  {
    if d.day > 1 {
      PrevDayWithinMonth(d);
    } else if d.month > 1 {
      PrevDayAcrossMonth(d);
    } else {
      PrevDayAcrossYear(d);
    }
  }

  lemma PrevDayWithinMonth(d: Date)
    requires ValidDate(d) && d.day > 1
    ensures PrevDay(d).Some? && Ordinal(PrevDay(d).value) == Ordinal(d) - 1
  {
    assert PrevDay(d).value == Date(d.year, d.month, d.day - 1);
  }

  lemma PrevDayAcrossMonth(d: Date)
    requires ValidDate(d) && d.day == 1 && d.month > 1
    ensures PrevDay(d).Some? && Ordinal(PrevDay(d).value) == Ordinal(d) - 1
  {
    DaysBeforeNextMonth(d.year, d.month - 1);
  }

  lemma PrevDayAcrossYear(d: Date)
    requires ValidDate(d) && d.day == 1 && d.month == 1 && d.year > MinYear
    ensures PrevDay(d).Some? && Ordinal(PrevDay(d).value) == Ordinal(d) - 1
  {
    var p := Date(d.year - 1, 12, 31);
    assert PrevDay(d) == Some(p);
    assert DaysBeforeMonth(d.year - 1, 12) + 31 == DaysInYear(d.year - 1);
    assert DaysBeforeYear(d.year) == DaysBeforeYear(d.year - 1) + DaysInYear(d.year - 1);
    assert Ordinal(p) == DaysBeforeYear(d.year);
    assert Ordinal(d) == DaysBeforeYear(d.year) + 1;
  }

  /** `d - timedelta(days=n)`, None on overflow. */
  function SubDays(d: Date, n: nat): (r: Option<Date>)
    requires ValidDate(d)
    ensures r.Some? ==> ValidDate(r.value)
    decreases n
  {
    if n == 0 then Some(d)
    else match PrevDay(d)
      case None => None
      case Some(p) => SubDays(p, n - 1)
  }

  /** Subtracting n days moves the ordinal back by n; it fails exactly when that leaves the calendar. */
  lemma {:induction false} SubDaysOrdinal(d: Date, n: nat)
    requires ValidDate(d)
    ensures SubDays(d, n).None? <==> Ordinal(d) <= n
    ensures SubDays(d, n).Some? ==> Ordinal(SubDays(d, n).value) == Ordinal(d) - n
    decreases n
  {
    if n == 0 {
      OrdinalPositive(d);
      assert SubDays(d, n) == Some(d);
    } else if PrevDay(d).None? {
      PrevDayOrdinal(d);
      assert SubDays(d, n) == None;
    } else {
      var p := PrevDay(d).value;
      PrevDayOrdinal(d);
      var o, op := Ordinal(d), Ordinal(p);
      assert op == o - 1;
      assert SubDays(d, n) == SubDays(p, n - 1);
      SubDaysOrdinal(p, n - 1);
    }
  }

  /** Dates with the same ordinal are the same date. */
  lemma OrdinalInjective(a: Date, b: Date)
    requires ValidDate(a) && ValidDate(b)
    requires Ordinal(a) == Ordinal(b)
    ensures a == b
  {
    if a.year < b.year {
      YearStartAfter(a, b.year);
    } else if b.year < a.year {
      YearStartAfter(b, a.year);
    } else if a.month < b.month {
      MonthStartAfter(a, b.month);
    } else if b.month < a.month {
      MonthStartAfter(b, a.month);
    }
  }

  /** Every day of year y comes before the first day of a later year. */
  lemma YearStartAfter(d: Date, y: int)
    requires ValidDate(d) && d.year < y <= MaxYear
    ensures Ordinal(d) < DaysBeforeYear(y) + 1
    decreases y - d.year
  {
    assert DaysBeforeMonth(d.year, 12) + 31 == DaysInYear(d.year);
    MonthDaysBound(d);
    if d.year + 1 < y {
      var e := Date(d.year + 1, 1, 1);
      YearStartAfter(e, y);
    }
  }

  /** A day's offset inside its year is below the length of the year. */
  lemma MonthDaysBound(d: Date)
    requires ValidDate(d)
    ensures DaysBeforeMonth(d.year, d.month) + d.day <= DaysInYear(d.year)
  {
  }

  /** Every day of a month comes before the first day of a later month of the same year. */
  lemma MonthStartAfter(d: Date, m: int)
    requires ValidDate(d) && d.month < m <= 12
    ensures Ordinal(d) < DaysBeforeYear(d.year) + DaysBeforeMonth(d.year, m) + 1
    decreases m - d.month
  {
    DaysBeforeNextMonth(d.year, d.month);
    if d.month + 1 < m {
      MonthStartAfter(Date(d.year, d.month + 1, 1), m);
    }
  }

  /** Minutes since 0001-01-01 00:00, the scale the realtime window is measured on. */
  function MinuteIndex(t: DateTime): int
    requires ValidDateTime(t)
  {
    (Ordinal(t.date) - 1) * 1440 + t.hour * 60 + t.minute
  }

  /** `t - timedelta(minutes=n)` for n < 60, None on overflow. */
  function SubMinutes(t: DateTime, n: nat): (r: Option<DateTime>)
    requires ValidDateTime(t) && n < 60
    ensures r.Some? ==> ValidDateTime(r.value)
  {
    if t.minute >= n then Some(t.(minute := t.minute - n))
    else if t.hour > 0 then Some(t.(hour := t.hour - 1, minute := t.minute + 60 - n))
    else match PrevDay(t.date)
      case None => None
      case Some(p) => Some(t.(date := p, hour := 23, minute := t.minute + 60 - n))
  }

  /** Subtracting n minutes moves the minute index back by n and keeps seconds;
      it fails exactly when that goes before the first minute of the calendar. */
  lemma SubMinutesIndex(t: DateTime, n: nat)
    requires ValidDateTime(t) && n < 60
    ensures SubMinutes(t, n).None? <==> MinuteIndex(t) < n
    ensures SubMinutes(t, n).Some? ==>
      var s := SubMinutes(t, n).value;
      MinuteIndex(s) == MinuteIndex(t) - n && s.second == t.second && s.microsecond == t.microsecond
  {
    if t.minute >= n || t.hour > 0 {
      OrdinalPositive(t.date);
    } else if PrevDay(t.date).None? {
      PrevDayOrdinal(t.date);
      assert MinuteIndex(t) == t.minute;
    } else {
      var p := PrevDay(t.date).value;
      PrevDayOrdinal(t.date);
      var o, op := Ordinal(t.date), Ordinal(p);
      assert op == o - 1;
      OrdinalPositive(t.date);
      assert (op - 1) * 1440 == (o - 1) * 1440 - 1440;
    }
  }

  /** Going back from o by its own Monday-based weekday and whole weeks lands on a Monday. */
  lemma MondayOffset(o: int, e: int, weeks: nat)
    requires e == o - (o + 6) % 7 - 7 * weeks
    ensures (e + 6) % 7 == 0
  {
    var q := (o + 6) / 7;
    assert e + 6 == 7 * (q - weeks);
  }

  /** A date whose ordinal is a whole number of weeks before a Monday-based offset is a Monday. */
  lemma WeekdayOfMonday(d: Date, e: Date, weeks: nat)
    requires ValidDate(d) && ValidDate(e)
    requires Ordinal(e) == Ordinal(d) - Weekday(d) - 7 * weeks
    ensures Weekday(e) == 0
  {
    MondayOffset(Ordinal(d), Ordinal(e), weeks);
  }

  /** A Monday-based weekday is below any ordinal of at least 1. */
  lemma WeekdayBelow(o: int)
    requires o >= 1
    ensures (o + 6) % 7 < o
  {
    if o < 7 {
      assert (o + 6) % 7 == o - 1;
    }
  }

  /** Stepping back to the Monday of d's week never leaves the calendar. */
  lemma MondayOfWeek(d: Date)
    requires ValidDate(d)
    ensures SubDays(d, Weekday(d)).Some?
    ensures
      var m := SubDays(d, Weekday(d)).value;
      Weekday(m) == 0 && Ordinal(m) == Ordinal(d) - Weekday(d) && Ordinal(d) - 6 <= Ordinal(m) <= Ordinal(d)
  {
    var o, w := Ordinal(d), Weekday(d);
    OrdinalPositive(d);
    WeekdayBelow(o);
    assert w < o;
    SubDaysOrdinal(d, w);
    assert SubDays(d, w).Some?;
    var m := SubDays(d, w).value;
    WeekdayOfMonday(d, m, 0);
  }

  /** Stepping back to the Monday of the week before d's fails only before the first day. */
  lemma PrevWeekMonday(d: Date)
    requires ValidDate(d)
    ensures SubDays(d, Weekday(d) + 7).None? <==> Ordinal(d) <= Weekday(d) + 7
    ensures SubDays(d, Weekday(d) + 7).Some? ==>
      var m := SubDays(d, Weekday(d) + 7).value;
      Weekday(m) == 0 && Ordinal(m) == Ordinal(d) - Weekday(d) - 7
  {
    var w := Weekday(d);
    SubDaysOrdinal(d, w + 7);
    if SubDays(d, w + 7).Some? {
      WeekdayOfMonday(d, SubDays(d, w + 7).value, 1);
    }
  }
}
