/** Gregorian calendar dates as (year, month, day) triples, with the
    day-stepping that JavaScript's `Date.prototype.setDate` performs when
    it is asked for a day past the end of the month. */
module Calendar {

  datatype Date = Date(year: nat, month: nat, day: nat)

  predicate IsLeapYear(y: nat) {
    y % 4 == 0 && (y % 100 != 0 || y % 400 == 0)
  }

  function YearLength(y: nat): nat {
    if IsLeapYear(y) then 366 else 365
  }

  function DaysInMonth(y: nat, m: nat): (n: nat)
    requires 1 <= m <= 12
    ensures 28 <= n <= 31
  {
    if m == 2 then (if IsLeapYear(y) then 29 else 28)
    else if m == 4 || m == 6 || m == 9 || m == 11 then 30
    else 31
  }

  predicate ValidDate(d: Date) {
    1 <= d.month <= 12 && 1 <= d.day <= DaysInMonth(d.year, d.month)
  }

  /** Days of year `y` that come before the first day of month `m`
      (month 13 stands for the end of the year). */
  function DaysBeforeMonth(y: nat, m: nat): (n: nat)
    requires 1 <= m <= 13
  {
    var leap := if IsLeapYear(y) && m > 2 then 1 else 0;
    leap +
    (match m
     case 1 => 0     case 2 => 31    case 3 => 59    case 4 => 90
     case 5 => 120   case 6 => 151   case 7 => 181   case 8 => 212
     case 9 => 243   case 10 => 273  case 11 => 304  case 12 => 334
     case _ => 365)
  }

  /** Days from 1 January of year 0 (proleptic) to 1 January of year `y`. */
  function DaysBeforeYear(y: nat): nat {
    if y == 0 then 0 else DaysBeforeYear(y - 1) + YearLength(y - 1)
  }

  /** The number of the day counted from 1 January of year 0. */
  function Ordinal(d: Date): nat
    requires ValidDate(d)
  {
    DaysBeforeYear(d.year) + DaysBeforeMonth(d.year, d.month) + d.day - 1
  }

  /** Strict chronological order, read lexicographically off the triple. */
  predicate Precedes(a: Date, b: Date) {
    a.year < b.year
    || (a.year == b.year && a.month < b.month)
    || (a.year == b.year && a.month == b.month && a.day < b.day)
  }

  /** Month `m` ends where month `m + 1` begins. */
  lemma MonthStep(y: nat, m: nat)
    requires 1 <= m <= 12
    ensures DaysBeforeMonth(y, m + 1) == DaysBeforeMonth(y, m) + DaysInMonth(y, m)
  {
  }

  /** The day after `d`: the next day of the month, else the first of the
      next month, else 1 January of the next year. */
  function NextDay(d: Date): (r: Date)
    requires ValidDate(d)
    ensures ValidDate(r)
    ensures Precedes(d, r)
  {
    if d.day < DaysInMonth(d.year, d.month) then Date(d.year, d.month, d.day + 1)
    else if d.month < 12 then Date(d.year, d.month + 1, 1)
    else Date(d.year + 1, 1, 1)
  }

  /** `n` days after `d`; what `date.setDate(date.getDate() + n)` yields. */
  function AddDays(d: Date, n: nat): (r: Date)
    requires ValidDate(d)
    ensures ValidDate(r)
  {
    if n == 0 then d else NextDay(AddDays(d, n - 1))
  }

  /** The day after `d` is the next day number: no day is skipped. */
  lemma NextDayOrdinal(d: Date)
    requires ValidDate(d)
    ensures Ordinal(NextDay(d)) == Ordinal(d) + 1
  {
    var y, m := d.year, d.month;
    if d.day == DaysInMonth(y, m) {
      if m < 12 {
        MonthStep(y, m);
      } else {
        assert DaysBeforeMonth(y, 12) + 31 == YearLength(y);
        assert DaysBeforeYear(y + 1) == DaysBeforeYear(y) + YearLength(y);
      }
    }
  }

  /** Adding `n` days moves the day number by exactly `n`. */
  lemma {:induction false} AddDaysOrdinal(d: Date, n: nat)
    requires ValidDate(d)
    ensures Ordinal(AddDays(d, n)) == Ordinal(d) + n
  {
    if n > 0 {
      var e := AddDays(d, n - 1);
      calc {
        Ordinal(AddDays(d, n));
        Ordinal(NextDay(e));
        { NextDayOrdinal(e); }
        Ordinal(e) + 1;
        { AddDaysOrdinal(d, n - 1); }
        Ordinal(d) + n;
      }
    }
  }

  /** Adding days never leaves the month while the day number still fits. */
  lemma {:induction false} AddDaysWithinMonth(d: Date, n: nat)
    requires ValidDate(d)
    requires d.day + n <= DaysInMonth(d.year, d.month)
    ensures AddDays(d, n) == Date(d.year, d.month, d.day + n)
  {
    if n > 0 {
      AddDaysWithinMonth(d, n - 1);
    }
  }

  /** Adding `a` then `b` days is adding `a + b` days. */
  lemma {:induction false} AddDaysCompose(d: Date, a: nat, b: nat)
    requires ValidDate(d)
    ensures AddDays(AddDays(d, a), b) == AddDays(d, a + b)
  {
    if b > 0 {
      var e := AddDays(d, a);
      AddDaysCompose(d, a, b - 1);
      calc {
        AddDays(e, b);
        NextDay(AddDays(e, b - 1));
        NextDay(AddDays(d, a + b - 1));
        AddDays(d, a + b);
      }
    }
  }

  /** Every month ends within its year. */
  lemma MonthEndBound(y: nat, m: nat)
    requires 1 <= m <= 12
    ensures DaysBeforeMonth(y, m) + DaysInMonth(y, m) <= YearLength(y)
  {
  }

  /** An earlier month of a year ends no later than a later month begins. */
  lemma MonthsOrdered(y: nat, m1: nat, m2: nat)
    requires 1 <= m1 < m2 <= 12
    ensures DaysBeforeMonth(y, m1) + DaysInMonth(y, m1) <= DaysBeforeMonth(y, m2)
  {
  }

  /** An earlier year ends no later than a later year begins. */
  lemma {:induction false} YearsOrdered(y1: nat, y2: nat)
    requires y1 < y2
    ensures DaysBeforeYear(y1) + YearLength(y1) <= DaysBeforeYear(y2)
    decreases y2 - y1
  {
    if y1 + 1 < y2 {
      YearsOrdered(y1 + 1, y2);
    }
  }

  /** The lexicographic order on valid triples is the order of day numbers. */
  lemma PrecedesIffOrdinalLess(a: Date, b: Date)
    requires ValidDate(a) && ValidDate(b)
    ensures Precedes(a, b) <==> Ordinal(a) < Ordinal(b)
  {
    if a.year < b.year {
      MonthEndBound(a.year, a.month);
      YearsOrdered(a.year, b.year);
    } else if b.year < a.year {
      MonthEndBound(b.year, b.month);
      YearsOrdered(b.year, a.year);
    } else if a.month < b.month {
      MonthsOrdered(a.year, a.month, b.month);
    } else if b.month < a.month {
      MonthsOrdered(a.year, b.month, a.month);
    }
  }
}
