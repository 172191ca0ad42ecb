/** Months of the Gregorian calendar, as instants: when each month starts, and which month an instant lies in. */
module Calendar {
  import opened Operations

  const SECONDS_IN_A_DAY := 86400

  predicate IsLeap(year: nat) {
    year % 4 == 0 && (year % 100 != 0 || year % 400 == 0)
  }

  /** Days in the month with this number since January 1970. */
  function DaysIn(month: nat): (days: nat)
    ensures 28 <= days <= 31
  {
    var year, number := 1970 + month / 12, month % 12;
    if number == 1 then if IsLeap(year) then 29 else 28
    else if number in {3, 5, 8, 10} then 30
    else 31
  }

  function MonthStart(month: nat): Time {
    if month == 0 then 0 else MonthStart(month - 1) + DaysIn(month - 1) * SECONDS_IN_A_DAY
  }

  // ---- the months are those of the Gregorian calendar ----

  /** Multiples of `d` from 1 on, before `n`. */
  function MultiplesBefore(n: nat, d: nat): nat
    requires n > 0 && d > 0
  {
    (n - 1) / d
  }

  /** Leap years before this one: every fourth, but of the hundreds only every fourth. */
  function LeapsBefore(year: nat): int
    requires year > 0
  {
    MultiplesBefore(year, 4) - MultiplesBefore(year, 100) + MultiplesBefore(year, 400)
  }

  lemma Hundreds(year: nat)
    ensures IsLeap(year) <==> (year % 4 == 0 && year % 100 != 0) || year % 400 == 0
    ensures year % 400 == 0 ==> year % 100 == 0
    ensures year % 100 == 0 ==> year % 4 == 0
  {
    if year % 400 == 0 {
      Quotient(year, year / 400 * 4, 0, 100);
    }
    if year % 100 == 0 {
      Quotient(year, year / 100 * 25, 0, 4);
    }
  }

  lemma OneMoreYear(year: nat)
    requires year > 0
    ensures LeapsBefore(year + 1) == LeapsBefore(year) + (if IsLeap(year) then 1 else 0)
  {
    hide MultiplesBefore, IsLeap;
    OneMoreMultiple(year, 4);
    OneMoreMultiple(year, 100);
    OneMoreMultiple(year, 400);
    Hundreds(year);
  }

  lemma OneMoreMultiple(n: nat, d: nat)
    requires n > 0 && d > 0
    ensures MultiplesBefore(n + 1, d) == MultiplesBefore(n, d) + (if n % d == 0 then 1 else 0)
  {
    var q, r := (n - 1) / d, (n - 1) % d;
    assert n == q * d + (r + 1);
    if r + 1 == d {
      Quotient(n, q + 1, 0, d);
    } else {
      Quotient(n, q, r + 1, d);
    }
  }

  lemma Quotient(n: nat, q: nat, r: nat, d: nat)
    requires d > 0 && r < d && n == q * d + r
    ensures n / d == q && n % d == r
  {
    var x := n / d - q;
    assert x * d == r - n % d;
    AwayFromZero(x, d);
  }

  lemma AwayFromZero(x: int, d: int)
    requires d > 0
    ensures x > 0 ==> x * d >= d
    ensures x < 0 ==> x * d <= -d
  {
  }

  /** Days of the year before its `number`th month. */
  function DaysBefore(number: nat, leap: bool): nat
    requires number <= 12
  {
    [0, 31, 59, 90, 120, 151, 181, 212, 243, 273, 304, 334, 365][number] + (if leap && number > 1 then 1 else 0)
  }

  lemma {:induction false} WithinYear(year: nat, number: nat)
    requires number <= 12
    ensures MonthStart(12 * year + number) ==
      MonthStart(12 * year) + DaysBefore(number, IsLeap(1970 + year)) * SECONDS_IN_A_DAY
  {
    if number > 0 {
      WithinYear(year, number - 1);
      assert (12 * year + number - 1) / 12 == year && (12 * year + number - 1) % 12 == number - 1;
    }
  }

  lemma AYear(leap: bool)
    ensures DaysBefore(0, leap) == 0 && DaysBefore(12, leap) == if leap then 366 else 365
  {
  }

  lemma {:induction false} YearStart(year: nat)
    ensures MonthStart(12 * year) == (365 * year + (LeapsBefore(1970 + year) - LeapsBefore(1970))) * SECONDS_IN_A_DAY
  {
    hide MonthStart, LeapsBefore, IsLeap, DaysBefore;
    if year > 0 {
      YearStart(year - 1);
      WithinYear(year - 1, 12);
      assert 12 * (year - 1) + 12 == 12 * year;
      AYear(IsLeap(1970 + year - 1));
      OneMoreYear(1970 + year - 1);
    } else {
      FirstMonth();
    }
  }

  lemma FirstMonth()
    ensures MonthStart(12 * 0) == 0
  {
  }

  /** Every month starts after the days of all years since 1970, leap days included, and of the months before it. */
  lemma MonthsAreGregorian(year: nat, number: nat)
    requires number < 12
    ensures MonthStart(12 * year + number) ==
      (365 * year + (LeapsBefore(1970 + year) - LeapsBefore(1970)) + DaysBefore(number, IsLeap(1970 + year))) * 86400
  {
    hide MonthStart, LeapsBefore, IsLeap, DaysBefore;
    YearStart(year);
    WithinYear(year, number);
  }

  function MonthFrom(month: nat, date: Time): (m: nat)
    requires MonthStart(month) <= date
    ensures MonthStart(m) <= date < MonthStart(m + 1)
    decreases date - MonthStart(month)
  {
    if date < MonthStart(month + 1) then month else MonthFrom(month + 1, date)
  }

  function MonthOf(date: Time): (m: nat)
    ensures MonthStart(m) <= date < MonthStart(m + 1)
  {
    MonthFrom(0, date)
  }

  function FirstDayCurrentMonth(date: Time): Time {
    MonthStart(MonthOf(date))
  }

  function FirstDayNextMonth(date: Time): Time {
    MonthStart(MonthOf(date) + 1)
  }

  ghost predicate IsMonthStart(date: Time) {
    exists m: nat :: MonthStart(m) == date
  }

  lemma {:induction false} MonthsAreOrdered(a: nat, b: nat)
    requires a < b
    ensures MonthStart(a) < MonthStart(b)
  {
    if a < b - 1 {
      MonthsAreOrdered(a, b - 1);
    }
  }

  /** The month of an instant is the only one it lies in. */
  lemma MonthIsUnique(date: Time, m: nat)
    requires MonthStart(m) <= date < MonthStart(m + 1)
    ensures MonthOf(date) == m
  {
    var n := MonthOf(date);
    if n < m {
      if n + 1 < m { MonthsAreOrdered(n + 1, m); }
    } else if m < n {
      if m + 1 < n { MonthsAreOrdered(m + 1, n); }
    }
  }

  /** The next month start is strictly later, and no month starts in between. */
  lemma NextMonthIsNext(date: Time, start: Time)
    requires IsMonthStart(start)
    ensures date < FirstDayNextMonth(date) && IsMonthStart(FirstDayNextMonth(date))
    ensures IsMonthStart(FirstDayCurrentMonth(date))
    ensures date < start <==> FirstDayNextMonth(date) <= start
    ensures start <= date <==> start <= FirstDayCurrentMonth(date)
  {
    var m :| MonthStart(m) == start;
    var n := MonthOf(date);
    assert MonthStart(n + 1) == FirstDayNextMonth(date);
    assert MonthStart(n) == FirstDayCurrentMonth(date);
    if m > n + 1 {
      MonthsAreOrdered(n + 1, m);
    } else if m < n {
      MonthsAreOrdered(m, n);
    }
  }

  lemma MonthsSeparate(date: Time)
    ensures date < FirstDayNextMonth(date) && IsMonthStart(FirstDayNextMonth(date))
    ensures forall start: Time | IsMonthStart(start) :: start <= date <==> start < FirstDayNextMonth(date)
  {
    assert MonthStart(0) == 0;
    NextMonthIsNext(date, 0);
    forall start: Time | IsMonthStart(start) ensures start <= date <==> start < FirstDayNextMonth(date) {
      NextMonthIsNext(date, start);
    }
  }
}
