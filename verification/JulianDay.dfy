/** The Julian day formula of the sunrise calculation against the Gregorian calendar (sunrise_sunset_calc.cpp). */
module JulianDay {
  const JULIAN_DAYS_PER_YEAR := 365.25
  const JULIAN_MONTH_COEFF := 30.6001

  /** C++ integer division. */
  function TruncDiv(a: int, b: int): int
    requires b > 0
  {
    if a >= 0 then a / b else -(-a / b)
  }

  function CalcJulianDay(year: int, month: int, day: int, hour: real): real {
    var y := if month <= 2 then year - 1 else year;
    var m := if month <= 2 then month + 12 else month;
    var centuryDiv := TruncDiv(y, 100);
    var gregorianCorr := 2 - centuryDiv + TruncDiv(centuryDiv, 4);
    (JULIAN_DAYS_PER_YEAR * (y + 4716) as real).Floor as real + (JULIAN_MONTH_COEFF * (m + 1) as real).Floor as real
      + day as real + hour / 24.0 + gregorianCorr as real - 1524.5
  }

  // ---------- the calendar ----------

  datatype Date = Date(year: int, month: int, day: int) {
    predicate Valid() { 1 <= year && 1 <= month <= 12 && 1 <= day <= MonthLength(year, month) }

    function Next(): Date
      requires Valid()
    {
      if day < MonthLength(year, month) then Date(year, month, day + 1)
      else if month < 12 then Date(year, month + 1, 1)
      else Date(year + 1, 1, 1)
    }

    function Julian(hour: real): real { CalcJulianDay(year, month, day, hour) }
  }

  predicate IsLeap(year: int) { year % 4 == 0 && (year % 100 != 0 || year % 400 == 0) }

  function MonthLength(year: int, month: int): int {
    if month == 2 then (if IsLeap(year) then 29 else 28)
    else if month in {4, 6, 9, 11} then 30
    else 31
  }

  function YearLength(year: int): int { if IsLeap(year) then 366 else 365 }

  /** Days from 0001-01-01 to the first day of the year. */
  function DaysBeforeYear(year: int): int
    requires year >= 1
  {
    if year == 1 then 0 else DaysBeforeYear(year - 1) + YearLength(year - 1)
  }

  function DaysBeforeMonth(year: int, month: int): int
    requires 1 <= month <= 12
  {
    if month == 1 then 0 else DaysBeforeMonth(year, month - 1) + MonthLength(year, month - 1)
  }

  /** The number of the date when 0001-01-01 is day 1. */
  function DayNumber(date: Date): int
    requires date.Valid()
  {
    DaysBeforeYear(date.year) + DaysBeforeMonth(date.year, date.month) + date.day
  }

  const EPOCH := Date(1970, 1, 1)

  // ---------- the formula over integers ----------

  lemma YearTerm(y: int)
    ensures (JULIAN_DAYS_PER_YEAR * (y + 4716) as real).Floor == 365 * (y + 4716) + (y + 4716) / 4
  {
    var n := y + 4716;
    var q, r := n / 4, n % 4;
    assert JULIAN_DAYS_PER_YEAR * n as real == (365 * n + q) as real + r as real * 0.25;
    assert 0.0 <= r as real * 0.25 < 1.0;
  }

  lemma MonthTerm(m: int)
    requires 3 <= m <= 14
    ensures (JULIAN_MONTH_COEFF * (m + 1) as real).Floor == MonthPart(m)
  {
    var n := m + 1;
    var k := MonthPart(m);
    assert 30.6001 * n as real == k as real + (30.6001 * n as real - k as real);
  }

  function YearPart(y: int): int { 365 * (y + 4716) + (y + 4716) / 4 - y / 100 + y / 400 }

  function MonthPart(m: int): int { 153 * (m + 1) / 5 }

  /** The integer form of the Julian day number at hour 12. */
  function Number(year: int, month: int, day: int): int {
    if month <= 2 then
      YearPart(year - 1) + MonthPart(month + 12) + day - 1522
    else
      YearPart(year) + MonthPart(month) + day - 1522
  }

  lemma FormulaInIntegers(year: int, month: int, day: int, hour: real)
    requires 1 <= year && 1 <= month <= 12
    ensures CalcJulianDay(year, month, day, hour) == Number(year, month, day) as real + hour / 24.0 - 0.5
  {
    var y := if month <= 2 then year - 1 else year;
    var m := if month <= 2 then month + 12 else month;
    YearTerm(y);
    MonthTerm(m);
    assert TruncDiv(TruncDiv(y, 100), 4) == y / 400;
  }

  lemma DivisionStep(n: int)
    ensures n / 4 - (n - 1) / 4 == if n % 4 == 0 then 1 else 0
    ensures n / 100 - (n - 1) / 100 == if n % 100 == 0 then 1 else 0
    ensures n / 400 - (n - 1) / 400 == if n % 400 == 0 then 1 else 0
    ensures (n % 400 == 0 ==> n % 100 == 0) && (n % 100 == 0 ==> n % 4 == 0)
  {
    assert n % 400 == 0 ==> n == 100 * (4 * (n / 400));
    assert n % 100 == 0 ==> n == 4 * (25 * (n / 100));
  }

  /** Leap days: the year part grows by the length of the year. */
  lemma YearPartStep(year: int)
    ensures YearPart(year) == YearPart(year - 1) + YearLength(year)
  {
    assert (year + 4716) / 4 == year / 4 + 1179 && (year - 1 + 4716) / 4 == (year - 1) / 4 + 1179;
    assert YearPart(year) - YearPart(year - 1)
        == 365 + (year / 4 - (year - 1) / 4) - (year / 100 - (year - 1) / 100) + (year / 400 - (year - 1) / 400);
    DivisionStep(year);
  }

  lemma NewYear(year: int)
    requires 1 <= year
    ensures Number(year + 1, 1, 1) == Number(year, 12, 31) + 1
    ensures Number(year, 3, 1) == Number(year, 2, MonthLength(year, 2)) + 1
  {
    YearPartStep(year);
  }

  /** The month term grows by the length of the month (months numbered 3 to 14). */
  lemma MonthTermStep(m: int)
    requires 3 <= m <= 13
    ensures MonthPart(m + 1) - MonthPart(m) == if m in {4, 6, 9, 11} then 30 else 31
  {
    match m
    case 3 => case 4 => case 5 => case 6 => case 7 => case 8 =>
    case 9 => case 10 => case 11 => case 12 => case 13 =>
  }

  lemma MonthEnd(year: int, month: int)
    requires 1 <= year && 1 <= month < 12
    ensures Number(year, month + 1, 1) == Number(year, month, MonthLength(year, month)) + 1
  {
    if month == 2 {
      NewYear(year);
    } else {
      MonthTermStep(if month == 1 then 13 else month);
    }
  }

  lemma NextNumber(date: Date)
    requires date.Valid()
    ensures date.Next().Valid()
    ensures Number(date.Next().year, date.Next().month, date.Next().day) == Number(date.year, date.month, date.day) + 1
  {
    if date.day == MonthLength(date.year, date.month) {
      if date.month < 12 {
        MonthEnd(date.year, date.month);
      } else {
        NewYear(date.year);
      }
    }
  }

  /** The next civil day is exactly one Julian day later, across month ends, leap days and centuries. */
  lemma NextDayIsOneLater(date: Date, hour: real)
    requires date.Valid()
    ensures date.Next().Valid() && date.Next().Julian(hour) == date.Julian(hour) + 1.0
  {
    NextNumber(date);
    FormulaInIntegers(date.year, date.month, date.day, hour);
    FormulaInIntegers(date.Next().year, date.Next().month, date.Next().day, hour);
  }

  lemma {:induction false} MonthStart(year: int, month: int)
    requires 1 <= year && 1 <= month <= 12
    ensures Number(year, month, 1) == Number(year, 1, 1) + DaysBeforeMonth(year, month)
  {
    if month > 1 {
      MonthStart(year, month - 1);
      MonthEnd(year, month - 1);
    }
  }

  lemma {:induction false} YearStart(year: int)
    requires 1 <= year
    ensures Number(year, 1, 1) == 1721426 + DaysBeforeYear(year)
  {
    if year > 1 {
      YearStart(year - 1);
      MonthStart(year - 1, 12);
      NewYear(year - 1);
      MonthsOfYear(year - 1);
    }
  }

  lemma MonthsOfYear(year: int)
    ensures DaysBeforeMonth(year, 12) + 31 == YearLength(year)
  {
    assert DaysBeforeMonth(year, 3) == DaysBeforeMonth(year, 2) + MonthLength(year, 2);
    assert DaysBeforeMonth(year, 5) == DaysBeforeMonth(year, 3) + 61;
    assert DaysBeforeMonth(year, 7) == DaysBeforeMonth(year, 5) + 61;
    assert DaysBeforeMonth(year, 9) == DaysBeforeMonth(year, 7) + 62;
    assert DaysBeforeMonth(year, 11) == DaysBeforeMonth(year, 9) + 61;
  }

  /** At noon the formula counts the civil days since 1970-01-01 from 2440588. */
  lemma NoonCountsCivilDays(date: Date)
    requires date.Valid()
    ensures date.Julian(12.0) == (2440588 + DayNumber(date) - DayNumber(EPOCH)) as real
  {
    FormulaInIntegers(date.year, date.month, date.day, 12.0);
    MonthStart(date.year, date.month);
    YearStart(date.year);
    YearStart(1970);
    assert DayNumber(EPOCH) == DaysBeforeYear(1970) + 1;
    assert Number(1970, 1, 1) == 2440588;
  }

  /** Counting civil days one at a time. */
  lemma DayNumberOfNext(date: Date)
    requires date.Valid()
    ensures date.Next().Valid() && DayNumber(date.Next()) == DayNumber(date) + 1
  {
    MonthsOfYear(date.year);
  }
}
