/**
 * `DateOptions` of the birth-date form (client/src/components/PostSignupForm/Form1.js):
 * the month list, the day list of a month and the list of selectable years. Dates follow
 * ECMAScript's proleptic Gregorian calendar (ECMA-262, section 21.4.1).
 */
module DateOptions {
  import opened Wrappers
  import opened Strings

  /** One `<option>` of a select input: its `value` and its `label` (a reserved word in Dafny, hence `caption`). */
  datatype SelectOption = SelectOption(value: string, caption: string)

  const Months: seq<SelectOption> := [
    SelectOption("1", "January"), SelectOption("2", "February"), SelectOption("3", "March"),
    SelectOption("4", "April"), SelectOption("5", "May"), SelectOption("6", "June"),
    SelectOption("7", "July"), SelectOption("8", "August"), SelectOption("9", "September"),
    SelectOption("10", "October"), SelectOption("11", "November"), SelectOption("12", "December")]

  /** `year_range`: how many years back the year picker reaches. */
  const YearRange: int := 120

  /** The twelve months, with values `String(1)` to `String(12)` in calendar order. */
  lemma MonthValues()
    ensures |Months| == 12
    ensures forall i :: 0 <= i < 12 ==> Months[i].value == NatToString(i + 1)
  {
  }

  /** The Gregorian leap-year rule (ECMAScript's `DaysInYear` is 366 exactly for these years). */
  predicate IsLeapYear(y: int)
  {
    y % 4 == 0 && (y % 100 != 0 || y % 400 == 0)
  }

  /** The length of month `m` (1 to 12) of year `y`. */
  function DaysInCalendarMonth(y: int, m: int): (n: int)
    requires 1 <= m <= 12
    ensures 28 <= n <= 31
    ensures n == 29 <==> m == 2 && IsLeapYear(y)
  {
    if m == 2 then (if IsLeapYear(y) then 29 else 28)
    else if m == 4 || m == 6 || m == 9 || m == 11 then 30
    else 31
  }

  /** ECMAScript's `DayFromYear`: the day number of 1 January of year `y`, counted from 1970. */
  function DayFromYear(y: int): int
  {
    365 * (y - 1970) + (y - 1969) / 4 - (y - 1901) / 100 + (y - 1601) / 400
  }

  /** Floor division by one of the calendar's divisors grows by one exactly at a multiple. */
  lemma FloorStep(a: int, d: int)
    requires d == 4 || d == 100 || d == 400
    ensures (a + 1) / d - a / d == if (a + 1) % d == 0 then 1 else 0
  {
  }

  /** Shifting by a multiple of a calendar divisor keeps the remainder. */
  lemma ModShift(y: int, k: int, d: int)
    requires d == 4 || d == 100 || d == 400
    ensures (y - k * d) % d == y % d
  {
  }

  /** ECMAScript's day arithmetic gives a year 366 days exactly when it is a leap year. */
  lemma DayFromYearStep(y: int)
    ensures DayFromYear(y + 1) - DayFromYear(y) == if IsLeapYear(y) then 366 else 365
  {
    FloorStep(y - 1969, 4);
    FloorStep(y - 1901, 100);
    FloorStep(y - 1601, 400);
    ModShift(y, 492, 4);
    ModShift(y, 19, 100);
    ModShift(y, 4, 400);
  }

  /** The month lengths of a year add up to the length ECMAScript's day arithmetic gives it. */
  lemma MonthsFillTheYear(y: int)
    ensures DaysInCalendarMonth(y, 1) + DaysInCalendarMonth(y, 2) + DaysInCalendarMonth(y, 3)
            + DaysInCalendarMonth(y, 4) + DaysInCalendarMonth(y, 5) + DaysInCalendarMonth(y, 6)
            + DaysInCalendarMonth(y, 7) + DaysInCalendarMonth(y, 8) + DaysInCalendarMonth(y, 9)
            + DaysInCalendarMonth(y, 10) + DaysInCalendarMonth(y, 11) + DaysInCalendarMonth(y, 12)
            == DayFromYear(y + 1) - DayFromYear(y)
  {
    DayFromYearStep(y);
  }

  /**
   * `new Date(year, monthIndex, 0).getDate()`: a year from 0 to 99 means 1900 plus it, the
   * month index is carried into the year, and day 0 is the last day of the previous month.
   */
  function DayZeroDate(year: int, monthIndex: int): (n: int)
    ensures 28 <= n <= 31
    ensures 1 <= monthIndex <= 12 && !(0 <= year <= 99) ==> n == DaysInCalendarMonth(year, monthIndex)
    ensures 1 <= monthIndex <= 12 && 0 <= year <= 99 ==> n == DaysInCalendarMonth(1900 + year, monthIndex)
    ensures monthIndex == 0 || monthIndex == 13 ==> n == 31
  {
    var fullYear := if 0 <= year <= 99 then 1900 + year else year;
    var ym := fullYear + monthIndex / 12;
    var mn := monthIndex % 12;
    if mn == 0 then DaysInCalendarMonth(ym - 1, 12) else DaysInCalendarMonth(ym, mn)
  }

  /** How many days `daysInMonth(month, year)` lists: none for an empty or non-numeric argument. */
  function DayCount(month: string, year: string): (n: nat)
    ensures month == "" || year == "" ==> n == 0
    ensures ParseNat(month).None? || ParseNat(year).None? ==> n == 0
  {
    if month == "" || year == "" then 0
    else match (ParseNat(month), ParseNat(year))
      case (Some(m), Some(y)) => DayZeroDate(y, m)
      case _ => 0
  }

  /** For the values the pickers offer, the day list is that month's length in that year. */
  lemma DayCountOfPickedDate(m: nat, y: nat)
    requires 1 <= m <= 12 && y >= 100
    ensures DayCount(NatToString(m), NatToString(y)) == DaysInCalendarMonth(y, m)
    ensures DayCount(NatToString(2), NatToString(y)) == if IsLeapYear(y) then 29 else 28
  {
    ParseNatToString(m);
    ParseNatToString(y);
    ParseNatToString(2);
    assert NatToString(m) != "" && NatToString(y) != "";
    assert DayCount(NatToString(m), NatToString(y)) == DayZeroDate(y, m);
    assert DayCount(NatToString(2), NatToString(y)) == DayZeroDate(y, 2);
  }

  /** Month values past December carry into the next year, as `Date` does: "13" is January of the next year. */
  lemma DayCountCarries(y: nat)
    requires y >= 100
    ensures DayCount(NatToString(0), NatToString(y)) == 31
    ensures DayCount(NatToString(13), NatToString(y)) == 31
  {
  }

  /** A two-digit year means a year of the twentieth century: February of "0" has 28 days, not 29. */
  lemma TwoDigitYearsAreTwentiethCentury()
    ensures DayCount(NatToString(2), NatToString(0)) == 28
  {
  }

  /** `daysInMonth(month, year)`. */
  method DaysInMonth(month: string, year: string) returns (days: seq<SelectOption>)
    ensures month == "" || year == "" ==> days == []
    ensures |days| == DayCount(month, year)
    ensures forall k :: 0 <= k < |days| ==> days[k] == SelectOption(NatToString(k + 1), NatToString(k + 1))
  {
    if month == "" || year == "" {
      return [];
    }
    var totalDaysInMonth := DayCount(month, year);
    days := [];
    var i := 1;
    while i <= totalDaysInMonth
      invariant 1 <= i <= totalDaysInMonth + 1
      invariant |days| == i - 1
      invariant forall k :: 0 <= k < |days| ==> days[k] == SelectOption(NatToString(k + 1), NatToString(k + 1))
    {
      days := days + [SelectOption(NatToString(i), NatToString(i))];
      i := i + 1;
    }
  }

  /** `getYearsInRange(yearRange)` with the current year passed in. */
  method GetYearsInRange(yearRange: int, currentYear: int) returns (years: seq<SelectOption>)
    ensures |years| == if yearRange >= 0 then yearRange + 1 else 0
    ensures forall k :: 0 <= k < |years| ==>
              years[k] == SelectOption(IntToString(currentYear - k), IntToString(currentYear - k))
  {
    years := [];
    var i := currentYear;
    while i >= currentYear - yearRange
      invariant i <= currentYear
      invariant yearRange >= 0 ==> i >= currentYear - yearRange - 1
      invariant yearRange < 0 ==> i == currentYear
      invariant |years| == currentYear - i
      invariant forall k :: 0 <= k < |years| ==>
                  years[k] == SelectOption(IntToString(currentYear - k), IntToString(currentYear - k))
      decreases i - (currentYear - yearRange)
    {
      years := years + [SelectOption(IntToString(i), IntToString(i))];
      i := i - 1;
    }
  }

  /** The options of the year picker: `getYearsInRange(year_range)`, 121 years down from this one. */
  method YearOptions(currentYear: int) returns (years: seq<SelectOption>)
    ensures |years| == 121
    ensures years[0].value == IntToString(currentYear)
    ensures years[120].value == IntToString(currentYear - 120)
  {
    years := GetYearsInRange(YearRange, currentYear);
  }
}
