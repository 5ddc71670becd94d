/** The part of Go's time package that card validation relies on: the first
    instant of a calendar month, in the proleptic Gregorian calendar, UTC. */
module Calendar {
  import opened Common
  import opened Decimal

  const MsPerDay: int := 86_400_000

  predicate IsLeap(year: int)
  {
    year % 4 == 0 && (year % 100 != 0 || year % 400 == 0)
  }

  function DaysInYear(year: int): int
  {
    if IsLeap(year) then 366 else 365
  }

  /** Days in the years 0 .. year-1: 365 each, plus one for every leap year among them. */
  function DaysBeforeYear(year: nat): int
  {
    365 * year + (year + 3) / 4 - (year + 99) / 100 + (year + 399) / 400
  }

  /** Days in the months January .. month-1 of a year (Go's daysBefore table). */
  function DaysBeforeMonth(year: int, month: int): int
    requires 1 <= month <= 12
  {
    [0, 31, 59, 90, 120, 151, 181, 212, 243, 273, 304, 334][month - 1]
      + (if month > 2 && IsLeap(year) then 1 else 0)
  }

  /** The first instant (day 1, 00:00:00.000 UTC) of the given month. */
  function MonthStart(year: nat, month: int): Instant
    requires 1 <= month <= 12
  {
    (DaysBeforeYear(year) + DaysBeforeMonth(year, month)) * MsPerDay
  }

  /** Go's zero time.Time, 0001-01-01T00:00:00 UTC. */
  const ZeroTime: Instant := MonthStart(1, 1)

  /** time.Parse with layout "2006-01": exactly four digits of year, a '-',
      exactly two digits of month in 1..12, and nothing after them. Go reports
      the failures as a bad year, a bad month, "month out of range" or "extra
      text"; the model keeps only that the parse failed. */
  function ParseYearMonth(s: string): (r: Option<(nat, int)>)
    ensures r.Some? ==> 1 <= r.value.1 <= 12
  {
    if |s| < 4 || !AllDigits(s[..4]) then None
    else if |s| < 5 || s[4] != '-' then None
    else if |s| < 7 || !IsDigit(s[5]) || !IsDigit(s[6]) then None
    else
      var month := DigitsValue(s[5..7]);
      if month < 1 || 12 < month then None
      else if |s| > 7 then None
      else Some((DigitsValue(s[..4]), month))
  }

  /** Month-year pairs in lexicographic order. */
  predicate MonthBefore(year1: int, month1: int, year2: int, month2: int)
  {
    year1 < year2 || (year1 == year2 && month1 < month2)
  }

  /** Crossing a multiple of d adds one to the count of multiples of d below it. */
  lemma MultiplesStep4(year: nat)
    ensures (year + 4) / 4 == (year + 3) / 4 + (if year % 4 == 0 then 1 else 0)
  {
    var q, r := year / 4, year % 4;
    assert year == 4 * q + r;
  }

  lemma MultiplesStep100(year: nat)
    ensures (year + 100) / 100 == (year + 99) / 100 + (if year % 100 == 0 then 1 else 0)
  {
    var q, r := year / 100, year % 100;
    assert year == 100 * q + r;
  }

  lemma MultiplesStep400(year: nat)
    ensures (year + 400) / 400 == (year + 399) / 400 + (if year % 400 == 0 then 1 else 0)
  {
    var q, r := year / 400, year % 400;
    assert year == 400 * q + r;
  }

  lemma CenturyOfQuadricentennial(year: nat)
    requires year % 400 == 0
    ensures year % 100 == 0
  {
    var q := year / 400;
    assert year == 400 * q;
    assert year / 100 == 4 * q;
  }

  lemma QuadrennialOfCentury(year: nat)
    requires year % 100 == 0
    ensures year % 4 == 0
  {
    var q := year / 100;
    assert year == 100 * q;
    assert year / 4 == 25 * q;
  }

  /** A multiple of 400 is a multiple of 100, and one of 100 a multiple of 4,
      so the three counts add up to the leap-year indicator. */
  lemma LeapCount(year: nat)
    ensures (if year % 4 == 0 then 1 else 0) - (if year % 100 == 0 then 1 else 0)
              + (if year % 400 == 0 then 1 else 0) == DaysInYear(year) - 365
  {
    if year % 400 == 0 {
      CenturyOfQuadricentennial(year);
    }
    if year % 100 == 0 {
      QuadrennialOfCentury(year);
    }
  }

  lemma DaysBeforeYearStep(year: nat)
    ensures DaysBeforeYear(year + 1) == DaysBeforeYear(year) + DaysInYear(year)
  {
    MultiplesStep4(year);
    MultiplesStep100(year);
    MultiplesStep400(year);
    LeapCount(year);
  }

  lemma {:induction false} DaysBeforeYearIncreasing(year1: nat, year2: nat)
    requires year1 < year2
    ensures DaysBeforeYear(year1) + DaysInYear(year1) <= DaysBeforeYear(year2)
    decreases year2 - year1
  {
    DaysBeforeYearStep(year1);
    if year1 + 1 < year2 {
      DaysBeforeYearIncreasing(year1 + 1, year2);
    }
  }

  /** Later months start later: the first instant of a month is strictly
      increasing in (year, month). */
  lemma MonthStartIncreasing(year1: nat, month1: int, year2: nat, month2: int)
    requires 1 <= month1 <= 12 && 1 <= month2 <= 12
    requires MonthBefore(year1, month1, year2, month2)
    ensures MonthStart(year1, month1) < MonthStart(year2, month2)
  {
    if year1 < year2 {
      DaysBeforeYearIncreasing(year1, year2);
      assert DaysBeforeMonth(year1, month1) < DaysInYear(year1);
      assert DaysBeforeYear(year1) + DaysBeforeMonth(year1, month1)
           < DaysBeforeYear(year2) + DaysBeforeMonth(year2, month2);
    }
  }

  /** The first instants of months are ordered exactly as the months are, so
      distinct months have distinct first instants. */
  lemma MonthStartOrder(year1: nat, month1: int, year2: nat, month2: int)
    requires 1 <= month1 <= 12 && 1 <= month2 <= 12
    ensures MonthStart(year1, month1) < MonthStart(year2, month2)
        <==> MonthBefore(year1, month1, year2, month2)
    ensures MonthStart(year1, month1) == MonthStart(year2, month2)
        <==> (year1 == year2 && month1 == month2)
  {
    if MonthBefore(year1, month1, year2, month2) {
      MonthStartIncreasing(year1, month1, year2, month2);
    } else if MonthBefore(year2, month2, year1, month1) {
      MonthStartIncreasing(year2, month2, year1, month1);
    }
  }
}
