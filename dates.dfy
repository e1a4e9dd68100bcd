/** Calendar dates as day numbers, the week-ending-Friday anchor used by the weekly
    resample, and the proleptic Gregorian conversions the season filter needs. */
module Dates {

  /** Days since 1970-01-01, which was a Thursday; day 1 is the first Friday. */
  type Date = int

  /** Friday under the day-number convention above (`%` is Euclidean, so this also holds
      for dates before 1970). */
  predicate IsFriday(d: Date) {
    d % 7 == 1
  }

  /** The label pandas' `W-FRI` resample gives to day `d`: bins are closed and labelled on
      the right, so `d` belongs to the week that ends on the first Friday on or after it. */
  function FridayOnOrAfter(d: Date): (f: Date)
    ensures IsFriday(f) && d <= f < d + 7
    ensures forall g :: d <= g < f ==> !IsFriday(g)
  {
    d + (1 - d) % 7
  }

  /** A day falls in the week labelled `f` exactly when it lies in the half-open interval
      `(f - 7, f]`: Saturday through the anchor Friday. */
  lemma WeekOfIff(d: Date, f: Date)
    requires IsFriday(f)
    ensures FridayOnOrAfter(d) == f <==> f - 7 < d <= f
  {
  }

  /** Labels are monotone in the date, and any two labels are a whole number of weeks apart. */
  lemma FridayOnOrAfterMonotone(d1: Date, d2: Date)
    requires d1 <= d2
    ensures FridayOnOrAfter(d1) <= FridayOnOrAfter(d2)
    ensures (FridayOnOrAfter(d2) - FridayOnOrAfter(d1)) % 7 == 0
  {
  }

  /** Whole weeks after a Friday is a Friday. */
  lemma FridayPlusWeeks(f: Date, i: int)
    requires IsFriday(f)
    ensures IsFriday(f + 7 * i)
  {
  }

  /** Year, month and day of a date (Howard Hinnant's civil-from-days algorithm; the
      divisions are by positive constants, where Euclidean and floor division agree). */
  function CivilFromDays(n: Date): (ymd: (int, int, int))
  {
    var z := n + 719468;
    var era := z / 146097;
    var doe := z - era * 146097;
    var yoe := (doe - doe / 1460 + doe / 36524 - doe / 146096) / 365;
    var doy := doe - (365 * yoe + yoe / 4 - yoe / 100);
    var mp := (5 * doy + 2) / 153;
    var day := doy - (153 * mp + 2) / 5 + 1;
    var month := if mp < 10 then mp + 3 else mp - 9;
    var year := yoe + era * 400 + (if month <= 2 then 1 else 0);
    (year, month, day)
  }

  /** `period.dt.year` */
  function YearOf(d: Date): int {
    CivilFromDays(d).0
  }

  /** `period.dt.month` */
  function MonthOf(d: Date): int {
    CivilFromDays(d).1
  }

  /** Day 19937 is Friday 2024-08-02, the first sample week of the merge and resample
      examples, and day 20348 is 2025-09-17, the `today` of the selection example. */
  lemma SampleFridayDate() ensures CivilFromDays(19937) == (2024, 8, 2) {
    // era 5, day of era 8920, year of era 24, day of year 154, shifted month 5
    assert 739405 / 146097 == 5 && 8920 / 1460 == 6 && 8920 / 36524 == 0 && 8920 / 146096 == 0;
    assert 8914 / 365 == 24 && 24 / 4 == 6 && 24 / 100 == 0;
    assert 772 / 153 == 5 && 767 / 5 == 153;
  }

  lemma SampleTodayDate() ensures CivilFromDays(20348) == (2025, 9, 17) {
    // era 5, day of era 9331, year of era 25, day of year 200, shifted month 6
    assert 739816 / 146097 == 5 && 9331 / 1460 == 6 && 9331 / 36524 == 0 && 9331 / 146096 == 0;
    assert 9325 / 365 == 25 && 25 / 4 == 6 && 25 / 100 == 0;
    assert 1002 / 153 == 6 && 920 / 5 == 184;
  }
}
