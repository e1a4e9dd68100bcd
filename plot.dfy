/** `select_apr_oct_last5`: the rows of the merged weekly frame that fall in April through
    October of the five calendar years completed before `today`, sorted by period. The
    plotting itself is not modelled. */
module Plot {
  import opened Base
  import opened Dates
  import opened Frames
  import opened Align

  /** The first and last year kept: `today.year - 5` and `today.year - 1`. */
  function StartYear(today: Date): int {
    YearOf(today) - 5
  }

  function EndYear(today: Date): int {
    YearOf(today) - 1
  }

  /** The row mask: `year.between(start_year, end_year) & month.between(4, 10)`, both
      bounds inclusive. */
  predicate InSeason(row: JoinedRow, today: Date) {
    StartYear(today) <= YearOf(row.period) <= EndYear(today) && 4 <= MonthOf(row.period) <= 10
  }

  /** `d.loc[mask]`: the rows passing the mask, in frame order. */
  function KeepInSeason(rows: seq<JoinedRow>, today: Date): (r: seq<JoinedRow>)
    ensures |r| <= |rows|
    ensures forall row :: row in r <==> row in rows && InSeason(row, today)
  {
    if |rows| == 0 then []
    else
      var rest := KeepInSeason(rows[1..], today);
      assert rows == [rows[0]] + rows[1..];
      if InSeason(rows[0], today) then [rows[0]] + rest else rest
  }

  /** The masked rows keep their multiplicities: a row occurs in the result as often as it
      occurs in the input when it is in season, and not at all otherwise. */
  lemma {:induction false} KeepInSeasonCounts(rows: seq<JoinedRow>, today: Date, row: JoinedRow)
    ensures multiset(KeepInSeason(rows, today))[row] ==
              if InSeason(row, today) then multiset(rows)[row] else 0
  {
    if |rows| > 0 {
      var rest := KeepInSeason(rows[1..], today);
      KeepInSeasonCounts(rows[1..], today, row);
      assert rows == [rows[0]] + rows[1..];
      assert multiset(rows) == multiset{rows[0]} + multiset(rows[1..]);
      if InSeason(rows[0], today) {
        assert KeepInSeason(rows, today) == [rows[0]] + rest;
        assert multiset(KeepInSeason(rows, today)) == multiset{rows[0]} + multiset(rest);
      } else {
        assert KeepInSeason(rows, today) == rest;
      }
    }
  }

  /** `select_apr_oct_last5(df, today)`: the in-season rows, with the same columns, sorted
      by period. */
  function SelectAprOctLast5(rows: seq<JoinedRow>, today: Date): (r: seq<JoinedRow>)
    ensures SortedBy(r, JoinedPeriod)
    ensures multiset(r) == multiset(KeepInSeason(rows, today))
    ensures forall row :: row in r <==> row in rows && InSeason(row, today)
  {
    var kept := KeepInSeason(rows, today);
    var sorted := SortBy(kept, JoinedPeriod);
    assert forall row :: row in sorted <==> row in multiset(kept);
    sorted
  }

  /** The window spans exactly five years, ending the year before `today`'s. */
  lemma WindowIsFiveCompletedYears(today: Date)
    ensures EndYear(today) - StartYear(today) + 1 == 5
    ensures EndYear(today) < YearOf(today)
  {
  }

  /** Selecting again with the same `today` changes nothing. */
  lemma {:induction false} SelectIdempotentRows(rows: seq<JoinedRow>, today: Date, row: JoinedRow)
    ensures multiset(SelectAprOctLast5(SelectAprOctLast5(rows, today), today))[row] ==
              multiset(SelectAprOctLast5(rows, today))[row]
  {
    var once := SelectAprOctLast5(rows, today);
    KeepInSeasonCounts(rows, today, row);
    KeepInSeasonCounts(once, today, row);
  }

  /** On 2025-09-17 the window is 2020 to 2024: a row dated 2024-08-02 is kept. */
  lemma SelectExample()
    ensures StartYear(20348) == 2020 && EndYear(20348) == 2024
    ensures InSeason(JoinedRow(19937, None, None, None), 20348)
  {
    SampleFridayDate();
    SampleTodayDate();
  }
}
