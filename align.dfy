/** `build_weekly_join`: daily prices averaged into week-ending-Friday bins, the inner join
    of the salt, U.S.-total and weekly price frames on `period`, and the diagnostics raised
    when there is no price or nothing overlaps. */
module Align {
  import opened Base
  import opened Dates
  import opened Frames

  /** Sum and count of the non-NaN values. */
  function SumPresent(vals: seq<Value>): real {
    if |vals| == 0 then 0.0
    else (if vals[0].Some? then vals[0].value else 0.0) + SumPresent(vals[1..])
  }

  function CountPresent(vals: seq<Value>): nat {
    if |vals| == 0 then 0
    else (if vals[0].Some? then 1 else 0) + CountPresent(vals[1..])
  }

  /** pandas' `mean()`: NaN values are skipped, and a group with no numbers is NaN. */
  function Mean(vals: seq<Value>): (m: Value)
    ensures m.None? <==> CountPresent(vals) == 0
    ensures m.Some? ==> m.value * (CountPresent(vals) as real) == SumPresent(vals)
  {
    if CountPresent(vals) == 0 then None
    else Some(SumPresent(vals) / (CountPresent(vals) as real))
  }

  /** The mean is NaN exactly when every value is NaN (or there are none). */
  lemma {:induction false} MeanIsNaNIff(vals: seq<Value>)
    ensures Mean(vals).None? <==> forall k :: 0 <= k < |vals| ==> vals[k].None?
  {
    if |vals| > 0 {
      MeanIsNaNIff(vals[1..]);
      assert forall k :: 1 <= k < |vals| ==> vals[k] == vals[1..][k - 1];
    }
  }

  /** The mean of the numbers lies between any bounds that hold for each of them. */
  lemma MeanWithinBounds(vals: seq<Value>, lo: real, hi: real)
    requires forall k :: 0 <= k < |vals| && vals[k].Some? ==> lo <= vals[k].value <= hi
    ensures Mean(vals).Some? ==> lo <= Mean(vals).value <= hi
  {
    SumPresentBounds(vals, lo, hi);
    if CountPresent(vals) > 0 {
      QuotientBounds(SumPresent(vals), CountPresent(vals) as real, lo, hi);
    }
  }

  lemma QuotientBounds(x: real, n: real, lo: real, hi: real)
    requires n > 0.0 && lo * n <= x <= hi * n
    ensures lo <= x / n <= hi
  {
    assert x / n - lo == (x - lo * n) / n;
    assert hi - x / n == (hi * n - x) / n;
  }

  lemma {:induction false} SumPresentBounds(vals: seq<Value>, lo: real, hi: real)
    requires forall k :: 0 <= k < |vals| && vals[k].Some? ==> lo <= vals[k].value <= hi
    ensures lo * (CountPresent(vals) as real) <= SumPresent(vals) <= hi * (CountPresent(vals) as real)
  {
    if |vals| > 0 {
      assert forall k :: 1 <= k < |vals| ==> vals[1..][k - 1] == vals[k];
      SumPresentBounds(vals[1..], lo, hi);
      var c := CountPresent(vals[1..]) as real;
      if vals[0].Some? {
        assert CountPresent(vals) as real == c + 1.0;
        assert SumPresent(vals) == vals[0].value + SumPresent(vals[1..]);
        assert lo * (c + 1.0) == lo * c + lo && hi * (c + 1.0) == hi * c + hi;
      } else {
        assert CountPresent(vals) as real == c && SumPresent(vals) == SumPresent(vals[1..]);
      }
    }
  }

  /** Day `d` falls in the `W-FRI` bin labelled `f`: closed on the right, `(f - 7, f]`. */
  predicate InWeek(d: Date, f: Date) {
    f - 7 < d <= f
  }

  /** The values of the rows in the bin labelled `f`, in frame order. */
  function BinValues(s: Series, f: Date): seq<Value> {
    if |s| == 0 then []
    else (if InWeek(s[0].period, f) then [s[0].value] else []) + BinValues(s[1..], f)
  }

  /** `set_index("period").resample("W-FRI").mean()` on a non-empty daily frame: one row for
      every Friday from the bin of the earliest date to the bin of the latest, each holding
      the mean of its bin (NaN for a week with no numbers). */
  function ResampleWeekly(s: Series): (r: Series)
    requires |s| > 0
    ensures |r| > 0
    ensures r[0].period == FridayOnOrAfter(MinPeriod(s))
    ensures r[|r| - 1].period == FridayOnOrAfter(MaxPeriod(s))
    ensures forall i :: 0 <= i < |r| ==> r[i].period == r[0].period + 7 * i && IsFriday(r[i].period)
    ensures forall i :: 0 <= i < |r| ==> r[i] == WeekRow(s, r[i].period)
  {
    var lo := FridayOnOrAfter(MinPeriod(s));
    var hi := FridayOnOrAfter(MaxPeriod(s));
    FridayOnOrAfterMonotone(MinPeriod(s), MaxPeriod(s));
    var n := WeekCount(lo, hi);
    WeeksFrom(s, lo, n)
  }

  /** The number of Fridays from `lo` to `hi`, both included. */
  function WeekCount(lo: Date, hi: Date): (n: nat)
    requires lo <= hi && (hi - lo) % 7 == 0
    ensures n > 0 && lo + 7 * (n - 1) == hi
  {
    (hi - lo) / 7 + 1
  }

  /** The weekly rows for the `n` consecutive Fridays starting at the Friday `lo`. */
  function WeeksFrom(s: Series, lo: Date, n: nat): (r: Series)
    requires IsFriday(lo)
    ensures |r| == n
    ensures forall i :: 0 <= i < n ==> r[i].period == lo + 7 * i && IsFriday(r[i].period)
    ensures forall i :: 0 <= i < n ==> r[i] == WeekRow(s, r[i].period)
  {
    if n == 0 then []
    else
      FridayPlusWeeks(lo, n - 1);
      WeeksFrom(s, lo, n - 1) + [WeekRow(s, lo + 7 * (n - 1))]
  }

  /** The weekly row labelled `f`: the mean of the values dated in `(f - 7, f]`. */
  function WeekRow(s: Series, f: Date): Obs {
    Obs(f, Mean(BinValues(s, f)))
  }

  /** The weekly frame has one row per Friday, in ascending order. */
  lemma ResampleSortedUnique(s: Series)
    requires |s| > 0
    ensures SortedByPeriod(ResampleWeekly(s)) && UniquePeriods(ResampleWeekly(s))
  {
  }

  /** Every daily row lands in exactly one weekly row: the one labelled with the first Friday
      on or after its date. */
  lemma ResampleCovers(s: Series, k: nat)
    requires k < |s|
    ensures exists i :: 0 <= i < |ResampleWeekly(s)| &&
                        ResampleWeekly(s)[i].period == FridayOnOrAfter(s[k].period) &&
                        InWeek(s[k].period, ResampleWeekly(s)[i].period)
    ensures forall i :: 0 <= i < |ResampleWeekly(s)| && InWeek(s[k].period, ResampleWeekly(s)[i].period) ==>
                        ResampleWeekly(s)[i].period == FridayOnOrAfter(s[k].period)
  {
    var r := ResampleWeekly(s);
    var d := s[k].period;
    var f := FridayOnOrAfter(d);
    FridayOnOrAfterMonotone(MinPeriod(s), d);
    FridayOnOrAfterMonotone(d, MaxPeriod(s));
    var i := (f - r[0].period) / 7;
    assert r[0].period + 7 * i == f;
    assert r[i].period == f;
    WeekOfIff(d, f);
    forall j | 0 <= j < |r| && InWeek(d, r[j].period) ensures r[j].period == f {
      WeekOfIff(d, r[j].period);
    }
  }

  /** A week with no daily rows between the first and last bins is not dropped: it is a row
      whose value is NaN, never a zero or an interpolated value. */
  lemma ResampleGapWeekIsNaN(s: Series, i: nat)
    requires |s| > 0 && i < |ResampleWeekly(s)|
    requires forall k :: 0 <= k < |s| ==> !InWeek(s[k].period, ResampleWeekly(s)[i].period)
    ensures ResampleWeekly(s)[i].value.None?
  {
    EmptyBin(s, ResampleWeekly(s)[i].period);
  }

  /** A bin with no dated rows has no values. */
  lemma {:induction false} EmptyBin(s: Series, f: Date)
    requires forall k :: 0 <= k < |s| ==> !InWeek(s[k].period, f)
    ensures BinValues(s, f) == []
  {
    if |s| > 0 {
      assert forall k :: 1 <= k < |s| ==> s[1..][k - 1] == s[k];
      EmptyBin(s[1..], f);
    }
  }

  /** The value column of a frame. */
  function Values(s: Series): seq<Value> {
    if |s| == 0 then [] else [s[0].value] + Values(s[1..])
  }

  /** The bin labelled `f` is the value column of the frame clipped to the seven days
      `f - 6 .. f`: the values of the rows dated in `(f - 7, f]`, each as often as it occurs
      and in frame order. */
  lemma {:induction false} BinValuesIsClip(s: Series, f: Date)
    ensures BinValues(s, f) == Values(Clip(s, f - 6, f))
  {
    if |s| > 0 {
      BinValuesIsClip(s[1..], f);
      if InWeek(s[0].period, f) {
        var c := Clip(s, f - 6, f);
        assert c == [s[0]] + Clip(s[1..], f - 6, f);
        assert c[1..] == Clip(s[1..], f - 6, f);
      }
    }
  }

  /** A value is in the bin labelled `f` exactly when some row dated in `(f - 7, f]` holds
      it. */
  lemma {:induction false} BinValuesMembers(s: Series, f: Date, v: Value)
    ensures v in BinValues(s, f) <==> exists k :: 0 <= k < |s| && InWeek(s[k].period, f) && s[k].value == v
  {
    if |s| > 0 {
      BinValuesMembers(s[1..], f, v);
      assert forall k :: 1 <= k < |s| ==> s[1..][k - 1] == s[k];
      if v in BinValues(s[1..], f) {
        var k :| 0 <= k < |s[1..]| && InWeek(s[1..][k].period, f) && s[1..][k].value == v;
        assert s[k + 1] == s[1..][k];
      }
    }
  }

  /** Daily prices on Thu 2024-08-01, Fri 08-02, Mon 08-05 and Fri 08-09. */
  const SampleDaily: Series :=
    [Obs(19936, Some(2.0)), Obs(19937, Some(2.2)), Obs(19940, Some(2.4)), Obs(19944, Some(2.6))]

  /** The sample averages into the weeks ending Friday 08-02 (2.0 and 2.2) and Friday 08-09
      (2.4 and 2.6). */
  lemma ResampleExample()
    ensures |ResampleWeekly(SampleDaily)| == 2
    ensures ResampleWeekly(SampleDaily)[0] == Obs(19937, Some(2.1))
    ensures ResampleWeekly(SampleDaily)[1] == Obs(19944, Some(2.5))
  {
    SampleBins();
    var r := ResampleWeekly(SampleDaily);
    assert r[0] == WeekRow(SampleDaily, 19937);
    assert r[1] == WeekRow(SampleDaily, 19944);
  }

  lemma SampleBins()
    ensures MinPeriod(SampleDaily) == 19936 && MaxPeriod(SampleDaily) == 19944
    ensures FridayOnOrAfter(19936) == 19937 && FridayOnOrAfter(19944) == 19944
    ensures Mean(BinValues(SampleDaily, 19937)) == Some(2.1)
    ensures Mean(BinValues(SampleDaily, 19944)) == Some(2.5)
  {
    SampleSpan();
    SampleMeans();
  }

  lemma SampleSpan()
    ensures MinPeriod(SampleDaily) == 19936 && MaxPeriod(SampleDaily) == 19944
    ensures FridayOnOrAfter(19936) == 19937 && FridayOnOrAfter(19944) == 19944
  {
    SampleMin();
    SampleMax();
  }

  lemma SampleMin() ensures MinPeriod(SampleDaily) == 19936 {
    var m := MinPeriod(SampleDaily);
    assert m <= SampleDaily[0].period;
  }

  lemma SampleMax() ensures MaxPeriod(SampleDaily) == 19944 {
    var m := MaxPeriod(SampleDaily);
    assert SampleDaily[3].period <= m;
  }

  lemma SampleMeans()
    ensures Mean(BinValues(SampleDaily, 19937)) == Some(2.1)
    ensures Mean(BinValues(SampleDaily, 19944)) == Some(2.5)
  {
    assert BinValues(SampleDaily, 19937) == [Some(2.0), Some(2.2)];
    assert BinValues(SampleDaily, 19944) == [Some(2.4), Some(2.6)];
    assert Mean([Some(2.0), Some(2.2)]) == Some(2.1);
    assert Mean([Some(2.4), Some(2.6)]) == Some(2.5);
  }

  /** A frame has a row for period `p`. */
  predicate HasPeriod(s: Series, p: Date) {
    exists k :: 0 <= k < |s| && s[k].period == p
  }

  /** A row of the merged frame, with the columns renamed for plotting. */
  datatype JoinedRow = JoinedRow(period: Date, saltBcf: Value, usBcf: Value, henryhub: Value)

  function JoinedPeriod(row: JoinedRow): int {
    row.period
  }

  /** The values of the rows of `s` with period `p`, in frame order. */
  function Matches(s: Series, p: Date): (r: seq<Value>)
    ensures |r| <= |s|
  {
    if |s| == 0 then []
    else (if s[0].period == p then [s[0].value] else []) + Matches(s[1..], p)
  }

  /** `v` is matched exactly when some row of `s` is `(p, v)`. */
  lemma {:induction false} MatchesMembers(s: Series, p: Date, v: Value)
    ensures v in Matches(s, p) <==> exists k :: 0 <= k < |s| && s[k] == Obs(p, v)
  {
    if |s| > 0 {
      MatchesMembers(s[1..], p, v);
      assert forall k :: 1 <= k < |s| ==> s[1..][k - 1] == s[k];
      if v in Matches(s[1..], p) {
        var k :| 0 <= k < |s[1..]| && s[1..][k] == Obs(p, v);
        assert s[k + 1] == s[1..][k];
      }
    }
  }

  /** With unique periods there is at most one match. */
  lemma {:induction false} MatchesUnique(s: Series, p: Date)
    requires UniquePeriods(s)
    ensures |Matches(s, p)| <= 1
  {
    if |s| > 0 {
      assert UniquePeriods(s[1..]);
      MatchesUnique(s[1..], p);
      if s[0].period == p {
        assert forall k :: 0 <= k < |s[1..]| ==> s[1..][k].period != p;
        MatchesNone(s[1..], p);
      }
    }
  }

  lemma {:induction false} MatchesNone(s: Series, p: Date)
    requires forall k :: 0 <= k < |s| ==> s[k].period != p
    ensures Matches(s, p) == []
  {
    if |s| > 0 {
      assert forall k :: 1 <= k < |s| ==> s[1..][k - 1] == s[k];
      MatchesNone(s[1..], p);
    }
  }

  /** The rows one left row of period `p` produces: one per matching U.S.-total value, each
      repeated once per matching price value, in that nesting. */
  function Combine(p: Date, salt: Value, us: seq<Value>, price: seq<Value>): (r: seq<JoinedRow>)
    ensures |r| > 0 ==> |us| > 0 && |price| > 0
  {
    if |us| == 0 then []
    else PriceRows(p, salt, us[0], price) + Combine(p, salt, us[1..], price)
  }

  function PriceRows(p: Date, salt: Value, u: Value, price: seq<Value>): (r: seq<JoinedRow>)
    ensures |r| == |price|
  {
    if |price| == 0 then []
    else [JoinedRow(p, salt, u, price[0])] + PriceRows(p, salt, u, price[1..])
  }

  lemma {:induction false} PriceRowsMembers(p: Date, salt: Value, u: Value, price: seq<Value>, row: JoinedRow)
    ensures row in PriceRows(p, salt, u, price) <==>
              row.period == p && row.saltBcf == salt && row.usBcf == u && row.henryhub in price
  {
    if |price| > 0 {
      PriceRowsMembers(p, salt, u, price[1..], row);
      assert price == [price[0]] + price[1..];
    }
  }

  lemma {:induction false} CombineMembers(p: Date, salt: Value, us: seq<Value>, price: seq<Value>, row: JoinedRow)
    ensures row in Combine(p, salt, us, price) <==>
              row.period == p && row.saltBcf == salt && row.usBcf in us && row.henryhub in price
  {
    if |us| > 0 {
      CombineMembers(p, salt, us[1..], price, row);
      PriceRowsMembers(p, salt, us[0], price, row);
      assert us == [us[0]] + us[1..];
    }
  }

  /** `salt.merge(us, on="period", how="inner").merge(price, on="period", how="inner")`: for
      each salt row in order, one row per matching U.S.-total row and, within that, one per
      matching price row. */
  function InnerJoin(salt: Series, us: Series, price: Series): (r: seq<JoinedRow>)
    ensures |r| > 0 ==> |salt| > 0 && |us| > 0 && |price| > 0
  {
    if |salt| == 0 then []
    else
      Combine(salt[0].period, salt[0].value, Matches(us, salt[0].period), Matches(price, salt[0].period))
      + InnerJoin(salt[1..], us, price)
  }

  /** A merged row is exactly a choice of one row from each frame, all three with its period
      and its values. */
  lemma {:induction false} InnerJoinMembers(salt: Series, us: Series, price: Series, row: JoinedRow)
    ensures row in InnerJoin(salt, us, price) <==>
              (exists i :: 0 <= i < |salt| && salt[i] == Obs(row.period, row.saltBcf)) &&
              (exists j :: 0 <= j < |us| && us[j] == Obs(row.period, row.usBcf)) &&
              (exists k :: 0 <= k < |price| && price[k] == Obs(row.period, row.henryhub))
  {
    if |salt| > 0 {
      InnerJoinMembers(salt[1..], us, price, row);
      var o := salt[0];
      CombineMembers(o.period, o.value, Matches(us, o.period), Matches(price, o.period), row);
      MatchesMembers(us, o.period, row.usBcf);
      MatchesMembers(price, o.period, row.henryhub);
      MatchesMembers(us, row.period, row.usBcf);
      MatchesMembers(price, row.period, row.henryhub);
      assert forall i :: 1 <= i < |salt| ==> salt[1..][i - 1] == salt[i];
      if exists i :: 0 <= i < |salt| && salt[i] == Obs(row.period, row.saltBcf) {
        var i :| 0 <= i < |salt| && salt[i] == Obs(row.period, row.saltBcf);
        if i > 0 {
          assert salt[1..][i - 1] == salt[i];
        }
      }
    }
  }

  /** A merged row exists exactly for the periods present in all three frames. */
  lemma InnerJoinPeriods(salt: Series, us: Series, price: Series, p: Date)
    ensures (exists row :: row in InnerJoin(salt, us, price) && row.period == p) <==>
            HasPeriod(salt, p) && HasPeriod(us, p) && HasPeriod(price, p)
  {
    if HasPeriod(salt, p) && HasPeriod(us, p) && HasPeriod(price, p) {
      var i :| 0 <= i < |salt| && salt[i].period == p;
      var j :| 0 <= j < |us| && us[j].period == p;
      var k :| 0 <= k < |price| && price[k].period == p;
      var row := JoinedRow(p, salt[i].value, us[j].value, price[k].value);
      InnerJoinMembers(salt, us, price, row);
    }
    if exists row :: row in InnerJoin(salt, us, price) && row.period == p {
      var row :| row in InnerJoin(salt, us, price) && row.period == p;
      InnerJoinMembers(salt, us, price, row);
    }
  }

  /** Every row of one left row's block carries that row's period. */
  lemma {:induction false} CombinePeriod(p: Date, salt: Value, us: seq<Value>, price: seq<Value>, m: int)
    requires 0 <= m < |Combine(p, salt, us, price)|
    ensures Combine(p, salt, us, price)[m].period == p
  {
    CombineMembers(p, salt, us, price, Combine(p, salt, us, price)[m]);
  }

  /** Merging keeps the left frame's order, so a sorted salt frame gives a sorted result. */
  lemma {:induction false} InnerJoinSorted(salt: Series, us: Series, price: Series)
    requires SortedByPeriod(salt)
    ensures SortedBy(InnerJoin(salt, us, price), JoinedPeriod)
  {
    if |salt| > 0 {
      assert SortedByPeriod(salt[1..]);
      InnerJoinSorted(salt[1..], us, price);
      var o := salt[0];
      var block := Combine(o.period, o.value, Matches(us, o.period), Matches(price, o.period));
      var rest := InnerJoin(salt[1..], us, price);
      forall m | 0 <= m < |block| ensures block[m].period == o.period {
        CombinePeriod(o.period, o.value, Matches(us, o.period), Matches(price, o.period), m);
      }
      forall m | 0 <= m < |rest| ensures o.period <= rest[m].period {
        InnerJoinMembers(salt[1..], us, price, rest[m]);
        var i :| 0 <= i < |salt[1..]| && salt[1..][i] == Obs(rest[m].period, rest[m].saltBcf);
        assert salt[1..][i] == salt[i + 1];
      }
      SortedBlockAppend(block, rest, JoinedPeriod, o.period);
    }
  }

  /** When the right-hand frames have unique periods, each salt row gives at most one merged
      row. */
  lemma {:induction false} InnerJoinAtMostOnePerRow(salt: Series, us: Series, price: Series)
    requires UniquePeriods(us) && UniquePeriods(price)
    ensures |InnerJoin(salt, us, price)| <= |salt|
  {
    if |salt| > 0 {
      InnerJoinAtMostOnePerRow(salt[1..], us, price);
      var p := salt[0].period;
      MatchesUnique(us, p);
      MatchesUnique(price, p);
      var ms := Matches(us, p);
      var mp := Matches(price, p);
      if |ms| == 1 {
        assert Combine(p, salt[0].value, ms, mp) == PriceRows(p, salt[0].value, ms[0], mp) + Combine(p, salt[0].value, ms[1..], mp);
        if |mp| == 1 {
          assert PriceRows(p, salt[0].value, ms[0], mp) == [JoinedRow(p, salt[0].value, ms[0], mp[0])] + PriceRows(p, salt[0].value, ms[0], mp[1..]);
        }
      }
    }
  }

  /** A period is matched at least once exactly when the frame has it. */
  lemma MatchesPresent(s: Series, p: Date)
    ensures |Matches(s, p)| > 0 <==> HasPeriod(s, p)
  {
    if HasPeriod(s, p) {
      var k :| 0 <= k < |s| && s[k].period == p;
      MatchesMembers(s, p, s[k].value);
    }
    if |Matches(s, p)| > 0 {
      MatchesMembers(s, p, Matches(s, p)[0]);
    }
  }

  /** One left row's block has one row per pair of matches. */
  lemma {:induction false} CombineLength(p: Date, salt: Value, us: seq<Value>, price: seq<Value>)
    ensures |Combine(p, salt, us, price)| == |us| * |price|
  {
    if |us| > 0 {
      CombineLength(p, salt, us[1..], price);
      assert |us| * |price| == |price| + (|us| - 1) * |price|;
    }
  }

  /** The size of pandas' many-to-many inner merge: the sum, over the salt rows, of the
      number of U.S.-total rows times the number of price rows sharing that row's period. */
  function JoinSize(salt: Series, us: Series, price: Series): nat {
    if |salt| == 0 then 0
    else |Matches(us, salt[0].period)| * |Matches(price, salt[0].period)| + JoinSize(salt[1..], us, price)
  }

  /** The merge has exactly as many rows as the many-to-many count. */
  lemma {:induction false} InnerJoinLength(salt: Series, us: Series, price: Series)
    ensures |InnerJoin(salt, us, price)| == JoinSize(salt, us, price)
  {
    if |salt| > 0 {
      InnerJoinLength(salt[1..], us, price);
      var p := salt[0].period;
      CombineLength(p, salt[0].value, Matches(us, p), Matches(price, p));
    }
  }

  /** The number of salt rows whose period is also in the U.S.-total and the price frames. */
  function JoinableRows(salt: Series, us: Series, price: Series): nat {
    if |salt| == 0 then 0
    else (if HasPeriod(us, salt[0].period) && HasPeriod(price, salt[0].period) then 1 else 0)
         + JoinableRows(salt[1..], us, price)
  }

  /** With unique periods on the right, the merge has exactly one row per salt row whose
      period the other two frames share, and none for the others. */
  lemma {:induction false} InnerJoinCountsJoinableRows(salt: Series, us: Series, price: Series)
    requires UniquePeriods(us) && UniquePeriods(price)
    ensures |InnerJoin(salt, us, price)| == JoinableRows(salt, us, price)
  {
    if |salt| > 0 {
      InnerJoinCountsJoinableRows(salt[1..], us, price);
      var p := salt[0].period;
      MatchesUnique(us, p);
      MatchesUnique(price, p);
      MatchesPresent(us, p);
      MatchesPresent(price, p);
      CombineLength(p, salt[0].value, Matches(us, p), Matches(price, p));
    }
  }

  /** Salt for the weeks ending 2024-08-02, 08-09 and 08-16; the U.S. total for the last
      two; the price for the first two. */
  const SampleSalt: Series := [Obs(19937, Some(1.0)), Obs(19944, Some(2.0)), Obs(19951, Some(3.0))]
  const SampleUs: Series := [Obs(19944, Some(20.0)), Obs(19951, Some(30.0))]
  const SamplePrice: Series := [Obs(19937, Some(2.1)), Obs(19944, Some(2.5))]

  /** The three overlap only in the week ending 08-09, which is the one merged row. */
  lemma InnerJoinExample()
    ensures InnerJoin(SampleSalt, SampleUs, SamplePrice) == [JoinedRow(19944, Some(2.0), Some(20.0), Some(2.5))]
  {
    var row := JoinedRow(19944, Some(2.0), Some(20.0), Some(2.5));
    var tail1 := SampleSalt[1..];
    var tail2 := tail1[1..];
    assert tail1 == [Obs(19944, Some(2.0)), Obs(19951, Some(3.0))];
    assert tail2 == [Obs(19951, Some(3.0))] && tail2[1..] == [];
    assert Matches(SampleUs, 19937) == [] && Matches(SamplePrice, 19951) == [];
    assert Matches(SampleUs, 19944) == [Some(20.0)] && Matches(SamplePrice, 19944) == [Some(2.5)];
    assert Combine(19937, Some(1.0), [], Matches(SamplePrice, 19937)) == [];
    assert PriceRows(19951, Some(3.0), Some(30.0), []) == [];
    assert Combine(19951, Some(3.0), Matches(SampleUs, 19951), []) == [];
    assert PriceRows(19944, Some(2.0), Some(20.0), [Some(2.5)]) == [row];
    assert Combine(19944, Some(2.0), [Some(20.0)], [Some(2.5)]) == [row];
    assert InnerJoin(tail2, SampleUs, SamplePrice) == [];
    assert InnerJoin(tail1, SampleUs, SamplePrice) == [row];
  }

  /** `_daterange_summary`: `"empty"`, or `min → max (n rows)`. */
  datatype RangeSummary = EmptyRange | Span(first: Date, last: Date, rows: nat)

  function DateRangeSummary(s: Series): (r: RangeSummary)
    ensures r == EmptyRange <==> |s| == 0
    ensures r.Span? ==> r.rows == |s| && r.first <= r.last && HasPeriod(s, r.first) && HasPeriod(s, r.last)
    ensures r.Span? ==> forall k :: 0 <= k < |s| ==> r.first <= s[k].period <= r.last
  {
    if |s| == 0 then EmptyRange else Span(MinPeriod(s), MaxPeriod(s), |s|)
  }

  /** Where the weekly price came from (`price_source`). */
  datatype PriceSource = DailyToWeekly | WeeklySeries

  /** The diagnostic failures `build_weekly_join` raises as `RuntimeError`. */
  datatype JoinError =
    | PriceUnavailable
    | EmptyMerge(salt: RangeSummary, us: RangeSummary, price: RangeSummary, source: PriceSource,
                 start: string, end: string)

  /** The weekly price frame: the daily frame resampled when it has rows, otherwise the
      weekly series (possibly empty). */
  function WeeklyPrice(hhDaily: Series, hhWeekly: Series): (p: (Series, PriceSource))
    ensures p.1 == DailyToWeekly <==> |hhDaily| > 0
    ensures |hhDaily| == 0 ==> p.0 == hhWeekly
    ensures |hhDaily| > 0 ==> p.0 == ResampleWeekly(hhDaily)
    ensures |hhDaily| > 0 ==> |p.0| > 0 && UniquePeriods(p.0) &&
                              forall i :: 0 <= i < |p.0| ==> IsFriday(p.0[i].period)
  {
    if |hhDaily| > 0 then (ResampleWeekly(hhDaily), DailyToWeekly) else (hhWeekly, WeeklySeries)
  }

  /** `build_weekly_join` after the three chains have run: `hhWeekly` is what
      `fetch_henry_hub_weekly` returns, consulted only when the daily frame is empty; `start`
      and `end` are the requested window as given, quoted in the diagnostic. */
  function BuildWeeklyJoin(salt: Series, us: Series, hhDaily: Series, hhWeekly: Series, start: string, end: string)
    : (r: Result<seq<JoinedRow>, JoinError>)
    ensures r == Err(PriceUnavailable) <==> |hhDaily| == 0 && |hhWeekly| == 0
    ensures r.Ok? ==> |r.value| > 0 && r.value == InnerJoin(salt, us, WeeklyPrice(hhDaily, hhWeekly).0)
    ensures r.Ok? && |hhDaily| > 0 ==> forall row :: row in r.value ==> IsFriday(row.period)
    ensures r.Err? && r.error.EmptyMerge? ==>
              (|hhDaily| > 0 || |hhWeekly| > 0) &&
              InnerJoin(salt, us, WeeklyPrice(hhDaily, hhWeekly).0) == [] &&
              r.error == EmptyMerge(DateRangeSummary(salt), DateRangeSummary(us),
                                    DateRangeSummary(WeeklyPrice(hhDaily, hhWeekly).0),
                                    WeeklyPrice(hhDaily, hhWeekly).1, start, end)
    // the merge keeps the salt frame's order
    ensures r.Ok? && SortedByPeriod(salt) ==> SortedBy(r.value, JoinedPeriod)
  {
    if |hhDaily| == 0 && |hhWeekly| == 0 then Err(PriceUnavailable)
    else
      var (price, source) := WeeklyPrice(hhDaily, hhWeekly);
      var merged := InnerJoin(salt, us, price);
      if |merged| == 0 then
        Err(EmptyMerge(DateRangeSummary(salt), DateRangeSummary(us), DateRangeSummary(price), source, start, end))
      else
        assert forall row :: row in merged ==> HasPeriod(price, row.period) by {
          forall row | row in merged ensures HasPeriod(price, row.period) {
            InnerJoinPeriods(salt, us, price, row.period);
          }
        }
        assert SortedByPeriod(salt) ==> SortedBy(merged, JoinedPeriod) by {
          if SortedByPeriod(salt) {
            InnerJoinSorted(salt, us, price);
          }
        }
        Ok(merged)
  }
}
