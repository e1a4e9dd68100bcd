/** The four schema normalizers of fetch.py, each turning a parsed payload into a canonical
    `period,value` frame sorted by period. Date and number parsing stay abstract: a raw
    point carries the results of `pd.to_datetime`/`pd.to_numeric` with `errors="coerce"`. */
module Normalize {
  import opened Base
  import opened Dates
  import opened Frames
  import opened Detect

  /** One `[period, value]` pair (v1) or one `{period, value}` record (v2), parsed. */
  datatype RawPoint = RawPoint(period: Option<Date>, value: Option<real>)

  /** A v1 response: the `series` list, each entry holding its `data` list. An absent key
      is read as an empty list, as `.get(key, [])` does. */
  datatype V1Payload = V1Payload(series: seq<seq<RawPoint>>)

  /** A v2 response: the `response.data` list (absent keys read as empty). */
  datatype V2Payload = V2Payload(data: seq<RawPoint>)

  /** v1's `dropna(subset=["period"])`: points whose period parsed, value kept even if NaN. */
  function DatedRows(points: seq<RawPoint>): (r: Series)
    ensures |r| <= |points|
    ensures forall o :: o in r <==> RawPoint(Some(o.period), o.value) in points
  {
    if |points| == 0 then []
    else
      var rest := DatedRows(points[1..]);
      assert points == [points[0]] + points[1..];
      if points[0].period.Some? then [Obs(points[0].period.value, points[0].value)] + rest else rest
  }

  /** The dated rows keep their multiplicities: `(d, v)` occurs as often as the point
      `(d, v)` does, NaN values included. */
  lemma {:induction false} DatedRowsCounts(points: seq<RawPoint>, d: Date, v: Option<real>)
    ensures multiset(DatedRows(points))[Obs(d, v)] == multiset(points)[RawPoint(Some(d), v)]
  {
    if |points| > 0 {
      DatedRowsCounts(points[1..], d, v);
      assert points == [points[0]] + points[1..];
      assert multiset(points) == multiset{points[0]} + multiset(points[1..]);
      var rest := DatedRows(points[1..]);
      if points[0].period.Some? {
        var o := Obs(points[0].period.value, points[0].value);
        assert DatedRows(points) == [o] + rest;
        assert multiset(DatedRows(points)) == multiset{o} + multiset(rest);
      }
    }
  }

  /** v2's `dropna(subset=["period", "value"])`: points where both fields parsed. */
  function CompleteRows(points: seq<RawPoint>): (r: Series)
    ensures |r| <= |points|
    ensures forall o :: o in r <==> o.value.Some? && RawPoint(Some(o.period), o.value) in points
  {
    if |points| == 0 then []
    else
      var rest := CompleteRows(points[1..]);
      assert points == [points[0]] + points[1..];
      if points[0].period.Some? && points[0].value.Some?
      then [Obs(points[0].period.value, points[0].value)] + rest
      else rest
  }

  /** The complete rows keep their multiplicities: `(d, v)` with a number occurs as often
      as the point `(d, v)` does, and a NaN row never occurs. */
  lemma {:induction false} CompleteRowsCounts(points: seq<RawPoint>, d: Date, v: Option<real>)
    ensures multiset(CompleteRows(points))[Obs(d, v)] ==
              if v.Some? then multiset(points)[RawPoint(Some(d), v)] else 0
  {
    if |points| > 0 {
      CompleteRowsCounts(points[1..], d, v);
      assert points == [points[0]] + points[1..];
      assert multiset(points) == multiset{points[0]} + multiset(points[1..]);
      var rest := CompleteRows(points[1..]);
      if points[0].period.Some? && points[0].value.Some? {
        var o := Obs(points[0].period.value, points[0].value);
        assert CompleteRows(points) == [o] + rest;
        assert multiset(CompleteRows(points)) == multiset{o} + multiset(rest);
      }
    }
  }

  /** `_df_from_v1_series`: the first series' data, rows with an unparsed period dropped,
      sorted by period. A missing or empty `series` or `data` gives an empty frame. */
  function NormalizeV1(p: V1Payload): (r: Series)
    ensures SortedByPeriod(r)
    ensures |p.series| == 0 ==> r == []
    ensures |p.series| > 0 ==> multiset(r) == multiset(DatedRows(p.series[0]))
  {
    if |p.series| == 0 then []
    else
      var data := p.series[0];
      if |data| == 0 then [] else SortByPeriod(DatedRows(data))
  }

  /** `_df_from_v2_price`: records with both fields parsed, sorted by period. */
  function NormalizeV2(p: V2Payload): (r: Series)
    ensures SortedByPeriod(r)
    ensures multiset(r) == multiset(CompleteRows(p.data))
  {
    if |p.data| == 0 then [] else SortByPeriod(CompleteRows(p.data))
  }

  /** The frame `_df_from_hist_xls` returns for the detector's outcome `best`: the winning
      pair's frame, or, when no pair reached the floor, columns 0 and 1 with no floor
      (`iloc[:, 1]` raises IndexError on a table narrower than two columns). */
  function XlsFrame(g: Grid, best: Option<Pick>): (r: Result<Series, Exc>)
    ensures r.Err? <==> best.None? && g.width < 2
    ensures r.Err? ==> r.error == IndexError
    ensures best.Some? ==> r == Ok(best.value.rows)
    ensures best.None? && 2 <= g.width ==>
              SortedByPeriod(r.value) && multiset(r.value) == multiset(PairRows(g.rows, 0, 1))
  {
    match best
    case Some(p) => Ok(p.rows)
    case None =>
      if g.width < 2 then Err(IndexError) else Ok(SortByPeriod(PairRows(g.rows, 0, 1)))
  }

  /** `_df_from_hist_xls` on the sheet read from the downloaded workbook. */
  method NormalizeXls(g: Grid) returns (r: Result<Series, Exc>)
    ensures exists best :: IsBest([g], best) && r == XlsFrame(g, best)
    ensures r.Ok? ==> SortedByPeriod(r.value)
    ensures r.Err? <==> r == Err(IndexError)
  {
    var best := DetectPair([g]);
    r := XlsFrame(g, best);
  }

  /** `_df_from_hist_html` on the tables read from the page: the best pair across all
      tables, or an empty frame when no pair in any table reaches the floor. */
  method NormalizeHtml(tables: seq<Grid>) returns (r: Series)
    ensures exists best :: IsBest(tables, best) && r == (if best.None? then [] else best.value.rows)
    ensures SortedByPeriod(r)
  {
    var best := DetectPair(tables);
    r := if best.None? then [] else best.value.rows;
  }

  /** When no pair reaches the floor, the XLS fallback yields fewer than `Floor` rows: the
      fallback never rescues a table the floor rejected. */
  lemma XlsFallbackBelowFloor(g: Grid)
    requires IsBest([g], None) && g.width >= 2
    ensures XlsFrame(g, None).Ok? && |XlsFrame(g, None).value| < Floor
  {
    assert IsCandidate([g], 0, 0, 1);
    assert Before(0, 0, 1, 1, 0, 0);
  }

  /** The normalizers that require both fields keep only rows with a parsed value. */
  lemma CompleteRowsHaveValues(p: V2Payload)
    ensures forall k :: 0 <= k < |NormalizeV2(p)| ==> NormalizeV2(p)[k].value.Some?
  {
    var r := NormalizeV2(p);
    forall k | 0 <= k < |r| ensures r[k].value.Some? {
      assert r[k] in multiset(CompleteRows(p.data));
    }
  }
}
