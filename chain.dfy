/** `_try_chain` and the `fetch_*` wrappers built on it. Each step of a chain is one source
    (v2, v1, XLS or HTML) followed by `_clip`; what a step would produce if called is given
    up front, and the chain reports how many steps it actually called. */
module Chain {
  import opened Base
  import opened Dates
  import opened Frames
  import opened Transport
  import opened Normalize
  import opened Detect

  /** What calling one step produced: a frame (`None` for a step returning `None`), or an
      exception it raised. */
  datatype StepOutcome = Returned(frame: Option<Series>) | Failed(error: Exc)

  /** `df is not None and not df.empty`: the step succeeded. */
  predicate Usable(o: StepOutcome) {
    o.Returned? && o.frame.Some? && |o.frame.value| > 0
  }

  /** `_try_chain(*steps)`: calls the steps left to right and returns the first usable
      frame, swallowing every exception; when no step succeeds it returns an empty frame
      rather than raising. `called` is the number of steps called. */
  method TryChain(steps: seq<StepOutcome>) returns (r: Series, called: nat)
    ensures called <= |steps|
    ensures forall k :: 0 <= k < called - 1 ==> !Usable(steps[k])
    ensures |r| > 0 <==> exists k :: 0 <= k < |steps| && Usable(steps[k])
    ensures |r| > 0 ==> 0 < called && Usable(steps[called - 1]) && r == steps[called - 1].frame.value
    ensures |r| == 0 ==> r == [] && called == |steps| && forall k :: 0 <= k < |steps| ==> !Usable(steps[k])
  {
    var lastErr: Option<Exc> := None;  // only reported in a log line
    called := 0;
    while called < |steps|
      invariant called <= |steps|
      invariant forall k :: 0 <= k < called ==> !Usable(steps[k])
    {
      var step := steps[called];
      called := called + 1;
      match step {
        case Returned(frame) =>
          if frame.Some? && |frame.value| > 0 {
            return frame.value, called;
          }
        case Failed(e) =>
          lastErr := Some(e);
      }
    }
    r := [];
  }

  /** One chain step: a source's result, then `_clip` with the window bounds as parsed by
      `pd.to_datetime` (`None` where a bound does not parse, which makes `_clip` raise). */
  function ClipStep(source: Result<Series, Exc>, start: Option<Date>, end: Option<Date>): (o: StepOutcome)
    ensures Usable(o) ==> source.Ok? && start.Some? && end.Some? &&
                          o.frame.value == Clip(source.value, start.value, end.value)
    ensures Usable(o) <==> source.Ok? && start.Some? && end.Some? &&
                           |Clip(source.value, start.value, end.value)| > 0
    ensures source.Err? ==> o == Failed(source.error)
    ensures source.Ok? && (start.None? || end.None?) ==> o == Failed(ValueError)
  {
    match source
    case Err(e) => Failed(e)
    case Ok(s) =>
      if start.None? || end.None? then Failed(ValueError)
      else Returned(Some(Clip(s, start.value, end.value)))
  }

  /** `_fetch_series_v1` / `_fetch_price_v2_daily`: a failed GET raises, otherwise the
      decoded payload is normalized (`decoded` is `r.json()`, which may raise). */
  function JsonSource<P(!new)>(got: Result<Response, Exc>, decoded: Result<P, Exc>, normalize: P -> Series): (r: Result<Series, Exc>)
    ensures r.Ok? <==> got.Ok? && decoded.Ok?
    ensures r.Ok? ==> r.value == normalize(decoded.value)
    // with a sorting normalizer (both JSON normalizers sort) the frame is sorted
    ensures (forall p :: SortedByPeriod(normalize(p))) ==> SortedSource(r)
  {
    match got
    case Err(e) => Err(e)
    case Ok(_) =>
      match decoded
      case Err(e) => Err(e)
      case Ok(p) => Ok(normalize(p))
  }

  /** `_fetch_hist_xls`: a failed GET raises; otherwise `sheet` is what `pd.read_excel` made
      of the body (the first sheet, headerless, or the exception it raised), which
      `_df_from_hist_xls` normalizes. */
  method XlsSource(got: Result<Response, Exc>, sheet: Result<Grid, Exc>) returns (r: Result<Series, Exc>)
    ensures got.Err? ==> r == Err(got.error)
    ensures got.Ok? && sheet.Err? ==> r == Err(sheet.error)
    ensures got.Ok? && sheet.Ok? ==> exists best :: IsBest([sheet.value], best) && r == XlsFrame(sheet.value, best)
    ensures SortedSource(r)
  {
    if got.Err? {
      r := Err(got.error);
    } else if sheet.Err? {
      r := Err(sheet.error);
    } else {
      r := NormalizeXls(sheet.value);
    }
  }

  /** `_df_from_hist_html`: `read` is what `pd.read_html` produced (the tables, or the
      exception it raised). */
  method HtmlSource(read: Result<seq<Grid>, Exc>) returns (r: Result<Series, Exc>)
    ensures read.Err? ==> r == Err(read.error)
    ensures read.Ok? ==> r.Ok?
    ensures read.Ok? ==> exists best :: IsBest(read.value, best) && r.value == (if best.None? then [] else best.value.rows)
    ensures SortedSource(r)
  {
    match read {
      case Err(e) => r := Err(e);
      case Ok(tables) =>
        var s := NormalizeHtml(tables);
        r := Ok(s);
    }
  }

  /** A source that raised, or returned a frame sorted by period, as every normalizer does. */
  predicate SortedSource(source: Result<Series, Exc>) {
    source.Ok? ==> SortedByPeriod(source.value)
  }

  /** A source whose result, clipped to the window, is a non-empty frame. */
  predicate Yields(source: Result<Series, Exc>, start: Option<Date>, end: Option<Date>) {
    Usable(ClipStep(source, start, end))
  }

  /** The shared shape of the four `fetch_*` functions: try each source clipped to the
      window, in priority order. The renamed value column (`salt_bcf`, `us_bcf`, `henryhub`,
      `henryhub_w`) is the field of `Align.JoinedRow` the frame ends up in. */
  method FetchClipped(sources: seq<Result<Series, Exc>>, start: Option<Date>, end: Option<Date>)
    returns (r: Series, called: nat)
    ensures called <= |sources|
    ensures forall k :: 0 <= k < called - 1 ==> !Yields(sources[k], start, end)
    ensures |r| > 0 <==> exists k :: 0 <= k < |sources| && Yields(sources[k], start, end)
    ensures |r| > 0 ==> 0 < called && Yields(sources[called - 1], start, end) &&
                        r == Clip(sources[called - 1].value, start.value, end.value)
    ensures |r| == 0 ==> r == [] && called == |sources|
    ensures forall o :: o in r ==> start.Some? && end.Some? && start.value <= o.period <= end.value
    // an unparseable window makes every step raise, so the chain returns an empty frame
    ensures start.None? || end.None? ==> r == []
    // every source frame is sorted by period, so the clipped frame kept is too
    ensures (forall k :: 0 <= k < |sources| ==> SortedSource(sources[k])) ==> SortedByPeriod(r)
  {
    var steps := seq(|sources|, k requires 0 <= k < |sources| => ClipStep(sources[k], start, end));
    r, called := TryChain(steps);
    assert forall k :: 0 <= k < |sources| ==> steps[k] == ClipStep(sources[k], start, end);
    if |r| > 0 && SortedSource(sources[called - 1]) {
      ClipKeepsSorted(sources[called - 1].value, start.value, end.value);
    }
  }

  /** `fetch_salt_weekly`, `fetch_us_total_weekly` and `fetch_henry_hub_weekly`, which differ
      only in their URLs and the label of the value column: the v1 series, then the XLS
      workbook, then the HTML page; the first non-empty clipped frame wins. */
  method FetchWeekly(v1: Result<Series, Exc>, xls: Result<Series, Exc>, html: Result<Series, Exc>,
      start: Option<Date>, end: Option<Date>) returns (r: Series)
    ensures |r| > 0 <==> Yields(v1, start, end) || Yields(xls, start, end) || Yields(html, start, end)
    ensures Yields(v1, start, end) ==> r == Clip(v1.value, start.value, end.value)
    ensures !Yields(v1, start, end) && Yields(xls, start, end) ==> r == Clip(xls.value, start.value, end.value)
    ensures !Yields(v1, start, end) && !Yields(xls, start, end) && Yields(html, start, end) ==>
              r == Clip(html.value, start.value, end.value)
    ensures SortedSource(v1) && SortedSource(xls) && SortedSource(html) ==> SortedByPeriod(r)
  {
    var sources := [v1, xls, html];
    assert sources[0] == v1 && sources[1] == xls && sources[2] == html;
    if SortedSource(v1) && SortedSource(xls) && SortedSource(html) {
      assert forall k :: 0 <= k < |sources| ==> SortedSource(sources[k]);
    }
    var called;
    r, called := FetchClipped(sources, start, end);
  }

  /** `fetch_henry_hub_daily`: the v2 daily API, then v1, then XLS, then HTML. */
  method FetchHenryHubDaily(v2: Result<Series, Exc>, v1: Result<Series, Exc>, xls: Result<Series, Exc>,
      html: Result<Series, Exc>, start: Option<Date>, end: Option<Date>) returns (r: Series)
    ensures |r| > 0 <==> Yields(v2, start, end) || Yields(v1, start, end) || Yields(xls, start, end) || Yields(html, start, end)
    ensures Yields(v2, start, end) ==> r == Clip(v2.value, start.value, end.value)
    ensures !Yields(v2, start, end) && Yields(v1, start, end) ==> r == Clip(v1.value, start.value, end.value)
    ensures !Yields(v2, start, end) && !Yields(v1, start, end) && Yields(xls, start, end) ==>
              r == Clip(xls.value, start.value, end.value)
    ensures !Yields(v2, start, end) && !Yields(v1, start, end) && !Yields(xls, start, end) && Yields(html, start, end) ==>
              r == Clip(html.value, start.value, end.value)
    ensures SortedSource(v2) && SortedSource(v1) && SortedSource(xls) && SortedSource(html) ==>
              SortedByPeriod(r)
  {
    var sources := [v2, v1, xls, html];
    assert sources[0] == v2 && sources[1] == v1 && sources[2] == xls && sources[3] == html;
    if SortedSource(v2) && SortedSource(v1) && SortedSource(xls) && SortedSource(html) {
      assert forall k :: 0 <= k < |sources| ==> SortedSource(sources[k]);
    }
    var called;
    r, called := FetchClipped(sources, start, end);
  }
}
