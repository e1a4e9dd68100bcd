/** The column-pair detector of `_df_from_hist_xls` and `_df_from_hist_html`: an exhaustive
    search, in `itertools.product` order, for the (date column, value column) pair of an
    unlabeled table with the most rows where both cells parse. */
module Detect {
  import opened Base
  import opened Dates
  import opened Frames

  /** The parse results of one cell: `pd.to_datetime(..., errors="coerce")` and
      `pd.to_numeric(..., errors="coerce")`, `None` where they give NaT/NaN. */
  datatype Cell = Cell(date: Option<Date>, number: Option<real>)

  /** A headerless table as read: `width` columns (`shape[1]`) and its rows. */
  datatype Grid = Grid(width: nat, rows: seq<seq<Cell>>)

  /** The plausibility floor: a pair must have at least this many parsed rows. */
  const Floor: nat := 10

  /** Column `c` of a row; a cell past the end of a short row is blank, as pandas pads it. */
  function CellAt(row: seq<Cell>, c: nat): Cell {
    if c < |row| then row[c] else Cell(None, None)
  }

  /** Both the date cell and the value cell of the row parse. */
  predicate BothParse(row: seq<Cell>, di: nat, vi: nat) {
    CellAt(row, di).date.Some? && CellAt(row, vi).number.Some?
  }

  /** The number of rows in which both cells of the pair parse. */
  function CountParsed(rows: seq<seq<Cell>>, di: nat, vi: nat): nat {
    if |rows| == 0 then 0
    else (if BothParse(rows[0], di, vi) then 1 else 0) + CountParsed(rows[1..], di, vi)
  }

  /** The `period,value` frame built from the pair with unparsed rows dropped, in row order
      (before sorting): at most one row for every table row. */
  function PairRows(rows: seq<seq<Cell>>, di: nat, vi: nat): (r: Series)
    ensures |r| <= |rows|
  {
    if |rows| == 0 then []
    else
      var rest := PairRows(rows[1..], di, vi);
      if BothParse(rows[0], di, vi)
      then [Obs(CellAt(rows[0], di).date.value, CellAt(rows[0], vi).number)] + rest
      else rest
  }

  /** The pair's frame has at most one row per table row, and none of its values is NaN. */
  lemma {:induction false} PairRowsParsed(rows: seq<seq<Cell>>, di: nat, vi: nat)
    ensures |PairRows(rows, di, vi)| <= |rows|
    ensures forall k :: 0 <= k < |PairRows(rows, di, vi)| ==> PairRows(rows, di, vi)[k].value.Some?
  {
    if |rows| > 0 {
      PairRowsParsed(rows[1..], di, vi);
    }
  }

  /** Every row of the pair's frame comes from a row whose date and value cells parse to it,
      and every such row contributes one. */
  lemma {:induction false} PairRowsFromCells(rows: seq<seq<Cell>>, di: nat, vi: nat, o: Obs)
    ensures o in PairRows(rows, di, vi) <==>
              exists k :: 0 <= k < |rows| && BothParse(rows[k], di, vi) &&
                          o == Obs(CellAt(rows[k], di).date.value, CellAt(rows[k], vi).number)
  {
    if |rows| > 0 {
      PairRowsFromCells(rows[1..], di, vi, o);
      assert forall k :: 1 <= k < |rows| ==> rows[k] == rows[1..][k - 1];
      if o in PairRows(rows[1..], di, vi) {
        var k :| 0 <= k < |rows[1..]| && BothParse(rows[1..][k], di, vi) &&
                 o == Obs(CellAt(rows[1..][k], di).date.value, CellAt(rows[1..][k], vi).number);
        assert rows[k + 1] == rows[1..][k];
      }
    }
  }

  /** The row's date and value cells parse, to the date and value of `o`. */
  predicate ParsesTo(row: seq<Cell>, di: nat, vi: nat, o: Obs) {
    BothParse(row, di, vi) && o == Obs(CellAt(row, di).date.value, CellAt(row, vi).number)
  }

  /** The number of table rows whose two cells parse to `o`. */
  function CountParsingTo(rows: seq<seq<Cell>>, di: nat, vi: nat, o: Obs): nat {
    if |rows| == 0 then 0
    else (if ParsesTo(rows[0], di, vi, o) then 1 else 0) + CountParsingTo(rows[1..], di, vi, o)
  }

  /** The pair's frame keeps multiplicities: `o` occurs in it exactly as often as there are
      table rows whose date and value cells parse to `o`. */
  lemma {:induction false} PairRowsCounts(rows: seq<seq<Cell>>, di: nat, vi: nat, o: Obs)
    ensures multiset(PairRows(rows, di, vi))[o] == CountParsingTo(rows, di, vi, o)
  {
    if |rows| > 0 {
      PairRowsCounts(rows[1..], di, vi, o);
      var rest := PairRows(rows[1..], di, vi);
      if BothParse(rows[0], di, vi) {
        var head := Obs(CellAt(rows[0], di).date.value, CellAt(rows[0], vi).number);
        assert PairRows(rows, di, vi) == [head] + rest;
        assert multiset(PairRows(rows, di, vi)) == multiset{head} + multiset(rest);
      }
    }
  }

  /** The score `len(d)` of a pair. */
  function Score(g: Grid, di: nat, vi: nat): nat {
    |PairRows(g.rows, di, vi)|
  }

  /** The score is the number of rows in which both the date cell and the value cell parse. */
  lemma {:induction false} ScoreCountsParsedRows(rows: seq<seq<Cell>>, di: nat, vi: nat)
    ensures |PairRows(rows, di, vi)| == CountParsed(rows, di, vi)
  {
    if |rows| > 0 {
      ScoreCountsParsedRows(rows[1..], di, vi);
    }
  }

  /** The pair the search holds while it runs: its position in the search and its score. */
  datatype Lead = Lead(table: nat, dateCol: nat, valueCol: nat, score: nat)

  /** The detector's outcome: the winning pair, its score and its sorted frame. */
  datatype Pick = Pick(table: nat, dateCol: nat, valueCol: nat, score: nat, rows: Series)

  /** `(t, d, v)` names an ordered pair of distinct columns of table `t`. */
  ghost predicate IsCandidate(tables: seq<Grid>, t: int, d: int, v: int) {
    0 <= t < |tables| && 0 <= d < tables[t].width && 0 <= v < tables[t].width && d != v
  }

  /** `(t, d, v)` comes before `(T, D, V)` in the search order: tables in order, then
      `itertools.product(range(ncols), repeat=2)` (date column outer, value column inner). */
  ghost predicate Before(t: int, d: int, v: int, T: int, D: int, V: int) {
    t < T || (t == T && (d < D || (d == D && v < V)))
  }

  /** `best` is what the search holds after scanning every candidate before `(T, D, V)`:
      `None` if none of them reached the floor, otherwise the first candidate with the highest
      score among those that did. */
  ghost predicate BestBefore(tables: seq<Grid>, best: Option<Lead>, T: int, D: int, V: int) {
    match best
    case None =>
      forall t, d, v :: IsCandidate(tables, t, d, v) && Before(t, d, v, T, D, V) ==>
        Score(tables[t], d, v) < Floor
    case Some(p) =>
      && IsCandidate(tables, p.table, p.dateCol, p.valueCol)
      && Before(p.table, p.dateCol, p.valueCol, T, D, V)
      && p.score == Score(tables[p.table], p.dateCol, p.valueCol)
      && Floor <= p.score
      && (forall t, d, v :: IsCandidate(tables, t, d, v) && Before(t, d, v, T, D, V) ==>
            Score(tables[t], d, v) <= p.score &&
            (Before(t, d, v, p.table, p.dateCol, p.valueCol) ==> Score(tables[t], d, v) < p.score))
  }

  /** The frame of a pair: its parsed rows sorted by period. */
  function PairFrame(tables: seq<Grid>, lead: Lead): Series
    requires lead.table < |tables|
  {
    SortByPeriod(PairRows(tables[lead.table].rows, lead.dateCol, lead.valueCol))
  }

  /** The outcome of the whole search over `tables`: the lead left after every candidate,
      with its frame. */
  ghost predicate IsBest(tables: seq<Grid>, best: Option<Pick>) {
    match best
    case None => BestBefore(tables, None, |tables|, 0, 0)
    case Some(p) =>
      var lead := Lead(p.table, p.dateCol, p.valueCol, p.score);
      BestBefore(tables, Some(lead), |tables|, 0, 0) && p.rows == PairFrame(tables, lead)
  }

  /** One pass of the loop body for the pair `(d, v)` of table `t`: a pair reaching the
      floor replaces the held lead only with a strictly higher score. */
  function Consider(g: Grid, t: nat, d: nat, v: nat, best: Option<Lead>): (r: Option<Lead>)
    // a lead once held is never lost and its score never drops
    ensures best.Some? ==> r.Some? && best.value.score <= r.value.score
    // a lead always reaches the floor
    ensures (best.Some? ==> Floor <= best.value.score) ==> (r.Some? ==> Floor <= r.value.score)
  {
    if d == v then best
    else
      var rows := PairRows(g.rows, d, v);
      var score := |rows|;
      if score >= Floor && (best.None? || score > best.value.score)
      then Some(Lead(t, d, v, score))
      else best
  }

  /** Considering the pair `(d, v)` extends the scanned prefix by that pair. */
  lemma ConsiderStep(tables: seq<Grid>, t: nat, d: nat, v: nat, best: Option<Lead>)
    requires t < |tables| && d < tables[t].width && v < tables[t].width
    requires BestBefore(tables, best, t, d, v)
    ensures BestBefore(tables, Consider(tables[t], t, d, v, best), t, d, v + 1)
  {
    var b := Consider(tables[t], t, d, v, best);
    if d != v && b != best {
      var p := b.value;
      assert p.score == Score(tables[t], d, v);
      forall t', d', v' | IsCandidate(tables, t', d', v') && Before(t', d', v', t, d, v + 1)
        ensures Score(tables[t'], d', v') <= p.score
      {
        if Before(t', d', v', t, d, v) && best.Some? {
          assert Score(tables[t'], d', v') <= best.value.score;
        }
      }
    }
  }

  /** Having scanned every value column for date column `d`, the scan moves to `d + 1`. */
  lemma RowDone(tables: seq<Grid>, t: nat, d: nat, best: Option<Lead>)
    requires t < |tables|
    requires BestBefore(tables, best, t, d, tables[t].width)
    ensures BestBefore(tables, best, t, d + 1, 0)
  {
  }

  /** Having scanned every date column of table `t`, the scan moves to table `t + 1`. */
  lemma TableDone(tables: seq<Grid>, t: nat, best: Option<Lead>)
    requires t < |tables|
    requires BestBefore(tables, best, t, tables[t].width, 0)
    ensures BestBefore(tables, best, t + 1, 0, 0)
  {
  }

  /** One pass of the loop body, for the pair `(dateIdx, valIdx)` of table `t`. */
  method ConsiderPair(tables: seq<Grid>, t: nat, dateIdx: nat, valIdx: nat, best: Option<Lead>) returns (best': Option<Lead>)
    requires t < |tables| && dateIdx < tables[t].width && valIdx < tables[t].width
    requires BestBefore(tables, best, t, dateIdx, valIdx)
    ensures BestBefore(tables, best', t, dateIdx, valIdx + 1)
  {
    ConsiderStep(tables, t, dateIdx, valIdx, best);
    best' := Consider(tables[t], t, dateIdx, valIdx, best);
  }

  /** The inner loop of the product: every value column for date column `dateIdx`. */
  method ScanValueColumns(tables: seq<Grid>, t: nat, dateIdx: nat, best: Option<Lead>) returns (best': Option<Lead>)
    requires t < |tables| && dateIdx < tables[t].width
    requires BestBefore(tables, best, t, dateIdx, 0)
    ensures BestBefore(tables, best', t, dateIdx, tables[t].width)
  {
    best' := best;
    for valIdx := 0 to tables[t].width
      invariant BestBefore(tables, best', t, dateIdx, valIdx)
    {
      best' := ConsiderPair(tables, t, dateIdx, valIdx, best');
    }
  }

  /** The double loop over one table, continuing from the lead so far: the outer loop
      runs over date columns. */
  method ScanTable(tables: seq<Grid>, t: nat, best: Option<Lead>) returns (best': Option<Lead>)
    requires t < |tables|
    requires BestBefore(tables, best, t, 0, 0)
    ensures BestBefore(tables, best', t + 1, 0, 0)
  {
    best' := best;
    for dateIdx := 0 to tables[t].width
      invariant BestBefore(tables, best', t, dateIdx, 0)
    {
      best' := ScanValueColumns(tables, t, dateIdx, best');
      RowDone(tables, t, dateIdx, best');
    }
    TableDone(tables, t, best');
  }

  /** The search over every table in order, every ordered pair of distinct columns, keeping
      a lead only when its score is at least `Floor` and strictly beats the one held. */
  method ScanTables(tables: seq<Grid>) returns (best: Option<Lead>)
    ensures BestBefore(tables, best, |tables|, 0, 0)
  {
    best := None;
    for t := 0 to |tables|
      invariant BestBefore(tables, best, t, 0, 0)
    {
      best := ScanTable(tables, t, best);
    }
  }

  /** The detector: the search, then the winning pair's sorted frame. */
  method DetectPair(tables: seq<Grid>) returns (best: Option<Pick>)
    ensures IsBest(tables, best)
  {
    var lead := ScanTables(tables);
    match lead
    case None =>
      best := None;
    case Some(l) =>
      best := Some(Pick(l.table, l.dateCol, l.valueCol, l.score, PairFrame(tables, l)));
  }

  /** The search has one outcome: two results that both satisfy `IsBest` are equal. */
  lemma BestIsUnique(tables: seq<Grid>, b1: Option<Pick>, b2: Option<Pick>)
    requires IsBest(tables, b1) && IsBest(tables, b2)
    ensures b1 == b2
  {
  }

  /** A planted pair that reaches the floor while every other pair stays below it is the
      pair the detector picks. */
  lemma PlantedPairWins(tables: seq<Grid>, best: Option<Pick>, t: nat, d: nat, v: nat)
    requires IsBest(tables, best)
    requires IsCandidate(tables, t, d, v) && Score(tables[t], d, v) >= Floor
    requires forall t', d', v' :: IsCandidate(tables, t', d', v') && (t', d', v') != (t, d, v) ==>
               Score(tables[t'], d', v') < Floor
    ensures best.Some? && best.value.table == t && best.value.dateCol == d && best.value.valueCol == v
    ensures best.value.rows == SortByPeriod(PairRows(tables[t].rows, d, v))
  {
    assert Before(t, d, v, |tables|, 0, 0);
  }
}
