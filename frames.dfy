/** The canonical `period,value` frame, ordering by a key, and the window clip. */
module Frames {
  import opened Base
  import opened Dates

  /** A cell of the value column: `None` is pandas' NaN. */
  type Value = Option<real>

  /** One row of a canonical `period,value` frame. */
  datatype Obs = Obs(period: Date, value: Value)

  /** A canonical frame: its rows in frame order. */
  type Series = seq<Obs>

  function PeriodOf(o: Obs): int {
    o.period
  }

  /** The rows are in ascending order of `key`. */
  predicate SortedBy<T>(s: seq<T>, key: T -> int) {
    forall i, j :: 0 <= i < j < |s| ==> key(s[i]) <= key(s[j])
  }

  predicate SortedByPeriod(s: Series) {
    SortedBy(s, PeriodOf)
  }

  /** No period occurs twice. */
  predicate UniquePeriods(s: Series) {
    forall i, j :: 0 <= i < j < |s| ==> s[i].period != s[j].period
  }

  /** A block of rows sharing one key, put in front of a sorted sequence whose keys are no
      smaller, gives a sorted sequence. */
  lemma SortedBlockAppend<T>(block: seq<T>, tail: seq<T>, key: T -> int, p: int)
    requires forall m :: 0 <= m < |block| ==> key(block[m]) == p
    requires forall m :: 0 <= m < |tail| ==> p <= key(tail[m])
    requires SortedBy(tail, key)
    ensures SortedBy(block + tail, key)
  {
    var r := block + tail;
    forall a, b | 0 <= a < b < |r| ensures key(r[a]) <= key(r[b]) {
      if b < |block| {
        assert r[a] == block[a] && r[b] == block[b];
      } else if a >= |block| {
        assert r[a] == tail[a - |block|] && r[b] == tail[b - |block|];
      } else {
        assert r[a] == block[a] && r[b] == tail[b - |block|];
      }
    }
  }

  /** A sorted sequence stays sorted when a row no greater than any of its rows is put in
      front. */
  lemma SortedCons<T>(h: T, tail: seq<T>, key: T -> int)
    requires SortedBy(tail, key)
    requires forall k :: 0 <= k < |tail| ==> key(h) <= key(tail[k])
    ensures SortedBy([h] + tail, key)
  {
    var r := [h] + tail;
    forall i, j | 0 <= i < j < |r| ensures key(r[i]) <= key(r[j]) {
      assert r[j] == tail[j - 1];
      if i > 0 {
        assert r[i] == tail[i - 1];
      }
    }
  }

  /** Places `x` before the first row of the sorted `s` whose key is not smaller. */
  function Insert<T>(x: T, s: seq<T>, key: T -> int): (r: seq<T>)
    requires SortedBy(s, key)
    ensures SortedBy(r, key)
    ensures multiset(r) == multiset(s) + multiset{x}
  {
    if |s| == 0 then [x]
    else if key(x) <= key(s[0]) then
      SortedCons(x, s, key);
      [x] + s
    else
      var tail := Insert(x, s[1..], key);
      assert s == [s[0]] + s[1..];
      assert forall k :: 0 <= k < |tail| ==> key(s[0]) <= key(tail[k]) by {
        forall k | 0 <= k < |tail| ensures key(s[0]) <= key(tail[k]) {
          assert tail[k] in multiset(tail);
          if tail[k] != x {
            assert tail[k] in s[1..];
          }
        }
      }
      SortedCons(s[0], tail, key);
      [s[0]] + tail
  }

  /** `sort_values(key)`: a permutation of `s` in ascending key order (rows with equal keys
      keep their input order here). */
  function SortBy<T>(s: seq<T>, key: T -> int): (r: seq<T>)
    ensures SortedBy(r, key)
    ensures multiset(r) == multiset(s)
    ensures |r| == |s|
  {
    if |s| == 0 then []
    else
      assert s == [s[0]] + s[1..];
      Insert(s[0], SortBy(s[1..], key), key)
  }

  function SortByPeriod(s: Series): (r: Series)
    ensures SortedByPeriod(r) && multiset(r) == multiset(s)
  {
    SortBy(s, PeriodOf)
  }

  /** `_clip`: the rows with `start <= period <= end`, in their original order. */
  function Clip(s: Series, start: Date, end: Date): (r: Series)
    ensures |r| <= |s|
    ensures forall o :: o in r <==> o in s && start <= o.period <= end
  {
    if |s| == 0 then []
    else if start <= s[0].period <= end then [s[0]] + Clip(s[1..], start, end)
    else Clip(s[1..], start, end)
  }

  /** `t` is `s` with some rows left out and the rest kept in order. */
  predicate IsSubsequence<T(==)>(t: seq<T>, s: seq<T>)
    decreases |s|
  {
    |t| <= |s| &&
    (|t| == 0 || (t[0] == s[0] && IsSubsequence(t[1..], s[1..])) || IsSubsequence(t, s[1..]))
  }

  /** Clipping never reorders or duplicates rows. */
  lemma {:induction false} ClipIsSubsequence(s: Series, start: Date, end: Date)
    ensures IsSubsequence(Clip(s, start, end), s)
  {
    if |s| > 0 {
      ClipIsSubsequence(s[1..], start, end);
      var r := Clip(s, start, end);
      if start <= s[0].period <= end {
        assert r[0] == s[0] && r[1..] == Clip(s[1..], start, end);
      }
    }
  }

  /** Clipping twice with the same window is clipping once. */
  lemma {:induction false} ClipIdempotent(s: Series, start: Date, end: Date)
    ensures Clip(Clip(s, start, end), start, end) == Clip(s, start, end)
  {
    if |s| > 0 {
      ClipIdempotent(s[1..], start, end);
      var r := Clip(s, start, end);
      if start <= s[0].period <= end {
        assert r[0] == s[0] && r[1..] == Clip(s[1..], start, end);
      }
    }
  }

  /** Clipping a sorted frame leaves it sorted. */
  lemma {:induction false} ClipKeepsSorted(s: Series, start: Date, end: Date)
    requires SortedByPeriod(s)
    ensures SortedByPeriod(Clip(s, start, end))
  {
    if |s| > 0 {
      ClipKeepsSorted(s[1..], start, end);
      var r := Clip(s, start, end);
      if start <= s[0].period <= end {
        assert r == [s[0]] + Clip(s[1..], start, end);
        var rest := Clip(s[1..], start, end);
        forall j | 0 <= j < |rest| ensures s[0].period <= rest[j].period {
          assert rest[j] in s[1..];
        }
        SortedCons(s[0], rest, PeriodOf);
      }
    }
  }

  /** Clipping keeps row multiplicities: each kept row is kept as often as it occurs. */
  lemma {:induction false} ClipMultiset(s: Series, start: Date, end: Date, o: Obs)
    ensures multiset(Clip(s, start, end))[o] ==
            (if start <= o.period <= end then multiset(s)[o] else 0)
  {
    if |s| > 0 {
      var rest := Clip(s[1..], start, end);
      ClipMultiset(s[1..], start, end, o);
      assert s == [s[0]] + s[1..];
      assert multiset(s) == multiset{s[0]} + multiset(s[1..]);
      if start <= s[0].period <= end {
        assert Clip(s, start, end) == [s[0]] + rest;
        assert multiset(Clip(s, start, end)) == multiset{s[0]} + multiset(rest);
      } else {
        assert Clip(s, start, end) == rest;
      }
    }
  }

  /** The earliest period of a non-empty frame (`df[col].min()`). */
  function MinPeriod(s: Series): (m: Date)
    requires |s| > 0
    ensures exists i :: 0 <= i < |s| && s[i].period == m
    ensures forall i :: 0 <= i < |s| ==> m <= s[i].period
  {
    if |s| == 1 then s[0].period
    else
      var rest := MinPeriod(s[1..]);
      assert forall i :: 1 <= i < |s| ==> s[i] == s[1..][i - 1];
      if s[0].period <= rest then s[0].period else rest
  }

  /** The latest period of a non-empty frame (`df[col].max()`). */
  function MaxPeriod(s: Series): (m: Date)
    requires |s| > 0
    ensures exists i :: 0 <= i < |s| && s[i].period == m
    ensures forall i :: 0 <= i < |s| ==> s[i].period <= m
  {
    if |s| == 1 then s[0].period
    else
      var rest := MaxPeriod(s[1..]);
      assert forall i :: 1 <= i < |s| ==> s[i] == s[1..][i - 1];
      if rest <= s[0].period then s[0].period else rest
  }
}
