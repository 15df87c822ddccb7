/** Turning sparse sales rows into a dense daily series, and aligning hold-out
    demand to the calendar. A date is its day number. */
module Calendar {
  import opened Options
  import opened RealSeq

  const MAX_SERIES_DAYS := 730

  datatype Row = Row(day: int, units: real)

  // ---- a stable sort by day ----

  function InsertRow(s: seq<Row>, r: Row): (t: seq<Row>)
    ensures |t| == |s| + 1
  {
    if |s| == 0 || s[|s| - 1].day <= r.day then s + [r]
    else InsertRow(s[..|s| - 1], r) + [s[|s| - 1]]
  }

  function SortRows(rows: seq<Row>): (t: seq<Row>)
    ensures |t| == |rows|
  {
    if |rows| == 0 then [] else InsertRow(SortRows(rows[..|rows| - 1]), rows[|rows| - 1])
  }

  /** Units of the last row stored for a day. */
  function LastUnits(rows: seq<Row>, day: int): Option<real> {
    if |rows| == 0 then None
    else if rows[|rows| - 1].day == day then Some(rows[|rows| - 1].units)
    else LastUnits(rows[..|rows| - 1], day)
  }

  lemma {:induction false} InsertKeepsLast(s: seq<Row>, r: Row, day: int)
    ensures LastUnits(InsertRow(s, r), day) == if day == r.day then Some(r.units) else LastUnits(s, day)
  {
    if |s| == 0 || s[|s| - 1].day <= r.day {
      assert (s + [r])[..|s|] == s;
    } else {
      var n := |s| - 1;
      InsertKeepsLast(s[..n], r, day);
      assert (InsertRow(s[..n], r) + [s[n]])[..n + 1] == InsertRow(s[..n], r);
    }
  }

  /** Sorting by day is stable: the last row stored for each day stays the last one. */
  lemma {:induction false} SortKeepsLast(rows: seq<Row>, day: int)
    ensures LastUnits(SortRows(rows), day) == LastUnits(rows, day)
  {
    if |rows| > 0 {
      var n := |rows| - 1;
      SortKeepsLast(rows[..n], day);
      InsertKeepsLast(SortRows(rows[..n]), rows[n], day);
    }
  }

  ghost predicate Sorted(rows: seq<Row>) {
    forall i, j :: 0 <= i < j < |rows| ==> rows[i].day <= rows[j].day
  }

  lemma {:induction false} InsertMembers(s: seq<Row>, r: Row, x: Row)
    ensures x in InsertRow(s, r) <==> x == r || x in s
  {
    if |s| > 0 && s[|s| - 1].day > r.day {
      var n := |s| - 1;
      InsertMembers(s[..n], r, x);
      assert s == s[..n] + [s[n]];
    }
  }

  lemma {:induction false} InsertKeepsSorted(s: seq<Row>, r: Row)
    requires Sorted(s)
    ensures Sorted(InsertRow(s, r))
  {
    if |s| > 0 && s[|s| - 1].day > r.day {
      var n := |s| - 1;
      InsertKeepsSorted(s[..n], r);
      var t := InsertRow(s[..n], r);
      forall i | 0 <= i < |t| ensures t[i].day <= s[n].day {
        InsertMembers(s[..n], r, t[i]);
      }
    }
  }

  lemma {:induction false} SortSorts(rows: seq<Row>)
    ensures Sorted(SortRows(rows))
  {
    if |rows| > 0 {
      SortSorts(rows[..|rows| - 1]);
      InsertKeepsSorted(SortRows(rows[..|rows| - 1]), rows[|rows| - 1]);
    }
  }

  lemma {:induction false} SortedStays(rows: seq<Row>)
    requires Sorted(rows)
    ensures SortRows(rows) == rows
  {
    if |rows| > 0 {
      var n := |rows| - 1;
      assert Sorted(rows[..n]) && (n > 0 ==> rows[n - 1].day <= rows[n].day);
      assert SortRows(rows) == InsertRow(SortRows(rows[..n]), rows[n]);
      hide InsertRow, Sorted, SortRows;
      SortedStays(rows[..n]);
      InsertLast(rows[..n], rows[n]);
      assert rows == rows[..n] + [rows[n]];
    }
  }

  lemma InsertLast(s: seq<Row>, r: Row)
    requires |s| > 0 ==> s[|s| - 1].day <= r.day
    ensures InsertRow(s, r) == s + [r]
  {
  }

  lemma LastOfSorted(rows: seq<Row>)
    requires |rows| > 0 && Sorted(rows)
    ensures LastDay(rows) == rows[|rows| - 1].day
  {
    RangeIsAttained(rows);
    DayRange(rows, |rows| - 1);
  }

  // ---- the first and last day ----

  function FirstDay(rows: seq<Row>): int
    requires |rows| > 0
  {
    var d := rows[|rows| - 1].day;
    if |rows| == 1 then d
    else var e := FirstDay(rows[..|rows| - 1]); if d < e then d else e
  }

  function LastDay(rows: seq<Row>): int
    requires |rows| > 0
  {
    var d := rows[|rows| - 1].day;
    if |rows| == 1 then d
    else var e := LastDay(rows[..|rows| - 1]); if d > e then d else e
  }

  lemma {:induction false} DayRange(rows: seq<Row>, i: nat)
    requires i < |rows|
    ensures FirstDay(rows) <= rows[i].day <= LastDay(rows)
  {
    if i < |rows| - 1 { DayRange(rows[..|rows| - 1], i); }
    else if |rows| > 1 { DayRange(rows[..|rows| - 1], 0); }
  }

  lemma {:induction false} DayRangeTight(rows: seq<Row>, first: int, last: int)
    requires |rows| > 0
    requires forall i :: 0 <= i < |rows| ==> first <= rows[i].day <= last
    requires exists i :: 0 <= i < |rows| && rows[i].day == first
    requires exists i :: 0 <= i < |rows| && rows[i].day == last
    ensures FirstDay(rows) == first && LastDay(rows) == last
  {
    var i :| 0 <= i < |rows| && rows[i].day == first;
    var j :| 0 <= j < |rows| && rows[j].day == last;
    DayRange(rows, i);
    DayRange(rows, j);
    RangeIsAttained(rows);
  }

  lemma {:induction false} RangeIsAttained(rows: seq<Row>)
    requires |rows| > 0
    ensures exists i :: 0 <= i < |rows| && rows[i].day == FirstDay(rows)
    ensures exists i :: 0 <= i < |rows| && rows[i].day == LastDay(rows)
  {
    var n := |rows| - 1;
    if n == 0 {
      assert rows[0].day == FirstDay(rows);
    } else {
      RangeIsAttained(rows[..n]);
      var i :| 0 <= i < n && rows[..n][i].day == FirstDay(rows[..n]);
      var j :| 0 <= j < n && rows[..n][j].day == LastDay(rows[..n]);
      assert rows[i].day == FirstDay(rows) || rows[n].day == FirstDay(rows);
      assert rows[j].day == LastDay(rows) || rows[n].day == LastDay(rows);
    }
  }

  lemma {:induction false} LastUnitsSome(rows: seq<Row>, day: int)
    ensures LastUnits(rows, day).Some? <==> exists i :: 0 <= i < |rows| && rows[i].day == day
  {
    if |rows| > 0 {
      var n := |rows| - 1;
      LastUnitsSome(rows[..n], day);
      if rows[n].day != day && (exists i :: 0 <= i < |rows| && rows[i].day == day) {
        var i :| 0 <= i < |rows| && rows[i].day == day;
        assert rows[..n][i].day == day;
      }
    }
  }

  // The sorted rows cover the same days as the originals.
  lemma {:induction false} SortKeepsRange(rows: seq<Row>)
    requires |rows| > 0
    ensures FirstDay(SortRows(rows)) == FirstDay(rows) && LastDay(SortRows(rows)) == LastDay(rows)
  {
    var t := SortRows(rows);
    forall i | 0 <= i < |t| ensures FirstDay(rows) <= t[i].day <= LastDay(rows) {
      LastUnitsSome(t, t[i].day);
      SortKeepsLast(rows, t[i].day);
      LastUnitsSome(rows, t[i].day);
      var j :| 0 <= j < |rows| && rows[j].day == t[i].day;
      DayRange(rows, j);
    }
    RangeIsAttained(rows);
    DayKept(rows, FirstDay(rows));
    DayKept(rows, LastDay(rows));
    DayRangeTight(t, FirstDay(rows), LastDay(rows));
  }

  lemma DayKept(rows: seq<Row>, day: int)
    requires exists i :: 0 <= i < |rows| && rows[i].day == day
    ensures exists i :: 0 <= i < |rows| && SortRows(rows)[i].day == day
  {
    LastUnitsSome(rows, day);
    SortKeepsLast(rows, day);
    LastUnitsSome(SortRows(rows), day);
  }

  // ---- the dense series ----

  function Start(rows: seq<Row>): int
    requires |rows| > 0
  {
    if LastDay(rows) - FirstDay(rows) + 1 > MAX_SERIES_DAYS then LastDay(rows) - (MAX_SERIES_DAYS - 1)
    else FirstDay(rows)
  }

  function UnitsOn(rows: seq<Row>, day: int): real {
    match LastUnits(rows, day)
    case None => 0.0
    case Some(v) => v
  }

  function Window(rows: seq<Row>, start: int, n: nat): (r: seq<real>)
    ensures |r| == n
  {
    seq(n, i requires 0 <= i < n => UnitsOn(rows, start + i))
  }

  /** Length of the dense series. */
  function Span(rows: seq<Row>): (n: nat)
    requires |rows| > 0
    ensures 1 <= n <= MAX_SERIES_DAYS
  {
    DayRange(rows, 0);
    LastDay(rows) - Start(rows) + 1
  }

  function Dates(rows: seq<Row>): seq<int> {
    if |rows| == 0 then [] else seq(Span(rows), i requires 0 <= i < Span(rows) => Start(rows) + i)
  }

  function Values(rows: seq<Row>): seq<real> {
    if |rows| == 0 then [] else Window(rows, Start(rows), Span(rows))
  }

  ghost predicate Indexes(byDay: map<int, real>, rows: seq<Row>) {
    forall d :: (d in byDay <==> LastUnits(rows, d).Some?) && (d in byDay ==> Some(byDay[d]) == LastUnits(rows, d))
  }

  // The dictionary pass: a later row for the same day overwrites an earlier one.
  method IndexByDay(ordered: seq<Row>) returns (byDay: map<int, real>)
    ensures Indexes(byDay, ordered)
  {
    byDay := map[];
    for i := 0 to |ordered|
      invariant Indexes(byDay, ordered[..i])
    {
      assert ordered[..i + 1][..i] == ordered[..i];
      byDay := byDay[ordered[i].day := ordered[i].units];
    }
    assert ordered[..|ordered|] == ordered;
  }

  /** Sort, keep the last row of each day, and fill the calendar gaps with zero. */
  method PrepareSeries(rows: seq<Row>) returns (dates: seq<int>, values: seq<real>)
    ensures dates == Dates(rows) && values == Values(rows)
  {
    if |rows| == 0 {
      return [], [];
    }
    var ordered := SortRows(rows);
    var byDay := IndexByDay(ordered);
    hide LastUnits, SortRows, Window;
    var start, end := FirstDay(ordered), LastDay(ordered);
    SortKeepsRange(rows);
    if end - start + 1 > MAX_SERIES_DAYS {
      start := end - (MAX_SERIES_DAYS - 1);
    }
    assert start == Start(rows) && end == LastDay(rows);
    dates, values := [], [];
    var current := start;
    DayRange(rows, 0);
    while current <= end
      invariant start <= current <= end + 1
      invariant |dates| == |values| == current - start
      invariant forall j :: 0 <= j < |dates| ==> dates[j] == start + j && values[j] == UnitsOn(rows, start + j)
    {
      dates := dates + [current];
      SortKeepsLast(rows, current);
      assert (if current in byDay then byDay[current] else 0.0) == UnitsOn(rows, current);
      values := values + [if current in byDay then byDay[current] else 0.0];
      current := current + 1;
    }
    SeriesAt(rows, dates, values);
  }

  lemma SeriesAt(rows: seq<Row>, dates: seq<int>, values: seq<real>)
    requires |rows| > 0 && |dates| == |values| == Span(rows)
    requires forall j :: 0 <= j < |dates| ==>
      dates[j] == Start(rows) + j && values[j] == UnitsOn(rows, Start(rows) + j)
    ensures dates == Dates(rows) && values == Values(rows)
  {
    hide UnitsOn, Span, Start;
  }

  /** The series is dense: consecutive days ending at the latest row, at most 730
      of them, one value a day, each the last row stored for that day or zero. */
  lemma {:induction false} SeriesIsDense(rows: seq<Row>)
    requires |rows| > 0
    ensures var span := LastDay(rows) - FirstDay(rows) + 1;
      |Dates(rows)| == |Values(rows)| == if span > MAX_SERIES_DAYS then MAX_SERIES_DAYS else span
    ensures Dates(rows)[|Dates(rows)| - 1] == LastDay(rows)
    ensures forall i :: 0 < i < |Dates(rows)| ==> Dates(rows)[i] == Dates(rows)[i - 1] + 1
    ensures forall i :: 0 <= i < |Values(rows)| ==>
      Values(rows)[i] == UnitsOn(rows, Dates(rows)[i])
  {
    hide UnitsOn;
    DayRange(rows, 0);
  }

  function AsRows(start: int, values: seq<real>): (r: seq<Row>)
    ensures |r| == |values|
  {
    seq(|values|, i requires 0 <= i < |values| => Row(start + i, values[i]))
  }

  lemma {:induction false} DenseLookup(start: int, values: seq<real>, i: nat)
    requires i < |values|
    ensures LastUnits(AsRows(start, values), start + i) == Some(values[i])
  {
    var n := |values| - 1;
    if i < n {
      DenseLookup(start, values[..n], i);
      assert AsRows(start, values)[..n] == AsRows(start, values[..n]);
    }
  }

  lemma DenseRange(start: int, values: seq<real>)
    requires |values| > 0
    ensures FirstDay(AsRows(start, values)) == start
    ensures LastDay(AsRows(start, values)) == start + |values| - 1
  {
    var r := AsRows(start, values);
    assert r[0].day == start && r[|r| - 1].day == start + |values| - 1;
    DayRangeTight(r, start, start + |values| - 1);
  }

  /** Preparing an already prepared series changes nothing. */
  lemma PreparingIsIdempotent(rows: seq<Row>)
    requires |rows| > 0
    ensures var dense := AsRows(Dates(rows)[0], Values(rows));
      Dates(dense) == Dates(rows) && Values(dense) == Values(rows)
  {
    var start, values := Start(rows), Values(rows);
    var dense := AsRows(start, values);
    DenseRange(start, values);
    assert Start(dense) == start && Span(dense) == Span(rows);
    forall i | 0 <= i < |values| ensures Values(dense)[i] == values[i] {
      DenseLookup(start, values, i);
    }
  }

  // ---- conservation ----

  ghost predicate DistinctDays(rows: seq<Row>) {
    forall i, j :: 0 <= i < j < |rows| ==> rows[i].day != rows[j].day
  }

  function Units(rows: seq<Row>): (r: seq<real>)
    ensures |r| == |rows|
  {
    seq(|rows|, i requires 0 <= i < |rows| => rows[i].units)
  }

  lemma {:induction false} SumUpdate(s: seq<real>, k: nat, v: real)
    requires k < |s|
    ensures Sum(s[k := v]) == Sum(s) - s[k] + v
  {
    var n := |s| - 1;
    if k < n {
      SumUpdate(s[..n], k, v);
      assert s[k := v][..n] == s[..n][k := v];
    } else {
      assert s[k := v][..n] == s[..n];
    }
  }

  /** With distinct days, a window that covers every row sums to the rows' total. */
  lemma {:induction false} WindowConserves(rows: seq<Row>, start: int, n: nat)
    requires DistinctDays(rows)
    requires forall i :: 0 <= i < |rows| ==> start <= rows[i].day < start + n
    ensures Sum(Window(rows, start, n)) == Sum(Units(rows))
  {
    if |rows| == 0 {
      forall i | 0 <= i < n ensures Window(rows, start, n)[i] == 0.0 {
        assert UnitsOn(rows, start + i) == 0.0;
      }
      SumBounds(Window(rows, start, n), 0.0, 0.0);
    } else {
      var m := |rows| - 1;
      var k := rows[m].day - start;
      WindowConserves(rows[..m], start, n);
      LastUnitsSome(rows[..m], rows[m].day);
      assert forall i :: 0 <= i < m ==> rows[..m][i].day != rows[m].day;
      var before := Window(rows[..m], start, n);
      assert before[k] == UnitsOn(rows[..m], start + k) == 0.0;
      forall i | 0 <= i < n ensures Window(rows, start, n)[i] == before[k := rows[m].units][i] {
        assert UnitsOn(rows, start + i) == if i == k then rows[m].units else UnitsOn(rows[..m], start + i);
      }
      assert Window(rows, start, n) == before[k := rows[m].units];
      SumUpdate(before, k, rows[m].units);
      assert Units(rows) == Units(rows[..m]) + [rows[m].units];
      SumPush(Units(rows[..m]), rows[m].units);
    }
  }

  /** Densifying rows with distinct days inside 730 days neither loses nor invents units. */
  lemma {:induction false} SeriesConservesUnits(rows: seq<Row>)
    requires |rows| > 0 && DistinctDays(rows) && LastDay(rows) - FirstDay(rows) + 1 <= MAX_SERIES_DAYS
    ensures Sum(Values(rows)) == Sum(Units(rows))
  {
    forall i | 0 <= i < |rows| ensures Start(rows) <= rows[i].day < Start(rows) + Span(rows) {
      DayRange(rows, i);
    }
    WindowConserves(rows, Start(rows), Span(rows));
  }

  // ---- calendar-aligned hold-out demand ----

  // values[k:] as the language slices it: a negative k counts from the end.
  function SliceFrom(s: seq<real>, k: int): seq<real> {
    if k >= 0 then (if k <= |s| then s[k..] else [])
    else if -k <= |s| then s[|s| + k..]
    else s
  }

  function AlignedActual(train: seq<Row>, test: seq<Row>): seq<real>
    requires |train| > 0
  {
    var rows := train + test;
    SliceFrom(Values(rows), train[|train| - 1].day - Dates(rows)[0] + 1)
  }

  // Rows in date order: the test rows all follow the last training day.
  ghost predicate SplitInOrder(train: seq<Row>, test: seq<Row>) {
    && |train| > 0 && |test| > 0
    && (forall i :: 0 <= i < |train| ==> train[i].day <= train[|train| - 1].day)
    && (forall i :: 0 <= i < |test| ==> test[i].day > train[|train| - 1].day)
  }

  lemma SplitRange(train: seq<Row>, test: seq<Row>)
    requires SplitInOrder(train, test)
    ensures FirstDay(train + test) <= train[|train| - 1].day < LastDay(test) == LastDay(train + test)
  {
    var rows := train + test;
    RangeIsAttained(test);
    var j :| 0 <= j < |test| && test[j].day == LastDay(test);
    assert rows[|train| + j] == test[j];
    assert rows[|train| - 1] == train[|train| - 1];
    DayRange(rows, |train| - 1);
    DayRange(rows, |train| + j);
    RangeIsAttained(rows);
    var i :| 0 <= i < |rows| && rows[i].day == LastDay(rows);
    if i >= |train| { DayRange(test, i - |train|); }
  }

  lemma {:induction false} UnitsAfterTrain(train: seq<Row>, test: seq<Row>, day: int)
    requires forall i :: 0 <= i < |train| ==> train[i].day < day
    ensures LastUnits(train + test, day) == LastUnits(test, day)
  {
    if |test| == 0 {
      LastUnitsSome(train, day);
      assert train + test == train;
    } else {
      var n := |test| - 1;
      UnitsAfterTrain(train, test[..n], day);
      assert (train + test)[..|train| + n] == train + test[..n];
    }
  }

  /** While the hold-out reaches at most 730 days past the last training day, position
      i of the aligned demand is the demand on the (i+1)-th day after training. */
  lemma AlignedByCalendarDay(train: seq<Row>, test: seq<Row>)
    requires SplitInOrder(train, test) && LastDay(test) - train[|train| - 1].day <= MAX_SERIES_DAYS
    ensures AlignedActual(train, test) == Window(test, train[|train| - 1].day + 1, LastDay(test) - train[|train| - 1].day)
  {
    var rows, cut := train + test, train[|train| - 1].day;
    var n := LastDay(test) - cut;
    var k := AlignedSlice(train, test);
    hide AlignedActual, Start, Span;
    var a, w := Values(rows), Window(test, cut + 1, n);
    forall i | 0 <= i < n ensures a[k..][i] == w[i] {
      var day := cut + 1 + i;
      UnitsAfterTrain(train, test, day);
      assert a[k + i] == UnitsOn(rows, Start(rows) + (k + i)) == UnitsOn(rows, day);
      assert w[i] == UnitsOn(test, day);
    }
    assert a[k..] == w;
  }

  // In reach of the cap, the slice drops exactly the days up to the last training day.
  lemma {:induction false} AlignedSlice(train: seq<Row>, test: seq<Row>) returns (k: nat)
    requires SplitInOrder(train, test) && LastDay(test) - train[|train| - 1].day <= MAX_SERIES_DAYS
    ensures var rows := train + test;
      && k <= |Values(rows)| && AlignedActual(train, test) == Values(rows)[k..]
      && Start(rows) + k == train[|train| - 1].day + 1
      && |Values(rows)| - k == LastDay(test) - train[|train| - 1].day
  {
    hide UnitsOn;
    SplitRange(train, test);
    var rows := train + test;
    k := train[|train| - 1].day - Start(rows) + 1;
    assert Dates(rows)[0] == Start(rows);
  }

  /** The aligned horizon equals the calendar distance from the last training day to
      the last test day exactly when that distance is at most 730 days. */
  lemma AlignedHorizon(train: seq<Row>, test: seq<Row>)
    requires SplitInOrder(train, test)
    ensures |AlignedActual(train, test)| == LastDay(test) - train[|train| - 1].day
       <==> LastDay(test) - train[|train| - 1].day <= MAX_SERIES_DAYS
  {
    SplitRange(train, test);
    if LastDay(test) - train[|train| - 1].day <= MAX_SERIES_DAYS {
      AlignedByCalendarDay(train, test);
    }
  }

  /** Test rows 731 days after training: the slice bound turns negative and one day is scored instead of 731. */
  lemma AlignedHorizonBreaksPastCap()
    ensures var (train, test) := ([Row(0, 1.0)], [Row(731, 5.0)]);
      SplitInOrder(train, test) && AlignedActual(train, test) == [5.0]
  {
    var train, test := [Row(0, 1.0)], [Row(731, 5.0)];
    var rows := train + test;
    assert rows == [Row(0, 1.0), Row(731, 5.0)];
    DayRangeTight(rows, 0, 731) by { assert rows[0].day == 0 && rows[1].day == 731; }
    assert Start(rows) == 2 && Span(rows) == 730;
    assert AlignedActual(train, test) == [UnitsOn(rows, 731)];
  }

  /** With distinct test days the aligned demand sums to the test rows' units. */
  lemma AlignedConservesDemand(train: seq<Row>, test: seq<Row>)
    requires SplitInOrder(train, test) && LastDay(test) - train[|train| - 1].day <= MAX_SERIES_DAYS
    requires DistinctDays(test)
    ensures Sum(AlignedActual(train, test)) == Sum(Units(test))
  {
    hide AlignedActual, Sum, Window;
    AlignedByCalendarDay(train, test);
    var cut := train[|train| - 1].day;
    forall i | 0 <= i < |test| ensures cut + 1 <= test[i].day < cut + 1 + (LastDay(test) - cut) {
      DayRange(test, i);
    }
    WindowConserves(test, cut + 1, LastDay(test) - cut);
  }
}
