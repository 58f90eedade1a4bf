/**
 * The "evolution" tab of the dashboard: the summary cards (`totalMetrics`),
 * the monthly line (`chartData`) and the monthly stacked impact bars
 * (`impactStackedData`).
 */
module Evolution {
  import opened Text
  import opened Records
  import opened Sorting
  import opened Stats
  import opened Impact

  // -----------------------------------------------------------------------
  // Which posts the cards look at
  // -----------------------------------------------------------------------

  /** `selectedMonth` is truthy: set and not the empty string. */
  predicate Picked(selectedMonth: Option<string>)
  {
    selectedMonth.Some? && selectedMonth.value != ""
  }

  /**
   * The posts of the selected month when one is picked and the document has
   * it; otherwise every post of every month, month after month.
   */
  function SelectedVideos(data: DataSet, selectedMonth: Option<string>): seq<Video>
  {
    if Picked(selectedMonth) && Lookup(data, selectedMonth.value).Some? then
      Lookup(data, selectedMonth.value).value.all_videos
    else
      Flatten(data)
  }

  /** A post is selected exactly when it belongs to the picked month, or to any month when none is picked. */
  lemma SelectedVideosMembers(data: DataSet, selectedMonth: Option<string>, v: Video)
    ensures Picked(selectedMonth) && Lookup(data, selectedMonth.value).Some? ==>
      (v in SelectedVideos(data, selectedMonth) <==>
        exists i :: 0 <= i < |data| && data[i].key == selectedMonth.value
          && data[i].month == Lookup(data, selectedMonth.value).value && v in data[i].month.all_videos)
    ensures !(Picked(selectedMonth) && Lookup(data, selectedMonth.value).Some?) ==>
      (v in SelectedVideos(data, selectedMonth) <==> exists i :: 0 <= i < |data| && v in data[i].month.all_videos)
  {
    FlattenMembers(data, v);
  }

  /** Gathers the posts the cards and the violin look at, appending month after month. */
  method SelectVideos(data: DataSet, selectedMonth: Option<string>) returns (videos: seq<Video>)
    ensures videos == SelectedVideos(data, selectedMonth)
  {
    if Picked(selectedMonth) {
      var found := Lookup(data, selectedMonth.value);
      if found.Some? {
        return found.value.all_videos;
      }
    }
    videos := [];
    var i := 0;
    while i < |data|
      invariant 0 <= i <= |data|
      invariant videos == Flatten(data[..i])
    {
      assert data[..i + 1][..i] == data[..i];
      videos := videos + data[i].month.all_videos;
      i := i + 1;
    }
    assert data[..i] == data;
  }

  // -----------------------------------------------------------------------
  // The summary cards
  // -----------------------------------------------------------------------

  datatype Totals = Totals(
    total_posts: int,
    avg_views: real,
    avg_likes: real,
    avg_ir: real,
    total_shares: int,
    total_comments: int,
    total_collects: int)

  /**
   * All zeros for no posts; otherwise the count, the three column sums and
   * the three column means.
   */
  function TotalsOf(vs: seq<Video>): (t: Totals)
    ensures |vs| == 0 ==> t == Totals(0, 0.0, 0.0, 0.0, 0, 0, 0)
    ensures |vs| > 0 ==> t.total_posts == |vs|
    ensures |vs| > 0 ==>
      t.avg_views * (|vs| as real) == Sum(ViewsOf(vs))
      && t.avg_likes * (|vs| as real) == Sum(LikesOf(vs))
      && t.avg_ir * (|vs| as real) == Sum(IrsOf(vs))
    ensures t.total_shares == SumInt(SharesOf(vs))
      && t.total_comments == SumInt(CommentsOf(vs))
      && t.total_collects == SumInt(CollectsOf(vs))
  {
    if |vs| == 0 then Totals(0, 0.0, 0.0, 0.0, 0, 0, 0)
    else Totals(|vs|, Mean(ViewsOf(vs)), Mean(LikesOf(vs)), Mean(IrsOf(vs)),
                SumInt(SharesOf(vs)), SumInt(CommentsOf(vs)), SumInt(CollectsOf(vs)))
  }

  /** `totalMetrics`. */
  method TotalMetrics(data: DataSet, selectedMonth: Option<string>) returns (t: Totals)
    ensures t == TotalsOf(SelectedVideos(data, selectedMonth))
  {
    var videos := SelectVideos(data, selectedMonth);
    t := TotalsOf(videos);
  }

  /** Each average card lies between the smallest and the largest value of its column. */
  lemma TotalsBetween(vs: seq<Video>, lo: real, hi: real)
    requires |vs| > 0
    requires forall i :: 0 <= i < |vs| ==> lo <= vs[i].ir <= hi
    ensures lo <= TotalsOf(vs).avg_ir <= hi
  {
    MeanBetween(IrsOf(vs), lo, hi);
  }

  lemma {:induction false} SumIntNonNegative(s: seq<int>)
    requires forall i :: 0 <= i < |s| ==> s[i] >= 0
    ensures SumInt(s) >= 0
    decreases |s|
  {
    if s != [] {
      SumIntNonNegative(s[..|s| - 1]);
    }
  }

  /** Non-negative counters give non-negative cards. */
  lemma TotalsNonNegative(vs: seq<Video>)
    requires forall v :: v in vs ==>
      v.views >= 0 && v.likes >= 0 && v.shares >= 0 && v.comments >= 0 && v.collects >= 0 && v.ir >= 0.0
    ensures var t := TotalsOf(vs);
      t.total_posts >= 0 && t.avg_views >= 0.0 && t.avg_likes >= 0.0 && t.avg_ir >= 0.0
      && t.total_shares >= 0 && t.total_comments >= 0 && t.total_collects >= 0
  {
    SumIntNonNegative(SharesOf(vs));
    SumIntNonNegative(CommentsOf(vs));
    SumIntNonNegative(CollectsOf(vs));
    if |vs| > 0 {
      MeanBetween(IrsOf(vs), 0.0, MaxOrZero(IrsOf(vs)));
      MeanBetween(ViewsOf(vs), 0.0, MaxOrZero(ViewsOf(vs)));
      MeanBetween(LikesOf(vs), 0.0, MaxOrZero(LikesOf(vs)));
    }
  }

  function MaxOrZero(s: seq<real>): (m: real)
    ensures m >= 0.0 && forall i :: 0 <= i < |s| ==> s[i] <= m
    decreases |s|
  {
    if s == [] then 0.0
    else
      var m := MaxOrZero(s[..|s| - 1]);
      if s[|s| - 1] > m then s[|s| - 1] else m
  }

  // -----------------------------------------------------------------------
  // Months of the chosen year, in key order
  // -----------------------------------------------------------------------

  /** `selectedYear === 'all' || monthKey.startsWith(selectedYear)`. */
  predicate InYear(key: string, year: string)
  {
    year == "all" || StartsWith(key, year)
  }

  /** The entries whose key is in the year, in document order. */
  function EntriesInYear(data: DataSet, year: string): (r: DataSet)
    ensures forall e :: e in r <==> e in data && InYear(e.key, year)
    decreases |data|
  {
    if data == [] then []
    else
      var init, last := data[..|data| - 1], data[|data| - 1];
      assert forall e :: e in data <==> e in init || e == last;
      EntriesInYear(init, year) + (if InYear(last.key, year) then [last] else [])
  }

  // -----------------------------------------------------------------------
  // The monthly line
  // -----------------------------------------------------------------------

  datatype ChartPoint = ChartPoint(month: string, posts: int, metric: real)

  /** The plotted value of a month: its stored field, except the IR median, recomputed by the upper rule. */
  function MonthMetric(m: MonthData, metric: Metric): real
  {
    match metric
    case MedianIr => UpperMedian(IrsOf(m.all_videos))
    case MedianViews => m.median_views
    case AvgViews => m.avg_views
    case AvgLikes => m.avg_likes
    case AvgIr => m.avg_ir
  }

  function PointOf(e: MonthEntry, metric: Metric): ChartPoint
  {
    ChartPoint(e.key, e.month.total_posts, MonthMetric(e.month, metric))
  }

  function Points(entries: DataSet, metric: Metric): (r: seq<ChartPoint>)
    ensures |r| == |entries| && forall i :: 0 <= i < |entries| ==> r[i] == PointOf(entries[i], metric)
  {
    seq(|entries|, i requires 0 <= i < |entries| => PointOf(entries[i], metric))
  }

  function PointOrder(): (ChartPoint, ChartPoint) -> bool
  {
    (p: ChartPoint, q: ChartPoint) => StrLe(p.month, q.month)
  }

  lemma PointOrderIsPreorder()
    ensures TotalPreorder(PointOrder())
  {
    forall p: ChartPoint, q: ChartPoint ensures PointOrder()(p, q) || PointOrder()(q, p) {
      StrLeTotal(p.month, q.month);
    }
    forall p: ChartPoint, q: ChartPoint, r: ChartPoint | PointOrder()(p, q) && PointOrder()(q, r)
      ensures PointOrder()(p, r)
    {
      StrLeTransitive(p.month, q.month, r.month);
    }
  }

  /** The point of one month; the IR median is recomputed from the month's videos. */
  method MonthPoint(e: MonthEntry, metric: Metric) returns (p: ChartPoint)
    ensures p == PointOf(e, metric)
  {
    var m := e.month;
    var value: real;
    if metric == MedianIr {
      var irs := SortNumbers(IrsOf(m.all_videos));
      value := if |irs| > 0 then irs[|irs| / 2] else 0.0;
    } else {
      value := MonthMetric(m, metric);
    }
    p := ChartPoint(e.key, m.total_posts, value);
  }

  /** The points of the given months, in their order. */
  method BuildPoints(entries: DataSet, metric: Metric) returns (points: seq<ChartPoint>)
    ensures points == Points(entries, metric)
  {
    points := [];
    var i := 0;
    while i < |entries|
      invariant 0 <= i <= |entries|
      invariant points == Points(entries[..i], metric)
    {
      var p := MonthPoint(entries[i], metric);
      points := points + [p];
      i := i + 1;
    }
    assert entries[..i] == entries;
  }

  /** `chartData`: one point per month of the year, in key order. */
  method ChartData(data: DataSet, metric: Metric, year: string) returns (points: seq<ChartPoint>)
    ensures multiset(points) == multiset(Points(EntriesInYear(data, year), metric))
    ensures forall i, j :: 0 <= i < j < |points| ==> StrLe(points[i].month, points[j].month)
  {
    var unsorted := BuildPoints(EntriesInYear(data, year), metric);
    PointOrderIsPreorder();
    points := SortedCopyOf(unsorted, PointOrder());
  }

  /** A month key has a point exactly when it has an entry. */
  lemma PointKeysAreEntryKeys(entries: DataSet, metric: Metric, key: string)
    ensures (exists p :: p in Points(entries, metric) && p.month == key) <==>
      (exists e :: e in entries && e.key == key)
  {
    var pts := Points(entries, metric);
    if exists p :: p in pts && p.month == key {
      var p :| p in pts && p.month == key;
      var k :| 0 <= k < |pts| && pts[k] == p;
      assert entries[k] in entries;
    }
    if exists e :: e in entries && e.key == key {
      var e :| e in entries && e.key == key;
      var k :| 0 <= k < |entries| && entries[k] == e;
      assert pts[k] in pts;
    }
  }

  /** The entries of the year carry exactly the keys of the data that fall in the year. */
  lemma YearEntryKeys(data: DataSet, year: string, key: string)
    ensures (exists e :: e in EntriesInYear(data, year) && e.key == key) <==>
      (InYear(key, year) && exists i :: 0 <= i < |data| && data[i].key == key)
  {
    if InYear(key, year) && exists i :: 0 <= i < |data| && data[i].key == key {
      var i :| 0 <= i < |data| && data[i].key == key;
      assert data[i] in EntriesInYear(data, year);
    }
  }

  /** Every plotted point is a month of the chosen year, and every such month is plotted. */
  lemma ChartMonths(data: DataSet, metric: Metric, year: string, points: seq<ChartPoint>, key: string)
    requires multiset(points) == multiset(Points(EntriesInYear(data, year), metric))
    ensures (exists p :: p in points && p.month == key) <==>
      (InYear(key, year) && exists i :: 0 <= i < |data| && data[i].key == key)
  {
    var pts := Points(EntriesInYear(data, year), metric);
    assert forall p :: p in points <==> p in pts by {
      forall p ensures p in points <==> p in pts {
        assert p in points <==> p in multiset(points);
        assert p in pts <==> p in multiset(pts);
      }
    }
    PointKeysAreEntryKeys(EntriesInYear(data, year), metric, key);
    YearEntryKeys(data, year, key);
  }

  // -----------------------------------------------------------------------
  // The stacked impact bars
  // -----------------------------------------------------------------------

  /** The five counters of a month, highest category first as the chart lists them. */
  datatype StackedRow = StackedRow(month: string, muyAlto: int, alto: int, medio: int, bajo: int, muyBajo: int)

  function StackedOf(e: MonthEntry, metric: Metric): StackedRow
  {
    var f := FamilyOf(metric);
    var values := FamilyValues(e.month.all_videos, f);
    StackedRow(e.key,
      CountCategory(values, f, MuyAlto), CountCategory(values, f, Alto), CountCategory(values, f, Medio),
      CountCategory(values, f, Bajo), CountCategory(values, f, MuyBajo))
  }

  function StackedRows(entries: DataSet, metric: Metric): (r: seq<StackedRow>)
    ensures |r| == |entries| && forall i :: 0 <= i < |entries| ==> r[i] == StackedOf(entries[i], metric)
  {
    seq(|entries|, i requires 0 <= i < |entries| => StackedOf(entries[i], metric))
  }

  function RowOrder(): (StackedRow, StackedRow) -> bool
  {
    (p: StackedRow, q: StackedRow) => StrLe(p.month, q.month)
  }

  lemma RowOrderIsPreorder()
    ensures TotalPreorder(RowOrder())
  {
    forall p: StackedRow, q: StackedRow ensures RowOrder()(p, q) || RowOrder()(q, p) {
      StrLeTotal(p.month, q.month);
    }
    forall p: StackedRow, q: StackedRow, r: StackedRow | RowOrder()(p, q) && RowOrder()(q, r)
      ensures RowOrder()(p, r)
    {
      StrLeTransitive(p.month, q.month, r.month);
    }
  }

  /** The bar of one month: the five counters the category tally gives. */
  method MonthRow(e: MonthEntry, metric: Metric) returns (row: StackedRow)
    ensures row == StackedOf(e, metric)
  {
    var f := FamilyOf(metric);
    var counts := CountCategories(FamilyValues(e.month.all_videos, f), f);
    assert Rank(MuyAlto) == 4 && Rank(Alto) == 3 && Rank(Medio) == 2 && Rank(Bajo) == 1 && Rank(MuyBajo) == 0;
    row := StackedRow(e.key, counts[4], counts[3], counts[2], counts[1], counts[0]);
  }

  /** The bars of the given months, in their order. */
  method BuildRows(entries: DataSet, metric: Metric) returns (rows: seq<StackedRow>)
    ensures rows == StackedRows(entries, metric)
  {
    rows := [];
    var i := 0;
    while i < |entries|
      invariant 0 <= i <= |entries|
      invariant rows == StackedRows(entries[..i], metric)
    {
      var row := MonthRow(entries[i], metric);
      rows := rows + [row];
      i := i + 1;
    }
    assert entries[..i] == entries;
  }

  /** `impactStackedData`: one row of five table-driven counters per month of the year, in key order. */
  method ImpactStacked(data: DataSet, metric: Metric, year: string) returns (rows: seq<StackedRow>)
    ensures multiset(rows) == multiset(StackedRows(EntriesInYear(data, year), metric))
    ensures forall i, j :: 0 <= i < j < |rows| ==> StrLe(rows[i].month, rows[j].month)
  {
    var unsorted := BuildRows(EntriesInYear(data, year), metric);
    RowOrderIsPreorder();
    rows := SortedCopyOf(unsorted, RowOrder());
  }

  /**
   * A month's bar counts each post of the month whose family value is
   * non-negative exactly once, in the category the ladder gives it.
   */
  lemma StackedRowTotal(e: MonthEntry, metric: Metric)
    ensures var r := StackedOf(e, metric);
      r.muyAlto + r.alto + r.medio + r.bajo + r.muyBajo
        == CountNonNegative(FamilyValues(e.month.all_videos, FamilyOf(metric)))
  {
    var f := FamilyOf(metric);
    var values := FamilyValues(e.month.all_videos, f);
    var c := Tally.Counts(BandSlots(values, f), 5);
    StackedCounts(values, f);
    assert Rank(MuyAlto) == 4 && Rank(Alto) == 3 && Rank(Medio) == 2 && Rank(Bajo) == 1 && Rank(MuyBajo) == 0;
    SumOfFive(c);
  }
}
