/**
 * The post tables of the dashboard: every post of the chosen year and month
 * (`allVideos`), the posts of the clicked month (`monthVideos`) and the posts
 * of the clicked artist (`artistVideos`), each filtered and then sorted on a
 * chosen column in a chosen direction.
 */
module VideoTable {
  import opened Text
  import opened Records
  import opened Sorting
  import opened Lists
  import opened Impact
  import opened Evolution

  datatype SortColumn = Date | Views | Likes | Shares | Comments | Collects | Ir
  datatype SortDirection = Asc | Desc

  /** `a[column] <= b[column]`; dates compare as strings. */
  predicate ColumnLe(col: SortColumn, a: Video, b: Video)
  {
    match col
    case Date => StrLe(a.date, b.date)
    case Views => a.views <= b.views
    case Likes => a.likes <= b.likes
    case Shares => a.shares <= b.shares
    case Comments => a.comments <= b.comments
    case Collects => a.collects <= b.collects
    case Ir => a.ir <= b.ir
  }

  /** "May come before" for a column and a direction. */
  function VideoOrder(col: SortColumn, dir: SortDirection): (Video, Video) -> bool
  {
    (a: Video, b: Video) => if dir == Asc then ColumnLe(col, a, b) else ColumnLe(col, b, a)
  }

  lemma VideoOrderIsPreorder(col: SortColumn, dir: SortDirection)
    ensures TotalPreorder(VideoOrder(col, dir))
  {
    forall a: Video, b: Video ensures VideoOrder(col, dir)(a, b) || VideoOrder(col, dir)(b, a) {
      StrLeTotal(a.date, b.date);
    }
    forall a: Video, b: Video, c: Video | VideoOrder(col, dir)(a, b) && VideoOrder(col, dir)(b, c)
      ensures VideoOrder(col, dir)(a, c)
    {
      if dir == Asc {
        if col == Date { StrLeTransitive(a.date, b.date, c.date); }
      } else {
        if col == Date { StrLeTransitive(c.date, b.date, a.date); }
      }
    }
  }

  /** The in-place sort of a table with the column comparator. */
  method SortVideos(vs: seq<Video>, col: SortColumn, dir: SortDirection) returns (r: seq<Video>)
    ensures multiset(r) == multiset(vs)
    ensures SortedBy(r, VideoOrder(col, dir))
  {
    VideoOrderIsPreorder(col, dir);
    r := SortedCopyOf(vs, VideoOrder(col, dir));
  }

  // -----------------------------------------------------------------------
  // Filters
  // -----------------------------------------------------------------------

  /** The impact filter: `'all'`, or the name of the post's category for the evolution metric. */
  function ImpactTest(filter: string, metric: Metric): Video -> bool
  {
    (v: Video) => filter == "all" || Name(CategoryOf(v, metric)) == filter
  }

  /** The month filter of the full table: the year prefix, and the clicked month unless none or `'all'`. */
  predicate MonthInTable(key: string, year: string, selectedMonth: Option<string>)
  {
    InYear(key, year) && !(Picked(selectedMonth) && selectedMonth.value != "all" && key != selectedMonth.value)
  }

  function MonthTest(year: string, selectedMonth: Option<string>): MonthEntry -> bool
  {
    (e: MonthEntry) => MonthInTable(e.key, year, selectedMonth)
  }

  function ArtistTest(name: string): Video -> bool
  {
    (v: Video) => v.artist == name
  }

  /** The rows of the full table before sorting. */
  function TableSelection(data: DataSet, year: string, selectedMonth: Option<string>, filter: string, metric: Metric): seq<Video>
  {
    Filter(Flatten(Filter(data, MonthTest(year, selectedMonth))), ImpactTest(filter, metric))
  }

  lemma FlattenFilterSnoc(prefix: DataSet, e: MonthEntry, keep: MonthEntry -> bool)
    ensures Flatten(Filter(prefix + [e], keep)) == Flatten(Filter(prefix, keep)) + (if keep(e) then e.month.all_videos else [])
  {
    FilterSnoc(prefix, e, keep);
    var kept := Filter(prefix, keep);
    if keep(e) {
      assert (kept + [e])[..|kept|] == kept;
    } else {
      assert Filter(prefix + [e], keep) == kept;
      assert Flatten(kept) + [] == Flatten(kept);
    }
  }

  /** The posts of the months that pass the year and month filters, month after month. */
  method CollectTableMonths(data: DataSet, year: string, selectedMonth: Option<string>) returns (videos: seq<Video>)
    ensures videos == Flatten(Filter(data, MonthTest(year, selectedMonth)))
  {
    videos := [];
    assert data[..0] == [];
    var i := 0;
    while i < |data|
      invariant 0 <= i <= |data|
      invariant CollectedUpTo(videos, data, i, MonthTest(year, selectedMonth))
    {
      CollectedStep(videos, data, i, MonthTest(year, selectedMonth));
      if MonthInTable(data[i].key, year, selectedMonth) {
        videos := videos + data[i].month.all_videos;
      }
      i := i + 1;
    }
    assert data[..i] == data;
  }

  /** `videos` holds the posts of the months of `data[..i]` that pass, month after month. */
  ghost predicate CollectedUpTo(videos: seq<Video>, data: DataSet, i: nat, keep: MonthEntry -> bool)
  {
    i <= |data| && videos == Flatten(Filter(data[..i], keep))
  }

  /** Looking at one more month appends its posts exactly when it passes. */
  lemma CollectedStep(videos: seq<Video>, data: DataSet, i: nat, keep: MonthEntry -> bool)
    requires CollectedUpTo(videos, data, i, keep) && i < |data|
    ensures keep(data[i]) ==> CollectedUpTo(videos + data[i].month.all_videos, data, i + 1, keep)
    ensures !keep(data[i]) ==> CollectedUpTo(videos, data, i + 1, keep)
  {
    assert data[..i + 1] == data[..i] + [data[i]];
    FlattenFilterSnoc(data[..i], data[i], keep);
  }

  /** `allVideos`. */
  method AllVideos(data: DataSet, year: string, selectedMonth: Option<string>, filter: string, metric: Metric,
                   col: SortColumn, dir: SortDirection) returns (r: seq<Video>)
    ensures multiset(r) == multiset(TableSelection(data, year, selectedMonth, filter, metric))
    ensures SortedBy(r, VideoOrder(col, dir))
  {
    var videos := CollectTableMonths(data, year, selectedMonth);
    var filtered := if filter != "all" then Filter(videos, ImpactTest(filter, metric)) else videos;
    if filter == "all" {
      FilterKeepsAll(videos, ImpactTest(filter, metric));
    }
    r := SortVideos(filtered, col, dir);
  }

  /** A post of a kept month is a post of a month of the document that passes the filters. */
  lemma KeptMonthInData(data: DataSet, year: string, selectedMonth: Option<string>, months: DataSet, v: Video, i: int)
    requires months == Filter(data, MonthTest(year, selectedMonth))
    requires 0 <= i < |months| && v in months[i].month.all_videos
    ensures exists j :: 0 <= j < |data| && MonthInTable(data[j].key, year, selectedMonth) && v in data[j].month.all_videos
  {
    assert months[i] in months;
    var j :| 0 <= j < |data| && data[j] == months[i];
    assert MonthTest(year, selectedMonth)(data[j]);
  }

  /** A post of a month of the document that passes the filters is a post of a kept month. */
  lemma DataMonthKept(data: DataSet, year: string, selectedMonth: Option<string>, months: DataSet, v: Video, i: int)
    requires months == Filter(data, MonthTest(year, selectedMonth))
    requires 0 <= i < |data| && MonthInTable(data[i].key, year, selectedMonth) && v in data[i].month.all_videos
    ensures exists j :: 0 <= j < |months| && v in months[j].month.all_videos
  {
    assert MonthTest(year, selectedMonth)(data[i]);
    assert data[i] in months;
    var j :| 0 <= j < |months| && months[j] == data[i];
    assert v in months[j].month.all_videos;
  }

  /** A post is in one of the kept months exactly when some month of the document passes the filters and holds it. */
  lemma KeptMonthsHold(data: DataSet, year: string, selectedMonth: Option<string>, months: DataSet, v: Video)
    requires months == Filter(data, MonthTest(year, selectedMonth))
    ensures (exists i :: 0 <= i < |months| && v in months[i].month.all_videos) <==>
      exists i :: 0 <= i < |data| && MonthInTable(data[i].key, year, selectedMonth) && v in data[i].month.all_videos
  {
    if exists i :: 0 <= i < |months| && v in months[i].month.all_videos {
      var i :| 0 <= i < |months| && v in months[i].month.all_videos;
      KeptMonthInData(data, year, selectedMonth, months, v, i);
    }
    if exists i :: 0 <= i < |data| && MonthInTable(data[i].key, year, selectedMonth) && v in data[i].month.all_videos {
      var i :| 0 <= i < |data| && MonthInTable(data[i].key, year, selectedMonth) && v in data[i].month.all_videos;
      DataMonthKept(data, year, selectedMonth, months, v, i);
    }
  }

  /**
   * A post is in the full table exactly when its month passes the year and
   * month filters and its category passes the impact filter.
   */
  lemma TableSelectionMembers(data: DataSet, year: string, selectedMonth: Option<string>, filter: string,
                              metric: Metric, v: Video)
    ensures v in TableSelection(data, year, selectedMonth, filter, metric) <==>
      (filter == "all" || Name(CategoryOf(v, metric)) == filter)
      && exists i :: 0 <= i < |data| && MonthInTable(data[i].key, year, selectedMonth) && v in data[i].month.all_videos
  {
    var months := Filter(data, MonthTest(year, selectedMonth));
    FlattenMembers(months, v);
    KeptMonthsHold(data, year, selectedMonth, months, v);
  }

  /** `monthVideos`: empty unless a month is clicked and the document has it. */
  method MonthVideos(data: DataSet, selectedMonth: Option<string>, filter: string, metric: Metric,
                     col: SortColumn, dir: SortDirection) returns (r: seq<Video>)
    ensures !Picked(selectedMonth) || Lookup(data, selectedMonth.value).None? ==> r == []
    ensures Picked(selectedMonth) && Lookup(data, selectedMonth.value).Some? ==>
      multiset(r) == multiset(Filter(Lookup(data, selectedMonth.value).value.all_videos, ImpactTest(filter, metric)))
    ensures SortedBy(r, VideoOrder(col, dir))
  {
    if !Picked(selectedMonth) {
      return [];
    }
    var found := Lookup(data, selectedMonth.value);
    if found.None? {
      return [];
    }
    var videos := found.value.all_videos;
    if filter != "all" {
      videos := Filter(videos, ImpactTest(filter, metric));
    } else {
      FilterKeepsAll(videos, ImpactTest(filter, metric));
    }
    r := SortVideos(videos, col, dir);
  }

  /** Appends the posts of one month that belong to the artist, post after post. */
  method AppendArtistPosts(videos: seq<Video>, month: seq<Video>, name: string) returns (r: seq<Video>)
    ensures r == videos + Filter(month, ArtistTest(name))
  {
    r := videos;
    assert month[..0] == [];
    var j := 0;
    while j < |month|
      invariant 0 <= j <= |month|
      invariant FilteredInto(r, videos, month, j, ArtistTest(name))
    {
      FilteredIntoStep(r, videos, month, j, ArtistTest(name));
      if month[j].artist == name {
        r := r + [month[j]];
      }
      j := j + 1;
    }
    FilteredIntoDone(r, videos, month, ArtistTest(name));
  }

  /** The posts of one artist, month after month. */
  method CollectArtist(data: DataSet, name: string) returns (videos: seq<Video>)
    ensures videos == Filter(Flatten(data), ArtistTest(name))
  {
    videos := [];
    var i := 0;
    while i < |data|
      invariant 0 <= i <= |data|
      invariant videos == Filter(Flatten(data[..i]), ArtistTest(name))
    {
      videos := AppendArtistPosts(videos, data[i].month.all_videos, name);
      assert data[..i + 1][..i] == data[..i];
      FilterAppend(Flatten(data[..i]), data[i].month.all_videos, ArtistTest(name));
      i := i + 1;
    }
    assert data[..i] == data;
  }

  /** `artistVideos`: every post of the clicked artist, empty when none is clicked. */
  method ArtistVideos(data: DataSet, selectedArtist: Option<string>, col: SortColumn, dir: SortDirection)
    returns (r: seq<Video>)
    ensures !Picked(selectedArtist) ==> r == []
    ensures Picked(selectedArtist) ==> multiset(r) == multiset(Filter(Flatten(data), ArtistTest(selectedArtist.value)))
    ensures SortedBy(r, VideoOrder(col, dir))
  {
    if !Picked(selectedArtist) {
      return [];
    }
    var videos := CollectArtist(data, selectedArtist.value);
    r := SortVideos(videos, col, dir);
  }
}
