/**
 * The artist ranking of the dashboard (`artistData`): artists with stats for
 * the platform pass a name-exclusion filter and two minimum-post filters,
 * get a ranking metric, and the 30 with the largest metric are listed,
 * largest first.
 */
module ArtistRanking {
  import opened Text
  import opened Records
  import opened Sorting
  import opened Stats
  import opened Lists
  import opened Impact

  /** The number of rows the ranking shows. */
  const TopN: nat := 30

  datatype ArtistRow = ArtistRow(artist: string, videos: int, avg_views: real, avg_likes: real, avg_ir: real, metric: real)

  function PlatformOf(s: ArtistStats, p: Platform): Option<PlatformStats>
  {
    match p
    case TikTok => s.tiktok
    case Instagram => s.instagram
  }

  /** The name contains the filter word, ignoring case; an empty word excludes nobody. */
  predicate Excluded(name: string, filterWord: string)
  {
    filterWord != "" && Contains(ToLower(name), ToLower(filterWord))
  }

  /** A post of the artist dated in the year, or any post of the artist for `'all'`. */
  function InArtistYear(name: string, year: string): Video -> bool
  {
    (v: Video) => v.artist == name && (year == "all" || StartsWith(v.date, year))
  }

  /** The artist's posts the year filter counts and the medians read. */
  function ArtistPosts(data: DataSet, name: string, year: string): seq<Video>
  {
    Filter(Flatten(data), InArtistYear(name, year))
  }

  /**
   * The ranking value: the platform averages, except that the two medians are
   * recomputed by the average-of-middles rule over the artist's posts of the
   * year; with no such posts both medians fall back to the average views.
   */
  function RankMetric(ps: PlatformStats, data: DataSet, name: string, year: string, metric: Metric): real
  {
    var posts := ArtistPosts(data, name, year);
    match metric
    case MedianViews => if |posts| > 0 then TrueMedian(ViewsOf(posts)) else ps.avg_views
    case AvgViews => ps.avg_views
    case AvgLikes => ps.avg_likes
    case MedianIr => if |posts| > 0 then TrueMedian(IrsOf(posts)) else ps.avg_views
    case AvgIr => ps.avg_ir
  }

  /** The artist passes every filter of the ranking. */
  predicate Qualifies(e: ArtistEntry, platform: Platform, data: DataSet, year: string, minVideos: int, filterWord: string)
  {
    PlatformOf(e.stats, platform).Some?
    && !Excluded(e.name, filterWord)
    && PlatformOf(e.stats, platform).value.total_videos >= minVideos
    && (year != "all" ==> |ArtistPosts(data, e.name, year)| >= minVideos)
  }

  function RowOf(e: ArtistEntry, platform: Platform, data: DataSet, year: string, metric: Metric): ArtistRow
    requires PlatformOf(e.stats, platform).Some?
  {
    var ps := PlatformOf(e.stats, platform).value;
    ArtistRow(e.name, ps.total_videos, ps.avg_views, ps.avg_likes, ps.avg_ir, RankMetric(ps, data, e.name, year, metric))
  }

  /** The rows of every qualifying artist, in the order of the artist document. */
  function Candidates(artists: seq<ArtistEntry>, platform: Platform, data: DataSet, year: string, metric: Metric,
                      minVideos: int, filterWord: string): (c: seq<ArtistRow>)
    ensures forall r :: r in c ==> r.videos >= minVideos && !Excluded(r.artist, filterWord)
    ensures forall r :: r in c ==> exists e :: e in artists && e.name == r.artist && Qualifies(e, platform, data, year, minVideos, filterWord)
    ensures forall e :: e in artists && Qualifies(e, platform, data, year, minVideos, filterWord) ==>
      RowOf(e, platform, data, year, metric) in c
    decreases |artists|
  {
    if artists == [] then []
    else
      var init, e := artists[..|artists| - 1], artists[|artists| - 1];
      assert forall x :: x in artists <==> x in init || x == e;
      Candidates(init, platform, data, year, metric, minVideos, filterWord)
        + (if Qualifies(e, platform, data, year, minVideos, filterWord) then [RowOf(e, platform, data, year, metric)] else [])
  }

  /** The average-of-middles median of a non-empty series, computed on a sorted copy. */
  method MiddleMedian(values: seq<real>) returns (m: real)
    requires |values| > 0
    ensures m == TrueMedian(values)
  {
    var sorted := SortNumbers(values);
    var mid := |sorted| / 2;
    m := if |sorted| % 2 == 0 then (sorted[mid - 1] + sorted[mid]) / 2.0 else sorted[mid];
  }

  /** The ranking value of one artist, as the loop over the artist document computes it. */
  method ComputeMetric(ps: PlatformStats, data: DataSet, name: string, year: string, metric: Metric) returns (value: real)
    ensures value == RankMetric(ps, data, name, year, metric)
  {
    var posts := ArtistPosts(data, name, year);
    value := ps.avg_views;
    if metric == MedianViews && |posts| > 0 {
      value := MiddleMedian(ViewsOf(posts));
    } else if metric == AvgLikes {
      value := ps.avg_likes;
    } else if metric == MedianIr && |posts| > 0 {
      value := MiddleMedian(IrsOf(posts));
    } else if metric == AvgIr {
      value := ps.avg_ir;
    }
  }

  /** One more artist adds its row exactly when it qualifies. */
  lemma CandidatesSnoc(artists: seq<ArtistEntry>, i: nat, platform: Platform, data: DataSet, year: string, metric: Metric,
                       minVideos: int, filterWord: string)
    requires i < |artists|
    ensures var e := artists[i];
      Candidates(artists[..i + 1], platform, data, year, metric, minVideos, filterWord)
        == Candidates(artists[..i], platform, data, year, metric, minVideos, filterWord)
          + (if Qualifies(e, platform, data, year, minVideos, filterWord) then [RowOf(e, platform, data, year, metric)] else [])
  {
    assert artists[..i + 1][..i] == artists[..i];
  }

  /** The row of one artist when it passes the filters, as the body of the loop over the artist document decides. */
  method CandidateRow(e: ArtistEntry, platform: Platform, data: DataSet, year: string, metric: Metric,
                      minVideos: int, filterWord: string) returns (row: Option<ArtistRow>)
    ensures Qualifies(e, platform, data, year, minVideos, filterWord) <==> row.Some?
    ensures row.Some? ==> PlatformOf(e.stats, platform).Some? && row.value == RowOf(e, platform, data, year, metric)
  {
    var ps := PlatformOf(e.stats, platform);
    if ps.Some? && !Excluded(e.name, filterWord) && ps.value.total_videos >= minVideos
       && (year != "all" ==> |ArtistPosts(data, e.name, year)| >= minVideos)
    {
      var value := ComputeMetric(ps.value, data, e.name, year, metric);
      row := Some(ArtistRow(e.name, ps.value.total_videos, ps.value.avg_views, ps.value.avg_likes, ps.value.avg_ir, value));
    } else {
      row := None;
    }
  }

  /** Builds the candidate rows, one artist at a time. */
  method CollectCandidates(artists: seq<ArtistEntry>, platform: Platform, data: DataSet, year: string, metric: Metric,
                           minVideos: int, filterWord: string) returns (rows: seq<ArtistRow>)
    ensures rows == Candidates(artists, platform, data, year, metric, minVideos, filterWord)
  {
    rows := [];
    var i := 0;
    while i < |artists|
      invariant 0 <= i <= |artists|
      invariant rows == Candidates(artists[..i], platform, data, year, metric, minVideos, filterWord)
    {
      CandidatesSnoc(artists, i, platform, data, year, metric, minVideos, filterWord);
      var row := CandidateRow(artists[i], platform, data, year, metric, minVideos, filterWord);
      if row.Some? {
        rows := rows + [row.value];
      }
      i := i + 1;
    }
    assert artists[..i] == artists;
  }

  function ByMetricDescending(): (ArtistRow, ArtistRow) -> bool
  {
    (a: ArtistRow, b: ArtistRow) => a.metric >= b.metric
  }

  /** The first `k` elements of a sequence sorted largest first are each at least every later element. */
  lemma {:induction false} PrefixDominates(t: seq<ArtistRow>, k: nat, x: ArtistRow, r: ArtistRow)
    requires SortedBy(t, ByMetricDescending()) && k <= |t|
    requires x in multiset(t[k..]) && r in t[..k]
    ensures x.metric <= r.metric
  {
    var j :| 0 <= j < |t[k..]| && t[k..][j] == x;
    var i :| 0 <= i < k && t[..k][i] == r;
    assert t[i] == r && t[k + j] == x;
    assert ByMetricDescending()(t[i], t[k + j]);
  }

  /** Sorts the rows largest metric first and keeps the first 30. */
  method TakeTop(c: seq<ArtistRow>) returns (rows: seq<ArtistRow>)
    ensures |rows| == if |c| < TopN then |c| else TopN
    ensures forall i, j :: 0 <= i < j < |rows| ==> rows[i].metric >= rows[j].metric
    ensures multiset(rows) <= multiset(c)
    ensures |c| <= TopN ==> multiset(rows) == multiset(c)
    ensures forall x, r :: x in multiset(c) - multiset(rows) && r in rows ==> x.metric <= r.metric
  {
    assert TotalPreorder(ByMetricDescending());
    var sorted := SortedCopyOf(c, ByMetricDescending());
    var k := if |sorted| < TopN then |sorted| else TopN;
    rows := sorted[..k];
    assert sorted == rows + sorted[k..];
    assert multiset(sorted) == multiset(rows) + multiset(sorted[k..]);
    assert multiset(c) - multiset(rows) == multiset(sorted[k..]);
    forall x, r | x in multiset(c) - multiset(rows) && r in rows ensures x.metric <= r.metric {
      PrefixDominates(sorted, k, x, r);
    }
    forall i, j | 0 <= i < j < |rows| ensures rows[i].metric >= rows[j].metric {
      assert ByMetricDescending()(sorted[i], sorted[j]);
    }
  }

  /** `artistData`. */
  method ArtistData(artists: seq<ArtistEntry>, platform: Platform, data: DataSet, year: string, metric: Metric,
                    minVideos: int, filterWord: string) returns (rows: seq<ArtistRow>)
    ensures var c := Candidates(artists, platform, data, year, metric, minVideos, filterWord);
      |rows| == if |c| < TopN then |c| else TopN
    ensures forall i, j :: 0 <= i < j < |rows| ==> rows[i].metric >= rows[j].metric
    ensures forall r :: r in rows ==> r.videos >= minVideos && !Excluded(r.artist, filterWord)
    ensures var c := Candidates(artists, platform, data, year, metric, minVideos, filterWord);
      multiset(rows) <= multiset(c)
      && (|c| <= TopN ==> multiset(rows) == multiset(c))
      && forall x, r :: x in multiset(c) - multiset(rows) && r in rows ==> x.metric <= r.metric
  {
    var c := CollectCandidates(artists, platform, data, year, metric, minVideos, filterWord);
    rows := TakeTop(c);
    forall r | r in rows ensures r.videos >= minVideos && !Excluded(r.artist, filterWord) {
      assert r in multiset(rows);
      assert r in multiset(c);
    }
  }
}
