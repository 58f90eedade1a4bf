/**
 * The second preprocessing script, after its sheets are read: every row is
 * labelled with the artist its `@username` mentions stand for, the labels
 * are normalised through the manual mapping, the interaction rate is
 * computed, the rows are grouped into month buckets, and a per-artist,
 * per-platform statistics table is built.
 *
 * The sheets are already parsed: dates are `YYYY-MM-DD` and the counters are
 * whole numbers. A missing description is `None` (pandas NaN).
 */
module ProcessingV2 {
  import opened Text
  import opened Records
  import opened Stats
  import opened Lists
  import opened ArtistNames
  import opened ArtistMatcher
  import opened MonthGrouping

  /**
   * A row of a post sheet with the columns the processing reads. TikTok
   * calls them `date`, `description`, `plays`, `likes`, `comments`,
   * `shares`, `collects`, `video_id`; Instagram `date`, `Descripción`,
   * `Visualizaciones`, `Me gusta`, `Comentarios`, `Veces que se compartió`,
   * `Veces que se guardó`, `Enlace permanente`. `artist` is the column the
   * classification writes.
   */
  datatype SheetRow = SheetRow(
    date: string,
    description: Option<string>,
    views: int,
    likes: int,
    comments: int,
    shares: int,
    collects: int,
    link: string,
    artist: string)

  // -----------------------------------------------------------------------
  // Classification and normalisation of the artist column
  // -----------------------------------------------------------------------

  /** The label the classification writes: the matched artist, or `'Sin artista'` without one. */
  function ArtistLabel(description: Option<string>, artists: seq<string>, ratio: (string, string) -> real): string
  {
    LabelOfMentions(ExtractUsernames(description), artists, ratio)
  }

  /** The label of a row whose description mentions `us`. */
  function LabelOfMentions(us: seq<string>, artists: seq<string>, ratio: (string, string) -> real): (name: string)
    ensures name == NoArtist || IsMappedName(name) || name in artists
    ensures us == [] ==> name == NoArtist
  {
    var m := BestArtistMatch(us, artists, ratio, DefaultThreshold);
    if m.artist.Some? && m.artist.value != "" then m.artist.value else NoArtist
  }

  /** The rows with the artist column rewritten by `relabel`, everything else unchanged. */
  function Relabelled(rows: seq<SheetRow>, relabel: SheetRow -> string): (r: seq<SheetRow>)
    ensures |r| == |rows|
    ensures forall i :: 0 <= i < |rows| ==> r[i] == rows[i].(artist := relabel(rows[i]))
  {
    seq(|rows|, i requires 0 <= i < |rows| => rows[i].(artist := relabel(rows[i])))
  }

  /** Writes the new artist label of every row in place, row after row. */
  method RelabelColumn(rows: array<SheetRow>, relabel: SheetRow -> string)
    modifies rows
    ensures rows[..] == Relabelled(old(rows[..]), relabel)
  {
    var i := 0;
    while i < rows.Length
      invariant 0 <= i <= rows.Length
      invariant forall j :: 0 <= j < i ==> rows[j] == old(rows[j]).(artist := relabel(old(rows[j])))
      invariant forall j :: i <= j < rows.Length ==> rows[j] == old(rows[j])
    {
      rows[i] := rows[i].(artist := relabel(rows[i]));
      i := i + 1;
    }
  }

  function ClassifiedArtist(artists: seq<string>, ratio: (string, string) -> real): SheetRow -> string
  {
    (r: SheetRow) => ArtistLabel(r.description, artists, ratio)
  }

  /** The classification loop: writes the label of every row in place and changes nothing else. */
  method ClassifyRows(rows: array<SheetRow>, artists: seq<string>, ratio: (string, string) -> real)
    modifies rows
    ensures rows[..] == Relabelled(old(rows[..]), ClassifiedArtist(artists, ratio))
  {
    RelabelColumn(rows, ClassifiedArtist(artists, ratio));
  }

  function NormalizedArtist(): SheetRow -> string
  {
    (r: SheetRow) => NormalizeArtistName(r.artist)
  }

  function NormalizedRows(rows: seq<SheetRow>): seq<SheetRow>
  {
    Relabelled(rows, NormalizedArtist())
  }

  /** `df['artist'] = df['artist'].apply(normalize_artist_name)`. */
  method NormalizeColumn(rows: array<SheetRow>)
    modifies rows
    ensures rows[..] == NormalizedRows(old(rows[..]))
  {
    RelabelColumn(rows, NormalizedArtist());
  }

  /** The column is normalised once before the month buckets and once more before the statistics; the second pass changes nothing. */
  lemma NormalizedRowsStable(rows: seq<SheetRow>)
    ensures NormalizedRows(NormalizedRows(rows)) == NormalizedRows(rows)
  {
    forall i | 0 <= i < |rows| {
      NormalizeIdempotent(rows[i].artist);
    }
  }

  // -----------------------------------------------------------------------
  // Interaction rate and posts
  // -----------------------------------------------------------------------

  /**
   * `(likes + comments) / views * 100`, with the `NaN` of `0 / 0` filled
   * with 0; a non-zero count over no views is infinite, which the post
   * record replaces with 0 as well.
   */
  function IrV2(views: int, likes: int, comments: int): (ir: real)
    ensures views == 0 ==> ir == 0.0
    ensures views != 0 ==> ir * (views as real) == ((likes + comments) as real) * 100.0
    ensures views > 0 && likes >= 0 && comments >= 0 ==> ir >= 0.0
  {
    if views == 0 then 0.0 else ((likes + comments) as real) / (views as real) * 100.0
  }

  /** The rate of the row is infinite in the sheet. */
  predicate InfiniteIr(v: Video)
  {
    v.views == 0 && v.likes + v.comments != 0
  }

  /** `str(description)`: the text, or `"nan"` when it is missing. */
  function DescriptionText(d: Option<string>): string
  {
    match d
    case None => "nan"
    case Some(t) => t
  }

  /** The post record of a row. */
  function VideoOfRow(r: SheetRow): (v: Video)
    ensures v.date == r.date && v.artist == r.artist && v.views == r.views && v.likes == r.likes
    ensures v.shares == r.shares && v.comments == r.comments && v.collects == r.collects
    ensures |v.description| <= 200
    ensures v.ir == IrV2(r.views, r.likes, r.comments)
  {
    Video(r.date, Prefix(DescriptionText(r.description), 200), r.artist, r.link,
          r.views, r.likes, r.shares, r.comments, r.collects, IrV2(r.views, r.likes, r.comments))
  }

  function VideosOfRows(rows: seq<SheetRow>): (vs: seq<Video>)
    ensures |vs| == |rows| && forall i :: 0 <= i < |rows| ==> vs[i] == VideoOfRow(rows[i])
  {
    seq(|rows|, i requires 0 <= i < |rows| => VideoOfRow(rows[i]))
  }

  /** The post records of a group, row after row. */
  method BuildVideos(group: seq<SheetRow>) returns (videos: seq<Video>)
    ensures videos == VideosOfRows(group)
  {
    videos := [];
    var i := 0;
    while i < |group|
      invariant 0 <= i <= |group|
      invariant videos == VideosOfRows(group[..i])
    {
      videos := videos + [VideoOfRow(group[i])];
      i := i + 1;
    }
  }

  /**
   * The mean rate of a group as the sheet column gives it: one infinite
   * rate makes the mean infinite (or undefined), which is replaced with 0.
   */
  function AvgIrOf(vs: seq<Video>): real
  {
    if exists i :: 0 <= i < |vs| && InfiniteIr(vs[i]) then 0.0 else Mean(IrsOf(vs))
  }

  /** A group with viewed posts only and non-negative counters has a non-negative mean rate. */
  lemma AvgIrNonNegative(vs: seq<Video>)
    requires forall v :: v in vs ==> v.views > 0 && v.likes >= 0 && v.comments >= 0 && v.ir == IrV2(v.views, v.likes, v.comments)
    ensures AvgIrOf(vs) >= 0.0
  {
    if |vs| > 0 && !exists i :: 0 <= i < |vs| && InfiniteIr(vs[i]) {
      forall i | 0 <= i < |vs| ensures 0.0 <= IrsOf(vs)[i] {
        assert vs[i] in vs;
      }
      MeanNonNegative(IrsOf(vs));
    }
  }

  // -----------------------------------------------------------------------
  // Month buckets
  // -----------------------------------------------------------------------

  function RowMonth(): SheetRow -> string
  {
    (r: SheetRow) => MonthOfDate(r.date)
  }

  /**
   * The bucket of one month's rows. The median is the upper-middle element
   * of the sorted views; `year_month` is not written by this script and is
   * left empty here.
   */
  function BucketV2(group: seq<SheetRow>): (m: MonthData)
    ensures m.total_posts == |group| == |m.all_videos|
    ensures m.all_videos == VideosOfRows(group)
  {
    var vs := VideosOfRows(group);
    MonthData("", UpperMedian(ViewsOf(vs)), Mean(ViewsOf(vs)), Mean(LikesOf(vs)),
              SumInt(SharesOf(vs)), SumInt(CommentsOf(vs)), SumInt(CollectsOf(vs)), AvgIrOf(vs), |group|, vs)
  }

  /** The bucket of every group. */
  function BucketsOf(groups: map<string, seq<SheetRow>>): (m: map<string, MonthData>)
    ensures m.Keys == groups.Keys
    ensures forall k :: k in m ==> m[k] == BucketV2(groups[k])
  {
    map k | k in groups :: BucketV2(groups[k])
  }

  /** The month document of a sheet. */
  function MonthsV2(rows: seq<SheetRow>): map<string, MonthData>
  {
    BucketsOf(Grouped(rows, RowMonth()))
  }

  /** The post records and aggregates of one month's rows. */
  method BuildBucket(group: seq<SheetRow>) returns (m: MonthData)
    ensures m == BucketV2(group)
  {
    var videos := BuildVideos(group);
    var views := ViewsOf(videos);
    var median := if |views| > 0 then UpperMedian(views) else 0.0;
    m := MonthData("", median, Mean(views), Mean(LikesOf(videos)),
                   SumInt(SharesOf(videos)), SumInt(CommentsOf(videos)),
                   SumInt(CollectsOf(videos)), AvgIrOf(videos), |group|, videos);
  }

  function BucketAt(k: string, group: seq<SheetRow>): MonthData
  {
    BucketV2(group)
  }

  lemma BucketsBuiltDone(groups: map<string, seq<SheetRow>>, monthly: map<string, MonthData>)
    requires BuiltOutside(groups, monthly, {}, BucketAt)
    ensures monthly == BucketsOf(groups)
  {
  }

  /** The bucket loop: one bucket per group, whatever the order of the months. */
  method BuildBuckets(groups: map<string, seq<SheetRow>>) returns (monthly: map<string, MonthData>)
    ensures monthly == BucketsOf(groups)
  {
    monthly := map[];
    var keys := groups.Keys;
    while keys != {}
      invariant BuiltOutside(groups, monthly, keys, BucketAt)
      decreases keys
    {
      var k :| k in keys;
      var bucket := BuildBucket(groups[k]);
      BuiltOutsideStep(groups, monthly, keys, BucketAt, k, bucket);
      monthly := monthly[k := bucket];
      keys := keys - {k};
    }
    BucketsBuiltDone(groups, monthly);
  }

  /** The month document of a sheet: its rows grouped by month, then one bucket per month. */
  method BuildMonthsV2(rows: seq<SheetRow>) returns (monthly: map<string, MonthData>)
    ensures monthly == MonthsV2(rows)
  {
    var groups := GroupBy(rows, RowMonth());
    monthly := BuildBuckets(groups);
  }

  lemma MonthsV2Keys(rows: seq<SheetRow>)
    ensures forall k :: k in MonthsV2(rows) <==> exists i :: 0 <= i < |rows| && MonthOfDate(rows[i].date) == k
  {
  }

  lemma MonthsV2Dated(rows: seq<SheetRow>)
    ensures forall k, v :: k in MonthsV2(rows) && v in MonthsV2(rows)[k].all_videos ==> MonthOfDate(v.date) == k
  {
    var g := Grouped(rows, RowMonth());
    var months := MonthsV2(rows);
    GroupsPartition(rows, RowMonth());
    forall k, v | k in months && v in months[k].all_videos ensures MonthOfDate(v.date) == k {
      assert months[k].all_videos == VideosOfRows(g[k]);
      var i :| 0 <= i < |g[k]| && VideosOfRows(g[k])[i] == v;
      assert g[k][i] in g[k];
    }
  }

  lemma MonthsV2Complete(rows: seq<SheetRow>)
    ensures forall r :: r in rows ==> MonthOfDate(r.date) in MonthsV2(rows) && VideoOfRow(r) in MonthsV2(rows)[MonthOfDate(r.date)].all_videos
  {
    var g := Grouped(rows, RowMonth());
    var months := MonthsV2(rows);
    GroupsPartition(rows, RowMonth());
    forall r | r in rows ensures MonthOfDate(r.date) in months && VideoOfRow(r) in months[MonthOfDate(r.date)].all_videos {
      var k := MonthOfDate(r.date);
      assert months[k].all_videos == VideosOfRows(g[k]);
      var i :| 0 <= i < |g[k]| && g[k][i] == r;
      assert VideosOfRows(g[k])[i] == VideoOfRow(r);
    }
  }

  lemma MonthsV2Aggregates(rows: seq<SheetRow>)
    ensures forall k :: k in MonthsV2(rows) ==>
      var m := MonthsV2(rows)[k];
      m.total_posts == |m.all_videos| > 0
      && m.median_views in ViewsOf(m.all_videos)
      && m.median_views == UpperMedian(ViewsOf(m.all_videos))
      && m.avg_views == Mean(ViewsOf(m.all_videos))
      && m.avg_likes == Mean(LikesOf(m.all_videos))
      && m.avg_ir == AvgIrOf(m.all_videos)
      && m.total_shares == SumInt(SharesOf(m.all_videos))
      && m.total_comments == SumInt(CommentsOf(m.all_videos))
      && m.total_collects == SumInt(CollectsOf(m.all_videos))
  {
    GroupsPartition(rows, RowMonth());
  }

  /**
   * The month document partitions the sheet: there is a bucket for exactly
   * the months that occur, every post of a bucket is dated in its month,
   * every row's post is in the bucket of its month, and each bucket counts
   * its posts, takes the upper median and the means of its posts' views,
   * likes and rates, and sums their counters.
   */
  lemma MonthsV2Partition(rows: seq<SheetRow>)
    ensures forall k :: k in MonthsV2(rows) <==> exists i :: 0 <= i < |rows| && MonthOfDate(rows[i].date) == k
    ensures forall k, v :: k in MonthsV2(rows) && v in MonthsV2(rows)[k].all_videos ==> MonthOfDate(v.date) == k
    ensures forall r :: r in rows ==> MonthOfDate(r.date) in MonthsV2(rows) && VideoOfRow(r) in MonthsV2(rows)[MonthOfDate(r.date)].all_videos
    ensures forall k :: k in MonthsV2(rows) ==>
      var m := MonthsV2(rows)[k];
      m.total_posts == |m.all_videos| > 0
      && m.median_views in ViewsOf(m.all_videos)
      && m.median_views == UpperMedian(ViewsOf(m.all_videos))
      && m.avg_views == Mean(ViewsOf(m.all_videos))
      && m.avg_likes == Mean(LikesOf(m.all_videos))
      && m.avg_ir == AvgIrOf(m.all_videos)
      && m.total_shares == SumInt(SharesOf(m.all_videos))
      && m.total_comments == SumInt(CommentsOf(m.all_videos))
      && m.total_collects == SumInt(CollectsOf(m.all_videos))
  {
    MonthsV2Keys(rows);
    MonthsV2Dated(rows);
    MonthsV2Complete(rows);
    MonthsV2Aggregates(rows);
  }

  // -----------------------------------------------------------------------
  // Artist statistics
  // -----------------------------------------------------------------------

  function ArtistOf(): SheetRow -> string
  {
    (r: SheetRow) => r.artist
  }

  function IsArtist(a: string): SheetRow -> bool
  {
    (r: SheetRow) => r.artist == a
  }

  function ViewCounts(vs: seq<Video>): (r: seq<int>)
    ensures |r| == |vs| && forall i :: 0 <= i < |vs| ==> r[i] == vs[i].views
  {
    seq(|vs|, i requires 0 <= i < |vs| => vs[i].views)
  }

  function LikeCounts(vs: seq<Video>): (r: seq<int>)
    ensures |r| == |vs| && forall i :: 0 <= i < |vs| ==> r[i] == vs[i].likes
  {
    seq(|vs|, i requires 0 <= i < |vs| => vs[i].likes)
  }

  /** The statistics of one artist's rows on one platform. */
  function PlatformStatsOf(rows: seq<SheetRow>): PlatformStats
  {
    var vs := VideosOfRows(rows);
    PlatformStats(|rows|, Mean(ViewsOf(vs)), Mean(LikesOf(vs)), AvgIrOf(vs), SumInt(ViewCounts(vs)), SumInt(LikeCounts(vs)))
  }

  function RowsOfArtist(rows: seq<SheetRow>, a: string): seq<SheetRow>
  {
    Filter(rows, IsArtist(a))
  }

  /** The statistics of every artist on one sheet. */
  function StatsOn(rows: seq<SheetRow>): string -> PlatformStats
  {
    (a: string) => PlatformStatsOf(RowsOfArtist(rows, a))
  }

  /**
   * A document with an entry for every label of `tl` or `il` except
   * `'Sin artista'`: TikTok statistics `tstats(a)` exactly when `a` is in `tl`,
   * Instagram statistics `istats(a)` exactly when `a` is in `il`.
   */
  function Merged(tl: set<string>, il: set<string>, tstats: string -> PlatformStats, istats: string -> PlatformStats): (m: map<string, ArtistStats>)
    ensures NoArtist !in m
    ensures forall a :: a in m <==> a != NoArtist && (a in tl || a in il)
    ensures forall a :: a in m ==> (m[a].tiktok.Some? <==> a in tl) && (m[a].instagram.Some? <==> a in il)
    ensures forall a :: a in m && a in tl ==> m[a].tiktok.value == tstats(a)
    ensures forall a :: a in m && a in il ==> m[a].instagram.value == istats(a)
  {
    map a | a in (tl + il) - {NoArtist} ::
      ArtistStats(if a in tl then Some(tstats(a)) else None, if a in il then Some(istats(a)) else None)
  }

  /** The artist document of the two sheets. */
  function ArtistTable(tiktok: seq<SheetRow>, instagram: seq<SheetRow>): map<string, ArtistStats>
  {
    Merged(KeysOf(tiktok, ArtistOf()), KeysOf(instagram, ArtistOf()), StatsOn(tiktok), StatsOn(instagram))
  }

  /**
   * The artist document has an entry for every label of either sheet except
   * `'Sin artista'`, with the statistics of the artist's rows on each
   * platform it has rows on, and nothing for a platform it has none on.
   */
  lemma ArtistTableEntries(tiktok: seq<SheetRow>, instagram: seq<SheetRow>)
    ensures var m := ArtistTable(tiktok, instagram);
      NoArtist !in m
      && (forall a :: a in m <==> a != NoArtist && (a in KeysOf(tiktok, ArtistOf()) || a in KeysOf(instagram, ArtistOf())))
      && (forall a :: a in m ==> (m[a].tiktok.Some? <==> a in KeysOf(tiktok, ArtistOf())))
      && (forall a :: a in m ==> (m[a].instagram.Some? <==> a in KeysOf(instagram, ArtistOf())))
      && (forall a :: a in m && m[a].tiktok.Some? ==> m[a].tiktok.value == PlatformStatsOf(RowsOfArtist(tiktok, a)))
      && (forall a :: a in m && m[a].instagram.Some? ==> m[a].instagram.value == PlatformStatsOf(RowsOfArtist(instagram, a)))
  {
  }

  /** A label of a sheet has at least one row, and its statistics count them. */
  lemma LabelRowsCounted(rows: seq<SheetRow>, a: string)
    requires a in KeysOf(rows, ArtistOf())
    ensures |RowsOfArtist(rows, a)| > 0
    ensures PlatformStatsOf(RowsOfArtist(rows, a)).total_videos == |RowsOfArtist(rows, a)|
  {
    var i :| 0 <= i < |rows| && rows[i].artist == a;
    assert rows[i] in RowsOfArtist(rows, a);
  }

  /** Every platform entry counts the artist's rows on that platform, and there is at least one. */
  lemma TotalVideosCountsRows(tiktok: seq<SheetRow>, instagram: seq<SheetRow>, a: string)
    requires a in ArtistTable(tiktok, instagram)
    ensures var e := ArtistTable(tiktok, instagram)[a];
      (e.tiktok.Some? ==> e.tiktok.value.total_videos == |RowsOfArtist(tiktok, a)| > 0)
      && (e.instagram.Some? ==> e.instagram.value.total_videos == |RowsOfArtist(instagram, a)| > 0)
  {
    ArtistTableEntries(tiktok, instagram);
    var e := ArtistTable(tiktok, instagram)[a];
    if e.tiktok.Some? {
      LabelRowsCounted(tiktok, a);
    }
    if e.instagram.Some? {
      LabelRowsCounted(instagram, a);
    }
  }

  /** The Instagram pass adds entries and Instagram statistics but keeps every TikTok entry as it was. */
  lemma InstagramKeepsTikTok(tiktok: seq<SheetRow>, instagram: seq<SheetRow>, a: string)
    requires a in ArtistTable(tiktok, [])
    ensures a in ArtistTable(tiktok, instagram)
    ensures ArtistTable(tiktok, instagram)[a].tiktok == ArtistTable(tiktok, [])[a].tiktok
  {
  }

  /** `df['artist'].unique()`: every label once. */
  method UniqueLabels(rows: seq<SheetRow>) returns (labels: seq<string>)
    ensures forall i, j :: 0 <= i < j < |labels| ==> labels[i] != labels[j]
    ensures forall a :: a in labels <==> a in KeysOf(rows, ArtistOf())
  {
    labels := [];
    var i := 0;
    while i < |rows|
      invariant 0 <= i <= |rows|
      invariant forall p, q :: 0 <= p < q < |labels| ==> labels[p] != labels[q]
      invariant forall a :: a in labels <==> exists j :: 0 <= j < i && rows[j].artist == a
    {
      if rows[i].artist !in labels {
        labels := labels + [rows[i].artist];
      }
      i := i + 1;
    }
  }

  /** One label of the TikTok pass: `'Sin artista'` is skipped, any other gets an entry with its TikTok statistics. */
  lemma TikTokStep(seen: set<string>, tstats: string -> PlatformStats, istats: string -> PlatformStats, a: string)
    ensures a == NoArtist ==> Merged(seen + {a}, {}, tstats, istats) == Merged(seen, {}, tstats, istats)
    ensures a != NoArtist ==>
              Merged(seen + {a}, {}, tstats, istats) == Merged(seen, {}, tstats, istats)[a := ArtistStats(Some(tstats(a)), None)]
  {
    var m, m' := Merged(seen, {}, tstats, istats), Merged(seen + {a}, {}, tstats, istats);
    if a == NoArtist {
      assert m'.Keys == m.Keys;
    } else {
      assert m'.Keys == m[a := ArtistStats(Some(tstats(a)), None)].Keys;
    }
  }

  /** One label of the Instagram pass: `'Sin artista'` is skipped, any other gets an entry and its Instagram statistics. */
  lemma InstagramStep(tl: set<string>, seen: set<string>, tstats: string -> PlatformStats, istats: string -> PlatformStats, a: string)
    ensures a == NoArtist ==> Merged(tl, seen + {a}, tstats, istats) == Merged(tl, seen, tstats, istats)
    ensures a != NoArtist ==>
              var m := Merged(tl, seen, tstats, istats);
              var e := if a in m then m[a] else ArtistStats(None, None);
              Merged(tl, seen + {a}, tstats, istats) == m[a := e.(instagram := Some(istats(a)))]
  {
    var m, m' := Merged(tl, seen, tstats, istats), Merged(tl, seen + {a}, tstats, istats);
    if a == NoArtist {
      assert m'.Keys == m.Keys;
    } else {
      var e := if a in m then m[a] else ArtistStats(None, None);
      assert m'.Keys == m[a := e.(instagram := Some(istats(a)))].Keys;
    }
  }

  /** Without Instagram labels the Instagram statistics play no part. */
  lemma NoInstagramLabels(tl: set<string>, tstats: string -> PlatformStats, istats: string -> PlatformStats, istats': string -> PlatformStats)
    ensures Merged(tl, {}, tstats, istats) == Merged(tl, {}, tstats, istats')
  {
    var m, m' := Merged(tl, {}, tstats, istats), Merged(tl, {}, tstats, istats');
    assert m.Keys == m'.Keys;
  }

  /** The TikTok pass: an entry with TikTok statistics for every label but `'Sin artista'`. */
  method TikTokPass(tiktok: seq<SheetRow>) returns (stats: map<string, ArtistStats>)
    ensures stats == ArtistTable(tiktok, [])
  {
    var labels := UniqueLabels(tiktok);
    ghost var tstats, istats := StatsOn(tiktok), StatsOn([]);
    ghost var seen: set<string> := {};
    stats := map[];
    assert stats == Merged(seen, {}, tstats, istats);
    var i := 0;
    while i < |labels|
      invariant 0 <= i <= |labels|
      invariant forall a :: a in seen <==> a in labels[..i]
      invariant stats == Merged(seen, {}, tstats, istats)
    {
      var a := labels[i];
      TikTokStep(seen, tstats, istats, a);
      if a != NoArtist {
        var artistData := RowsOfArtist(tiktok, a);
        assert PlatformStatsOf(artistData) == tstats(a);
        stats := stats[a := ArtistStats(Some(PlatformStatsOf(artistData)), None)];
      }
      seen := seen + {a};
      assert labels[..i + 1] == labels[..i] + [a];
      i := i + 1;
    }
    assert labels[..i] == labels;
    assert seen == KeysOf(tiktok, ArtistOf());
    assert KeysOf([], ArtistOf()) == {};
  }

  /**
   * The loop of the Instagram pass over the distinct Instagram labels, with
   * `istats` the statistics of an artist's Instagram rows: adds an empty
   * entry for a new artist, then sets its Instagram statistics.
   */
  method MergeInstagram(labels: seq<string>, ghost tl: set<string>, ghost tstats: string -> PlatformStats,
                        istats: string -> PlatformStats, stats0: map<string, ArtistStats>)
    returns (stats: map<string, ArtistStats>)
    requires stats0 == Merged(tl, {}, tstats, istats)
    ensures stats == Merged(tl, (set a | a in labels), tstats, istats)
  {
    ghost var seen: set<string> := {};
    stats := stats0;
    var i := 0;
    while i < |labels|
      invariant 0 <= i <= |labels|
      invariant seen == set a | a in labels[..i]
      invariant stats == Merged(tl, seen, tstats, istats)
    {
      var a := labels[i];
      InstagramStep(tl, seen, tstats, istats, a);
      if a != NoArtist {
        if a !in stats {
          stats := stats[a := ArtistStats(None, None)];
        }
        stats := stats[a := stats[a].(instagram := Some(istats(a)))];
      }
      seen := seen + {a};
      assert labels[..i + 1] == labels[..i] + [a];
      i := i + 1;
    }
    assert labels[..i] == labels;
  }

  /** The Instagram pass: merges the statistics of every Instagram label into the TikTok document. */
  method InstagramPass(tiktok: seq<SheetRow>, instagram: seq<SheetRow>, stats0: map<string, ArtistStats>)
    returns (stats: map<string, ArtistStats>)
    requires stats0 == ArtistTable(tiktok, [])
    ensures stats == ArtistTable(tiktok, instagram)
  {
    var labels := UniqueLabels(instagram);
    ghost var tl, tstats := KeysOf(tiktok, ArtistOf()), StatsOn(tiktok);
    assert stats0 == Merged(tl, {}, tstats, StatsOn(instagram)) by {
      assert KeysOf([], ArtistOf()) == {};
      NoInstagramLabels(tl, tstats, StatsOn([]), StatsOn(instagram));
    }
    stats := MergeInstagram(labels, tl, tstats, StatsOn(instagram), stats0);
    assert (set a | a in labels) == KeysOf(instagram, ArtistOf());
  }

  /**
   * `generate_artist_stats`: normalises the artist column of both sheets in
   * place, then builds the artist document from the TikTok rows and merges
   * the Instagram rows into it.
   */
  method GenerateArtistStats(tiktok: array<SheetRow>, instagram: array<SheetRow>) returns (stats: map<string, ArtistStats>)
    requires tiktok != instagram
    modifies tiktok, instagram
    ensures tiktok[..] == NormalizedRows(old(tiktok[..])) && instagram[..] == NormalizedRows(old(instagram[..]))
    ensures stats == ArtistTable(tiktok[..], instagram[..])
  {
    NormalizeColumn(tiktok);
    NormalizeColumn(instagram);
    stats := TikTokPass(tiktok[..]);
    stats := InstagramPass(tiktok[..], instagram[..], stats);
  }
}
