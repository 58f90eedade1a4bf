/**
 * The records exchanged between the preprocessing scripts and the dashboard:
 * a post (`Video`), a month bucket (`MonthData`), the month-keyed document
 * (`DataSet`), and the per-artist, per-platform aggregates.
 */
module Records {
  import opened Text

  datatype Option<T> = None | Some(value: T)

  /** One published post. `date` is `YYYY-MM-DD`; `ir` is the interaction rate in percent. */
  datatype Video = Video(
    date: string,
    description: string,
    artist: string,
    url: string,
    views: int,
    likes: int,
    shares: int,
    comments: int,
    collects: int,
    ir: real)

  /** The aggregate of one calendar month together with its posts. */
  datatype MonthData = MonthData(
    year_month: string,
    median_views: real,
    avg_views: real,
    avg_likes: real,
    total_shares: int,
    total_comments: int,
    total_collects: int,
    avg_ir: real,
    total_posts: int,
    all_videos: seq<Video>)

  /**
   * The month-keyed document as the dashboard reads it: the entries of the
   * JSON object in their order (the order `Object.entries` and
   * `Object.values` visit them).
   */
  datatype MonthEntry = MonthEntry(key: string, month: MonthData)
  type DataSet = seq<MonthEntry>

  datatype PlatformStats = PlatformStats(
    total_videos: int,
    avg_views: real,
    avg_likes: real,
    avg_ir: real,
    total_views: int,
    total_likes: int)

  /** The per-artist entry of the artist document; either platform may be absent. */
  datatype ArtistStats = ArtistStats(tiktok: Option<PlatformStats>, instagram: Option<PlatformStats>)
  datatype ArtistEntry = ArtistEntry(name: string, stats: ArtistStats)

  datatype Platform = TikTok | Instagram

  /** The artist label of posts that no artist was found for. */
  const NoArtist: string := "Sin artista"

  // -----------------------------------------------------------------------
  // Dates
  // -----------------------------------------------------------------------

  /** `YYYY-MM-DD`, as `strftime('%Y-%m-%d')` writes it. */
  predicate IsIsoDate(d: string)
  {
    |d| == 10 && d[4] == '-' && d[7] == '-'
    && forall i :: 0 <= i < 10 && i != 4 && i != 7 ==> IsDigit(d[i])
  }

  /** The `YYYY-MM` key of a date, as `strftime('%Y-%m')` writes it. */
  function MonthKey(d: string): (k: string)
    requires IsIsoDate(d)
    ensures |k| == 7 && StartsWith(d, k)
  {
    d[..7]
  }

  // -----------------------------------------------------------------------
  // Columns of a list of posts
  // -----------------------------------------------------------------------

  function ViewsOf(vs: seq<Video>): (r: seq<real>)
    ensures |r| == |vs| && forall i :: 0 <= i < |vs| ==> r[i] == vs[i].views as real
  {
    seq(|vs|, i requires 0 <= i < |vs| => vs[i].views as real)
  }

  function LikesOf(vs: seq<Video>): (r: seq<real>)
    ensures |r| == |vs| && forall i :: 0 <= i < |vs| ==> r[i] == vs[i].likes as real
  {
    seq(|vs|, i requires 0 <= i < |vs| => vs[i].likes as real)
  }

  function IrsOf(vs: seq<Video>): (r: seq<real>)
    ensures |r| == |vs| && forall i :: 0 <= i < |vs| ==> r[i] == vs[i].ir
  {
    seq(|vs|, i requires 0 <= i < |vs| => vs[i].ir)
  }

  function SharesOf(vs: seq<Video>): (r: seq<int>)
    ensures |r| == |vs| && forall i :: 0 <= i < |vs| ==> r[i] == vs[i].shares
  {
    seq(|vs|, i requires 0 <= i < |vs| => vs[i].shares)
  }

  function CommentsOf(vs: seq<Video>): (r: seq<int>)
    ensures |r| == |vs| && forall i :: 0 <= i < |vs| ==> r[i] == vs[i].comments
  {
    seq(|vs|, i requires 0 <= i < |vs| => vs[i].comments)
  }

  function CollectsOf(vs: seq<Video>): (r: seq<int>)
    ensures |r| == |vs| && forall i :: 0 <= i < |vs| ==> r[i] == vs[i].collects
  {
    seq(|vs|, i requires 0 <= i < |vs| => vs[i].collects)
  }

  // -----------------------------------------------------------------------
  // The document as a whole
  // -----------------------------------------------------------------------

  /** All posts of all months, month after month in document order. */
  function Flatten(data: DataSet): seq<Video>
    decreases |data|
  {
    if data == [] then [] else Flatten(data[..|data| - 1]) + data[|data| - 1].month.all_videos
  }

  lemma {:induction false} FlattenMembers(data: DataSet, v: Video)
    ensures v in Flatten(data) <==> exists i :: 0 <= i < |data| && v in data[i].month.all_videos
    decreases |data|
  {
    if data != [] {
      var init := data[..|data| - 1];
      FlattenMembers(init, v);
      assert forall i :: 0 <= i < |init| ==> init[i] == data[i];
    }
  }

  /** `data[key]`: the first entry with the key, if any. */
  function Lookup(data: DataSet, key: string): (r: Option<MonthData>)
    ensures r.Some? ==> exists i :: 0 <= i < |data| && data[i].key == key && data[i].month == r.value
    ensures r.None? ==> forall i :: 0 <= i < |data| ==> data[i].key != key
    decreases |data|
  {
    if data == [] then None
    else if data[0].key == key then Some(data[0].month)
    else
      var r := Lookup(data[1..], key);
      assert forall i :: 0 <= i < |data[1..]| ==> data[1..][i] == data[i + 1];
      r
  }

  /** The keys of a JSON object are distinct. */
  predicate DistinctKeys(data: DataSet)
  {
    forall i, j :: 0 <= i < j < |data| ==> data[i].key != data[j].key
  }
}
