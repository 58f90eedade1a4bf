/**
 * `find_best_artist_match` of the second preprocessing script: the artist a
 * post's `@username` mentions stand for. A username that hits the manual
 * mapping decides at once with similarity 1; otherwise every (username,
 * artist) pair is scored and the best score at or above the threshold wins,
 * the first pair winning a tie.
 *
 * `difflib.SequenceMatcher(None, a, b).ratio()` is not modelled: it is the
 * parameter `ratio`, applied to the lower-cased strings.
 */
module ArtistMatcher {
  import opened Text
  import opened Records
  import opened ArtistNames

  /** The threshold the processing passes (the default argument). */
  const DefaultThreshold: real := 0.6

  /** `similarity(a, b)`. */
  function Similarity(ratio: (string, string) -> real, a: string, b: string): real
  {
    ratio(ToLower(a), ToLower(b))
  }

  // -----------------------------------------------------------------------
  // Manual mapping
  // -----------------------------------------------------------------------

  /** The mapping hit of one username: its exact key, else the first key it contains. */
  function UsernameHit(u: string): (r: Option<string>)
    ensures r.Some? ==> IsMappedName(r.value)
    ensures r.None? <==> forall i :: 0 <= i < |ManualMapping| ==> !Contains(ToLower(u), ManualMapping[i].0)
  {
    var lower := ToLower(u);
    ContainsItself(lower);
    match MappingExact(lower)
    case Some(v) => Some(v)
    case None =>
      match FirstKeyFrom(lower, 0)
      case Some(i) => Some(ManualMapping[i].1)
      case None => None
  }

  /** The matcher and the name normalisation read the mapping the same way. */
  lemma HitIsNormalizedName(u: string)
    ensures UsernameHit(u).Some? ==> NormalizeArtistName(u) == UsernameHit(u).value
    ensures UsernameHit(u).None? ==> NormalizeArtistName(u) == u
  {
  }

  /** The first hit, in order, of `hit` over `us`. */
  function FirstHit<T>(us: seq<T>, hit: T -> Option<string>): (r: Option<string>)
    ensures r.Some? ==> exists k :: 0 <= k < |us| && hit(us[k]) == r && forall j :: 0 <= j < k ==> hit(us[j]).None?
    ensures r.None? <==> forall k :: 0 <= k < |us| ==> hit(us[k]).None?
    decreases |us|
  {
    if us == [] then None
    else if hit(us[0]).Some? then hit(us[0])
    else
      var r := FirstHit(us[1..], hit);
      assert forall k :: 0 <= k < |us[1..]| ==> us[1..][k] == us[k + 1];
      assert r.Some? ==> exists k :: 0 <= k < |us| && hit(us[k]) == r && forall j :: 0 <= j < k ==> hit(us[j]).None? by {
        if r.Some? {
          var k :| 0 <= k < |us[1..]| && hit(us[1..][k]) == r && forall j :: 0 <= j < k ==> hit(us[1..][j]).None?;
          assert hit(us[k + 1]) == r && forall j :: 0 <= j < k + 1 ==> hit(us[j]).None?;
        }
      }
      r
  }

  /** The hit of the first username, in order, that hits the mapping. */
  function ManualHit(us: seq<string>): (r: Option<string>)
    ensures r.Some? ==> exists k :: 0 <= k < |us| && UsernameHit(us[k]) == r
                                    && forall j :: 0 <= j < k ==> UsernameHit(us[j]).None?
    ensures r.None? <==> forall k :: 0 <= k < |us| ==> UsernameHit(us[k]).None?
  {
    FirstHit(us, UsernameHit)
  }

  // -----------------------------------------------------------------------
  // Similarity fallback
  // -----------------------------------------------------------------------

  /** `best_artist`, `best_similarity`. */
  datatype Match = Match(artist: Option<string>, similarity: real)

  /** The pairs of one username with every artist, in artist order. */
  function Row(u: string, artists: seq<string>): (ps: seq<(string, string)>)
    ensures |ps| == |artists| && forall j :: 0 <= j < |artists| ==> ps[j] == (u, artists[j])
  {
    seq(|artists|, j requires 0 <= j < |artists| => (u, artists[j]))
  }

  /** The pairs the nested loops visit: usernames outside, artists inside. */
  function Pairs(us: seq<string>, artists: seq<string>): (ps: seq<(string, string)>)
    ensures forall p :: p in ps <==> p.0 in us && p.1 in artists
    decreases |us|
  {
    if us == [] then []
    else
      var init := us[..|us| - 1];
      assert forall u :: u in us <==> u in init || u == us[|us| - 1];
      Pairs(init, artists) + Row(us[|us| - 1], artists)
  }

  function PairSimilarity(ratio: (string, string) -> real, p: (string, string)): real
  {
    Similarity(ratio, p.0, p.1)
  }

  /** One turn of the inner loop: a strictly better score at or above the threshold replaces the best. */
  function Step(b: Match, p: (string, string), ratio: (string, string) -> real, threshold: real): Match
  {
    var sim := PairSimilarity(ratio, p);
    if sim > b.similarity && sim >= threshold then Match(Some(p.1), sim) else b
  }

  /**
   * The best match over the pairs, from `(None, 0)`. With no winner every
   * pair scored 0 or below the threshold; a winner scored at least the
   * threshold, no pair at or above the threshold scored more, and every
   * pair before the winner's scored less.
   */
  function Scan(ps: seq<(string, string)>, ratio: (string, string) -> real, threshold: real): (b: Match)
    ensures b.artist.None? ==> b.similarity == 0.0
    ensures b.artist.None? ==> forall j :: 0 <= j < |ps| ==> !(PairSimilarity(ratio, ps[j]) > 0.0 && PairSimilarity(ratio, ps[j]) >= threshold)
    ensures b.artist.Some? ==> b.similarity >= threshold
    ensures b.artist.Some? ==>
      exists k :: 0 <= k < |ps| && ps[k].1 == b.artist.value && PairSimilarity(ratio, ps[k]) == b.similarity
                  && forall j :: 0 <= j < k ==> PairSimilarity(ratio, ps[j]) < b.similarity
    ensures forall j :: 0 <= j < |ps| && PairSimilarity(ratio, ps[j]) >= threshold ==> PairSimilarity(ratio, ps[j]) <= b.similarity
    decreases |ps|
  {
    if ps == [] then Match(None, 0.0)
    else
      var init := ps[..|ps| - 1];
      var prev := Scan(init, ratio, threshold);
      assert forall j :: 0 <= j < |init| ==> ps[j] == init[j];
      Step(prev, ps[|ps| - 1], ratio, threshold)
  }

  /**
   * `find_best_artist_match`: `(None, 0)` without usernames; the first
   * mapping hit with similarity 1; otherwise the best pair of the fallback.
   */
  function BestArtistMatch(us: seq<string>, artists: seq<string>, ratio: (string, string) -> real, threshold: real): (m: Match)
    ensures us == [] ==> m == Match(None, 0.0)
    ensures us != [] && ManualHit(us).Some? ==> m == Match(ManualHit(us), 1.0)
    ensures m.artist.Some? ==> IsMappedName(m.artist.value) || m.artist.value in artists
    ensures ManualHit(us).None? && m.artist.Some? ==>
      m.artist.value in artists && m.similarity >= threshold
      && forall u, a :: u in us && a in artists && Similarity(ratio, u, a) >= threshold ==> Similarity(ratio, u, a) <= m.similarity
    ensures ManualHit(us).None? && m.artist.Some? ==> FirstBestPairAt(us, artists, ratio, m)
    ensures m.artist.None? ==> m.similarity == 0.0
    ensures m.artist.None? && threshold > 0.0 ==> forall u, a :: u in us && a in artists ==> Similarity(ratio, u, a) < threshold
  {
    if us == [] then Match(None, 0.0)
    else if ManualHit(us).Some? then Match(ManualHit(us), 1.0)
    else
      var ps := Pairs(us, artists);
      var m := Scan(ps, ratio, threshold);
      FallbackFacts(us, artists, ratio, threshold);
      m
  }

  /** What the fallback's scan over the pairs means for usernames and artists. */
  lemma FallbackFacts(us: seq<string>, artists: seq<string>, ratio: (string, string) -> real, threshold: real)
    ensures var m := Scan(Pairs(us, artists), ratio, threshold);
      (m.artist.Some? ==> m.artist.value in artists)
      && (forall u, a :: u in us && a in artists && Similarity(ratio, u, a) >= threshold ==> Similarity(ratio, u, a) <= m.similarity)
      && (m.artist.None? && threshold > 0.0 ==> forall u, a :: u in us && a in artists ==> Similarity(ratio, u, a) < threshold)
      && (m.artist.Some? ==> FirstBestPairAt(us, artists, ratio, m))
  {
    var ps := Pairs(us, artists);
    var m := Scan(ps, ratio, threshold);
    if m.artist.Some? {
      ScanWinnerIsFirstBest(us, artists, ratio, threshold);
    }
    forall u, a | u in us && a in artists && Similarity(ratio, u, a) >= threshold
      ensures Similarity(ratio, u, a) <= m.similarity
    {
      assert (u, a) in ps;
      var j :| 0 <= j < |ps| && ps[j] == (u, a);
    }
    if m.artist.Some? {
      var k :| 0 <= k < |ps| && ps[k].1 == m.artist.value && PairSimilarity(ratio, ps[k]) == m.similarity;
      assert ps[k] in ps;
    } else if threshold > 0.0 {
      forall u, a | u in us && a in artists ensures Similarity(ratio, u, a) < threshold {
        assert (u, a) in ps;
        var j :| 0 <= j < |ps| && ps[j] == (u, a);
      }
    }
  }

  /**
   * The answer is the pair `(us[i], artists[j])` for some `i`, `j`: its artist,
   * its similarity, and every pair the loops visit before it scores less.
   */
  ghost predicate FirstBestPairAt(us: seq<string>, artists: seq<string>, ratio: (string, string) -> real, m: Match)
    requires m.artist.Some?
  {
    exists i, j :: 0 <= i < |us| && 0 <= j < |artists| && artists[j] == m.artist.value
      && Similarity(ratio, us[i], artists[j]) == m.similarity
      && forall i', j' :: 0 <= i' < |us| && 0 <= j' < |artists| && (i' < i || (i' == i && j' < j))
                          ==> Similarity(ratio, us[i'], artists[j']) < m.similarity
  }

  /** Where row `i` of the loop order starts when every row holds `n` pairs: `i * n`, counted up row by row. */
  function RowStart(i: nat, n: nat): nat
  {
    if i == 0 then 0 else RowStart(i - 1, n) + n
  }

  /** Later rows start after earlier rows end. */
  lemma {:induction false} RowStartMonotone(a: nat, b: nat, n: nat)
    requires a < b
    ensures RowStart(a, n) + n <= RowStart(b, n)
    decreases b
  {
    if a < b - 1 {
      RowStartMonotone(a, b - 1, n);
    }
  }

  lemma {:induction false} PairsLength(us: seq<string>, artists: seq<string>)
    ensures |Pairs(us, artists)| == RowStart(|us|, |artists|)
    decreases |us|
  {
    if us != [] {
      var init := us[..|us| - 1];
      var before := Pairs(init, artists);
      assert Pairs(us, artists) == before + Row(us[|us| - 1], artists);
      PairsLength(init, artists);
    }
  }

  /** Pair `(us[i], artists[j])` sits at position `RowStart(i, |artists|) + j` of the loop order. */
  lemma {:induction false} PairsAt(us: seq<string>, artists: seq<string>, i: nat, j: nat)
    requires i < |us| && j < |artists|
    ensures RowStart(i, |artists|) + j < |Pairs(us, artists)|
    ensures Pairs(us, artists)[RowStart(i, |artists|) + j] == (us[i], artists[j])
    decreases |us|
  {
    var init := us[..|us| - 1];
    var before := Pairs(init, artists);
    assert Pairs(us, artists) == before + Row(us[|us| - 1], artists);
    PairsLength(init, artists);
    if i < |us| - 1 {
      PairsAt(init, artists, i, j);
      assert us[i] == init[i];
    }
  }

  /** Every position `k` of the loop order is the pair of some username `i` and artist `j`. */
  lemma {:induction false} PairsPosition(us: seq<string>, artists: seq<string>, k: nat) returns (i: nat, j: nat)
    requires k < |Pairs(us, artists)|
    ensures i < |us| && j < |artists| && k == RowStart(i, |artists|) + j
    ensures Pairs(us, artists)[k] == (us[i], artists[j])
    decreases |us|
  {
    var init := us[..|us| - 1];
    var before := Pairs(init, artists);
    assert Pairs(us, artists) == before + Row(us[|us| - 1], artists);
    PairsLength(init, artists);
    if k < |before| {
      i, j := PairsPosition(init, artists, k);
      assert us[i] == init[i];
    } else {
      i, j := |init|, k - |before|;
    }
  }

  /** Position `RowStart(i', n) + j'` comes before `RowStart(i, n) + j` when `(i', j')` comes first in row order. */
  lemma EarlierPosition(n: nat, i: nat, j: nat, i': nat, j': nat)
    requires j < n && j' < n && (i' < i || (i' == i && j' < j))
    ensures RowStart(i', n) + j' < RowStart(i, n) + j
  {
    if i' < i {
      RowStartMonotone(i', i, n);
    }
  }

  /** When every position before `(us[i], artists[j])` scores below `s`, so does every pair the loops visit before it. */
  lemma EarlierPairScoresLess(us: seq<string>, artists: seq<string>, ratio: (string, string) -> real, s: real,
                              i: nat, j: nat, i': nat, j': nat)
    requires i < |us| && j < |artists|
    requires forall x :: 0 <= x < RowStart(i, |artists|) + j && x < |Pairs(us, artists)| ==> PairSimilarity(ratio, Pairs(us, artists)[x]) < s
    requires i' < |us| && j' < |artists| && (i' < i || (i' == i && j' < j))
    ensures Similarity(ratio, us[i'], artists[j']) < s
  {
    PairsAt(us, artists, i', j');
    EarlierPosition(|artists|, i, j, i', j');
  }

  /** The scan's winner, read back as a username and an artist index. */
  lemma ScanWinnerIsFirstBest(us: seq<string>, artists: seq<string>, ratio: (string, string) -> real, threshold: real)
    requires Scan(Pairs(us, artists), ratio, threshold).artist.Some?
    ensures FirstBestPairAt(us, artists, ratio, Scan(Pairs(us, artists), ratio, threshold))
  {
    var ps := Pairs(us, artists);
    var m := Scan(ps, ratio, threshold);
    var k :| 0 <= k < |ps| && ps[k].1 == m.artist.value && PairSimilarity(ratio, ps[k]) == m.similarity
             && forall x :: 0 <= x < k ==> PairSimilarity(ratio, ps[x]) < m.similarity;
    var i, j := PairsPosition(us, artists, k);
    forall i', j' | 0 <= i' < |us| && 0 <= j' < |artists| && (i' < i || (i' == i && j' < j))
      ensures Similarity(ratio, us[i'], artists[j']) < m.similarity
    {
      EarlierPairScoresLess(us, artists, ratio, m.similarity, i, j, i', j');
    }
  }

  lemma ScanSnoc(ps: seq<(string, string)>, p: (string, string), ratio: (string, string) -> real, threshold: real)
    ensures Scan(ps + [p], ratio, threshold) == Step(Scan(ps, ratio, threshold), p, ratio, threshold)
  {
    assert (ps + [p])[..|ps|] == ps;
  }

  /** One more artist in the inner loop is one more step of the scan. */
  lemma ScanRowStep(done: seq<(string, string)>, u: string, artists: seq<string>, j: nat,
                    ratio: (string, string) -> real, threshold: real)
    requires j < |artists|
    ensures Scan(done + Row(u, artists[..j + 1]), ratio, threshold)
            == Step(Scan(done + Row(u, artists[..j]), ratio, threshold), (u, artists[j]), ratio, threshold)
  {
    RowSnoc(u, artists, j);
    assert done + Row(u, artists[..j + 1]) == (done + Row(u, artists[..j])) + [(u, artists[j])];
    ScanSnoc(done + Row(u, artists[..j]), (u, artists[j]), ratio, threshold);
  }

  lemma RowSnoc(u: string, artists: seq<string>, j: nat)
    requires j < |artists|
    ensures Row(u, artists[..j + 1]) == Row(u, artists[..j]) + [(u, artists[j])]
  {
  }

  /** The inner loop: one username against every artist, continuing from the best so far. */
  method ScanArtists(u: string, artists: seq<string>, ratio: (string, string) -> real, threshold: real,
                     ghost done: seq<(string, string)>, artist0: Option<string>, similarity0: real)
    returns (artist: Option<string>, similarity: real)
    requires Match(artist0, similarity0) == Scan(done, ratio, threshold)
    ensures Match(artist, similarity) == Scan(done + Row(u, artists), ratio, threshold)
  {
    artist, similarity := artist0, similarity0;
    assert done + Row(u, artists[..0]) == done;
    var j := 0;
    while j < |artists|
      invariant 0 <= j <= |artists|
      invariant Match(artist, similarity) == Scan(done + Row(u, artists[..j]), ratio, threshold)
    {
      ScanRowStep(done, u, artists, j, ratio, threshold);
      var sim := Similarity(ratio, u, artists[j]);
      if sim > similarity && sim >= threshold {
        similarity := sim;
        artist := Some(artists[j]);
      }
      j := j + 1;
    }
    assert artists[..j] == artists;
  }

  /** The mapping hit of one username, key after key. */
  method LookUpUsername(u: string) returns (hit: Option<string>)
    ensures hit == UsernameHit(u)
  {
    var lower := ToLower(u);
    var exact := MappingExact(lower);
    if exact.Some? {
      return exact;
    }
    var k := 0;
    while k < |ManualMapping|
      invariant 0 <= k <= |ManualMapping|
      invariant FirstKeyFrom(lower, 0) == FirstKeyFrom(lower, k)
    {
      if Contains(lower, ManualMapping[k].0) {
        return Some(ManualMapping[k].1);
      }
      k := k + 1;
    }
    return None;
  }

  /** The first loop of `find_best_artist_match`: the mapping hit of the first username that has one. */
  method FindManualHit(usernames: seq<string>) returns (hit: Option<string>)
    ensures hit == ManualHit(usernames)
  {
    var i := 0;
    while i < |usernames|
      invariant 0 <= i <= |usernames|
      invariant ManualHit(usernames) == ManualHit(usernames[i..])
    {
      hit := LookUpUsername(usernames[i]);
      if hit.Some? {
        return;
      }
      assert usernames[i..][1..] == usernames[i + 1..];
      i := i + 1;
    }
    return None;
  }

  /** The nested loops of `find_best_artist_match`: every username against every artist. */
  method ScanUsernames(usernames: seq<string>, artists: seq<string>, ratio: (string, string) -> real, threshold: real)
    returns (artist: Option<string>, similarity: real)
    ensures Match(artist, similarity) == Scan(Pairs(usernames, artists), ratio, threshold)
  {
    artist, similarity := None, 0.0;
    var i := 0;
    while i < |usernames|
      invariant 0 <= i <= |usernames|
      invariant Match(artist, similarity) == Scan(Pairs(usernames[..i], artists), ratio, threshold)
    {
      assert usernames[..i + 1][..i] == usernames[..i];
      artist, similarity := ScanArtists(usernames[i], artists, ratio, threshold, Pairs(usernames[..i], artists), artist, similarity);
      i := i + 1;
    }
    assert usernames[..i] == usernames;
  }

  /** `find_best_artist_match`. */
  method FindBestArtistMatch(usernames: seq<string>, artists: seq<string>, ratio: (string, string) -> real, threshold: real)
    returns (artist: Option<string>, similarity: real)
    ensures Match(artist, similarity) == BestArtistMatch(usernames, artists, ratio, threshold)
  {
    if |usernames| == 0 {
      return None, 0.0;
    }
    var hit := FindManualHit(usernames);
    if hit.Some? {
      return hit, 1.0;
    }
    artist, similarity := ScanUsernames(usernames, artists, ratio, threshold);
  }
}
