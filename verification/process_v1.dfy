/**
 * The first preprocessing script: the artist list is read line by line, a
 * post's artist is found in its description by an ordered set of rules with
 * a similarity fallback, the interaction rate of every post is computed, and
 * the posts of each sheet are grouped into month buckets whose median is the
 * true median.
 *
 * The sheets are already parsed: a row carries its date text and its
 * counters as whole numbers. `SequenceMatcher(None, a, b).ratio()` is the
 * parameter `ratio`.
 */
module ProcessingV1 {
  import opened Text
  import opened Records
  import opened Stats
  import opened MonthGrouping

  // -----------------------------------------------------------------------
  // The artist list
  // -----------------------------------------------------------------------

  predicate IsQuote(c: char) { c == '"' }

  /** A name as the list yields it: not empty, and not starting or ending with a quote. */
  predicate IsListedName(a: string)
  {
    |a| > 0 && !IsQuote(a[0]) && !IsQuote(a[|a| - 1])
  }

  /** The header line of the exported artist column. */
  const HeaderLine: string := "\"main_artist\""

  /**
   * The artist a line of the list contributes: the line without surrounding
   * whitespace, unless it is blank or the header, without surrounding quotes,
   * unless nothing is left.
   */
  function ArtistOfLine(line: string): (a: Option<string>)
    ensures a.Some? ==> IsListedName(a.value)
  {
    var t := Strip(line, IsSpace);
    if t == [] || t == HeaderLine then None
    else
      var name := Strip(t, IsQuote);
      if name == [] then None else Some(name)
  }

  /** A line contributes nothing exactly when it is the header or holds nothing but whitespace and quotes. */
  lemma ArtistOfLineNone(line: string)
    ensures ArtistOfLine(line).None? <==>
              var t := Strip(line, IsSpace);
              t == HeaderLine || forall i :: 0 <= i < |t| ==> IsQuote(t[i])
  {
    StripEmptyIff(Strip(line, IsSpace), IsQuote);
  }

  lemma HeaderInner(h: string)
    requires h == HeaderLine
    ensures |h| > 1 && h[1..|h| - 1] == "main_artist"
  {
  }

  /** Stripping the quotes of a quoted name leaves the name. */
  lemma Unquote(name: string)
    requires |name| > 0 && !IsQuote(name[0]) && !IsQuote(name[|name| - 1])
    ensures Strip("\"" + name + "\"", IsQuote) == name
  {
    var line := "\"" + name + "\"";
    assert line[1..] == name + "\"";
    assert TrimStart(line, IsQuote) == name + "\"";
    assert (name + "\"")[..|name|] == name;
  }

  /** A quoted name comes back without its quotes. */
  lemma QuotedNameRoundTrip(name: string)
    requires |name| > 0 && !IsQuote(name[0]) && !IsQuote(name[|name| - 1])
    requires name != "main_artist"
    ensures ArtistOfLine("\"" + name + "\"") == Some(name)
  {
    var line := "\"" + name + "\"";
    StripKeeps(line, IsSpace);
    assert line[1..|line| - 1] == name;
    if line == HeaderLine {
      HeaderInner(line);
    }
    Unquote(name);
  }

  /** `load_artists`: the artists of the lines, in the order of the lines. */
  function LoadedArtists(lines: seq<string>): (artists: seq<string>)
    ensures |artists| <= |lines|
    ensures forall i :: 0 <= i < |artists| ==> IsListedName(artists[i])
    decreases |lines|
  {
    if lines == [] then []
    else
      var init := LoadedArtists(lines[..|lines| - 1]);
      match ArtistOfLine(lines[|lines| - 1])
      case Some(a) => init + [a]
      case None => init
  }

  /** Reading two parts of a file one after the other gives their artists one after the other. */
  lemma {:induction false} LoadedArtistsAppend(xs: seq<string>, ys: seq<string>)
    ensures LoadedArtists(xs + ys) == LoadedArtists(xs) + LoadedArtists(ys)
    decreases |ys|
  {
    if ys == [] {
      assert xs + ys == xs;
    } else {
      var init := ys[..|ys| - 1];
      assert (xs + ys)[..|xs + ys| - 1] == xs + init;
      LoadedArtistsAppend(xs, init);
    }
  }

  /** Blank lines and the header contribute nothing; a quoted name contributes itself. */
  lemma LoadedArtistsOfLine(line: string)
    ensures LoadedArtists([line]) == match ArtistOfLine(line) case Some(a) => [a] case None => []
  {
    assert [line][..0] == [];
  }

  /** The line loop: appends the artist of each line. */
  method LoadArtists(lines: seq<string>) returns (artists: seq<string>)
    ensures artists == LoadedArtists(lines)
  {
    artists := [];
    var i := 0;
    while i < |lines|
      invariant 0 <= i <= |lines|
      invariant artists == LoadedArtists(lines[..i])
    {
      assert lines[..i + 1][..i] == lines[..i];
      var line := Strip(lines[i], IsSpace);
      if line != [] && line != HeaderLine {
        var artist := Strip(line, IsQuote);
        if artist != [] {
          artists := artists + [artist];
        }
      }
      i := i + 1;
    }
    assert lines[..i] == lines;
  }

  // -----------------------------------------------------------------------
  // `normalize_text`
  // -----------------------------------------------------------------------

  /** The letters and digits of `text`, lower-cased, in order; `""` for an empty text. */
  function NormalizeText(text: string): (r: string)
    ensures |r| <= |text|
    ensures forall i :: 0 <= i < |r| ==> IsLower(r[i]) || IsDigit(r[i])
    decreases |text|
  {
    if text == [] then []
    else (if IsAlnum(text[0]) then [LowerChar(text[0])] else []) + NormalizeText(text[1..])
  }

  /** Normalising works character by character. */
  lemma {:induction false} NormalizeTextAppend(s: string, t: string)
    ensures NormalizeText(s + t) == NormalizeText(s) + NormalizeText(t)
    decreases |s|
  {
    if s == [] {
      assert s + t == t;
    } else {
      assert (s + t)[1..] == s[1..] + t;
      NormalizeTextAppend(s[1..], t);
    }
  }

  /** A text is its own normal form exactly when it holds only lower-case letters and digits. */
  lemma {:induction false} NormalizeTextFixed(t: string)
    ensures NormalizeText(t) == t <==> forall i :: 0 <= i < |t| ==> IsLower(t[i]) || IsDigit(t[i])
    decreases |t|
  {
    if t != [] {
      NormalizeTextFixed(t[1..]);
      if forall i :: 0 <= i < |t| ==> IsLower(t[i]) || IsDigit(t[i]) {
        assert forall i :: 0 <= i < |t[1..]| ==> IsLower(t[1..][i]) || IsDigit(t[1..][i]);
      }
    }
  }

  /** Normalising twice is normalising once. */
  lemma NormalizeTextIdempotent(t: string)
    ensures NormalizeText(NormalizeText(t)) == NormalizeText(t)
  {
    NormalizeTextFixed(NormalizeText(t));
  }

  // -----------------------------------------------------------------------
  // `calculate_ir`
  // -----------------------------------------------------------------------

  /** The interaction rate in percent: every interaction over the views; 0 without views. */
  function CalculateIr(views: int, likes: int, shares: int, comments: int, collects: int): (ir: real)
    ensures views == 0 ==> ir == 0.0
    ensures views != 0 ==> ir * (views as real) == ((likes + shares + comments + collects) as real) * 100.0
    ensures views > 0 && likes >= 0 && shares >= 0 && comments >= 0 && collects >= 0 ==> ir >= 0.0
  {
    if views == 0 then 0.0
    else ((likes + shares + comments + collects) as real) / (views as real) * 100.0
  }

  // -----------------------------------------------------------------------
  // `find_artist`
  // -----------------------------------------------------------------------

  /** The default threshold of the similarity fallback. */
  const MatchThreshold: real := 0.75

  /** The score of an artist whose normalised name stands in the normalised description. */
  const SubstringScore: real := 0.85

  /** `re.findall(r'@(\w+)', description)`. */
  function Mentions(description: string): seq<string>
  {
    AtCaptures(description, IsWordChar)
  }

  /**
   * The mention names the artist: both are the same lower-cased, or one
   * normalised form is inside the other and the artist's normalised name is
   * longer than 3 characters.
   */
  predicate MentionNames(artist: string, mention: string)
  {
    var an, mn := NormalizeText(artist), NormalizeText(mention);
    ToLower(mention) == ToLower(artist) || ((Contains(mn, an) || Contains(an, mn)) && |an| > 3)
  }

  /** Some mention of the description names the artist. */
  predicate MentionRule(artist: string, description: string)
  {
    exists i :: 0 <= i < |Mentions(description)| && MentionNames(artist, Mentions(description)[i])
  }

  /** The lower-cased name stands in the lower-cased description as a whole word. */
  predicate NameRule(artist: string, description: string)
  {
    var dl, al := ToLower(description), ToLower(artist);
    Contains(dl, al) && ContainsWholeWord(dl, al)
  }

  /** The number of words longer than 2 characters that stand in `text`. */
  function WordsFound(words: seq<string>, text: string): (n: nat)
    ensures n <= |words|
    decreases |words|
  {
    if words == [] then 0
    else
      var w := words[|words| - 1];
      WordsFound(words[..|words| - 1], text) + (if |w| > 2 && Contains(text, w) then 1 else 0)
  }

  /** A name of several words at least 70% of which stand in the lower-cased description. */
  predicate WordsRule(artist: string, description: string)
  {
    var words := SplitWords(ToLower(artist));
    |words| > 1 && (WordsFound(words, ToLower(description)) as real) >= (|words| as real) * 0.7
  }

  /** The rules that return the artist at once. */
  predicate EarlyRule(artist: string, description: string)
  {
    MentionRule(artist, description) || NameRule(artist, description) || WordsRule(artist, description)
  }

  /** `best_match` and `best_score` of the fallback. */
  datatype Candidate = Candidate(artist: Option<string>, score: real)

  /** The similarity of the artist to each mention in turn; a strictly higher score takes over. */
  function Rescore(artist: string, ms: seq<string>, ratio: (string, string) -> real, c: Candidate): (r: Candidate)
    ensures r == c || (r.artist == Some(artist) && r.score > c.score)
    decreases |ms|
  {
    if ms == [] then c
    else
      var s := ratio(NormalizeText(artist), NormalizeText(ms[0]));
      Rescore(artist, ms[1..], ratio, if s > c.score then Candidate(Some(artist), s) else c)
  }

  /** The fallback step of one artist: its mention similarities, then the substring score. */
  function Fallback(artist: string, description: string, ratio: (string, string) -> real, c: Candidate): (r: Candidate)
    ensures r == c || (r.artist == Some(artist) && r.score > c.score)
  {
    var c1 := Rescore(artist, Mentions(description), ratio, c);
    var an := NormalizeText(artist);
    if |an| > 4 && Contains(NormalizeText(description), an) && SubstringScore > c1.score then
      Candidate(Some(artist), SubstringScore)
    else c1
  }

  /** A fallback step either keeps the candidate or puts the artist in with a strictly higher score. */
  ghost predicate StepKeeps(step: (string, Candidate) -> Candidate)
  {
    forall a: string, c: Candidate {:trigger step(a, c)} ::
      step(a, c) == c || (step(a, c).artist == Some(a) && step(a, c).score > c.score)
  }

  /**
   * The scan of the artists from position `i` on, with the fallback
   * candidate so far: the first artist `early` accepts is the result; past
   * the end, the candidate when its score reaches the threshold.
   */
  function RuleScan(artists: seq<string>, early: string -> bool, step: (string, Candidate) -> Candidate,
                i: nat, c: Candidate): (r: string)
    requires StepKeeps(step)
    requires c.score > 0.0 ==> c.artist.Some?
    requires c.artist.Some? ==> c.artist.value in artists
    ensures r == NoArtist || r in artists
    decreases |artists| - i
  {
    if i >= |artists| then
      if c.score >= MatchThreshold then c.artist.value else NoArtist
    else if early(artists[i]) then artists[i]
    else
      var c' := step(artists[i], c);
      assert c' == c || (c'.artist == Some(artists[i]) && c'.score > c.score);
      RuleScan(artists, early, step, i + 1, c')
  }

  function EarlyOf(description: string): string -> bool
  {
    a => EarlyRule(a, description)
  }

  function FallbackOf(description: string, ratio: (string, string) -> real): (step: (string, Candidate) -> Candidate)
    ensures StepKeeps(step)
  {
    var step := (a, c) => Fallback(a, description, ratio, c);
    assert forall a: string, c: Candidate :: step(a, c) == Fallback(a, description, ratio, c);
    step
  }

  /** `find_artist`: `'Sin artista'` for an empty description, otherwise the scan from an empty candidate. */
  function FindArtistSpec(description: string, artists: seq<string>, ratio: (string, string) -> real): (r: string)
    ensures description == "" ==> r == NoArtist
    ensures r == NoArtist || r in artists
  {
    if description == "" then NoArtist
    else RuleScan(artists, EarlyOf(description), FallbackOf(description, ratio), 0, Candidate(None, 0.0))
  }

  // -----------------------------------------------------------------------
  // Rule order
  // -----------------------------------------------------------------------

  lemma {:induction false} ScanEarly(artists: seq<string>, early: string -> bool, step: (string, Candidate) -> Candidate,
                                     i: nat, c: Candidate, k: nat)
    requires StepKeeps(step)
    requires c.score > 0.0 ==> c.artist.Some?
    requires c.artist.Some? ==> c.artist.value in artists
    requires i <= k < |artists| && early(artists[k])
    requires forall j :: i <= j < k ==> !early(artists[j])
    ensures RuleScan(artists, early, step, i, c) == artists[k]
    decreases k - i
  {
    if i < k {
      var c' := step(artists[i], c);
      assert c' == c || (c'.artist == Some(artists[i]) && c'.score > c.score);
      ScanEarly(artists, early, step, i + 1, c', k);
    }
  }

  /**
   * The artists are tried in list order: the first one an early rule
   * (mention, whole name, words) returns is the result, whatever the
   * similarities of the artists before it.
   */
  lemma FirstEarlyRuleWins(description: string, artists: seq<string>, ratio: (string, string) -> real, k: nat)
    requires description != ""
    requires k < |artists| && EarlyRule(artists[k], description)
    requires forall j :: 0 <= j < k ==> !EarlyRule(artists[j], description)
    ensures FindArtistSpec(description, artists, ratio) == artists[k]
  {
    var early := EarlyOf(description);
    assert early(artists[k]);
    assert forall j :: 0 <= j < k ==> !early(artists[j]);
    ScanEarly(artists, early, FallbackOf(description, ratio), 0, Candidate(None, 0.0), k);
  }

  /**
   * A mention with no letter or digit, such as `@___`, normalises to the
   * empty text, which stands in every name: it names every artist whose
   * normalised name is longer than 3 characters.
   */
  lemma EmptyMentionNamesLongNames(description: string, artist: string, i: nat)
    requires i < |Mentions(description)| && NormalizeText(Mentions(description)[i]) == ""
    requires |NormalizeText(artist)| > 3
    ensures MentionRule(artist, description)
  {
    assert OccursAt(NormalizeText(artist), "", 0);
    ContainsAt(NormalizeText(artist), "", 0);
    assert MentionNames(artist, Mentions(description)[i]);
  }

  // -----------------------------------------------------------------------
  // The similarity fallback
  // -----------------------------------------------------------------------

  function Max(x: real, y: real): real { if x >= y then x else y }

  /** The largest of `base` and the similarities of the name to the mentions. */
  function RatioMax(an: string, ms: seq<string>, ratio: (string, string) -> real, base: real): (m: real)
    ensures m >= base
    decreases |ms|
  {
    if ms == [] then base else RatioMax(an, ms[1..], ratio, Max(base, ratio(an, NormalizeText(ms[0]))))
  }

  /**
   * The artist's own score: the largest of 0, its similarity to every
   * mention and, when its normalised name (longer than 4 characters) stands
   * in the normalised description, 0.85.
   */
  function OwnScore(artist: string, description: string, ratio: (string, string) -> real): (s: real)
    ensures s >= 0.0
  {
    var an := NormalizeText(artist);
    var m := RatioMax(an, Mentions(description), ratio, 0.0);
    if |an| > 4 && Contains(NormalizeText(description), an) then Max(m, SubstringScore) else m
  }

  lemma {:induction false} RatioMaxShift(an: string, ms: seq<string>, ratio: (string, string) -> real, b: real, b': real)
    requires b <= b'
    ensures RatioMax(an, ms, ratio, b') == Max(b', RatioMax(an, ms, ratio, b))
    decreases |ms|
  {
    if ms != [] {
      var s := ratio(an, NormalizeText(ms[0]));
      RatioMaxShift(an, ms[1..], ratio, Max(b, s), Max(b', s));
    }
  }

  /** The mention scan replaces the candidate exactly when the best similarity beats its score. */
  lemma {:induction false} RescoreShape(artist: string, ms: seq<string>, ratio: (string, string) -> real, c: Candidate)
    ensures var m := RatioMax(NormalizeText(artist), ms, ratio, c.score);
      Rescore(artist, ms, ratio, c) == if m > c.score then Candidate(Some(artist), m) else c
    decreases |ms|
  {
    if ms != [] {
      var s := ratio(NormalizeText(artist), NormalizeText(ms[0]));
      var c' := if s > c.score then Candidate(Some(artist), s) else c;
      RescoreShape(artist, ms[1..], ratio, c');
    }
  }

  /** The fallback step of an artist replaces the candidate exactly when the artist's own score beats it. */
  lemma FallbackShape(artist: string, description: string, ratio: (string, string) -> real, c: Candidate)
    requires c.score >= 0.0
    ensures Fallback(artist, description, ratio, c)
            == if OwnScore(artist, description, ratio) > c.score
               then Candidate(Some(artist), OwnScore(artist, description, ratio)) else c
  {
    var an := NormalizeText(artist);
    RescoreShape(artist, Mentions(description), ratio, c);
    RatioMaxShift(an, Mentions(description), ratio, 0.0, c.score);
  }

  /** The step puts an artist in exactly when its own score beats the candidate's. */
  ghost predicate StepByScore(step: (string, Candidate) -> Candidate, own: string -> real)
  {
    forall a: string, c: Candidate {:trigger step(a, c)} ::
      c.score >= 0.0 ==> step(a, c) == if own(a) > c.score then Candidate(Some(a), own(a)) else c
  }

  /**
   * The fallback so far: no artist before `i` scores above the candidate,
   * and a candidate artist is the first one with its score.
   */
  ghost predicate Leading(artists: seq<string>, own: string -> real, i: nat, c: Candidate)
    requires i <= |artists|
  {
    (forall j :: 0 <= j < i ==> own(artists[j]) <= c.score)
    && (c.artist.None? ==> c.score == 0.0)
    && (c.artist.Some? ==>
          exists k :: 0 <= k < i && artists[k] == c.artist.value && own(artists[k]) == c.score
                      && forall j :: 0 <= j < k ==> own(artists[j]) < c.score)
  }

  /** The answer of the fallback: the first artist of largest own score, when that score reaches the threshold. */
  ghost predicate BestAnswer(artists: seq<string>, own: string -> real, r: string)
  {
    ((forall j :: 0 <= j < |artists| ==> own(artists[j]) < MatchThreshold) ==> r == NoArtist)
    && ((exists j :: 0 <= j < |artists| && own(artists[j]) >= MatchThreshold) ==>
          exists k :: 0 <= k < |artists| && r == artists[k]
                      && (forall j :: 0 <= j < |artists| ==> own(artists[j]) <= own(artists[k]))
                      && (forall j :: 0 <= j < k ==> own(artists[j]) < own(artists[k])))
  }

  /** One more artist keeps the fallback leading. */
  lemma LeadingStep(artists: seq<string>, own: string -> real, i: nat, c: Candidate)
    requires i < |artists| && Leading(artists, own, i, c)
    ensures var a := artists[i];
      Leading(artists, own, i + 1, if own(a) > c.score then Candidate(Some(a), own(a)) else c)
  {
    var a := artists[i];
    if own(a) <= c.score && c.artist.Some? {
      var k :| 0 <= k < i && artists[k] == c.artist.value && own(artists[k]) == c.score
               && forall j :: 0 <= j < k ==> own(artists[j]) < c.score;
      assert 0 <= k < i + 1;
    }
  }

  lemma {:induction false} ScanBest(artists: seq<string>, early: string -> bool, step: (string, Candidate) -> Candidate,
                                    own: string -> real, i: nat, c: Candidate)
    requires StepKeeps(step) && StepByScore(step, own)
    requires i <= |artists|
    requires forall j :: i <= j < |artists| ==> !early(artists[j])
    requires c.score >= 0.0
    requires c.score > 0.0 ==> c.artist.Some?
    requires c.artist.Some? ==> c.artist.value in artists
    requires Leading(artists, own, i, c)
    ensures BestAnswer(artists, own, RuleScan(artists, early, step, i, c))
    decreases |artists| - i
  {
    if i < |artists| {
      var a := artists[i];
      var c' := step(a, c);
      assert c' == c || (c'.artist == Some(a) && c'.score > c.score);
      assert c' == if own(a) > c.score then Candidate(Some(a), own(a)) else c;
      LeadingStep(artists, own, i, c);
      ScanBest(artists, early, step, own, i + 1, c');
    } else {
      LeadingAnswers(artists, own, c);
    }
  }

  /** A candidate leading over the whole list gives the best answer. */
  lemma LeadingAnswers(artists: seq<string>, own: string -> real, c: Candidate)
    requires c.score > 0.0 ==> c.artist.Some?
    requires Leading(artists, own, |artists|, c)
    ensures BestAnswer(artists, own, if c.score >= MatchThreshold then c.artist.value else NoArtist)
  {
    if c.artist.Some? {
      var k :| 0 <= k < |artists| && artists[k] == c.artist.value && own(artists[k]) == c.score
               && forall j :: 0 <= j < k ==> own(artists[j]) < c.score;
    }
  }

  /**
   * Without an early rule the fallback decides: `'Sin artista'` when every
   * own score is below 0.75, and otherwise the first artist, in list order,
   * with the largest own score.
   */
  lemma FallbackChoosesBest(description: string, artists: seq<string>, ratio: (string, string) -> real)
    requires description != ""
    requires forall j :: 0 <= j < |artists| ==> !EarlyRule(artists[j], description)
    ensures BestAnswer(artists, a => OwnScore(a, description, ratio), FindArtistSpec(description, artists, ratio))
  {
    var early, step := EarlyOf(description), FallbackOf(description, ratio);
    var own := a => OwnScore(a, description, ratio);
    forall a: string, c: Candidate | c.score >= 0.0
      ensures step(a, c) == if own(a) > c.score then Candidate(Some(a), own(a)) else c
    {
      FallbackShape(a, description, ratio, c);
    }
    assert forall j :: 0 <= j < |artists| ==> !early(artists[j]);
    ScanBest(artists, early, step, own, 0, Candidate(None, 0.0));
  }

  // -----------------------------------------------------------------------
  // The scan, step by step
  // -----------------------------------------------------------------------

  /** The mention loop of one artist: true at the first mention that names it. */
  method MatchMention(artist: string, mentions: seq<string>) returns (hit: bool)
    ensures hit <==> exists i :: 0 <= i < |mentions| && MentionNames(artist, mentions[i])
  {
    var an := NormalizeText(artist);
    var al := ToLower(artist);
    var i := 0;
    while i < |mentions|
      invariant 0 <= i <= |mentions|
      invariant forall j :: 0 <= j < i ==> !MentionNames(artist, mentions[j])
    {
      var mn := NormalizeText(mentions[i]);
      if ToLower(mentions[i]) == al {
        return true;
      }
      if (Contains(mn, an) || Contains(an, mn)) && |an| > 3 {
        return true;
      }
      i := i + 1;
    }
    return false;
  }

  /** The similarity loop of one artist over the mentions. */
  method RescoreMentions(artist: string, mentions: seq<string>, ratio: (string, string) -> real, c: Candidate)
    returns (r: Candidate)
    ensures r == Rescore(artist, mentions, ratio, c)
  {
    var an := NormalizeText(artist);
    r := c;
    var i := 0;
    while i < |mentions|
      invariant 0 <= i <= |mentions|
      invariant Rescore(artist, mentions[i..], ratio, r) == Rescore(artist, mentions, ratio, c)
    {
      var similarity := ratio(an, NormalizeText(mentions[i]));
      assert mentions[i..][1..] == mentions[i + 1..];
      if similarity > r.score {
        r := Candidate(Some(artist), similarity);
      }
      i := i + 1;
    }
  }

  /** The words loop: how many words longer than 2 characters stand in the text. */
  method CountWords(words: seq<string>, text: string) returns (n: nat)
    ensures n == WordsFound(words, text)
  {
    n := 0;
    var i := 0;
    while i < |words|
      invariant 0 <= i <= |words|
      invariant n == WordsFound(words[..i], text)
    {
      assert words[..i + 1][..i] == words[..i];
      if |words[i]| > 2 && Contains(text, words[i]) {
        n := n + 1;
      }
      i := i + 1;
    }
    assert words[..i] == words;
  }

  /**
   * One artist of the scan: whether an early rule returns it and, when none
   * does, the candidate after its similarities and its substring score.
   */
  method TryArtist(artist: string, description: string, mentions: seq<string>, ratio: (string, string) -> real, c: Candidate)
    returns (hit: bool, r: Candidate)
    requires mentions == Mentions(description)
    ensures hit == EarlyRule(artist, description)
    ensures !hit ==> r == Fallback(artist, description, ratio, c)
  {
    r := c;
    hit := MatchMention(artist, mentions);
    if hit {
      return;
    }
    var dl, al := ToLower(description), ToLower(artist);
    if Contains(dl, al) && ContainsWholeWord(dl, al) {
      return true, c;
    }
    var words := SplitWords(al);
    if |words| > 1 {
      var found := CountWords(words, dl);
      if (found as real) >= (|words| as real) * 0.7 {
        return true, c;
      }
    }
    r := RescoreMentions(artist, mentions, ratio, c);
    var an := NormalizeText(artist);
    if |an| > 4 && Contains(NormalizeText(description), an) && SubstringScore > r.score {
      r := Candidate(Some(artist), SubstringScore);
    }
  }

  /** `find_artist`, with the similarity of `SequenceMatcher` given as `ratio`. */
  method FindArtist(description: string, artists: seq<string>, ratio: (string, string) -> real) returns (r: string)
    ensures r == FindArtistSpec(description, artists, ratio)
  {
    if description == "" {
      return NoArtist;
    }
    var mentions := Mentions(description);
    ghost var early, step := EarlyOf(description), FallbackOf(description, ratio);
    var c := Candidate(None, 0.0);
    var i := 0;
    while i < |artists|
      invariant 0 <= i <= |artists|
      invariant c.score > 0.0 ==> c.artist.Some?
      invariant c.artist.Some? ==> c.artist.value in artists
      invariant RuleScan(artists, early, step, i, c) == FindArtistSpec(description, artists, ratio)
    {
      var hit, c' := TryArtist(artists[i], description, mentions, ratio, c);
      assert early(artists[i]) == hit;
      if hit {
        return artists[i];
      }
      assert step(artists[i], c) == c';
      c := c';
      i := i + 1;
    }
    if c.score >= MatchThreshold {
      return c.artist.value;
    }
    return NoArtist;
  }

  // -----------------------------------------------------------------------
  // Posts
  // -----------------------------------------------------------------------

  /** A row of the TikTok sheet; `publish_date` is `YYYY-MM-DD HH:MM:SS`. */
  datatype TikTokRow = TikTokRow(publish_date: string, views: int, likes: int, comments: int, shares: int, video_url: string)

  /**
   * A row of the Instagram sheet. `views` is the `Visualizaciones` cell,
   * `None` when it is not a number; `reach` is the `Alcance` cell.
   */
  datatype InstagramRow = InstagramRow(
    date: string,
    descripcion: string,
    description: string,
    views: Option<int>,
    reach: int,
    likes: int,
    comments: int,
    shares: int,
    collects: int,
    link: string)

  /**
   * The post of a TikTok row: the sheet has no description and no saves, so
   * the post is unlabelled and counts no collects.
   */
  function TikTokVideo(r: TikTokRow): (v: Video)
    ensures v.date == Prefix(r.publish_date, 10) && v.description == "" && v.artist == NoArtist && v.url == r.video_url
    ensures v.views == r.views && v.likes == r.likes && v.shares == r.shares && v.comments == r.comments
    ensures v.collects == 0 && v.ir == CalculateIr(r.views, r.likes, r.shares, r.comments, 0)
  {
    Video(Prefix(r.publish_date, 10), "", NoArtist, r.video_url, r.views, r.likes, r.shares, r.comments, 0,
          CalculateIr(r.views, r.likes, r.shares, r.comments, 0))
  }

  function TikTokVideos(rows: seq<TikTokRow>): (vs: seq<Video>)
    ensures |vs| == |rows| && forall i :: 0 <= i < |rows| ==> vs[i] == TikTokVideo(rows[i])
  {
    seq(|rows|, i requires 0 <= i < |rows| => TikTokVideo(rows[i]))
  }

  /** The Spanish description column, or the English one when that is empty. */
  function DescriptionOf(r: InstagramRow): (d: string)
    ensures d == "" <==> r.descripcion == "" && r.description == ""
  {
    if r.descripcion != "" then r.descripcion else r.description
  }

  /** The views, or the reach when the views cell is not a number. */
  function ViewsOrReach(r: InstagramRow): (n: int)
    ensures r.views.Some? ==> n == r.views.value
    ensures r.views.None? ==> n == r.reach
  {
    match r.views
    case Some(n) => n
    case None => r.reach
  }

  /** The post of an Instagram row labelled `artist`. */
  function InstagramVideo(r: InstagramRow, artist: string): (v: Video)
    ensures v.date == r.date && v.artist == artist && v.url == r.link
    ensures |v.description| <= 100 && StartsWith(DescriptionOf(r), v.description)
    ensures |DescriptionOf(r)| <= 100 ==> v.description == DescriptionOf(r)
    ensures v.views == ViewsOrReach(r) && v.likes == r.likes && v.shares == r.shares
    ensures v.comments == r.comments && v.collects == r.collects
    ensures v.ir == CalculateIr(ViewsOrReach(r), r.likes, r.shares, r.comments, r.collects)
  {
    var views := ViewsOrReach(r);
    Video(r.date, Prefix(DescriptionOf(r), 100), artist, r.link, views, r.likes, r.shares, r.comments, r.collects,
          CalculateIr(views, r.likes, r.shares, r.comments, r.collects))
  }

  /** `find_artist` with the artist list and the similarity fixed. */
  function ArtistFinder(artists: seq<string>, ratio: (string, string) -> real): string -> string
  {
    d => FindArtistSpec(d, artists, ratio)
  }

  /** The posts of the dated rows, in row order, each labelled with the artist of its description. */
  function InstagramVideos(rows: seq<InstagramRow>, find: string -> string): (vs: seq<Video>)
    ensures |vs| <= |rows|
    decreases |rows|
  {
    if rows == [] then []
    else
      var init, r := InstagramVideos(rows[..|rows| - 1], find), rows[|rows| - 1];
      if r.date == "" then init else init + [InstagramVideo(r, find(DescriptionOf(r)))]
  }

  /**
   * The rows without a date are skipped: the posts are exactly those of the
   * dated rows, each labelled with the artist of its description.
   */
  lemma {:induction false} InstagramVideosMembers(rows: seq<InstagramRow>, find: string -> string, v: Video)
    ensures v in InstagramVideos(rows, find) <==>
            exists i :: 0 <= i < |rows| && rows[i].date != "" && v == InstagramVideo(rows[i], find(DescriptionOf(rows[i])))
    decreases |rows|
  {
    if rows != [] {
      var init := rows[..|rows| - 1];
      InstagramVideosMembers(init, find, v);
      assert forall i :: 0 <= i < |init| ==> init[i] == rows[i];
    }
  }

  /** Every Instagram post is dated and labelled `'Sin artista'` or with a listed artist. */
  lemma InstagramLabels(rows: seq<InstagramRow>, artists: seq<string>, ratio: (string, string) -> real)
    ensures forall v :: v in InstagramVideos(rows, ArtistFinder(artists, ratio)) ==>
              v.date != "" && (v.artist == NoArtist || v.artist in artists) && |v.description| <= 100
  {
    var find := ArtistFinder(artists, ratio);
    forall v | v in InstagramVideos(rows, find)
      ensures v.date != "" && (v.artist == NoArtist || v.artist in artists) && |v.description| <= 100
    {
      InstagramVideosMembers(rows, find, v);
      var i :| 0 <= i < |rows| && rows[i].date != "" && v == InstagramVideo(rows[i], find(DescriptionOf(rows[i])));
      assert v.artist == FindArtistSpec(DescriptionOf(rows[i]), artists, ratio);
    }
  }

  // -----------------------------------------------------------------------
  // Month buckets
  // -----------------------------------------------------------------------

  function VideoMonth(): Video -> string
  {
    (v: Video) => MonthOfDate(v.date)
  }

  /** The bucket of month `k`: the true median and the means of the posts, the sums of their counters. */
  function BucketV1(k: string, vs: seq<Video>): (m: MonthData)
    ensures m.year_month == k && m.all_videos == vs && m.total_posts == |vs|
  {
    MonthData(k, if |vs| > 0 then TrueMedian(ViewsOf(vs)) else 0.0, Mean(ViewsOf(vs)), Mean(LikesOf(vs)),
              SumInt(SharesOf(vs)), SumInt(CommentsOf(vs)), SumInt(CollectsOf(vs)), Mean(IrsOf(vs)), |vs|, vs)
  }

  function BucketsV1(groups: map<string, seq<Video>>): (m: map<string, MonthData>)
    ensures m.Keys == groups.Keys
    ensures forall k :: k in m ==> m[k] == BucketV1(k, groups[k])
  {
    map k | k in groups :: BucketV1(k, groups[k])
  }

  /** The month document of a list of posts. */
  function MonthsV1(videos: seq<Video>): map<string, MonthData>
  {
    BucketsV1(Grouped(videos, VideoMonth()))
  }

  /**
   * The month document partitions the posts: a bucket for exactly the
   * months that occur, keyed and labelled with its month, holding every
   * post of that month and no other, and counting them.
   */
  lemma MonthsV1Partition(videos: seq<Video>)
    ensures forall k :: k in MonthsV1(videos) <==> exists i :: 0 <= i < |videos| && MonthOfDate(videos[i].date) == k
    ensures forall v :: v in videos ==> MonthOfDate(v.date) in MonthsV1(videos) && v in MonthsV1(videos)[MonthOfDate(v.date)].all_videos
    ensures forall k :: k in MonthsV1(videos) ==>
      var m := MonthsV1(videos)[k];
      m.year_month == k && m.total_posts == |m.all_videos| > 0
      && forall v :: v in m.all_videos ==> MonthOfDate(v.date) == k && StartsWith(v.date, k)
  {
    GroupsPartition(videos, VideoMonth());
  }

  /**
   * A bucket of posts takes the true median of their views, which lies
   * between the two middle values, and the sums of their counters.
   */
  lemma BucketV1Aggregates(k: string, vs: seq<Video>)
    requires |vs| > 0
    ensures var m := BucketV1(k, vs);
      SortedCopy(ViewsOf(vs))[(|vs| - 1) / 2] <= m.median_views <= UpperMedian(ViewsOf(vs))
      && (|vs| % 2 == 1 ==> m.median_views == UpperMedian(ViewsOf(vs)))
      && m.total_shares == SumInt(SharesOf(vs))
      && m.total_comments == SumInt(CommentsOf(vs))
      && m.total_collects == SumInt(CollectsOf(vs))
  {
    TrueMedianVersusUpper(ViewsOf(vs));
  }

  /** Every TikTok post is unlabelled and has no description, so no bucket counts a collect. */
  lemma TikTokMonthsUnlabelled(rows: seq<TikTokRow>)
    ensures forall k :: k in MonthsV1(TikTokVideos(rows)) ==>
      var m := MonthsV1(TikTokVideos(rows))[k];
      m.total_collects == 0 && forall v :: v in m.all_videos ==> v.artist == NoArtist && v.description == ""
  {
    var vs := TikTokVideos(rows);
    var g: map<string, seq<Video>> := Grouped(vs, VideoMonth());
    forall k | k in g
      ensures SumInt(CollectsOf(g[k])) == 0 && forall v: Video :: v in g[k] ==> v.artist == NoArtist && v.description == ""
    {
      forall v: Video | v in g[k] ensures v.artist == NoArtist && v.description == "" && v.collects == 0 {
        assert v in vs;
        var i :| 0 <= i < |vs| && vs[i] == v;
      }
      forall i | 0 <= i < |g[k]| ensures CollectsOf(g[k])[i] == 0 {
        assert g[k][i] in g[k];
      }
      SumIntZeros(CollectsOf(g[k]));
    }
  }

  // -----------------------------------------------------------------------
  // `process_tiktok` and `process_instagram`
  // -----------------------------------------------------------------------

  /** The aggregates of one month's posts. */
  method BuildBucketV1(k: string, videos: seq<Video>) returns (m: MonthData)
    ensures m == BucketV1(k, videos)
  {
    var views := ViewsOf(videos);
    var median := if |views| > 0 then TrueMedian(views) else 0.0;
    m := MonthData(k, median, Mean(views), Mean(LikesOf(videos)),
                   SumInt(SharesOf(videos)), SumInt(CommentsOf(videos)), SumInt(CollectsOf(videos)),
                   Mean(IrsOf(videos)), |videos|, videos);
  }

  /** The loop over the months, in whatever order the dictionary gives them. */
  method BuildBucketsV1(groups: map<string, seq<Video>>) returns (result: map<string, MonthData>)
    ensures result == BucketsV1(groups)
  {
    result := map[];
    var keys := groups.Keys;
    while keys != {}
      invariant BuiltOutside(groups, result, keys, BucketV1)
      decreases keys
    {
      var k :| k in keys;
      var bucket := BuildBucketV1(k, groups[k]);
      BuiltOutsideStep(groups, result, keys, BucketV1, k, bucket);
      result := result[k := bucket];
      keys := keys - {k};
    }
    BucketsV1Done(groups, result);
  }

  lemma BucketsV1Done(groups: map<string, seq<Video>>, result: map<string, MonthData>)
    requires BuiltOutside(groups, result, {}, BucketV1)
    ensures result == BucketsV1(groups)
  {
  }

  /** Appends a post to the list of its month. */
  method AddToMonth(groups: map<string, seq<Video>>, ghost videos: seq<Video>, video: Video)
    returns (groups': map<string, seq<Video>>)
    requires groups == Grouped(videos, VideoMonth())
    ensures groups' == Grouped(videos + [video], VideoMonth())
  {
    GroupedSnoc(videos, video, VideoMonth());
    var month := MonthOfDate(video.date);
    if month in groups {
      groups' := groups[month := groups[month] + [video]];
    } else {
      assert [] + [video] == [video];
      groups' := groups[month := [video]];
    }
  }

  /** `process_tiktok`: one post per row, grouped by month, then one bucket per month. */
  method ProcessTikTok(rows: seq<TikTokRow>) returns (result: map<string, MonthData>)
    ensures result == MonthsV1(TikTokVideos(rows))
  {
    var groups: map<string, seq<Video>> := map[];
    var i := 0;
    while i < |rows|
      invariant 0 <= i <= |rows|
      invariant groups == Grouped(TikTokVideos(rows[..i]), VideoMonth())
    {
      var video := TikTokVideo(rows[i]);
      assert TikTokVideos(rows[..i + 1]) == TikTokVideos(rows[..i]) + [video];
      groups := AddToMonth(groups, TikTokVideos(rows[..i]), video);
      i := i + 1;
    }
    assert rows[..i] == rows;
    result := BuildBucketsV1(groups);
  }

  /**
   * `process_instagram`: the dated rows, each labelled by `find_artist` on
   * its description, grouped by month, then one bucket per month.
   */
  method ProcessInstagram(rows: seq<InstagramRow>, artists: seq<string>, ratio: (string, string) -> real)
    returns (result: map<string, MonthData>)
    ensures result == MonthsV1(InstagramVideos(rows, ArtistFinder(artists, ratio)))
  {
    ghost var find := ArtistFinder(artists, ratio);
    var groups: map<string, seq<Video>> := map[];
    var i := 0;
    while i < |rows|
      invariant 0 <= i <= |rows|
      invariant groups == Grouped(InstagramVideos(rows[..i], find), VideoMonth())
    {
      assert rows[..i + 1][..i] == rows[..i];
      if rows[i].date != "" {
        var description := DescriptionOf(rows[i]);
        var artist := FindArtist(description, artists, ratio);
        assert artist == find(description);
        var video := InstagramVideo(rows[i], artist);
        groups := AddToMonth(groups, InstagramVideos(rows[..i], find), video);
      }
      i := i + 1;
    }
    assert rows[..i] == rows;
    result := BuildBucketsV1(groups);
  }
}
