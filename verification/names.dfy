/**
 * The artist-name helpers of the second preprocessing script: the manual
 * mapping from username fragments to artist names, the normalisation of an
 * artist name through that mapping, and the extraction of `@username`
 * mentions from a description.
 */
module ArtistNames {
  import opened Text
  import opened Records

  /**
   * The manual mapping, in the order of the dictionary literal: a key is a
   * lower-case fragment of a username, the value the artist it stands for.
   */
  const ManualMapping: seq<(string, string)> := [
    ("dope", "Dove Cameron"),
    ("nath", "Nathy Peluso"),
    ("calo", "Carlos Rivera"),
    ("belo", "BEÉLE"),
    ("beelo", "BEÉLE"),
    ("pereza", "Fuerza Regida"),
    ("miguel", "Miguel Bueno"),
    ("mdo", "Mon Laferte"),
    ("haim", "Ha*Ash"),
    ("jain", "Juan Luis"),
    ("neton", "Neto Bernal")
  ]

  /** `s` is a key of the mapping. */
  predicate IsKey(s: string)
  {
    exists i :: 0 <= i < |ManualMapping| && ManualMapping[i].0 == s
  }

  /** `s` is one of the artist names the mapping produces. */
  predicate IsMappedName(s: string)
  {
    exists i :: 0 <= i < |ManualMapping| && ManualMapping[i].1 == s
  }

  /** `manual_mapping[key]` when the key is present, searching from entry `i` on. */
  function ExactFrom(key: string, i: nat): (r: Option<string>)
    ensures r.Some? ==> exists j :: i <= j < |ManualMapping| && ManualMapping[j].0 == key && ManualMapping[j].1 == r.value
    ensures r.None? ==> forall j :: i <= j < |ManualMapping| ==> ManualMapping[j].0 != key
    decreases |ManualMapping| - i
  {
    if i >= |ManualMapping| then None
    else if ManualMapping[i].0 == key then Some(ManualMapping[i].1)
    else ExactFrom(key, i + 1)
  }

  /** The dictionary lookup: the value of the key, if it is one. */
  function MappingExact(key: string): (r: Option<string>)
    ensures r.Some? <==> IsKey(key)
    ensures r.Some? ==> IsMappedName(r.value)
  {
    ExactFrom(key, 0)
  }

  /** The position of the first key from entry `i` on that occurs in `s`, if any. */
  function FirstKeyFrom(s: string, i: nat): (r: Option<nat>)
    ensures r.Some? ==> i <= r.value < |ManualMapping| && Contains(s, ManualMapping[r.value].0)
                        && forall j :: i <= j < r.value ==> !Contains(s, ManualMapping[j].0)
    ensures r.None? ==> forall j :: i <= j < |ManualMapping| ==> !Contains(s, ManualMapping[j].0)
    decreases |ManualMapping| - i
  {
    if i >= |ManualMapping| then None
    else if Contains(s, ManualMapping[i].0) then Some(i)
    else FirstKeyFrom(s, i + 1)
  }

  lemma ContainsItself(s: string)
    ensures Contains(s, s)
  {
    ContainsAt(s, s, 0);
  }

  /**
   * `normalize_artist_name`: the mapped name of an exact lower-case key;
   * otherwise the mapped name of the first key, in mapping order, that occurs
   * in the lower-cased name; otherwise the name unchanged. The three cases are
   * the lemmas below.
   */
  function NormalizeArtistName(name: string): (r: string)
    ensures r == name || IsMappedName(r)
  {
    var lower := ToLower(name);
    match MappingExact(lower)
    case Some(v) => v
    case None =>
      match FirstKeyFrom(lower, 0)
      case Some(i) => ManualMapping[i].1
      case None => name
  }

  lemma KeysDistinct()
    ensures forall i, j :: 0 <= i < j < |ManualMapping| ==> ManualMapping[i].0 != ManualMapping[j].0
  {
  }

  lemma KeysShort()
    ensures forall i :: 0 <= i < |ManualMapping| ==> |ManualMapping[i].0| <= 6
  {
  }

  /** A name whose lower-cased form is key `i` becomes the name of key `i`. */
  lemma ExactKeyDecides(name: string, i: nat)
    requires i < |ManualMapping| && ToLower(name) == ManualMapping[i].0
    ensures NormalizeArtistName(name) == ManualMapping[i].1
  {
    KeysDistinct();
  }

  /** A name whose lower-cased form is no key but holds key `i` and no earlier key becomes the name of key `i`. */
  lemma FirstContainedKeyDecides(name: string, i: nat)
    requires i < |ManualMapping| && !IsKey(ToLower(name))
    requires Contains(ToLower(name), ManualMapping[i].0)
    requires forall j :: 0 <= j < i ==> !Contains(ToLower(name), ManualMapping[j].0)
    ensures NormalizeArtistName(name) == ManualMapping[i].1
  {
  }

  /** A name whose lower-cased form holds no key is returned unchanged. */
  lemma NoKeyUnchanged(name: string)
    requires forall i :: 0 <= i < |ManualMapping| ==> !Contains(ToLower(name), ManualMapping[i].0)
    ensures NormalizeArtistName(name) == name
  {
    ContainsItself(ToLower(name));
  }

  // -----------------------------------------------------------------------
  // Every mapped name, and the label of unmatched posts, is left as it is
  // -----------------------------------------------------------------------

  lemma NoKeyIn(s: string)
    requires !Contains(s, "dope") && !Contains(s, "nath") && !Contains(s, "calo") && !Contains(s, "belo")
    requires !Contains(s, "beelo") && !Contains(s, "pereza") && !Contains(s, "miguel") && !Contains(s, "mdo")
    requires !Contains(s, "haim") && !Contains(s, "jain") && !Contains(s, "neton")
    ensures forall i :: 0 <= i < |ManualMapping| ==> !Contains(s, ManualMapping[i].0)
  {
  }

  /** Key `key` cannot occur in `s`: its character `j` (with the next one, when `pair`) is missing from `s`. */
  predicate KeyRuledOut(s: string, key: string, j: nat, pair: bool)
  {
    if pair then j + 1 < |key| && !HasPairFrom(s, key[j], key[j + 1], 0)
    else j < |key| && key[j] !in s
  }

  lemma KeyRuledOutNotContained(s: string, key: string, j: nat, pair: bool)
    requires KeyRuledOut(s, key, j, pair)
    ensures !Contains(s, key)
  {
    if pair {
      MissingPairNotContained(s, key, j);
    } else {
      MissingCharNotContained(s, key, j);
    }
  }

  /** None of the first `|w|` keys occurs in `s` when each is ruled out by the matching entry of `w`. */
  lemma NoKeyByWitness(s: string, w: seq<(nat, bool)>)
    requires |w| <= |ManualMapping|
    requires forall i :: 0 <= i < |w| ==> KeyRuledOut(s, ManualMapping[i].0, w[i].0, w[i].1)
    ensures forall i :: 0 <= i < |w| ==> !Contains(s, ManualMapping[i].0)
  {
    forall i | 0 <= i < |w| ensures !Contains(s, ManualMapping[i].0) {
      KeyRuledOutNotContained(s, ManualMapping[i].0, w[i].0, w[i].1);
    }
  }

  /** A name none of whose keys occurs in its lower-cased form is returned unchanged. */
  lemma UnchangedWhenNoKey(name: string)
    requires !Contains(ToLower(name), "dope") && !Contains(ToLower(name), "nath") && !Contains(ToLower(name), "calo")
    requires !Contains(ToLower(name), "belo") && !Contains(ToLower(name), "beelo") && !Contains(ToLower(name), "pereza")
    requires !Contains(ToLower(name), "miguel") && !Contains(ToLower(name), "mdo") && !Contains(ToLower(name), "haim")
    requires !Contains(ToLower(name), "jain") && !Contains(ToLower(name), "neton")
    ensures NormalizeArtistName(name) == name
  {
    NoKeyIn(ToLower(name));
    NoKeyUnchanged(name);
  }

  /** A name whose lower-cased form is no key and holds key `i` but no earlier key becomes the name of key `i`. */
  lemma FirstKeyDecides(name: string, i: nat)
    requires i < |ManualMapping| && |ToLower(name)| > 6
    requires Contains(ToLower(name), ManualMapping[i].0)
    requires forall j :: 0 <= j < i ==> !Contains(ToLower(name), ManualMapping[j].0)
    ensures NormalizeArtistName(name) == ManualMapping[i].1
  {
    KeysShort();
    FirstContainedKeyDecides(name, i);
  }

  lemma DoveCameronNoKey(s: string)
    requires s == "dove cameron"
    ensures forall i :: 0 <= i < |ManualMapping| ==> !Contains(s, ManualMapping[i].0)
  {
    NoPairFrom(s, 'm', 'd', 0);
    NoKeyByWitness(s, [(2, false), (2, false), (2, false), (0, false), (0, false), (0, false), (1, false), (0, true), (0, false), (0, false), (2, false)]);
  }

  /** "Dove Cameron" is a fixed point of the normalisation. */
  lemma DoveCameronFixed(name: string)
    requires name == "Dove Cameron"
    ensures NormalizeArtistName(name) == name
  {
    assert ToLower(name) == "dove cameron";
    DoveCameronNoKey(ToLower(name));
    NoKeyUnchanged(name);
  }

  /** "Nathy Peluso" is a fixed point of the normalisation. */
  lemma NathyPelusoFixed(name: string)
    requires name == "Nathy Peluso"
    ensures NormalizeArtistName(name) == name
  {
    var s := ToLower(name);
    assert s == "nathy peluso";
    MissingCharNotContained(s, "dope", 0);
    ContainsAt(s, "nath", 0);
    FirstKeyDecides(name, 1);
  }

  lemma CarlosRiveraNoKey(s: string)
    requires s == "carlos rivera"
    ensures forall i :: 0 <= i < |ManualMapping| ==> !Contains(s, ManualMapping[i].0)
  {
    NoPairFrom(s, 'a', 'l', 0);
    NoKeyByWitness(s, [(0, false), (0, false), (1, true), (0, false), (0, false), (0, false), (0, false), (0, false), (0, false), (0, false), (0, false)]);
  }

  /** "Carlos Rivera" is a fixed point of the normalisation. */
  lemma CarlosRiveraFixed(name: string)
    requires name == "Carlos Rivera"
    ensures NormalizeArtistName(name) == name
  {
    assert ToLower(name) == "carlos rivera";
    CarlosRiveraNoKey(ToLower(name));
    NoKeyUnchanged(name);
  }

  lemma BeeleNoKey(s: string)
    requires s == "beÉle"
    ensures forall i :: 0 <= i < |ManualMapping| ==> !Contains(s, ManualMapping[i].0)
  {
    NoKeyByWitness(s, [(0, false), (0, false), (0, false), (3, false), (4, false), (0, false), (0, false), (0, false), (0, false), (0, false), (0, false)]);
  }

  /** "BEÉLE" is a fixed point of the normalisation. */
  lemma BeeleFixed(name: string)
    requires name == "BEÉLE"
    ensures NormalizeArtistName(name) == name
  {
    assert ToLower(name) == "beÉle";
    BeeleNoKey(ToLower(name));
    NoKeyUnchanged(name);
  }

  lemma FuerzaRegidaNoKey(s: string)
    requires s == "fuerza regida"
    ensures forall i :: 0 <= i < |ManualMapping| ==> !Contains(s, ManualMapping[i].0)
  {
    NoKeyByWitness(s, [(1, false), (0, false), (0, false), (0, false), (0, false), (0, false), (0, false), (0, false), (0, false), (0, false), (0, false)]);
  }

  /** "Fuerza Regida" is a fixed point of the normalisation. */
  lemma FuerzaRegidaFixed(name: string)
    requires name == "Fuerza Regida"
    ensures NormalizeArtistName(name) == name
  {
    assert ToLower(name) == "fuerza regida";
    FuerzaRegidaNoKey(ToLower(name));
    NoKeyUnchanged(name);
  }

  /** "Miguel Bueno" is a fixed point of the normalisation. */
  lemma MiguelBuenoFixed(name: string)
    requires name == "Miguel Bueno"
    ensures NormalizeArtistName(name) == name
  {
    var s := ToLower(name);
    assert s == "miguel bueno";
    NoPairFrom(s, 'b', 'e', 0);
    NoKeyByWitness(s, [(0, false), (1, false), (0, false), (0, true), (0, true), (0, false)]);
    ContainsAt(s, "miguel", 0);
    FirstKeyDecides(name, 6);
  }

  lemma MonLaferteNoKey(s: string)
    requires s == "mon laferte"
    ensures forall i :: 0 <= i < |ManualMapping| ==> !Contains(s, ManualMapping[i].0)
  {
    NoPairFrom(s, 'n', 'e', 0);
    NoKeyByWitness(s, [(0, false), (3, false), (0, false), (0, false), (0, false), (0, false), (1, false), (1, false), (0, false), (0, false), (0, true)]);
  }

  /** "Mon Laferte" is a fixed point of the normalisation. */
  lemma MonLaferteFixed(name: string)
    requires name == "Mon Laferte"
    ensures NormalizeArtistName(name) == name
  {
    assert ToLower(name) == "mon laferte";
    MonLaferteNoKey(ToLower(name));
    NoKeyUnchanged(name);
  }

  lemma HaAshNoKey(s: string)
    requires s == "ha*ash"
    ensures forall i :: 0 <= i < |ManualMapping| ==> !Contains(s, ManualMapping[i].0)
  {
    NoKeyByWitness(s, [(0, false), (0, false), (0, false), (0, false), (0, false), (0, false), (0, false), (0, false), (2, false), (0, false), (0, false)]);
  }

  /** "Ha*Ash" is a fixed point of the normalisation. */
  lemma HaAshFixed(name: string)
    requires name == "Ha*Ash"
    ensures NormalizeArtistName(name) == name
  {
    assert ToLower(name) == "ha*ash";
    HaAshNoKey(ToLower(name));
    NoKeyUnchanged(name);
  }

  lemma JuanLuisNoKey(s: string)
    requires s == "juan luis"
    ensures forall i :: 0 <= i < |ManualMapping| ==> !Contains(s, ManualMapping[i].0)
  {
    NoPairFrom(s, 'j', 'a', 0);
    NoKeyByWitness(s, [(0, false), (2, false), (0, false), (0, false), (0, false), (0, false), (0, false), (0, false), (0, false), (0, true), (1, false)]);
  }

  /** "Juan Luis" is a fixed point of the normalisation. */
  lemma JuanLuisFixed(name: string)
    requires name == "Juan Luis"
    ensures NormalizeArtistName(name) == name
  {
    assert ToLower(name) == "juan luis";
    JuanLuisNoKey(ToLower(name));
    NoKeyUnchanged(name);
  }

  lemma NetoBernalNoKey(s: string)
    requires s == "neto bernal"
    ensures forall i :: 0 <= i < |ManualMapping| ==> !Contains(s, ManualMapping[i].0)
  {
    NoPairFrom(s, 'e', 'l', 0);
    NoPairFrom(s, 'e', 'e', 0);
    NoPairFrom(s, 'o', 'n', 0);
    NoKeyByWitness(s, [(0, false), (3, false), (0, false), (1, true), (1, true), (0, false), (0, false), (0, false), (0, false), (0, false), (3, true)]);
  }

  /** "Neto Bernal" is a fixed point of the normalisation. */
  lemma NetoBernalFixed(name: string)
    requires name == "Neto Bernal"
    ensures NormalizeArtistName(name) == name
  {
    assert ToLower(name) == "neto bernal";
    NetoBernalNoKey(ToLower(name));
    NoKeyUnchanged(name);
  }

  lemma NoArtistNoKey(s: string)
    requires s == "sin artista"
    ensures forall i :: 0 <= i < |ManualMapping| ==> !Contains(s, ManualMapping[i].0)
  {
    NoKeyByWitness(s, [(0, false), (3, false), (0, false), (0, false), (0, false), (0, false), (0, false), (0, false), (0, false), (0, false), (1, false)]);
  }

  /** The label of unmatched posts is a fixed point of the normalisation. */
  lemma NoArtistFixed(name: string)
    requires name == "Sin artista"
    ensures NormalizeArtistName(name) == name
  {
    assert ToLower(name) == "sin artista";
    NoArtistNoKey(ToLower(name));
    NoKeyUnchanged(name);
  }

  /** Every name the mapping produces is a fixed point of the normalisation. */
  lemma MappedNameFixed(name: string)
    requires IsMappedName(name)
    ensures NormalizeArtistName(name) == name
  {
    var i :| 0 <= i < |ManualMapping| && ManualMapping[i].1 == name;
    if i == 0 { DoveCameronFixed(name); }
    else if i == 1 { NathyPelusoFixed(name); }
    else if i == 2 { CarlosRiveraFixed(name); }
    else if i == 3 || i == 4 { BeeleFixed(name); }
    else if i == 5 { FuerzaRegidaFixed(name); }
    else if i == 6 { MiguelBuenoFixed(name); }
    else if i == 7 { MonLaferteFixed(name); }
    else if i == 8 { HaAshFixed(name); }
    else if i == 9 { JuanLuisFixed(name); }
    else { NetoBernalFixed(name); }
  }

  /**
   * Normalising twice is normalising once, so the second normalisation of
   * the artist column before the per-artist statistics changes nothing.
   */
  lemma NormalizeIdempotent(name: string)
    ensures NormalizeArtistName(NormalizeArtistName(name)) == NormalizeArtistName(name)
  {
    var r := NormalizeArtistName(name);
    if r != name {
      MappedNameFixed(r);
    }
  }

  // -----------------------------------------------------------------------
  // Mentions
  // -----------------------------------------------------------------------

  /** The characters of `[a-zA-Z0-9_.]`. */
  predicate IsUsernameChar(c: char)
  {
    IsAlnum(c) || c == '_' || c == '.'
  }

  /**
   * `extract_usernames`: no mentions for a missing description, otherwise
   * every `@` followed by a run of username characters, in order of
   * appearance.
   */
  function ExtractUsernames(text: Option<string>): (us: seq<string>)
    ensures text.None? ==> us == []
    ensures forall u :: u in us ==> |u| > 0 && forall c :: c in u ==> IsUsernameChar(c)
  {
    match text
    case None => []
    case Some(t) => AtCaptures(t, IsUsernameChar)
  }

  /** Every extracted username stands in the description right after an `@`. */
  lemma UsernamesOccur(t: string)
    ensures forall u :: u in ExtractUsernames(Some(t)) ==> Contains(t, "@" + u)
  {
    AtCapturesOccur(t, IsUsernameChar);
  }

  /** A description without `@` mentions nobody. */
  lemma {:induction false} NoAtNoUsernames(t: string)
    requires '@' !in t
    ensures ExtractUsernames(Some(t)) == []
    decreases |t|
  {
    if |t| >= 2 {
      assert t[0] != '@';
      NoAtNoUsernames(t[1..]);
    }
  }
}
