/**
 * Characters and strings as the dashboard and the two preprocessing scripts
 * use them: case folding, prefix and substring tests, whitespace and quote
 * stripping, `str.split()`, regular-expression captures of the form
 * `@(<class>+)`, word boundaries, and the lexicographic order of strings.
 *
 * Character classes are read over ASCII; the Unicode classes of Python and
 * JavaScript are not modelled.
 */
module Text {

  predicate IsUpper(c: char) { 'A' <= c <= 'Z' }
  predicate IsLower(c: char) { 'a' <= c <= 'z' }
  predicate IsDigit(c: char) { '0' <= c <= '9' }
  predicate IsAlnum(c: char) { IsUpper(c) || IsLower(c) || IsDigit(c) }

  /** `\w` of a regular expression. */
  predicate IsWordChar(c: char) { IsAlnum(c) || c == '_' }

  /** Whitespace as `str.strip()` and `str.split()` see it (ASCII part). */
  predicate IsSpace(c: char) { c == ' ' || 9 <= c as int <= 13 || 28 <= c as int <= 31 }

  function LowerChar(c: char): (d: char)
    ensures IsAlnum(d) <==> IsAlnum(c)
    ensures !IsUpper(d)
    ensures IsUpper(c) || d == c
  {
    if IsUpper(c) then (c as int + 32) as char else c
  }

  /** `toLowerCase()` / `str.lower()`. */
  function ToLower(s: string): (r: string)
    ensures |r| == |s|
    ensures forall i :: 0 <= i < |s| ==> r[i] == LowerChar(s[i])
  {
    seq(|s|, i requires 0 <= i < |s| => LowerChar(s[i]))
  }

  lemma ToLowerIdempotent(s: string)
    ensures ToLower(ToLower(s)) == ToLower(s)
  {
  }

  /** `startsWith` / `str.startswith`. */
  predicate StartsWith(s: string, prefix: string)
  {
    |prefix| <= |s| && s[..|prefix|] == prefix
  }

  /** `s[:n]`. */
  function Prefix(s: string, n: nat): (p: string)
    ensures |p| <= n && StartsWith(s, p)
    ensures |s| <= n ==> p == s
  {
    if |s| <= n then s else s[..n]
  }

  // ---------------------------------------------------------------------
  // Substring search (`includes`, Python's `in` on strings)
  // ---------------------------------------------------------------------

  /** `needle` occurs in `hay` starting at position `i`. */
  predicate OccursAt(hay: string, needle: string, i: int)
  {
    0 <= i && i + |needle| <= |hay| && hay[i..i + |needle|] == needle
  }

  predicate MatchesFrom(hay: string, needle: string, i: nat, j: nat)
    requires i + |needle| <= |hay| && j <= |needle|
    decreases |needle| - j
  {
    j == |needle| || (hay[i + j] == needle[j] && MatchesFrom(hay, needle, i, j + 1))
  }

  predicate ContainsFrom(hay: string, needle: string, i: nat)
    decreases |hay| - i
  {
    i + |needle| <= |hay| && (MatchesFrom(hay, needle, i, 0) || ContainsFrom(hay, needle, i + 1))
  }

  /** `hay.includes(needle)`, `needle in hay`: scans the start positions left to right. */
  predicate Contains(hay: string, needle: string)
  {
    ContainsFrom(hay, needle, 0)
  }

  lemma {:induction false} MatchesFromIff(hay: string, needle: string, i: nat, j: nat)
    requires i + |needle| <= |hay| && j <= |needle|
    ensures MatchesFrom(hay, needle, i, j) <==> hay[i + j..i + |needle|] == needle[j..]
    decreases |needle| - j
  {
    if j < |needle| {
      MatchesFromIff(hay, needle, i, j + 1);
      assert hay[i + j..i + |needle|] == [hay[i + j]] + hay[i + j + 1..i + |needle|];
      assert needle[j..] == [needle[j]] + needle[j + 1..];
    }
  }

  lemma {:induction false} ContainsFromIff(hay: string, needle: string, i: nat)
    ensures ContainsFrom(hay, needle, i) <==> exists k :: i <= k && OccursAt(hay, needle, k)
    decreases |hay| - i
  {
    if i + |needle| <= |hay| {
      MatchesFromIff(hay, needle, i, 0);
      assert MatchesFrom(hay, needle, i, 0) <==> OccursAt(hay, needle, i);
      ContainsFromIff(hay, needle, i + 1);
      if exists k :: i <= k && OccursAt(hay, needle, k) {
        var k :| i <= k && OccursAt(hay, needle, k);
        assert k == i || (i + 1 <= k && OccursAt(hay, needle, k));
      }
    }
  }

  /** The search is exactly "some start position holds the needle". */
  lemma ContainsIff(hay: string, needle: string)
    ensures Contains(hay, needle) <==> exists k :: OccursAt(hay, needle, k)
  {
    ContainsFromIff(hay, needle, 0);
  }

  lemma ContainsAt(hay: string, needle: string, k: int)
    requires OccursAt(hay, needle, k)
    ensures Contains(hay, needle)
  {
    ContainsIff(hay, needle);
  }

  lemma ContainsInSuffix(hay: string, needle: string, d: nat)
    requires d <= |hay| && Contains(hay[d..], needle)
    ensures Contains(hay, needle)
  {
    ContainsIff(hay[d..], needle);
    var k :| OccursAt(hay[d..], needle, k);
    assert hay[d..][k..k + |needle|] == hay[d + k..d + k + |needle|];
    ContainsAt(hay, needle, d + k);
  }

  /** A needle with a character the hay lacks is not contained in it. */
  lemma MissingCharNotContained(hay: string, needle: string, j: nat)
    requires j < |needle| && needle[j] !in hay
    ensures !Contains(hay, needle)
  {
    ContainsIff(hay, needle);
    if Contains(hay, needle) {
      var k :| OccursAt(hay, needle, k);
      OccurrenceHolds(hay, needle, k, j);
    }
  }

  /** An occurrence of the needle puts each of its characters in the hay. */
  lemma OccurrenceHolds(hay: string, needle: string, k: int, j: nat)
    requires OccursAt(hay, needle, k) && j < |needle|
    ensures 0 <= k + j < |hay| && hay[k + j] == needle[j] && needle[j] in hay
  {
    assert hay[k..k + |needle|][j] == hay[k + j];
  }

  /** Some position `k >= i` holds `a` followed by `b`. */
  predicate HasPairFrom(s: string, a: char, b: char, i: nat)
    decreases |s| - i
  {
    i + 1 < |s| && ((s[i] == a && s[i + 1] == b) || HasPairFrom(s, a, b, i + 1))
  }

  lemma {:induction false} HasPairAt(s: string, a: char, b: char, i: nat, k: nat)
    requires i <= k && k + 1 < |s| && s[k] == a && s[k + 1] == b
    ensures HasPairFrom(s, a, b, i)
    decreases k - i
  {
    if i < k {
      HasPairAt(s, a, b, i + 1, k);
    }
  }

  /** No `a` at or after position `i` is followed by `b`: the pair does not occur from `i` on. */
  lemma {:induction false} NoPairFrom(s: string, a: char, b: char, i: nat)
    requires forall k :: i <= k && k + 1 < |s| && s[k] == a ==> s[k + 1] != b
    ensures !HasPairFrom(s, a, b, i)
    decreases |s| - i
  {
    if i + 1 < |s| {
      NoPairFrom(s, a, b, i + 1);
    }
  }

  /** A needle with two neighbouring characters that never stand side by side in the hay is not contained in it. */
  lemma MissingPairNotContained(hay: string, needle: string, j: nat)
    requires j + 1 < |needle| && !HasPairFrom(hay, needle[j], needle[j + 1], 0)
    ensures !Contains(hay, needle)
  {
    ContainsIff(hay, needle);
    forall k | OccursAt(hay, needle, k) ensures false {
      assert hay[k + j] == hay[k..k + |needle|][j] && hay[k + j + 1] == hay[k..k + |needle|][j + 1];
      HasPairAt(hay, needle[j], needle[j + 1], 0, k + j);
    }
  }

  // ---------------------------------------------------------------------
  // Stripping and splitting
  // ---------------------------------------------------------------------

  function TrimStart(s: string, drop: char -> bool): (r: string)
    ensures |r| <= |s| && r == s[|s| - |r|..]
    ensures r != [] ==> !drop(r[0])
    ensures forall i :: 0 <= i < |s| - |r| ==> drop(s[i])
    decreases |s|
  {
    if s != [] && drop(s[0]) then TrimStart(s[1..], drop) else s
  }

  function TrimEnd(s: string, drop: char -> bool): (r: string)
    ensures |r| <= |s| && r == s[..|r|]
    ensures r != [] ==> !drop(r[|r| - 1])
    ensures forall i :: |r| <= i < |s| ==> drop(s[i])
    decreases |s|
  {
    if s != [] && drop(s[|s| - 1]) then TrimEnd(s[..|s| - 1], drop) else s
  }

  /** `str.strip(chars)`: drops every leading and trailing character in the class. */
  function Strip(s: string, drop: char -> bool): (r: string)
    ensures |r| <= |s|
    ensures r != [] ==> !drop(r[0]) && !drop(r[|r| - 1])
  {
    TrimEnd(TrimStart(s, drop), drop)
  }

  /** Stripping leaves nothing exactly when every character is in the class. */
  lemma StripEmptyIff(s: string, drop: char -> bool)
    ensures Strip(s, drop) == [] <==> forall i :: 0 <= i < |s| ==> drop(s[i])
  {
    var t := TrimStart(s, drop);
    if t != [] {
      assert !drop(t[0]);
    }
  }

  /** A string whose first and last characters are outside the class is left as it is. */
  lemma StripKeeps(s: string, drop: char -> bool)
    requires s != [] && !drop(s[0]) && !drop(s[|s| - 1])
    ensures Strip(s, drop) == s
  {
  }

  /** The length of the longest prefix of `s` whose characters are all in the class. */
  function RunLength(s: string, ok: char -> bool): (n: nat)
    ensures n <= |s|
    ensures forall i :: 0 <= i < n ==> ok(s[i])
    ensures n < |s| ==> !ok(s[n])
    decreases |s|
  {
    if s != [] && ok(s[0]) then 1 + RunLength(s[1..], ok) else 0
  }

  /** `str.split()` with no separator: maximal runs of non-whitespace, in order. */
  function SplitWords(s: string): (words: seq<string>)
    ensures forall w :: w in words ==> |w| > 0 && forall c :: c in w ==> !IsSpace(c)
    decreases |s|
  {
    if s == [] then []
    else if IsSpace(s[0]) then SplitWords(s[1..])
    else
      var n := RunLength(s, c => !IsSpace(c));
      [s[..n]] + SplitWords(s[n..])
  }

  /**
   * The captures of `re.findall(r'@(<class>+)', s)`: scanning left to right,
   * an `@` followed by at least one character of the class captures the
   * longest such run, and scanning resumes after it.
   */
  function AtCaptures(s: string, ok: char -> bool): (caps: seq<string>)
    ensures forall u :: u in caps ==> |u| > 0 && forall c :: c in u ==> ok(c)
    decreases |s|
  {
    if |s| < 2 then []
    else if s[0] == '@' && ok(s[1]) then
      var n := RunLength(s[1..], ok);
      [s[1..1 + n]] + AtCaptures(s[1 + n..], ok)
    else
      AtCaptures(s[1..], ok)
  }

  /** Every capture stands in the text right after an `@`. */
  lemma {:induction false} AtCapturesOccur(s: string, ok: char -> bool)
    ensures forall u :: u in AtCaptures(s, ok) ==> Contains(s, "@" + u)
    decreases |s|
  {
    if |s| < 2 {
    } else if s[0] == '@' && ok(s[1]) {
      var n := RunLength(s[1..], ok);
      AtCapturesOccur(s[1 + n..], ok);
      assert s[0..1 + n] == "@" + s[1..1 + n];
      ContainsAt(s, "@" + s[1..1 + n], 0);
      forall u | u in AtCaptures(s[1 + n..], ok) ensures Contains(s, "@" + u) {
        ContainsInSuffix(s, "@" + u, 1 + n);
      }
    } else {
      AtCapturesOccur(s[1..], ok);
      forall u | u in AtCaptures(s[1..], ok) ensures Contains(s, "@" + u) {
        ContainsInSuffix(s, "@" + u, 1);
      }
    }
  }

  // ---------------------------------------------------------------------
  // Word boundaries (`\b`)
  // ---------------------------------------------------------------------

  /** `\b` holds at position `p` of `s`. */
  predicate BoundaryAt(s: string, p: int)
    requires 0 <= p <= |s|
  {
    (p > 0 && IsWordChar(s[p - 1])) != (p < |s| && IsWordChar(s[p]))
  }

  predicate WholeWordFrom(s: string, w: string, i: nat)
    decreases |s| - i
  {
    i + |w| <= |s|
    && ((OccursAt(s, w, i) && BoundaryAt(s, i) && BoundaryAt(s, i + |w|))
        || WholeWordFrom(s, w, i + 1))
  }

  /** `re.search(r'\b' + re.escape(w) + r'\b', s)` succeeds. */
  predicate ContainsWholeWord(s: string, w: string)
  {
    WholeWordFrom(s, w, 0)
  }

  lemma {:induction false} WholeWordFromContains(s: string, w: string, i: nat)
    requires WholeWordFrom(s, w, i)
    ensures Contains(s, w)
    decreases |s| - i
  {
    if OccursAt(s, w, i) {
      ContainsAt(s, w, i);
    } else {
      WholeWordFromContains(s, w, i + 1);
    }
  }

  // ---------------------------------------------------------------------
  // Lexicographic order of strings (JavaScript `<`, `localeCompare` on
  // digit-and-dash keys, Python `sorted`)
  // ---------------------------------------------------------------------

  predicate StrLe(a: string, b: string)
  {
    if a == [] then true
    else if b == [] then false
    else if a[0] != b[0] then a[0] < b[0]
    else StrLe(a[1..], b[1..])
  }

  predicate StrLt(a: string, b: string)
  {
    StrLe(a, b) && a != b
  }

  lemma {:induction false} StrLeTotal(a: string, b: string)
    ensures StrLe(a, b) || StrLe(b, a)
  {
    if a != [] && b != [] && a[0] == b[0] {
      StrLeTotal(a[1..], b[1..]);
    }
  }

  lemma {:induction false} StrLeTransitive(a: string, b: string, c: string)
    requires StrLe(a, b) && StrLe(b, c)
    ensures StrLe(a, c)
  {
    if a != [] && b != [] && c != [] && a[0] == b[0] && b[0] == c[0] {
      StrLeTransitive(a[1..], b[1..], c[1..]);
    }
  }

  lemma {:induction false} StrLeAntisymmetric(a: string, b: string)
    requires StrLe(a, b) && StrLe(b, a)
    ensures a == b
  {
    if a != [] && b != [] {
      StrLeAntisymmetric(a[1..], b[1..]);
      assert a == [a[0]] + a[1..] && b == [b[0]] + b[1..];
    }
  }
}
