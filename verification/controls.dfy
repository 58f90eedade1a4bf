/**
 * The dashboard's selectors: the clickable sort headers of the two post
 * tables (`handleSort`, `handleArtistSort`) and the list of years offered
 * by the year selector (`availableYears`).
 */
module Controls {
  import opened Text
  import opened Records
  import opened Sorting
  import opened VideoTable

  // -----------------------------------------------------------------------
  // Sort headers
  // -----------------------------------------------------------------------

  datatype SortState = SortState(column: SortColumn, direction: SortDirection)

  /**
   * A click on a header: the current column flips its direction, another
   * column becomes current with the descending direction. Both tables use
   * the same rule on their own state.
   */
  function HandleSort(s: SortState, col: SortColumn): (r: SortState)
    ensures r.column == col
    ensures s.column == col ==> r.direction != s.direction
    ensures s.column != col ==> r.direction == Desc
  {
    if s.column == col then SortState(col, if s.direction == Asc then Desc else Asc)
    else SortState(col, Desc)
  }

  /** Two clicks on the current column restore the state. */
  lemma TwoClicksRestore(s: SortState)
    ensures HandleSort(HandleSort(s, s.column), s.column) == s
  {
  }

  /** A new column starts descending; a second click on it makes it ascending. */
  lemma NewColumnThenAscending(s: SortState, col: SortColumn)
    requires col != s.column
    ensures HandleSort(s, col) == SortState(col, Desc)
    ensures HandleSort(HandleSort(s, col), col) == SortState(col, Asc)
  {
  }

  // -----------------------------------------------------------------------
  // Years
  // -----------------------------------------------------------------------

  /** `key.split('-')[0]`: everything before the first dash. */
  function YearOf(key: string): (y: string)
    ensures StartsWith(key, y) && '-' !in y
    ensures y == key || key[|y|] == '-'
  {
    var n := RunLength(key, c => c != '-');
    assert forall i :: 0 <= i < n ==> key[..n][i] != '-';
    key[..n]
  }

  ghost predicate NoDuplicates(s: seq<string>)
  {
    forall i, j :: 0 <= i < j < |s| ==> s[i] != s[j]
  }

  lemma {:induction false} MultiplicityAtMostOne(s: seq<string>, x: string)
    requires NoDuplicates(s)
    ensures multiset(s)[x] <= 1
    decreases |s|
  {
    if s != [] {
      var init := s[..|s| - 1];
      assert s == init + [s[|s| - 1]];
      MultiplicityAtMostOne(init, x);
      if s[|s| - 1] == x {
        assert x !in init;
      }
    }
  }

  lemma NoDuplicatesPermutation(s: seq<string>, t: seq<string>)
    requires NoDuplicates(s) && multiset(s) == multiset(t)
    ensures NoDuplicates(t)
  {
    forall i, j | 0 <= i < j < |t| ensures t[i] != t[j] {
      if t[i] == t[j] {
        assert t == t[..i] + [t[i]] + t[i + 1..j] + [t[j]] + t[j + 1..];
        assert multiset(t)[t[i]] >= 2;
        MultiplicityAtMostOne(s, t[i]);
        assert false;
      }
    }
  }

  /** `availableYears`: every year of a month key once, in ascending order. */
  method AvailableYears(data: DataSet) returns (years: seq<string>)
    ensures forall i, j :: 0 <= i < j < |years| ==> StrLt(years[i], years[j])
    ensures forall y :: y in years <==> exists i :: 0 <= i < |data| && YearOf(data[i].key) == y
  {
    var distinct: seq<string> := [];
    var i := 0;
    while i < |data|
      invariant 0 <= i <= |data|
      invariant NoDuplicates(distinct)
      invariant forall y :: y in distinct <==> exists k :: 0 <= k < i && YearOf(data[k].key) == y
    {
      var y := YearOf(data[i].key);
      if y !in distinct {
        distinct := distinct + [y];
      }
      i := i + 1;
    }
    var le := (a: string, b: string) => StrLe(a, b);
    forall a: string, b: string ensures le(a, b) || le(b, a) {
      StrLeTotal(a, b);
    }
    forall a: string, b: string, c: string | le(a, b) && le(b, c) ensures le(a, c) {
      StrLeTransitive(a, b, c);
    }
    years := SortedCopyOf(distinct, le);
    NoDuplicatesPermutation(distinct, years);
    forall y ensures y in years <==> y in distinct {
      assert y in years <==> y in multiset(years);
    }
    forall i, j | 0 <= i < j < |years| ensures StrLt(years[i], years[j]) {
      assert le(years[i], years[j]);
    }
  }
}
