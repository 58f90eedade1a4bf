/**
 * `Array.prototype.filter` and Python list comprehensions with a condition:
 * the elements that pass a test, in their order.
 */
module Lists {

  function Filter<T(!new)>(s: seq<T>, keep: T -> bool): (r: seq<T>)
    ensures |r| <= |s|
    ensures forall x :: x in r <==> x in s && keep(x)
    decreases |s|
  {
    if s == [] then []
    else
      var init, last := s[..|s| - 1], s[|s| - 1];
      assert forall x :: x in s <==> x in init || x == last;
      Filter(init, keep) + (if keep(last) then [last] else [])
  }

  /** Filtering distributes over concatenation. */
  lemma {:induction false} FilterAppend<T(!new)>(s: seq<T>, t: seq<T>, keep: T -> bool)
    ensures Filter(s + t, keep) == Filter(s, keep) + Filter(t, keep)
    decreases |t|
  {
    if t == [] {
      assert s + t == s;
    } else {
      var init, last := t[..|t| - 1], t[|t| - 1];
      var tail := if keep(last) then [last] else [];
      calc {
        Filter(s + t, keep);
        { assert s + t == (s + init) + [last]; FilterSnoc(s + init, last, keep); }
        Filter(s + init, keep) + tail;
        { FilterAppend(s, init, keep); }
        (Filter(s, keep) + Filter(init, keep)) + tail;
        Filter(s, keep) + (Filter(init, keep) + tail);
        { assert t == init + [last]; FilterSnoc(init, last, keep); }
        Filter(s, keep) + Filter(t, keep);
      }
    }
  }

  /** Filtering one more element appends it exactly when it passes. */
  lemma FilterSnoc<T(!new)>(s: seq<T>, x: T, keep: T -> bool)
    ensures Filter(s + [x], keep) == Filter(s, keep) + (if keep(x) then [x] else [])
  {
    assert (s + [x])[..|s|] == s;
  }

  /** A test everything passes keeps everything. */
  lemma {:induction false} FilterKeepsAll<T(!new)>(s: seq<T>, keep: T -> bool)
    requires forall i :: 0 <= i < |s| ==> keep(s[i])
    ensures Filter(s, keep) == s
    decreases |s|
  {
    if s != [] {
      var init := s[..|s| - 1];
      assert forall i :: 0 <= i < |init| ==> init[i] == s[i];
      FilterKeepsAll(init, keep);
      calc {
        Filter(s, keep);
        Filter(init, keep) + [s[|s| - 1]];
        init + [s[|s| - 1]];
        s;
      }
    }
  }

  /** `r` is `prefix` followed by the elements of `s[..j]` that pass. */
  ghost predicate FilteredInto<T(!new)>(r: seq<T>, prefix: seq<T>, s: seq<T>, j: nat, keep: T -> bool)
  {
    j <= |s| && r == prefix + Filter(s[..j], keep)
  }

  /** Looking at one more element appends it exactly when it passes. */
  lemma FilteredIntoStep<T(!new)>(r: seq<T>, prefix: seq<T>, s: seq<T>, j: nat, keep: T -> bool)
    requires FilteredInto(r, prefix, s, j, keep) && j < |s|
    ensures keep(s[j]) ==> FilteredInto(r + [s[j]], prefix, s, j + 1, keep)
    ensures !keep(s[j]) ==> FilteredInto(r, prefix, s, j + 1, keep)
  {
    assert s[..j + 1] == s[..j] + [s[j]];
    FilterSnoc(s[..j], s[j], keep);
  }

  /** Once every element has been looked at, `r` is `prefix` followed by the filter of `s`. */
  lemma FilteredIntoDone<T(!new)>(r: seq<T>, prefix: seq<T>, s: seq<T>, keep: T -> bool)
    requires FilteredInto(r, prefix, s, |s|, keep)
    ensures r == prefix + Filter(s, keep)
  {
    assert s[..|s|] == s;
  }
}
