/**
 * Sums, means and the two median rules that coexist in the system:
 *
 *   - the upper-middle rule: element `n / 2` (integer division) of the
 *     ascending sort, 0 for an empty series (Home.tsx monthly and violin
 *     medians, process_data_v2.py month buckets);
 *   - the average-of-middles rule (Home.tsx artist medians,
 *     `statistics.median` in process_data.py).
 *
 * Floating-point numbers are read as reals.
 */
module Stats {
  import opened Sorting

  /** Left-to-right sum, as `reduce((a, b) => a + b, 0)` and Python `sum` compute it. */
  function Sum(s: seq<real>): real
    decreases |s|
  {
    if s == [] then 0.0 else Sum(s[..|s| - 1]) + s[|s| - 1]
  }

  function SumInt(s: seq<int>): int
    decreases |s|
  {
    if s == [] then 0 else SumInt(s[..|s| - 1]) + s[|s| - 1]
  }

  /** The sum of five counters written out. */
  lemma SumOfFive(c: seq<int>)
    requires |c| == 5
    ensures SumInt(c) == c[0] + c[1] + c[2] + c[3] + c[4]
  {
    assert c[..1][..0] == [] && c[..2][..1] == c[..1] && c[..3][..2] == c[..2];
    assert c[..4][..3] == c[..3] && c[..5][..4] == c[..4] && c[..5] == c;
    assert SumInt(c[..1]) == c[0];
    assert SumInt(c[..2]) == c[0] + c[1];
    assert SumInt(c[..3]) == c[0] + c[1] + c[2];
    assert SumInt(c[..4]) == c[0] + c[1] + c[2] + c[3];
  }

  /** A sum of zeros is zero. */
  lemma {:induction false} SumIntZeros(s: seq<int>)
    requires forall i :: 0 <= i < |s| ==> s[i] == 0
    ensures SumInt(s) == 0
    decreases |s|
  {
    if s != [] {
      SumIntZeros(s[..|s| - 1]);
    }
  }

  /** Arithmetic mean; 0 for an empty series. */
  function Mean(s: seq<real>): (m: real)
    ensures |s| == 0 ==> m == 0.0
    ensures |s| > 0 ==> m * (|s| as real) == Sum(s)
  {
    if |s| == 0 then 0.0 else Sum(s) / (|s| as real)
  }

  lemma {:induction false} SumBounds(s: seq<real>, lo: real, hi: real)
    requires forall i :: 0 <= i < |s| ==> lo <= s[i] <= hi
    ensures (|s| as real) * lo <= Sum(s) <= (|s| as real) * hi
    decreases |s|
  {
    if s != [] {
      SumBounds(s[..|s| - 1], lo, hi);
    }
  }

  /** A mean lies between any lower and upper bound of the series. */
  lemma MeanBetween(s: seq<real>, lo: real, hi: real)
    requires |s| > 0
    requires forall i :: 0 <= i < |s| ==> lo <= s[i] <= hi
    ensures lo <= Mean(s) <= hi
  {
    SumBounds(s, lo, hi);
  }

  /** A series without negative elements has a non-negative mean. */
  lemma {:induction false} MeanNonNegative(s: seq<real>)
    requires forall i :: 0 <= i < |s| ==> 0.0 <= s[i]
    ensures Mean(s) >= 0.0
    decreases |s|
  {
    if s != [] {
      MeanNonNegative(s[..|s| - 1]);
      var n := (|s| - 1) as real;
      assert Sum(s[..|s| - 1]) == Mean(s[..|s| - 1]) * n;
      assert Sum(s) >= 0.0;
    }
  }

  lemma {:induction false} SumAppend(s: seq<real>, t: seq<real>)
    ensures Sum(s + t) == Sum(s) + Sum(t)
    decreases |t|
  {
    if t == [] {
      assert s + t == s;
    } else {
      assert (s + t)[..|s + t| - 1] == s + t[..|t| - 1];
      SumAppend(s, t[..|t| - 1]);
    }
  }

  // -----------------------------------------------------------------------
  // Ascending order of numbers
  // -----------------------------------------------------------------------

  ghost predicate Ascending(t: seq<real>)
  {
    forall i, j :: 0 <= i < j < |t| ==> t[i] <= t[j]
  }

  function Insert(x: real, t: seq<real>): (r: seq<real>)
    ensures multiset(r) == multiset(t) + multiset{x}
    decreases |t|
  {
    if t == [] || x <= t[0] then
      [x] + t
    else
      assert t == [t[0]] + t[1..];
      [t[0]] + Insert(x, t[1..])
  }

  /** A lower bound of `t` that is also at most `x` bounds `Insert(x, t)`. */
  lemma InsertKeepsLowerBound(x: real, t: seq<real>, b: real)
    requires b <= x && forall i :: 0 <= i < |t| ==> b <= t[i]
    ensures forall i :: 0 <= i < |Insert(x, t)| ==> b <= Insert(x, t)[i]
  {
    var r := Insert(x, t);
    forall i | 0 <= i < |r| ensures b <= r[i] {
      assert r[i] in multiset(r);
      if r[i] != x {
        var j :| 0 <= j < |t| && t[j] == r[i];
      }
    }
  }

  lemma {:induction false} InsertAscending(x: real, t: seq<real>)
    requires Ascending(t)
    ensures Ascending(Insert(x, t))
    decreases |t|
  {
    if t != [] && x > t[0] {
      var tail := t[1..];
      assert Ascending(tail);
      InsertAscending(x, tail);
      InsertKeepsLowerBound(x, tail, t[0]);
      assert Insert(x, t) == [t[0]] + Insert(x, tail);
    }
  }

  /** The ascending sort of a series, as a value. */
  function SortedCopy(s: seq<real>): (t: seq<real>)
    ensures Ascending(t)
    ensures multiset(t) == multiset(s)
    ensures |t| == |s|
    decreases |s|
  {
    if s == [] then []
    else
      assert s == [s[0]] + s[1..];
      InsertAscending(s[0], SortedCopy(s[1..]));
      var t := Insert(s[0], SortedCopy(s[1..]));
      assert |t| == |multiset(t)| == |multiset(s)| == |s|;
      t
  }

  /** The first element of an ascending sequence is its least. */
  lemma HeadIsLeast(t: seq<real>, x: real)
    requires Ascending(t)
    requires x in multiset(t)
    ensures t[0] <= x
  {
    var k :| 0 <= k < |t| && t[k] == x;
  }

  /** Two ascending arrangements of the same values are the same sequence. */
  lemma {:induction false} AscendingPermutationUnique(t: seq<real>, u: seq<real>)
    requires Ascending(t) && Ascending(u)
    requires multiset(t) == multiset(u)
    ensures t == u
    decreases |t|
  {
    assert |t| == |multiset(t)| == |multiset(u)| == |u|;
    if t != [] {
      HeadIsLeast(t, u[0]);
      HeadIsLeast(u, t[0]);
      assert t[0] == u[0];
      assert t == [t[0]] + t[1..] && u == [u[0]] + u[1..];
      assert multiset(t) == multiset{t[0]} + multiset(t[1..]);
      assert multiset(u) == multiset{u[0]} + multiset(u[1..]);
      assert multiset(t[1..]) == multiset(t) - multiset{t[0]};
      assert multiset(u[1..]) == multiset(u) - multiset{u[0]};
      AscendingPermutationUnique(t[1..], u[1..]);
    }
  }

  /** Sorts numbers ascending, as `.sort((a, b) => a - b)` does. */
  method SortNumbers(s: seq<real>) returns (t: seq<real>)
    ensures t == SortedCopy(s)
  {
    var le := (x: real, y: real) => x <= y;
    assert TotalPreorder(le);
    t := SortedCopyOf(s, le);
    assert Ascending(t);
    AscendingPermutationUnique(t, SortedCopy(s));
  }

  // -----------------------------------------------------------------------
  // The two median rules
  // -----------------------------------------------------------------------

  /** Element `n / 2` of the ascending sort; 0 when there are no values. */
  function UpperMedian(s: seq<real>): (m: real)
    ensures |s| == 0 ==> m == 0.0
    ensures |s| > 0 ==> m in s
  {
    if |s| == 0 then 0.0
    else
      var t := SortedCopy(s);
      assert t[|s| / 2] in multiset(s);
      t[|s| / 2]
  }

  /** The middle element for odd `n`, the mean of the two middle elements for even `n`. */
  function TrueMedian(s: seq<real>): (m: real)
    requires |s| > 0
  {
    MiddleMean(SortedCopy(s))
  }

  /** The middle element of a series of odd length, the mean of its two middle elements otherwise. */
  function MiddleMean(t: seq<real>): real
    requires |t| > 0
  {
    var mid := |t| / 2;
    if |t| % 2 == 0 then (t[mid - 1] + t[mid]) / 2.0 else t[mid]
  }

  /** Both rules depend only on the values, not on their order. */
  lemma MediansIgnoreOrder(s: seq<real>, s': seq<real>)
    requires multiset(s) == multiset(s')
    ensures |s| == |s'|
    ensures UpperMedian(s) == UpperMedian(s')
    ensures |s| > 0 ==> TrueMedian(s) == TrueMedian(s')
  {
    assert |s| == |multiset(s)| == |multiset(s')| == |s'|;
    AscendingPermutationUnique(SortedCopy(s), SortedCopy(s'));
  }

  /** On a series that is already ascending the upper median is its element `n / 2`. */
  lemma UpperMedianOfAscending(s: seq<real>)
    requires Ascending(s) && |s| > 0
    ensures UpperMedian(s) == s[|s| / 2]
  {
    AscendingPermutationUnique(SortedCopy(s), s);
  }

  /** In an ascending series the middle mean lies between the two middle elements. */
  lemma MiddlesOfAscending(t: seq<real>)
    requires Ascending(t) && |t| > 0
    ensures t[(|t| - 1) / 2] <= MiddleMean(t) <= t[|t| / 2]
    ensures |t| % 2 == 1 ==> MiddleMean(t) == t[|t| / 2]
  {
    var mid := |t| / 2;
    if |t| % 2 == 0 {
      assert (|t| - 1) / 2 == mid - 1;
      assert t[mid - 1] <= t[mid];
    } else {
      assert (|t| - 1) / 2 == mid;
    }
  }

  /** For an odd count the rules agree; for an even count the true median is never above the upper one. */
  lemma TrueMedianVersusUpper(s: seq<real>)
    requires |s| > 0
    ensures |s| % 2 == 1 ==> TrueMedian(s) == UpperMedian(s)
    ensures TrueMedian(s) <= UpperMedian(s)
    ensures TrueMedian(s) >= SortedCopy(s)[(|s| - 1) / 2]
  {
    var t := SortedCopy(s);
    assert |t| == |s|;
    MiddlesOfAscending(t);
    assert UpperMedian(s) == t[|t| / 2];
  }

  /** The ascending sort of [2, 1]. */
  lemma SortedTwoOne()
    ensures SortedCopy([2.0, 1.0]) == [1.0, 2.0]
  {
    assert [2.0, 1.0][1..] == [1.0] && [1.0][1..] == [];
    assert SortedCopy([1.0]) == [1.0];
    assert SortedCopy([2.0, 1.0]) == Insert(2.0, [1.0]) == [1.0, 2.0];
  }

  /** The rules differ on [1, 2]: the upper median is 2, the true median 1.5. */
  lemma MedianRulesDiffer()
    ensures UpperMedian([2.0, 1.0]) == 2.0
    ensures TrueMedian([2.0, 1.0]) == 1.5
  {
    SortedTwoOne();
  }
}
