/**
 * Grouping records by month, as both preprocessing scripts do: the
 * `defaultdict` of lists the first script appends to, and the pandas
 * `groupby('month')` of the second. Each group keeps its records in input
 * order.
 */
module MonthGrouping {
  import opened Text
  import opened Records
  import opened Lists

  /** The `YYYY-MM` part of a date (`strftime('%Y-%m')`, `to_period('M')`). */
  function MonthOfDate(d: string): (k: string)
    ensures StartsWith(d, k)
    ensures IsIsoDate(d) ==> k == MonthKey(d)
  {
    if |d| >= 7 then d[..7] else d
  }

  function HasKey<T>(keyOf: T -> string, k: string): T -> bool
  {
    (x: T) => keyOf(x) == k
  }

  function KeysOf<T(!new)>(xs: seq<T>, keyOf: T -> string): (ks: set<string>)
    ensures forall k :: k in ks <==> exists i :: 0 <= i < |xs| && keyOf(xs[i]) == k
  {
    set i | 0 <= i < |xs| :: keyOf(xs[i])
  }

  /** The groups: one per key that occurs, holding the records with that key in their input order. */
  function Grouped<T(!new)>(xs: seq<T>, keyOf: T -> string): (g: map<string, seq<T>>)
    ensures g.Keys == KeysOf(xs, keyOf)
    ensures forall k :: k in g ==> g[k] == Filter(xs, HasKey(keyOf, k))
  {
    map k | k in KeysOf(xs, keyOf) :: Filter(xs, HasKey(keyOf, k))
  }

  /** Every group is non-empty and holds only records of its key, and every record is in the group of its key. */
  lemma GroupsPartition<T(!new)>(xs: seq<T>, keyOf: T -> string)
    ensures var g := Grouped(xs, keyOf);
      (forall k :: k in g ==> |g[k]| > 0 && forall x :: x in g[k] ==> keyOf(x) == k)
      && forall x :: x in xs ==> keyOf(x) in g && x in g[keyOf(x)]
  {
    var g := Grouped(xs, keyOf);
    forall k | k in g ensures |g[k]| > 0 {
      var i :| 0 <= i < |xs| && keyOf(xs[i]) == k;
      assert xs[i] in g[k];
    }
    forall x | x in xs ensures keyOf(x) in g {
      var i :| 0 <= i < |xs| && xs[i] == x;
    }
  }

  /** A filter that keeps nothing of a sequence gives the empty sequence. */
  lemma FilterNone<T(!new)>(xs: seq<T>, keep: T -> bool)
    requires forall x :: x in xs ==> !keep(x)
    ensures Filter(xs, keep) == []
  {
    if Filter(xs, keep) != [] {
      assert Filter(xs, keep)[0] in Filter(xs, keep);
    }
  }

  /** One more record adds its own key and no other. */
  lemma GroupedSnocKeys<T(!new)>(xs: seq<T>, x: T, keyOf: T -> string)
    ensures KeysOf(xs + [x], keyOf) == KeysOf(xs, keyOf) + {keyOf(x)}
  {
    forall j ensures j in KeysOf(xs + [x], keyOf) <==> j in KeysOf(xs, keyOf) + {keyOf(x)} {
      if j in KeysOf(xs + [x], keyOf) && j != keyOf(x) {
        var i :| 0 <= i < |xs + [x]| && keyOf((xs + [x])[i]) == j;
        assert i < |xs| && keyOf(xs[i]) == j;
      }
      if j in KeysOf(xs, keyOf) {
        var i :| 0 <= i < |xs| && keyOf(xs[i]) == j;
        assert keyOf((xs + [x])[i]) == j;
      }
      assert keyOf((xs + [x])[|xs|]) == keyOf(x);
    }
  }

  /** `g` has the keys of `xs` and holds, under each, the records of `xs` with that key in input order. */
  ghost predicate GroupsOf<T(!new)>(g: map<string, seq<T>>, xs: seq<T>, keyOf: T -> string)
  {
    g.Keys == KeysOf(xs, keyOf) && forall k :: k in g ==> g[k] == Filter(xs, HasKey(keyOf, k))
  }

  /** The groups are determined by their keys and contents. */
  lemma GroupsOfIsGrouped<T(!new)>(g: map<string, seq<T>>, xs: seq<T>, keyOf: T -> string)
    requires GroupsOf(g, xs, keyOf)
    ensures g == Grouped(xs, keyOf)
  {
  }

  /** Appending one more record to the list of its key keeps the groups exact. */
  lemma GroupsOfSnoc<T(!new)>(g: map<string, seq<T>>, xs: seq<T>, x: T, keyOf: T -> string)
    requires GroupsOf(g, xs, keyOf)
    ensures GroupsOf(g[keyOf(x) := (if keyOf(x) in g then g[keyOf(x)] else []) + [x]], xs + [x], keyOf)
  {
    var k := keyOf(x);
    var h := g[k := (if k in g then g[k] else []) + [x]];
    GroupedSnocKeys(xs, x, keyOf);
    forall j | j in h ensures h[j] == Filter(xs + [x], HasKey(keyOf, j)) {
      FilterSnoc(xs, x, HasKey(keyOf, j));
      if j == k && k !in g {
        forall y | y in xs ensures !HasKey(keyOf, k)(y) {}
        FilterNone(xs, HasKey(keyOf, k));
      }
    }
  }

  /** One more record lands at the end of its own group and leaves the other groups alone. */
  lemma GroupedSnoc<T(!new)>(xs: seq<T>, x: T, keyOf: T -> string)
    ensures var g := Grouped(xs, keyOf);
      Grouped(xs + [x], keyOf) == g[keyOf(x) := (if keyOf(x) in g then g[keyOf(x)] else []) + [x]]
  {
    var g := Grouped(xs, keyOf);
    GroupsOfSnoc(g, xs, x, keyOf);
    GroupsOfIsGrouped(g[keyOf(x) := (if keyOf(x) in g then g[keyOf(x)] else []) + [x]], xs + [x], keyOf);
  }

  /** Appends every record to the list of its key, record after record. */
  method GroupBy<T(!new)>(xs: seq<T>, keyOf: T -> string) returns (g: map<string, seq<T>>)
    ensures g == Grouped(xs, keyOf)
  {
    g := map[];
    var i := 0;
    while i < |xs|
      invariant 0 <= i <= |xs|
      invariant GroupsOf(g, xs[..i], keyOf)
    {
      GroupsOfSnoc(g, xs[..i], xs[i], keyOf);
      assert xs[..i + 1] == xs[..i] + [xs[i]];
      var k := keyOf(xs[i]);
      if k in g {
        g := g[k := g[k] + [xs[i]]];
      } else {
        assert [] + [xs[i]] == [xs[i]];
        g := g[k := [xs[i]]];
      }
      i := i + 1;
    }
    assert xs[..i] == xs;
    GroupsOfIsGrouped(g, xs, keyOf);
  }

  /** `monthly` holds `f(k, groups[k])` for every month `k` of `groups` outside `keys`, and nothing else. */
  ghost predicate BuiltOutside<V, W>(groups: map<string, V>, monthly: map<string, W>, keys: set<string>, f: (string, V) -> W)
  {
    keys <= groups.Keys && monthly.Keys == groups.Keys - keys
    && forall k :: k in monthly ==> k in groups && monthly[k] == f(k, groups[k])
  }

  /** Adding the entry of one more month keeps the document built outside the remaining months. */
  lemma BuiltOutsideStep<V, W>(groups: map<string, V>, monthly: map<string, W>, keys: set<string>,
                               f: (string, V) -> W, k: string, w: W)
    requires BuiltOutside(groups, monthly, keys, f) && k in keys && w == f(k, groups[k])
    ensures BuiltOutside(groups, monthly[k := w], keys - {k}, f)
  {
  }
}
