/**
 * The impact classifier of the dashboard: five ordered categories with fixed
 * thresholds per metric family, written once as a ladder of comparisons
 * (`getImpactCategory`) and twice more as tables of half-open bands
 * `[min, max)` that are searched with `find` (the monthly stacked counts and
 * the "Categorías de Impacto" panel).
 */
module Impact {
  import opened Records
  import opened Tally

  /** The metric selector of the evolution view (`evolutionMetric`). */
  datatype Metric = MedianViews | AvgViews | AvgLikes | MedianIr | AvgIr

  datatype Family = IrFamily | ViewsFamily | LikesFamily

  /** Both IR metrics read the IR, both views metrics the views, anything else the likes. */
  function FamilyOf(m: Metric): Family
  {
    if m == AvgIr || m == MedianIr then IrFamily
    else if m == AvgViews || m == MedianViews then ViewsFamily
    else LikesFamily
  }

  /** The value of a post that the family reads. */
  function FamilyValue(v: Video, f: Family): real
  {
    match f
    case IrFamily => v.ir
    case ViewsFamily => v.views as real
    case LikesFamily => v.likes as real
  }

  /** The family's value of every post, in order. */
  function FamilyValues(vs: seq<Video>, f: Family): (r: seq<real>)
    ensures |r| == |vs| && forall i :: 0 <= i < |vs| ==> r[i] == FamilyValue(vs[i], f)
  {
    seq(|vs|, i requires 0 <= i < |vs| => FamilyValue(vs[i], f))
  }

  datatype Category = MuyBajo | Bajo | Medio | Alto | MuyAlto

  function Rank(c: Category): nat
  {
    match c
    case MuyBajo => 0
    case Bajo => 1
    case Medio => 2
    case Alto => 3
    case MuyAlto => 4
  }

  /** The label the category carries in the data and in the impact filter. */
  function Name(c: Category): string
  {
    match c
    case MuyBajo => "Muy Bajo"
    case Bajo => "Bajo"
    case Medio => "Medio"
    case Alto => "Alto"
    case MuyAlto => "Muy Alto"
  }

  // -----------------------------------------------------------------------
  // The band tables
  // -----------------------------------------------------------------------

  datatype Bound = Finite(x: real) | Infinity

  /** One row of a category table: the values `v` with `min <= v < max`. */
  datatype Band = Band(category: Category, min: real, max: Bound)

  predicate InBand(b: Band, v: real)
  {
    b.min <= v && (b.max.Infinity? || v < b.max.x)
  }

  /** The five bands of a family, lowest first. */
  function Table(f: Family): seq<Band>
  {
    match f
    case IrFamily =>
      [Band(MuyBajo, 0.0, Finite(3.16)), Band(Bajo, 3.16, Finite(5.36)),
       Band(Medio, 5.36, Finite(11.09)), Band(Alto, 11.09, Finite(23.22)),
       Band(MuyAlto, 23.22, Infinity)]
    case ViewsFamily =>
      [Band(MuyBajo, 0.0, Finite(1746.0)), Band(Bajo, 1746.0, Finite(5197.0)),
       Band(Medio, 5197.0, Finite(26760.0)), Band(Alto, 26760.0, Finite(1600000.0)),
       Band(MuyAlto, 1600000.0, Infinity)]
    case LikesFamily =>
      [Band(MuyBajo, 0.0, Finite(58.0)), Band(Bajo, 58.0, Finite(228.0)),
       Band(Medio, 228.0, Finite(2788.0)), Band(Alto, 2788.0, Finite(50000.0)),
       Band(MuyAlto, 50000.0, Infinity)]
  }

  /** `categories.find(c => v >= c.min && v < c.max)`: the index of the first band holding `v`. */
  function FindBand(t: seq<Band>, v: real): (r: Option<nat>)
    ensures r.Some? ==> r.value < |t| && InBand(t[r.value], v)
    ensures r.Some? ==> forall j :: 0 <= j < r.value ==> !InBand(t[j], v)
    ensures r.None? ==> forall j :: 0 <= j < |t| ==> !InBand(t[j], v)
    decreases |t|
  {
    if t == [] then None
    else if InBand(t[0], v) then Some(0)
    else match FindBand(t[1..], v)
      case None => None
      case Some(k) => Some(k + 1)
  }

  // -----------------------------------------------------------------------
  // The ladder
  // -----------------------------------------------------------------------

  /**
   * `getImpactCategory`'s ladder: the first threshold the value is below
   * decides. Every non-negative value lands in the band of its family's table
   * with the same category; negative values fall to the lowest category.
   */
  function Classify(f: Family, v: real): (c: Category)
    ensures v >= 0.0 ==> Table(f)[Rank(c)].category == c && InBand(Table(f)[Rank(c)], v)
    ensures v < 0.0 ==> c == MuyBajo
  {
    match f
    case IrFamily =>
      if v < 3.16 then MuyBajo
      else if v < 5.36 then Bajo
      else if v < 11.09 then Medio
      else if v < 23.22 then Alto
      else MuyAlto
    case ViewsFamily =>
      if v < 1746.0 then MuyBajo
      else if v < 5197.0 then Bajo
      else if v < 26760.0 then Medio
      else if v < 1600000.0 then Alto
      else MuyAlto
    case LikesFamily =>
      if v < 58.0 then MuyBajo
      else if v < 228.0 then Bajo
      else if v < 2788.0 then Medio
      else if v < 50000.0 then Alto
      else MuyAlto
  }

  /** `getImpactCategory(video, metric)`. */
  function CategoryOf(v: Video, m: Metric): Category
  {
    Classify(FamilyOf(m), FamilyValue(v, FamilyOf(m)))
  }

  /**
   * The bands of a family partition the non-negative numbers: a value is in
   * band `k` exactly when the ladder gives the category of rank `k`, and the
   * `find` over the table returns that band.
   */
  lemma BandsPartition(f: Family, v: real, k: nat)
    requires v >= 0.0 && k < 5
    ensures |Table(f)| == 5
    ensures InBand(Table(f)[k], v) <==> Rank(Classify(f, v)) == k
    ensures FindBand(Table(f), v) == Some(Rank(Classify(f, v)))
  {
  }

  /** Negative values are in no band, so the table-driven counts skip them. */
  lemma NegativeInNoBand(f: Family, v: real)
    requires v < 0.0
    ensures FindBand(Table(f), v) == None
  {
  }

  /** A larger value never gets a lower category. */
  lemma ClassifyMonotone(f: Family, v: real, w: real)
    requires v <= w
    ensures Rank(Classify(f, v)) <= Rank(Classify(f, w))
  {
  }

  /** Lower bounds are inclusive. */
  lemma ClassifyAtThreshold()
    ensures Classify(IrFamily, 3.16) == Bajo
    ensures Classify(IrFamily, 3.159999) == MuyBajo
    ensures Classify(ViewsFamily, 1600000.0) == MuyAlto
    ensures Classify(LikesFamily, 57.0) == MuyBajo
  {
  }

  /** The violin view caps IR at 25; the cap never changes an IR category. */
  lemma IrCapKeepsCategory(v: real)
    ensures Classify(IrFamily, if v < 25.0 then v else 25.0) == Classify(IrFamily, v)
  {
  }

  // -----------------------------------------------------------------------
  // Table-driven counting
  // -----------------------------------------------------------------------

  /** The band index `find` gives each value, -1 for none. */
  function BandSlots(values: seq<real>, f: Family): (slots: seq<int>)
    ensures |slots| == |values|
  {
    seq(|values|, i requires 0 <= i < |values| => SlotOf(values[i], f))
  }

  /** The band index `find` gives one value, -1 for none. */
  function SlotOf(v: real, f: Family): int
  {
    match FindBand(Table(f), v) case Some(k) => k case None => -1
  }

  /** A value's band index is the rank of category `c` exactly when it is non-negative and the ladder gives `c`. */
  lemma SlotIsRank(v: real, f: Family, c: Category)
    ensures SlotOf(v, f) == Rank(c) <==> v >= 0.0 && Classify(f, v) == c
    ensures 0 <= SlotOf(v, f) < 5 <==> v >= 0.0
  {
    if v >= 0.0 {
      BandsPartition(f, v, Rank(c));
    } else {
      NegativeInNoBand(f, v);
    }
  }

  /** How many non-negative values the ladder puts in category `c`. */
  function CountCategory(values: seq<real>, f: Family, c: Category): nat
    decreases |values|
  {
    if values == [] then 0
    else
      var v := values[|values| - 1];
      CountCategory(values[..|values| - 1], f, c) + (if v >= 0.0 && Classify(f, v) == c then 1 else 0)
  }

  function CountNonNegative(values: seq<real>): nat
    decreases |values|
  {
    if values == [] then 0
    else CountNonNegative(values[..|values| - 1]) + (if values[|values| - 1] >= 0.0 then 1 else 0)
  }

  /**
   * The counter of a table row is the number of non-negative values the
   * ladder assigns to that row's category.
   */
  lemma {:induction false} BandCountIsCategoryCount(values: seq<real>, f: Family, c: Category)
    ensures Occurrences(BandSlots(values, f), Rank(c)) == CountCategory(values, f, c)
    decreases |values|
  {
    if values != [] {
      var init, v := values[..|values| - 1], values[|values| - 1];
      assert BandSlots(values, f)[..|values| - 1] == BandSlots(init, f);
      BandCountIsCategoryCount(init, f, c);
      SlotIsRank(v, f, c);
    }
  }

  /** The values that find a band are exactly the non-negative ones. */
  lemma {:induction false} BandedAreNonNegative(values: seq<real>, f: Family)
    ensures InRange(BandSlots(values, f), 5) == CountNonNegative(values)
    decreases |values|
  {
    if values != [] {
      var init, v := values[..|values| - 1], values[|values| - 1];
      assert BandSlots(values, f)[..|values| - 1] == BandSlots(init, f);
      BandedAreNonNegative(init, f);
      SlotIsRank(v, f, MuyBajo);
    }
  }

  /**
   * The five counters of a month: counter `k` counts the non-negative values
   * of category rank `k`, and together they count every non-negative value.
   */
  lemma StackedCounts(values: seq<real>, f: Family)
    ensures |Counts(BandSlots(values, f), 5)| == 5
    ensures forall c :: Counts(BandSlots(values, f), 5)[Rank(c)] == CountCategory(values, f, c)
    ensures Stats.SumInt(Counts(BandSlots(values, f), 5)) == CountNonNegative(values)
  {
    forall c ensures Counts(BandSlots(values, f), 5)[Rank(c)] == CountCategory(values, f, c) {
      BandCountIsCategoryCount(values, f, c);
    }
    CountsTotal(BandSlots(values, f), 5);
    BandedAreNonNegative(values, f);
  }

  /** The categories' counters, filled as the loops over `categories.find` fill them. */
  method CountCategories(values: seq<real>, f: Family) returns (counts: seq<int>)
    ensures |counts| == 5
    ensures forall c :: counts[Rank(c)] == CountCategory(values, f, c)
    ensures Stats.SumInt(counts) == CountNonNegative(values)
  {
    var slots := new int[|values|];
    var i := 0;
    while i < |values|
      invariant 0 <= i <= |values|
      invariant slots[..i] == BandSlots(values, f)[..i]
    {
      var found := FindBand(Table(f), values[i]);
      slots[i] := match found case Some(k) => k case None => -1;
      assert slots[..i + 1] == slots[..i] + [slots[i]];
      i := i + 1;
    }
    assert slots[..] == BandSlots(values, f);
    counts := CountSlots(slots[..], 5);
    StackedCounts(values, f);
  }
}
