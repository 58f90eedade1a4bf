/**
 * The distribution ("violin") view of the dashboard (`violinValues`): the
 * plotted value of each selected post, its upper median and mean, and a
 * histogram of `numBins` equal-width bins over `[0, maxValue]`.
 */
module Violin {
  import opened Records
  import opened Stats
  import opened Tally
  import opened Impact
  import opened Evolution

  /** The IR axis stops at 25. */
  const IrCap: real := 25.0

  /** The plotted value of each post: its IR capped at 25, its views, or its likes. */
  function ViolinValues(vs: seq<Video>, metric: Metric): (r: seq<real>)
    ensures |r| == |vs|
    ensures FamilyOf(metric) == IrFamily ==>
      forall i :: 0 <= i < |vs| ==> r[i] <= IrCap && (vs[i].ir <= IrCap ==> r[i] == vs[i].ir)
    ensures FamilyOf(metric) != IrFamily ==> r == FamilyValues(vs, FamilyOf(metric))
  {
    if FamilyOf(metric) == IrFamily then
      seq(|vs|, i requires 0 <= i < |vs| => if vs[i].ir < IrCap then vs[i].ir else IrCap)
    else
      FamilyValues(vs, FamilyOf(metric))
  }

  /** `Math.max(...values, floor)`. */
  function MaxWith(s: seq<real>, floor: real): (m: real)
    ensures m >= floor
    ensures forall i :: 0 <= i < |s| ==> s[i] <= m
    ensures m == floor || m in s
    decreases |s|
  {
    if s == [] then floor
    else
      var m := MaxWith(s[..|s| - 1], floor);
      if s[|s| - 1] > m then s[|s| - 1] else m
  }

  /** The top of the value axis: 25 for IR, otherwise the largest value but at least 1. */
  function MaxValue(values: seq<real>, metric: Metric): (m: real)
    ensures m >= 1.0
    ensures FamilyOf(metric) == IrFamily ==> m == IrCap
    ensures FamilyOf(metric) != IrFamily ==> (forall i :: 0 <= i < |values| ==> values[i] <= m) && (m == 1.0 || m in values)
  {
    if FamilyOf(metric) == IrFamily then IrCap else MaxWith(values, 1.0)
  }

  /** 26 bins for the IR average only; the IR median gets 50 like the other metrics. */
  function NumBins(metric: Metric): (n: nat)
    ensures n > 1
    ensures n == 26 <==> metric == AvgIr
    ensures n != 26 ==> n == 50
  {
    if metric == AvgIr then 26 else 50
  }

  /** `Math.min(Math.floor((value / maxValue) * (numBins - 1)), numBins - 1)`. */
  function BinIndex(v: real, maxValue: real, numBins: nat): (k: int)
    requires maxValue > 0.0 && numBins > 1
    ensures k <= numBins - 1
    ensures v >= 0.0 ==> 0 <= k
    ensures v < 0.0 ==> k < 0
    ensures 0.0 <= v <= maxValue ==> k as real <= v / maxValue * ((numBins - 1) as real)
  {
    var q := v / maxValue;
    var x := q * ((numBins - 1) as real);
    assert v < 0.0 ==> q < 0.0;
    assert q < 0.0 ==> x < 0.0 by {
      if q < 0.0 {
        NegativeTimesPositive(q, (numBins - 1) as real);
      }
    }
    var f := x.Floor;
    if f < numBins - 1 then f else numBins - 1
  }

  lemma NegativeTimesPositive(a: real, b: real)
    requires a < 0.0 && b > 0.0
    ensures a * b < 0.0
  {
  }

  function BinSlots(values: seq<real>, maxValue: real, numBins: nat): (slots: seq<int>)
    requires maxValue > 0.0 && numBins > 1
    ensures |slots| == |values|
    ensures forall i :: 0 <= i < |values| ==> slots[i] == BinIndex(values[i], maxValue, numBins)
  {
    seq(|values|, i requires 0 <= i < |values| => BinIndex(values[i], maxValue, numBins))
  }

  datatype ViolinStats = ViolinStats(median: real, average: real, maxValue: real, numBins: nat, bins: seq<int>)

  /** The statistics of a series of plotted values. */
  method Summarize(values: seq<real>, metric: Metric) returns (r: ViolinStats)
    ensures r.median == UpperMedian(values)
    ensures r.average == Mean(values)
    ensures r.maxValue == MaxValue(values, metric)
    ensures r.numBins == NumBins(metric)
    ensures r.bins == Counts(BinSlots(values, r.maxValue, r.numBins), r.numBins)
  {
    var sorted := SortNumbers(values);
    var median := if |sorted| > 0 then sorted[|sorted| / 2] else 0.0;
    var maxValue := MaxValue(values, metric);
    var numBins := NumBins(metric);
    var bins := CountSlots(BinSlots(values, maxValue, numBins), numBins);
    r := ViolinStats(median, Mean(values), maxValue, numBins, bins);
  }

  /** `violinValues` without the jitter and the outline. */
  method ViolinValuesOf(data: DataSet, selectedMonth: Option<string>, metric: Metric) returns (r: ViolinStats)
    ensures var values := ViolinValues(SelectedVideos(data, selectedMonth), metric);
      r.median == UpperMedian(values) && r.average == Mean(values)
      && r.maxValue == MaxValue(values, metric) && r.numBins == NumBins(metric)
      && r.bins == Counts(BinSlots(values, r.maxValue, r.numBins), r.numBins)
  {
    var videos := SelectVideos(data, selectedMonth);
    r := Summarize(ViolinValues(videos, metric), metric);
  }

  /**
   * Every non-negative value is counted in exactly one bin, and negative
   * values in none: the bins add up to the number of non-negative values.
   */
  lemma {:induction false} BinsTotal(values: seq<real>, maxValue: real, numBins: nat)
    requires maxValue > 0.0 && numBins > 1
    ensures SumInt(Counts(BinSlots(values, maxValue, numBins), numBins)) == CountNonNegative(values)
  {
    CountsTotal(BinSlots(values, maxValue, numBins), numBins);
    InRangeIsNonNegative(values, maxValue, numBins);
  }

  lemma {:induction false} InRangeIsNonNegative(values: seq<real>, maxValue: real, numBins: nat)
    requires maxValue > 0.0 && numBins > 1
    ensures InRange(BinSlots(values, maxValue, numBins), numBins) == CountNonNegative(values)
    decreases |values|
  {
    if values != [] {
      var init := values[..|values| - 1];
      assert BinSlots(values, maxValue, numBins)[..|values| - 1] == BinSlots(init, maxValue, numBins);
      InRangeIsNonNegative(init, maxValue, numBins);
    }
  }

  /** When every value is non-negative (views, likes, IR), the bins count every post. */
  lemma ViolinBinsCountEveryPost(vs: seq<Video>, metric: Metric)
    requires forall v :: v in vs ==> v.views >= 0 && v.likes >= 0 && v.ir >= 0.0
    ensures var values := ViolinValues(vs, metric);
      SumInt(Counts(BinSlots(values, MaxValue(values, metric), NumBins(metric)), NumBins(metric))) == |vs|
  {
    var values := ViolinValues(vs, metric);
    assert forall i :: 0 <= i < |values| ==> values[i] >= 0.0 by {
      forall i | 0 <= i < |values| ensures values[i] >= 0.0 {
        assert vs[i] in vs;
      }
    }
    BinsTotal(values, MaxValue(values, metric), NumBins(metric));
    AllNonNegative(values);
  }

  lemma {:induction false} AllNonNegative(values: seq<real>)
    requires forall i :: 0 <= i < |values| ==> values[i] >= 0.0
    ensures CountNonNegative(values) == |values|
    decreases |values|
  {
    if values != [] {
      AllNonNegative(values[..|values| - 1]);
    }
  }

  /** Every plotted value lies on the axis `[0, maxValue]` when it is non-negative, so no bin index is clamped except the top one. */
  lemma ValuesOnAxis(vs: seq<Video>, metric: Metric, i: nat)
    requires i < |vs| && FamilyValue(vs[i], FamilyOf(metric)) >= 0.0
    ensures var values := ViolinValues(vs, metric);
      0.0 <= values[i] <= MaxValue(values, metric)
      && 0 <= BinIndex(values[i], MaxValue(values, metric), NumBins(metric)) < NumBins(metric)
  {
  }
}
