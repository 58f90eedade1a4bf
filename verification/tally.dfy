/**
 * Counting values into numbered slots: the dashboard's "for each value
 * find its slot and increment that slot's counter" loops (the impact
 * categories' `count` fields and the histogram's `bins` array). A slot
 * number outside `[0, n)` changes no counter.
 */
module Tally {
  import opened Stats

  /** How many of the slot numbers equal `k`. */
  function Occurrences(slots: seq<int>, k: int): (c: nat)
    ensures c <= |slots|
    decreases |slots|
  {
    if slots == [] then 0
    else Occurrences(slots[..|slots| - 1], k) + (if slots[|slots| - 1] == k then 1 else 0)
  }

  /** How many of the slot numbers lie in `[0, n)`. */
  function InRange(slots: seq<int>, n: nat): (c: nat)
    ensures c <= |slots|
    decreases |slots|
  {
    if slots == [] then 0
    else InRange(slots[..|slots| - 1], n) + (if 0 <= slots[|slots| - 1] < n then 1 else 0)
  }

  /** The counter of every slot. */
  function Counts(slots: seq<int>, n: nat): (c: seq<int>)
    ensures |c| == n
  {
    seq(n, k requires 0 <= k < n => Occurrences(slots, k))
  }

  function Bump(c: seq<int>, k: int): (r: seq<int>)
    ensures |r| == |c|
  {
    if 0 <= k < |c| then c[k := c[k] + 1] else c
  }

  lemma CountsStep(slots: seq<int>, x: int, n: nat)
    ensures Counts(slots + [x], n) == Bump(Counts(slots, n), x)
  {
    assert (slots + [x])[..|slots|] == slots;
  }

  lemma {:induction false} SumIntBump(c: seq<int>, k: int)
    ensures SumInt(Bump(c, k)) == SumInt(c) + (if 0 <= k < |c| then 1 else 0)
    decreases |c|
  {
    if c != [] && 0 <= k < |c| {
      var init := c[..|c| - 1];
      if k < |c| - 1 {
        SumIntBump(init, k);
        assert Bump(c, k)[..|c| - 1] == Bump(init, k);
      } else {
        assert Bump(c, k)[..|c| - 1] == init;
      }
    }
  }

  /** The counters add up to the number of values whose slot exists. */
  lemma {:induction false} CountsTotal(slots: seq<int>, n: nat)
    ensures SumInt(Counts(slots, n)) == InRange(slots, n)
    decreases |slots|
  {
    if slots == [] {
      assert Counts(slots, n) == seq(n, k => 0);
      SumIntZeros(seq(n, k => 0));
    } else {
      var init, x := slots[..|slots| - 1], slots[|slots| - 1];
      assert slots == init + [x];
      CountsTotal(init, n);
      CountsStep(init, x, n);
      SumIntBump(Counts(init, n), x);
    }
  }

  /** Fills `n` counters from zero, one increment per value whose slot exists. */
  method CountSlots(slots: seq<int>, n: nat) returns (counts: seq<int>)
    ensures counts == Counts(slots, n)
  {
    var bins := new int[n](k => 0);
    var i := 0;
    while i < |slots|
      invariant 0 <= i <= |slots|
      invariant bins[..] == Counts(slots[..i], n)
    {
      assert slots[..i + 1] == slots[..i] + [slots[i]];
      CountsStep(slots[..i], slots[i], n);
      if 0 <= slots[i] < n {
        bins[slots[i]] := bins[slots[i]] + 1;
      }
      i := i + 1;
    }
    assert slots[..i] == slots;
    counts := bins[..];
  }
}
