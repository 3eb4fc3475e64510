/** The heatmap of `sample_histogram` in `sonda-wasm/src/lib.rs`: cumulative histogram samples,
    one a tick, taken apart again into one cell per observation. The drawn values are inputs;
    `f64` values are reals, the infinities and NaN, which is below no bound. */
module Heatmap {

  datatype Value = NaN | NegInf | Fin(x: real) | PosInf

  predicate AtMost(v: Value, bound: real)
  {
    v.NegInf? || (v.Fin? && v.x <= bound)
  }

  /** What `validate_buckets` lets through, as far as it matters here. */
  predicate Sorted(bounds: seq<real>)
  {
    forall i, j :: 0 <= i < j < |bounds| ==> bounds[i] < bounds[j]
  }

  // ---- Cumulative counts, and the cell of an observation ----

  function CountAtMost(values: seq<Value>, bound: real): nat
  {
    if values == [] then 0
    else CountAtMost(values[..|values| - 1], bound) + if AtMost(values[|values| - 1], bound) then 1 else 0
  }

  /** The only cell of a row an observation may be counted in: that of the first bound it is at
      most, or the last, `+Inf`. */
  predicate InCell(bounds: seq<real>, v: Value, j: nat)
    requires j <= |bounds|
  {
    match v
    case NegInf => j == 0
    case Fin(x) => (j < |bounds| ==> x <= bounds[j]) && (j > 0 ==> bounds[j - 1] < x)
    case PosInf => j == |bounds|
    case NaN => j == |bounds|
  }

  function CountInCell(bounds: seq<real>, values: seq<Value>, j: nat): nat
    requires j <= |bounds|
  {
    if values == [] then 0
    else CountInCell(bounds, values[..|values| - 1], j) + if InCell(bounds, values[|values| - 1], j) then 1 else 0
  }

  lemma {:induction false} OneCell(bounds: seq<real>, v: Value)
    requires Sorted(bounds)
    ensures exists j: nat :: j <= |bounds| && InCell(bounds, v, j)
    ensures forall i: nat, j: nat
              | i <= |bounds| && j <= |bounds| && InCell(bounds, v, i) && InCell(bounds, v, j) :: i == j
  {
    var j: nat := 0;
    while j < |bounds| && !AtMost(v, bounds[j])
      invariant j <= |bounds| && forall i :: 0 <= i < j ==> !AtMost(v, bounds[i])
    {
      j := j + 1;
    }
    assert j > 0 ==> !AtMost(v, bounds[0]) && !AtMost(v, bounds[j - 1]);
    assert InCell(bounds, v, j);
    forall i: nat, k: nat | i <= |bounds| && k <= |bounds| && InCell(bounds, v, i) && InCell(bounds, v, k)
      ensures i == k
    {
    }
  }

  lemma {:induction false} CountConcat(a: seq<Value>, b: seq<Value>, bound: real)
    ensures CountAtMost(a + b, bound) == CountAtMost(a, bound) + CountAtMost(b, bound)
    decreases |b|
  {
    if b == [] {
      assert a + b == a;
    } else {
      assert (a + b)[..|a + b| - 1] == a + b[..|b| - 1];
      CountConcat(a, b[..|b| - 1], bound);
    }
  }

  /** How many values are at most the bound of bucket `j`, with `+Inf` after the last bound. */
  function UpTo(bounds: seq<real>, values: seq<Value>, j: nat): nat
    requires j <= |bounds|
  {
    if j < |bounds| then CountAtMost(values, bounds[j]) else |values|
  }

  /** A cell holds what its own bucket counts beyond the bucket before it; the chain of buckets
      never decreases. */
  lemma {:induction false} CellIsDifference(bounds: seq<real>, values: seq<Value>, j: nat)
    requires Sorted(bounds) && j <= |bounds|
    ensures UpTo(bounds, values, j) ==
            (if j == 0 then 0 else UpTo(bounds, values, j - 1)) + CountInCell(bounds, values, j)
    decreases |values|
  {
    if values != [] {
      CellIsDifference(bounds, values[..|values| - 1], j);
      if 0 < j < |bounds| {
        assert bounds[j - 1] < bounds[j];
      }
    }
  }

  // ---- The generator's cumulative samples ----

  datatype Sample = Sample(bucketCounts: seq<nat>, count: nat)

  function Flat(ticks: seq<seq<Value>>): seq<Value>
  {
    if ticks == [] then [] else Flat(ticks[..|ticks| - 1]) + ticks[|ticks| - 1]
  }

  function Cumulative(bounds: seq<real>, seen: seq<Value>): Sample
  {
    Sample(seq(|bounds|, j requires 0 <= j < |bounds| => CountAtMost(seen, bounds[j])), |seen|)
  }

  class HistogramGenerator {
    const buckets: seq<real>
    var bucketCounts: seq<nat>
    var count: nat

    ghost predicate Counts(seen: seq<Value>)
      reads this
    {
      Sample(bucketCounts, count) == Cumulative(buckets, seen)
    }

    constructor (buckets: seq<real>)
      ensures this.buckets == buckets && Counts([])
    {
      this.buckets := buckets;
      bucketCounts := seq(|buckets|, j => 0);
      count := 0;
    }

    /** Adds the values drawn for one tick to the counts of all ticks before. */
    method Observe(values: seq<Value>, ghost seen: seq<Value>) returns (sample: Sample)
      requires Counts(seen)
      modifies this
      ensures Counts(seen + values) && sample == Cumulative(buckets, seen + values)
    {
      assert seen + values[..0] == seen;
      for i := 0 to |values|
        invariant Counts(seen + values[..i])
      {
        count := count + 1;
        ghost var before := bucketCounts;
        ghost var now := seen + values[..i + 1];
        assert now[..|now| - 1] == seen + values[..i];
        for j := 0 to |buckets|
          invariant |bucketCounts| == |buckets|
          invariant count == |now|
          invariant forall k :: 0 <= k < j ==> bucketCounts[k] == CountAtMost(now, buckets[k])
          invariant forall k :: j <= k < |buckets| ==> bucketCounts[k] == before[k]
        {
          if AtMost(values[i], buckets[j]) {
            bucketCounts := bucketCounts[j := bucketCounts[j] + 1];
          }
        }
      }
      assert values[..|values|] == values;
      sample := Sample(bucketCounts, count);
    }
  }

  // ---- Taking the samples apart ----

  function SaturatingSub(a: nat, b: nat): nat
  {
    if a < b then 0 else a - b
  }

  function Row(bounds: seq<real>, values: seq<Value>): (row: seq<nat>)
    ensures |row| == |bounds| + 1
  {
    seq(|bounds| + 1, j requires 0 <= j <= |bounds| => CountInCell(bounds, values, j))
  }

  lemma {:induction false} SampleGrows(bounds: seq<real>, seen: seq<Value>, values: seq<Value>, j: nat)
    requires j < |bounds|
    ensures Cumulative(bounds, seen + values).bucketCounts[j] ==
            Cumulative(bounds, seen).bucketCounts[j] + CountAtMost(values, bounds[j])
  {
    CountConcat(seen, values, bounds[j]);
  }

  /** Across ticks: what one tick added to every bucket. No subtraction clips. */
  method TickCounts(bounds: seq<real>, now: Sample, before: Sample, ghost seen: seq<Value>, ghost values: seq<Value>)
    returns (le: seq<nat>, total: nat)
    requires now == Cumulative(bounds, seen + values) && before == Cumulative(bounds, seen)
    ensures |le| == |bounds| && total == |values| && forall j :: 0 <= j < |bounds| ==>
            le[j] == CountAtMost(values, bounds[j])
  {
    le := [];
    for j := 0 to |bounds|
      invariant |le| == j && forall k :: 0 <= k < j ==> le[k] == CountAtMost(values, bounds[k])
    {
      SampleGrows(bounds, seen, values, j);
      assert now.bucketCounts[j] >= before.bucketCounts[j];
      le := le + [SaturatingSub(now.bucketCounts[j], before.bucketCounts[j])];
    }
    total := SaturatingSub(now.count, before.count);
  }

  /** Along the bucket chain: what each cell holds beyond the one before. No subtraction clips. */
  method ChainCells(bounds: seq<real>, le: seq<nat>, total: nat, ghost values: seq<Value>) returns (row: seq<nat>)
    requires Sorted(bounds) && |le| == |bounds| && total == |values|
    requires forall j :: 0 <= j < |bounds| ==> le[j] == CountAtMost(values, bounds[j])
    ensures row == Row(bounds, values)
  {
    row := [];
    var below: nat := 0;
    for j := 0 to |le|
      invariant |row| == j && below == (if j == 0 then 0 else UpTo(bounds, values, j - 1))
      invariant forall k :: 0 <= k < j ==> row[k] == CountInCell(bounds, values, k)
    {
      CellIsDifference(bounds, values, j);
      assert le[j] >= below;
      row := row + [SaturatingSub(le[j], below)];
      below := le[j];
    }
    CellIsDifference(bounds, values, |bounds|);
    assert total >= below;
    row := row + [SaturatingSub(total, below)];
  }

  /** Every row of the heatmap counts that tick's observations, each in its own cell. */
  method SampleHistogram(bounds: seq<real>, ticks: seq<seq<Value>>) returns (counts: seq<seq<nat>>)
    requires Sorted(bounds)
    ensures |counts| == |ticks|
    ensures forall t :: 0 <= t < |ticks| ==> counts[t] == Row(bounds, ticks[t])
  {
    var generator := new HistogramGenerator(bounds);
    counts := [];
    var prev := Sample(seq(|bounds|, j => 0), 0);
    for t := 0 to |ticks|
      invariant generator.buckets == bounds && fresh(generator)
      invariant |counts| == t && forall k :: 0 <= k < t ==> counts[k] == Row(bounds, ticks[k])
      invariant generator.Counts(Flat(ticks[..t])) && prev == Cumulative(bounds, Flat(ticks[..t]))
    {
      ghost var seen := Flat(ticks[..t]);
      assert ticks[..t + 1][..t] == ticks[..t];
      var sample := generator.Observe(ticks[t], seen);
      var le, total := TickCounts(bounds, sample, prev, seen, ticks[t]);
      var row := ChainCells(bounds, le, total, ticks[t]);
      counts := counts + [row];
      prev := sample;
    }
  }

  // ---- Nothing is lost: the heatmap sums back to the samples ----

  function Sum(xs: seq<nat>): nat
  {
    if xs == [] then 0 else Sum(xs[..|xs| - 1]) + xs[|xs| - 1]
  }

  /** Along the chain, the cells up to a bucket add up to its count; the whole row, to the
      number of observations. */
  lemma {:induction false} RowSums(bounds: seq<real>, values: seq<Value>, j: nat)
    requires Sorted(bounds) && j <= |bounds|
    ensures Sum(Row(bounds, values)[..j + 1]) == UpTo(bounds, values, j)
    decreases j
  {
    CellIsDifference(bounds, values, j);
    assert Row(bounds, values)[..j + 1][..j] == Row(bounds, values)[..j];
    if j == 0 {
      assert Sum(Row(bounds, values)[..0]) == 0;
    } else {
      RowSums(bounds, values, j - 1);
    }
  }

  function BlockSum(counts: seq<seq<nat>>, j: nat): nat
    requires forall t :: 0 <= t < |counts| ==> j < |counts[t]|
  {
    if counts == [] then 0 else BlockSum(counts[..|counts| - 1], j) + Sum(counts[|counts| - 1][..j + 1])
  }

  /** Along both axes, the cells of the first ticks up to a bucket add up to the cumulative count
      the generator reported for it. */
  lemma {:induction false} BlockSums(bounds: seq<real>, ticks: seq<seq<Value>>, counts: seq<seq<nat>>, j: nat)
    requires Sorted(bounds) && j <= |bounds| && |counts| == |ticks|
    requires forall t :: 0 <= t < |counts| ==> |counts[t]| == |bounds| + 1 && counts[t] == Row(bounds, ticks[t])
    ensures BlockSum(counts, j) == UpTo(bounds, Flat(ticks), j)
    decreases |ticks|
  {
    if ticks != [] {
      var t := |ticks| - 1;
      BlockSums(bounds, ticks[..t], counts[..t], j);
      RowSums(bounds, ticks[t], j);
      if j < |bounds| {
        CountConcat(Flat(ticks[..t]), ticks[t], bounds[j]);
      }
    }
  }
}
