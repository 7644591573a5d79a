/**
 * How `DependencyDataset.make_batches` (src/graph_parser3.py) cuts the data
 * into batches: the start indices `range(0, N, batch_size)` and the slices
 * `[i:i+batch_size]` of the parallel lists.
 */
module Batches {

  function Min(a: int, b: int): int {
    if a <= b then a else b
  }

  /**
   * `range(start, n, step)` for a non-zero step (`range` refuses a zero step):
   * with a positive step, the arithmetic progression from `start` by `step` of
   * the values below `n`; with a negative step and `start <= n`, nothing.
   */
  function RangeStep(start: nat, n: nat, step: int): (r: seq<nat>)
    requires step != 0
    requires step < 0 ==> start <= n
    ensures step < 0 ==> r == []
    ensures forall k :: 0 <= k < |r| ==> start <= r[k] < n
    ensures step > 0 && start < n ==> |r| > 0 && r[0] == start
    decreases if step > 0 && start < n then n - start else 0
  {
    if step < 0 || start >= n then [] else [start] + RangeStep(start + step, n, step)
  }

  /**
   * With a positive step, the start indices are `step` apart, increase, and
   * the last one is within `step` of the end.
   */
  lemma {:induction false} RangeStepSpacing(start: nat, n: nat, step: int)
    requires step > 0
    ensures var r := RangeStep(start, n, step);
      && (forall k :: 0 <= k < |r| - 1 ==> r[k + 1] == r[k] + step)
      && (forall i, j :: 0 <= i < j < |r| ==> r[i] + step <= r[j])
      && (|r| > 0 ==> r[|r| - 1] + step >= n)
    decreases if start < n then n - start else 0
  {
    if start < n {
      var rest := RangeStep(start + step, n, step);
      RangeStepSpacing(start + step, n, step);
      assert RangeStep(start, n, step) == [start] + rest;
    }
  }

  /** The start indices are `start, start + step, start + 2 * step, …`. */
  lemma {:induction false} RangeStepAt(start: nat, n: nat, step: int, k: nat)
    requires step > 0 && k < |RangeStep(start, n, step)|
    ensures RangeStep(start, n, step)[k] == start + k * step
    decreases k
  {
    if k > 0 {
      RangeStepAt(start, n, step, k - 1);
      RangeStepSpacing(start, n, step);
      assert (k - 1) * step + step == k * step;
    }
  }

  /**
   * `s[i:i+size]`: the `size` elements from position `i` on; Python clamps
   * both ends of a slice to the length, so fewer remain near the end.
   */
  function Slice<T>(s: seq<T>, i: nat, size: nat): (r: seq<T>)
    ensures |r| == if i >= |s| then 0 else Min(size, |s| - i)
    ensures forall k :: 0 <= k < |r| ==> r[k] == s[i + k]
  {
    if i >= |s| then [] else s[i..Min(i + size, |s|)]
  }

  /** The slice of `s` at every start index, in the order of `starts`. */
  function SliceAll<T>(s: seq<T>, starts: seq<nat>, size: nat): (r: seq<seq<T>>)
    requires forall k :: 0 <= k < |starts| ==> starts[k] <= |s|
    ensures |r| == |starts|
  {
    seq(|starts|, k requires 0 <= k < |starts| => Slice(s, starts[k], size))
  }

  /** The batches of `make_batches` in the order of `range(0, N, batch_size)`. */
  function Batches<T>(s: seq<T>, batchSize: nat): (r: seq<seq<T>>)
    requires batchSize > 0
  {
    SliceAll(s, RangeStep(0, |s|, batchSize), batchSize)
  }

  /** The concatenation of a list of lists. */
  function Flatten<T>(ss: seq<seq<T>>): seq<T> {
    if ss == [] then [] else ss[0] + Flatten(ss[1..])
  }

  /** The slices of `s` from `start` on, cut every `size` positions. */
  function SlicesFrom<T>(s: seq<T>, start: nat, size: nat): seq<seq<T>>
    requires size > 0
    decreases |s| - start
  {
    if start >= |s| then [] else [Slice(s, start, size)] + SlicesFrom(s, start + size, size)
  }

  lemma {:induction false} SliceAllRangeStep<T>(s: seq<T>, start: nat, size: nat)
    requires size > 0
    ensures SliceAll(s, RangeStep(start, |s|, size), size) == SlicesFrom(s, start, size)
    decreases |s| - start
  {
    if start < |s| {
      var rest := RangeStep(start + size, |s|, size);
      SliceAllRangeStep(s, start + size, size);
      assert RangeStep(start, |s|, size) == [start] + rest;
      SliceAllCons(s, start, rest, size);
    }
  }

  /** The slices at `[start] + rest` are the slice at `start` followed by those at `rest`. */
  lemma SliceAllCons<T>(s: seq<T>, start: nat, rest: seq<nat>, size: nat)
    requires start <= |s| && forall k :: 0 <= k < |rest| ==> rest[k] <= |s|
    ensures SliceAll(s, [start] + rest, size) == [Slice(s, start, size)] + SliceAll(s, rest, size)
  {
    var starts := [start] + rest;
    forall k | 0 < k < |starts|
      ensures SliceAll(s, starts, size)[k] == SliceAll(s, rest, size)[k - 1]
    {
      assert starts[k] == rest[k - 1];
    }
  }

  lemma {:induction false} FlattenSlicesFrom<T>(s: seq<T>, start: nat, size: nat)
    requires size > 0 && start <= |s|
    ensures Flatten(SlicesFrom(s, start, size)) == s[start..]
    decreases |s| - start
  {
    if start < |s| {
      var next := Min(start + size, |s|);
      var tail := SlicesFrom(s, start + size, size);
      assert ([s[start..next]] + tail)[1..] == tail;
      if start + size <= |s| {
        FlattenSlicesFrom(s, start + size, size);
        assert s[start..] == s[start..next] + s[next..];
      }
    }
  }

  /** Without `shuffle_batches`, the batches put end to end give back the data in order. */
  lemma BatchesCover<T>(s: seq<T>, batchSize: nat)
    requires batchSize > 0
    ensures Flatten(Batches(s, batchSize)) == s
  {
    SliceAllRangeStep(s, 0, batchSize);
    FlattenSlicesFrom(s, 0, batchSize);
  }

  /** Every batch has exactly `batchSize` entries, except the one with the largest start, which is not empty. */
  lemma BatchSizes<T>(s: seq<T>, batchSize: nat)
    requires batchSize > 0
    ensures var b := Batches(s, batchSize);
      && (forall k :: 0 <= k < |b| - 1 ==> |b[k]| == batchSize)
      && (|b| > 0 ==> 0 < |b[|b| - 1]| <= batchSize)
  {
    RangeStepSpacing(0, |s|, batchSize);
  }

  /** The batch that holds position `j`: the slices are disjoint and cover all the data. */
  predicate InBatch(starts: seq<nat>, batchSize: nat, k: int, j: nat) {
    0 <= k < |starts| && starts[k] <= j < starts[k] + batchSize
  }

  /** Every position of the data lies in exactly one batch. */
  lemma BatchOfPosition(n: nat, batchSize: nat, j: nat)
    requires batchSize > 0 && j < n
    ensures exists k :: InBatch(RangeStep(0, n, batchSize), batchSize, k, j)
    ensures forall k1, k2 ::
              (InBatch(RangeStep(0, n, batchSize), batchSize, k1, j) &&
               InBatch(RangeStep(0, n, batchSize), batchSize, k2, j)) ==> k1 == k2
  {
    var starts := RangeStep(0, n, batchSize);
    RangeStepSpacing(0, n, batchSize);
    var k := 0;
    while starts[k] + batchSize <= j
      invariant 0 <= k < |starts| && starts[k] <= j
      decreases j - starts[k]
    {
      k := k + 1;
    }
    assert InBatch(starts, batchSize, k, j);
  }
}
