/**
 * The padding of `DependencyDataset.pad` in src/graph_parser3.py, and the
 * dataset's padding constants. The same right-padding is written out again in
 * `CharDataSet.batchedtokens2codes` and `CharDataSet.batch_chars`; here it is
 * defined once, with the fill value as a parameter.
 */
module Padding {
  import opened Tables

  const PAD_IDX: int := 0
  const PAD_TOKEN: string := "<pad>"
  const UNK_WORD: string := "<unk>"

  /** `max(map(len, batch))`; the program never takes it of an empty batch. */
  function MaxLen<T>(batch: seq<seq<T>>): (m: nat)
    ensures forall k :: 0 <= k < |batch| ==> |batch[k]| <= m
    ensures |batch| > 0 ==> exists k :: 0 <= k < |batch| && |batch[k]| == m
  {
    if batch == [] then 0
    else
      var m0 := MaxLen(batch[..|batch| - 1]);
      var last := |batch[|batch| - 1]|;
      if last > m0 then last else m0
  }

  /**
   * `padded` is `batch` with every row extended by `fill` to exactly `width`
   * entries: same rows, same order, each row a prefix of its padded row.
   */
  ghost predicate IsPadding<T>(padded: seq<seq<T>>, batch: seq<seq<T>>, width: nat, fill: T) {
    && |padded| == |batch|
    && forall k :: 0 <= k < |batch| ==>
         && |batch[k]| <= width
         && |padded[k]| == width
         && padded[k][..|batch[k]|] == batch[k]
         && forall j :: |batch[k]| <= j < width ==> padded[k][j] == fill
  }

  /** A padding is determined by the batch, the width and the fill value. */
  lemma PaddingIsUnique<T>(p1: seq<seq<T>>, p2: seq<seq<T>>, batch: seq<seq<T>>, width: nat, fill: T)
    requires IsPadding(p1, batch, width, fill) && IsPadding(p2, batch, width, fill)
    ensures p1 == p2
  {
    forall k | 0 <= k < |batch|
      ensures p1[k] == p2[k]
    {
      forall j | 0 <= j < width
        ensures p1[k][j] == p2[k][j]
      {
        if j < |batch[k]| {
          assert p1[k][j] == p1[k][..|batch[k]|][j];
          assert p2[k][j] == p2[k][..|batch[k]|][j];
        }
      }
    }
  }

  /**
   * The flat branch of `pad`: every sequence of the batch padded with `fill` to
   * the length of the longest one. `batch[0]` of an empty batch raises
   * `IndexError`, here `None`.
   */
  method PadBatch<T>(batch: seq<seq<T>>, fill: T) returns (r: Option<seq<seq<T>>>)
    ensures r.None? <==> batch == []
    ensures r.Some? ==> IsPadding(r.value, batch, MaxLen(batch), fill)
  {
    if batch == [] {
      return None;
    }
    var maxLen := MaxLen(batch);
    var padded: seq<seq<T>> := [];
    for k := 0 to |batch|
      invariant |padded| == k
      invariant forall i :: 0 <= i < k ==>
                  && |padded[i]| == maxLen
                  && padded[i][..|batch[i]|] == batch[i]
                  && forall j :: |batch[i]| <= j < maxLen ==> padded[i][j] == fill
    {
      padded := padded + [batch[k] + seq(maxLen - |batch[k]|, _ => fill)];
    }
    return Some(padded);
  }

  /** The first components of a batch of pairs. */
  function Firsts<A, B>(batch: seq<(A, B)>): (r: seq<A>)
    ensures |r| == |batch|
  {
    seq(|batch|, k requires 0 <= k < |batch| => batch[k].0)
  }

  /**
   * The pair branch of `pad`: both sides of a pair are extended by the same
   * amount, `max_len - len(seqA)`, where `max_len` is taken over the first
   * sides only; the first side is filled with PAD_IDX, the second side with
   * the lexer's `bertPadIdx`.
   */
  method PadPairs(batch: seq<(seq<int>, seq<int>)>, bertPadIdx: int) returns (r: Option<(seq<seq<int>>, seq<seq<int>>)>)
    ensures r.None? <==> batch == []
    ensures r.Some? ==>
      var width := MaxLen(Firsts(batch));
      && IsPadding(r.value.0, Firsts(batch), width, PAD_IDX)
      && |r.value.1| == |batch|
      && forall k :: 0 <= k < |batch| ==>
           && |batch[k].0| <= width
           && |r.value.1[k]| == |batch[k].1| + (width - |batch[k].0|)
           && r.value.1[k][..|batch[k].1|] == batch[k].1
           && forall j :: |batch[k].1| <= j < |r.value.1[k]| ==> r.value.1[k][j] == bertPadIdx
  {
    if batch == [] {
      return None;
    }
    var maxLen := MaxLen(Firsts(batch));
    var paddedA: seq<seq<int>> := [];
    var paddedB: seq<seq<int>> := [];
    for k := 0 to |batch|
      invariant |paddedA| == k && |paddedB| == k
      invariant forall i :: 0 <= i < k ==>
                  && |batch[i].0| <= maxLen
                  && |paddedA[i]| == maxLen
                  && paddedA[i][..|batch[i].0|] == batch[i].0
                  && (forall j :: |batch[i].0| <= j < maxLen ==> paddedA[i][j] == PAD_IDX)
                  && |paddedB[i]| == |batch[i].1| + (maxLen - |batch[i].0|)
                  && paddedB[i][..|batch[i].1|] == batch[i].1
                  && (forall j :: |batch[i].1| <= j < |paddedB[i]| ==> paddedB[i][j] == bertPadIdx)
    {
      var (seqA, seqB) := batch[k];
      assert seqA == Firsts(batch)[k];
      var missing := maxLen - |seqA|;
      paddedA := paddedA + [seqA + seq(missing, _ => PAD_IDX)];
      paddedB := paddedB + [seqB + seq(missing, _ => bertPadIdx)];
    }
    return Some((paddedA, paddedB));
  }
}
