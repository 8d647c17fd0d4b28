/** The batch iterator: consecutive slices of a fixed size, the last one possibly shorter. */
module Batched {
  import Seqs

  const DefaultBatchSize: int := 512

  /** One more batch of `b` elements adds `b` to the product. */
  lemma MulSucc(k: nat, b: nat)
    ensures (k + 1) * b == k * b + b
  {
  }

  /**
   * `Batched.iter`: the batches the generator yields, in order. A batch is handed out
   * when it reaches `batchSize` elements; the remainder, if any, comes last. With
   * `batchSize <= 0` the size test never succeeds, so a non-empty input is one batch.
   */
  method Iter<T>(elements: seq<T>, batchSize: int) returns (batches: seq<seq<T>>)
    ensures Seqs.Flatten(batches) == elements
    ensures forall k :: 0 <= k < |batches| ==> |batches[k]| > 0
    ensures elements == [] ==> batches == []
    ensures batchSize >= 1 ==> forall k :: 0 <= k < |batches| ==> |batches[k]| <= batchSize
    ensures batchSize >= 1 ==> forall k :: 0 <= k < |batches| - 1 ==> |batches[k]| == batchSize
    ensures batchSize >= 1 ==> |elements| <= |batches| * batchSize < |elements| + batchSize
    ensures batchSize <= 0 && elements != [] ==> batches == [elements]
  {
    batches := [];
    var batch: seq<T> := [];
    var i := 0;
    while i < |elements|
      invariant 0 <= i <= |elements|
      invariant Seqs.Flatten(batches) + batch == elements[..i]
      invariant forall k :: 0 <= k < |batches| ==> |batches[k]| > 0
      invariant batchSize >= 1 ==> forall k :: 0 <= k < |batches| ==> |batches[k]| == batchSize
      invariant batchSize >= 1 ==> |batch| < batchSize && |batches| * batchSize + |batch| == i
      invariant batchSize <= 0 ==> batches == [] && batch == elements[..i]
    {
      assert elements[..i + 1] == elements[..i] + [elements[i]];
      batch := batch + [elements[i]];
      if |batch| == batchSize {
        Seqs.FlattenSnoc(batches, batch);
        MulSucc(|batches|, batchSize);
        assert (|batches| + 1) * batchSize + 0 == i + 1;
        batches := batches + [batch];
        batch := [];
      }
      i := i + 1;
    }
    assert elements[..i] == elements;
    if |batch| > 0 {
      Seqs.FlattenSnoc(batches, batch);
      if batchSize >= 1 {
        LastBatchBounds(|elements|, |batches|, batchSize, |batch|);
      }
      batches := batches + [batch];
    }
  }

  /** A shorter last batch brings the product past the element count by less than one batch. */
  lemma LastBatchBounds(n: nat, k: nat, b: nat, r: nat)
    requires 0 < r < b && n == k * b + r
    ensures n <= (k + 1) * b < n + b
  {
    MulSucc(k, b);
  }
}
