/**
 * How a phase of the generator cuts its target count into batches: the loop
 * `for i := 0; i < n; i += batchSize` dispatches one batch per start `i`, and
 * the batch at start `s` generates the records with indices s+1 .. s+len.
 */
module Batching {

  /** `batchSize` and `orderBatchSize` in the generator: both are 1000. */
  const BatchSize := 1000

  /** The number of batches dispatched for a target count `n`: ceil(n / BatchSize), none when n <= 0. */
  function NumBatches(n: int): (k: nat)
    ensures n <= 0 ==> k == 0
    ensures n > 0 ==> (k - 1) * BatchSize < n <= k * BatchSize
  {
    if n <= 0 then 0 else (n + BatchSize - 1) / BatchSize
  }

  /** The start of batch number `k`. */
  function BatchStart(k: nat): nat {
    k * BatchSize
  }

  /**
   * The number of records in the batch starting at `s`: the inner loop runs while
   * `j < batchSize && s + j < n`, so it is min(BatchSize, n - s).
   */
  function BatchLen(n: int, s: nat): (len: nat)
    requires s < n
    ensures 1 <= len <= BatchSize && s + len <= n
    ensures len < BatchSize ==> s + len == n
  {
    if n - s < BatchSize then n - s else BatchSize
  }

  /** Every batch that is dispatched starts inside the range. */
  lemma BatchStartInRange(n: int, k: nat)
    requires k < NumBatches(n)
    ensures BatchStart(k) < n
  {
  }

  /** Only the last batch can be short. */
  lemma OnlyLastBatchShort(n: int, k: nat)
    requires k + 1 < NumBatches(n)
    ensures BatchLen(n, BatchStart(k)) == BatchSize
  {
  }

  /** Record index `idx` (1-based) is generated by batch (idx-1)/BatchSize at position (idx-1)%BatchSize. */
  lemma IndexCovered(n: int, idx: nat)
    requires 1 <= idx <= n
    ensures var k, j := (idx - 1) / BatchSize, (idx - 1) % BatchSize;
      k < NumBatches(n) && j < BatchLen(n, BatchStart(k)) && BatchStart(k) + j + 1 == idx
  {
  }

  /** ... and by no other batch or position: every index is generated exactly once. */
  lemma IndexCoveredOnce(n: int, k: nat, j: nat, k': nat, j': nat)
    requires k < NumBatches(n) && j < BatchLen(n, BatchStart(k))
    requires k' < NumBatches(n) && j' < BatchLen(n, BatchStart(k'))
    requires BatchStart(k) + j == BatchStart(k') + j'
    ensures k == k' && j == j'
  {
  }

  /** The records of the first `k` batches, counted batch by batch. */
  function Dispatched(n: int, k: nat): nat
    requires k <= NumBatches(n)
  {
    if k == 0 then 0 else Dispatched(n, k - 1) + BatchLen(n, BatchStart(k - 1))
  }

  lemma {:induction false} DispatchedFullBatches(n: int, k: nat)
    requires k <= NumBatches(n)
    ensures Dispatched(n, k) == if k < NumBatches(n) then BatchStart(k) else if n > 0 then n else 0
  {
    if k > 0 {
      DispatchedFullBatches(n, k - 1);
      if k < NumBatches(n) {
        OnlyLastBatchShort(n, k - 1);
      } else {
        assert n <= k * BatchSize;
      }
    }
  }

  /** Over all batches, exactly max(n, 0) records are generated. */
  lemma AllBatchesTotal(n: int)
    ensures Dispatched(n, NumBatches(n)) == if n > 0 then n else 0
  {
    DispatchedFullBatches(n, NumBatches(n));
  }

  /** 2500 records are dispatched as three batches of 1000, 1000 and 500. */
  lemma TwoThousandFiveHundred()
    ensures NumBatches(2500) == 3
    ensures BatchLen(2500, BatchStart(0)) == 1000
    ensures BatchLen(2500, BatchStart(1)) == 1000
    ensures BatchLen(2500, BatchStart(2)) == 500
  {
  }
}
