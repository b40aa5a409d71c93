/**
 * The work-partitioning rule of both drivers: with
 * `block_size = count_to / thread_count`, task i sums the block
 * `[i*block_size (+1 unless i == 0), (i+1)*block_size]`.
 * The blocks are adjacent and disjoint and cover exactly
 * `[0, thread_count*block_size]`; the tail up to `count_to` is dropped
 * whenever `thread_count` does not divide `count_to`.
 */
module Partition {
  import opened RangeSums

  /** `count_to / thread_count` (the drivers divide by zero when thread_count is 0). */
  function BlockSize(countTo: nat, threads: nat): (bs: nat)
    requires threads >= 1
    ensures threads * bs <= countTo < threads * bs + threads
    ensures threads * bs == countTo <==> countTo % threads == 0
  {
    countTo / threads
  }

  /** First value of block i. */
  function BlockStart(i: nat, bs: nat): nat
  {
    if i != 0 then i * bs + 1 else i * bs
  }

  /** Last value of block i. */
  function BlockEnd(i: nat, bs: nat): nat
  {
    (i + 1) * bs
  }

  predicate InBlock(x: int, i: nat, bs: nat)
  {
    BlockStart(i, bs) <= x <= BlockEnd(i, bs)
  }

  /** What the task for block i adds when it starts from a zero scratch. */
  function BlockSum(i: nat, bs: nat): nat
  {
    RangeSum(BlockStart(i, bs), BlockEnd(i, bs))
  }

  lemma MulLe(a: nat, b: nat, c: nat)
    requires a <= b
    ensures a * c <= b * c
  {
  }

  /** Block 0 is `[0, bs]`; block i > 0 is `[i*bs + 1, (i+1)*bs]`; each ends one before the next starts. */
  lemma BlocksAdjacent(i: nat, bs: nat)
    ensures BlockStart(0, bs) == 0 && BlockEnd(0, bs) == bs
    ensures i > 0 ==> BlockStart(i, bs) == i * bs + 1
    ensures BlockEnd(i, bs) + 1 == BlockStart(i + 1, bs)
  {
  }

  /** No value belongs to two different blocks. */
  lemma BlocksDisjoint(i: nat, j: nat, bs: nat, x: int)
    requires i < j
    ensures !(InBlock(x, i, bs) && InBlock(x, j, bs))
  {
    MulLe(i + 1, j, bs);
  }

  /** The first n blocks lie inside `[0, n*bs]`. */
  lemma BlockWithinPrefix(i: nat, n: nat, bs: nat)
    requires i < n
    ensures BlockStart(i, bs) <= BlockEnd(i, bs) + 1
    ensures BlockEnd(i, bs) <= n * bs
  {
    MulLe(i, i + 1, bs);
    MulLe(i + 1, n, bs);
  }

  /** The union of blocks 0 .. threads-1 is exactly `[0, threads*bs]`. */
  lemma BlocksCover(threads: nat, bs: nat, x: int)
    requires threads >= 1
    ensures 0 <= x <= threads * bs <==> exists i :: 0 <= i < threads && InBlock(x, i, bs)
  {
    if 0 <= x <= threads * bs {
      if x == 0 {
        assert InBlock(x, 0, bs);
      } else {
        assert bs >= 1;
        var i := (x - 1) / bs;
        assert i * bs <= x - 1 < i * bs + bs;
        if i >= threads {
          MulLe(threads, i, bs);
          assert false;
        }
        assert BlockEnd(i, bs) == i * bs + bs;
        assert InBlock(x, i, bs);
      }
    }
    if exists i :: 0 <= i < threads && InBlock(x, i, bs) {
      var i :| 0 <= i < threads && InBlock(x, i, bs);
      BlockWithinPrefix(i, threads, bs);
    }
  }

  /** Total of the first n block sums, added in any order. */
  function SumOfBlocks(n: nat, bs: nat): nat
  {
    if n == 0 then 0 else SumOfBlocks(n - 1, bs) + BlockSum(n - 1, bs)
  }

  /** The first n blocks together sum to 0 + 1 + ... + n*bs. */
  lemma {:induction false} SumOfBlocksIsPrefixSum(n: nat, bs: nat)
    ensures SumOfBlocks(n, bs) == RangeSum(0, n * bs)
  {
    if n == 1 {
      assert SumOfBlocks(0, bs) == 0;
    } else if n > 1 {
      SumOfBlocksIsPrefixSum(n - 1, bs);
      assert (n - 1) * bs + bs == n * bs;
      RangeSumSplit(0, (n - 1) * bs, n * bs);
    }
  }

  /**
   * Summing every block gives at most the sum up to count_to, and exactly
   * that sum only when thread_count divides count_to: otherwise the values in
   * `(threads*bs, count_to]` are never summed.
   */
  lemma TailDropped(countTo: nat, threads: nat)
    requires threads >= 1
    ensures SumOfBlocks(threads, BlockSize(countTo, threads)) <= RangeSum(0, countTo)
    ensures SumOfBlocks(threads, BlockSize(countTo, threads)) == RangeSum(0, countTo)
            <==> countTo % threads == 0
  {
    var bs := BlockSize(countTo, threads);
    SumOfBlocksIsPrefixSum(threads, bs);
    RangeSumSplit(0, threads * bs, countTo);
    if countTo % threads != 0 {
      RangeSumAtLeastEnd(threads * bs + 1, countTo);
    }
  }

  /** count_to = 10 on 3 threads: the blocks sum to 45, not to 55. */
  lemma TailDroppedExample()
    ensures BlockSize(10, 3) == 3
    ensures SumOfBlocks(3, BlockSize(10, 3)) == 45
    ensures RangeSum(0, 10) == 55
  {
    SumOfBlocksIsPrefixSum(3, 3);
    RangeSumClosedForm(9);
    RangeSumClosedForm(10);
  }

  /** Corrected rule: the last block runs to count_to itself. */
  function FixedBlockEnd(i: nat, threads: nat, countTo: nat): nat
    requires threads >= 1
  {
    if i + 1 == threads then countTo else BlockEnd(i, BlockSize(countTo, threads))
  }

  /** Total of the first n blocks under the corrected rule. */
  function SumOfFixedBlocks(n: nat, threads: nat, countTo: nat): nat
    requires threads >= 1
  {
    if n == 0 then 0
    else SumOfFixedBlocks(n - 1, threads, countTo)
         + RangeSum(BlockStart(n - 1, BlockSize(countTo, threads)), FixedBlockEnd(n - 1, threads, countTo))
  }

  /** Under the corrected rule the blocks always sum to 0 + 1 + ... + count_to. */
  lemma FixedPartitionSum(countTo: nat, threads: nat)
    requires threads >= 1
    ensures SumOfFixedBlocks(threads, threads, countTo) == RangeSum(0, countTo)
  {
    var bs := BlockSize(countTo, threads);
    FixedPrefixUnchanged(threads - 1, threads, countTo);
    SumOfBlocksIsPrefixSum(threads - 1, bs);
    if threads > 1 {
      MulLe(threads - 1, threads, bs);
      RangeSumSplit(0, (threads - 1) * bs, countTo);
    }
  }

  /** Before the last block the corrected and the original rule agree. */
  lemma {:induction false} FixedPrefixUnchanged(n: nat, threads: nat, countTo: nat)
    requires 1 <= threads && n < threads
    ensures SumOfFixedBlocks(n, threads, countTo) == SumOfBlocks(n, BlockSize(countTo, threads))
  {
    if n > 0 {
      FixedPrefixUnchanged(n - 1, threads, countTo);
    }
  }
}
