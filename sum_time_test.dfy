/**
 * The thread-pool variant of the summation benchmark. Its kernel `sumUp`
 * accumulates into a `thread_local` scratch `tmpSum` that starts at 0 when a
 * thread starts and is never reset, then adds the whole scratch to a shared
 * atomic total. Each pool thread is a `Worker` object whose field is that
 * scratch. Task execution is sequential: the tasks run in the order they were
 * pushed, each on the worker a schedule assigns to it. Every worker keeps
 * its own scratch and the shared total only ever grows by addition modulo
 * 2^64, so any interleaving that keeps each worker's tasks in order gives the
 * same final state.
 */
module SumTimeTest {
  import opened Uint
  import opened RangeSums
  import opened Partition
  import opened Driver

  /**
   * `sumUpTasks`: the sum over `[start, end]` in a local that starts at 0,
   * handed back through the promise (here, the result). The `for` loop only
   * terminates when `end < ULLONG_MAX`: otherwise `i <= end` holds forever.
   */
  method SumUpTasks(start: u64, end: u64) returns (r: u64)
    requires end < ULLONG_MAX
    ensures r == Wrap64(RangeSum(start as int, end as int))
    ensures end as int <= MAX_NUM ==> r as int == RangeSum(start as int, end as int)
  {
    var sum: u64 := 0;
    var i := start;
    while i <= end
      invariant start <= i && (i == start || i <= end + 1)
      invariant sum == Wrap64(RangeSum(start as int, i as int - 1))
    {
      Wrap64AddLeft(RangeSum(start as int, i as int - 1), i as int);
      sum := Wrap64(sum as int + i as int);
      i := i + 1;
    }
    r := sum;
    if end as int <= MAX_NUM {
      TotalsFit(start as int, end as int);
    }
  }

  /** One thread of control, with its `thread_local tmpSum`. */
  class Worker {
    var tmpSum: u64

    /** A new thread sees `tmpSum` at its initial value 0. */
    constructor ()
      ensures tmpSum == 0
    {
      tmpSum := 0;
    }

    /**
     * `sumUp`: adds every value of `[start, end]` to the scratch, which keeps
     * whatever earlier calls on this thread left in it, then adds the whole
     * scratch to the shared total.
     */
    method SumUp(sum: Accumulator, start: u64, end: u64)
      requires end < ULLONG_MAX
      modifies this, sum
      ensures tmpSum == Wrap64(old(tmpSum) as int + RangeSum(start as int, end as int))
      ensures sum.value == Wrap64(old(sum.value) as int + tmpSum as int)
    {
      var i := start;
      while i <= end
        invariant start <= i && (i == start || i <= end + 1)
        invariant tmpSum == Wrap64(old(tmpSum) as int + RangeSum(start as int, i as int - 1))
        invariant sum.value == old(sum.value)
      {
        Wrap64AddLeft(old(tmpSum) as int + RangeSum(start as int, i as int - 1), i as int);
        tmpSum := Wrap64(tmpSum as int + i as int);
        i := i + 1;
      }
      sum.Add(tmpSum);
    }

    /** Corrected kernel: the scratch is cleared first, so each call adds exactly its own range. */
    method SumUpFresh(sum: Accumulator, start: u64, end: u64)
      requires end < ULLONG_MAX
      modifies this, sum
      ensures tmpSum == Wrap64(RangeSum(start as int, end as int))
      ensures sum.value == Wrap64(old(sum.value) as int + RangeSum(start as int, end as int))
    {
      tmpSum := 0;
      SumUp(sum, start, end);
      Wrap64AddRight(old(sum.value) as int, RangeSum(start as int, end as int));
    }
  }

  /** Which worker runs which task: task k runs on worker `schedule[k]`. */
  predicate OneTaskPerWorker(schedule: seq<nat>)
  {
    forall j, k :: 0 <= j < k < |schedule| ==> schedule[j] != schedule[k]
  }

  predicate DistinctUpTo(schedule: seq<nat>, n: nat)
    requires n <= |schedule|
  {
    forall j, k :: 0 <= j < k < n ==> schedule[j] != schedule[k]
  }

  /** The scratch of worker w after the first n tasks ran, before wrapping. */
  function WorkerScratch(schedule: seq<nat>, bs: nat, n: nat, w: nat): nat
    requires n <= |schedule|
  {
    if n == 0 then 0
    else WorkerScratch(schedule, bs, n - 1, w) + (if schedule[n - 1] == w then BlockSum(n - 1, bs) else 0)
  }

  /** What the first n tasks add to the shared total, before wrapping: each adds its worker's whole scratch. */
  function PoolTotal(schedule: seq<nat>, bs: nat, n: nat): nat
    requires n <= |schedule|
  {
    if n == 0 then 0
    else PoolTotal(schedule, bs, n - 1) + WorkerScratch(schedule, bs, n, schedule[n - 1])
  }

  /** A worker no task ran on still has an empty scratch. */
  lemma {:induction false} WorkerScratchUnused(schedule: seq<nat>, bs: nat, n: nat, w: nat)
    requires n <= |schedule|
    requires forall j :: 0 <= j < n ==> schedule[j] != w
    ensures WorkerScratch(schedule, bs, n, w) == 0
  {
    if n > 0 {
      WorkerScratchUnused(schedule, bs, n - 1, w);
    }
  }

  /** A worker's scratch holds the sum of every block it ran so far. */
  lemma {:induction false} WorkerScratchIncludes(schedule: seq<nat>, bs: nat, n: nat, j: nat)
    requires j < n <= |schedule|
    ensures WorkerScratch(schedule, bs, n, schedule[j]) >= BlockSum(j, bs)
  {
    if j < n - 1 {
      WorkerScratchIncludes(schedule, bs, n - 1, j);
    }
  }

  /** With at least one value per block, every block sum is positive. */
  lemma BlockSumPositive(j: nat, bs: nat)
    requires bs >= 1
    ensures BlockSum(j, bs) >= 1
  {
    MulLe(j, j + 1, bs);
    MulLe(1, j + 1, bs);
    RangeSumAtLeastEnd(BlockStart(j, bs), BlockEnd(j, bs));
  }

  /**
   * The pool total never falls short of the block sums. It equals them when no
   * worker ran two tasks and, with non-empty blocks, exceeds them otherwise.
   */
  lemma {:induction false} PoolTotalExcess(schedule: seq<nat>, bs: nat, n: nat)
    requires n <= |schedule|
    ensures PoolTotal(schedule, bs, n) >= SumOfBlocks(n, bs)
    ensures DistinctUpTo(schedule, n) ==> PoolTotal(schedule, bs, n) == SumOfBlocks(n, bs)
    ensures bs >= 1 && !DistinctUpTo(schedule, n) ==> PoolTotal(schedule, bs, n) > SumOfBlocks(n, bs)
  {
    if n > 0 {
      PoolTotalExcess(schedule, bs, n - 1);
      var w := schedule[n - 1];
      assert WorkerScratch(schedule, bs, n, w) == WorkerScratch(schedule, bs, n - 1, w) + BlockSum(n - 1, bs);
      if DistinctUpTo(schedule, n) {
        WorkerScratchUnused(schedule, bs, n - 1, w);
      }
      if bs >= 1 && !DistinctUpTo(schedule, n) && DistinctUpTo(schedule, n - 1) {
        var j, k :| 0 <= j < k < n && schedule[j] == schedule[k];
        assert k == n - 1;
        WorkerScratchIncludes(schedule, bs, n - 1, j);
        BlockSumPositive(j, bs);
      }
    }
  }

  /**
   * For non-empty blocks the multi-threaded total is the dropped-tail sum
   * 0 + 1 + ... + n*bs exactly when every task ran on its own thread.
   */
  lemma PoolTotalExactIff(schedule: seq<nat>, bs: nat)
    requires bs >= 1
    ensures PoolTotal(schedule, bs, |schedule|) == RangeSum(0, |schedule| * bs)
            <==> OneTaskPerWorker(schedule)
  {
    PoolTotalExcess(schedule, bs, |schedule|);
    SumOfBlocksIsPrefixSum(|schedule|, bs);
  }

  /** count_to = 4 on 2 threads with both tasks on one worker: 13 is added instead of 10. */
  lemma ReusedWorkerOvercounts()
    ensures BlockSize(4, 2) == 2
    ensures PoolTotal([0, 0], 2, 2) == 13
    ensures RangeSum(0, 4) == 10
  {
    assert BlockSum(0, 2) == RangeSum(0, 2) == 3;
    assert BlockSum(1, 2) == RangeSum(3, 4) == 7;
    assert WorkerScratch([0, 0], 2, 1, 0) == 3;
    assert WorkerScratch([0, 0], 2, 2, 0) == 10;
  }

  /** `thread_pool pool{ thread_count }`: n new threads, each with a zero scratch. */
  method NewPool(n: nat) returns (workers: seq<Worker>)
    ensures |workers| == n
    ensures forall w :: 0 <= w < n ==> fresh(workers[w]) && workers[w].tmpSum == 0
    ensures forall p, q :: 0 <= p < q < n ==> workers[p] != workers[q]
  {
    workers := [];
    while |workers| < n
      invariant |workers| <= n
      invariant forall w :: 0 <= w < |workers| ==> fresh(workers[w]) && workers[w].tmpSum == 0
      invariant forall p, q :: 0 <= p < q < |workers| ==> workers[p] != workers[q]
    {
      var worker := new Worker();
      workers := workers + [worker];
    }
  }

  /**
   * The push loop of the multi-threaded phase followed by `pool.join()`:
   * task k sums block k on worker `schedule[k]`.
   */
  method RunTasks(sum: Accumulator, workers: seq<Worker>, bs: nat, schedule: seq<nat>)
    requires forall p, q :: 0 <= p < q < |workers| ==> workers[p] != workers[q]
    requires forall w :: 0 <= w < |workers| ==> workers[w].tmpSum == 0
    requires forall k :: 0 <= k < |schedule| ==> schedule[k] < |workers|
    requires |schedule| * bs < ULLONG_MAX as int
    modifies sum, set w | w in workers
    ensures forall w :: 0 <= w < |workers| ==> workers[w].tmpSum == Wrap64(WorkerScratch(schedule, bs, |schedule|, w))
    ensures sum.value == Wrap64(old(sum.value) as int + PoolTotal(schedule, bs, |schedule|))
  {
    var i := 0;
    while i < |schedule|
      invariant 0 <= i <= |schedule|
      invariant forall w :: 0 <= w < |workers| ==> workers[w].tmpSum == Wrap64(WorkerScratch(schedule, bs, i, w))
      invariant sum.value == Wrap64(old(sum.value) as int + PoolTotal(schedule, bs, i))
    {
      var a := schedule[i];
      BlockWithinPrefix(i, |schedule|, bs);
      ghost var scratch := WorkerScratch(schedule, bs, i + 1, a);
      assert scratch == WorkerScratch(schedule, bs, i, a) + BlockSum(i, bs);
      assert PoolTotal(schedule, bs, i + 1) == PoolTotal(schedule, bs, i) + scratch;
      Wrap64AddLeft(WorkerScratch(schedule, bs, i, a), BlockSum(i, bs));
      Wrap64Add(old(sum.value) as int + PoolTotal(schedule, bs, i), scratch);
      workers[a].SumUp(sum, BlockStart(i, bs) as u64, BlockEnd(i, bs) as u64);
      assert workers[a].tmpSum == Wrap64(scratch);
      i := i + 1;
    }
  }

  /** Corrected multi-threaded phase: with the scratch cleared per task, any schedule adds 0 + ... + n*bs. */
  method RunTasksFresh(sum: Accumulator, workers: seq<Worker>, bs: nat, schedule: seq<nat>)
    requires forall k :: 0 <= k < |schedule| ==> schedule[k] < |workers|
    requires |schedule| * bs < ULLONG_MAX as int
    modifies sum, set w | w in workers
    ensures sum.value == Wrap64(old(sum.value) as int + RangeSum(0, |schedule| * bs))
  {
    var i := 0;
    while i < |schedule|
      invariant 0 <= i <= |schedule|
      invariant sum.value == Wrap64(old(sum.value) as int + SumOfBlocks(i, bs))
    {
      BlockWithinPrefix(i, |schedule|, bs);
      workers[schedule[i]].SumUpFresh(sum, BlockStart(i, bs) as u64, BlockEnd(i, bs) as u64);
      Wrap64AddLeft(old(sum.value) as int + SumOfBlocks(i, bs), BlockSum(i, bs));
      i := i + 1;
    }
    SumOfBlocksIsPrefixSum(|schedule|, bs);
  }

  /** When every task ran on its own thread, the pool adds exactly 0 + 1 + ... + T*bs, without wrapping. */
  lemma DistinctScheduleTotal(schedule: seq<nat>, countTo: nat, threads: nat)
    requires countTo <= MAX_NUM && threads >= 1 && |schedule| == threads
    requires OneTaskPerWorker(schedule)
    ensures var covered := threads * BlockSize(countTo, threads);
            Wrap64(PoolTotal(schedule, BlockSize(countTo, threads), threads)) as int == Triangle(covered)
  {
    var bs := BlockSize(countTo, threads);
    PoolTotalExcess(schedule, bs, threads);
    BlocksFit(threads, countTo, threads);
    PartitionTotal(countTo, threads);
  }

  /**
   * `main`: the single-threaded sum on a fresh thread, then the reset of
   * `sum`, the partition into `thread_count` blocks and the pool run.
   * The result is 0 + 1 + ... + count_to for the first phase. For the
   * second it is the pool total of the schedule: the dropped-tail sum
   * 0 + ... + T*bs when every task ran on its own thread.
   */
  method Run(cl: CommandLine, schedule: seq<nat>) returns (rep: Report)
    requires |schedule| == ThreadCount(cl) as int
    requires forall k :: 0 <= k < |schedule| ==> schedule[k] < |schedule|
    ensures rep.countTo == CountTo(cl) && rep.threads == ThreadCount(cl)
    ensures rep.single as int == Triangle(rep.countTo as int)
    ensures rep.multi.DivideByZero? <==> rep.threads == 0
    ensures rep.multi.Summed? ==>
              rep.multi.total == Wrap64(PoolTotal(schedule, BlockSize(rep.countTo as int, rep.threads as int), |schedule|))
    ensures rep.multi.Summed? && OneTaskPerWorker(schedule) ==>
              var covered := rep.threads as int * BlockSize(rep.countTo as int, rep.threads as int);
              rep.multi.total as int == Triangle(covered)
  {
    var countTo := CountTo(cl);
    var threadCount := ThreadCount(cl);
    var sum := new Accumulator();

    // Single-threaded: `std::thread t1(sumUp, std::ref(sum), 0, count_to)`.
    var t1 := new Worker();
    t1.SumUp(sum, 0, countTo);
    SingleThreadedTotal(countTo as int);
    var single := sum.value;

    // Multi-threaded.
    sum.value := 0;
    if threadCount == 0 {
      return Report(countTo, threadCount, single, DivideByZero);
    }
    var bs := BlockSize(countTo as int, threadCount as int);
    var workers := NewPool(threadCount as int);
    RunTasks(sum, workers, bs, schedule);
    rep := Report(countTo, threadCount, single, Summed(sum.value));

    if OneTaskPerWorker(schedule) {
      DistinctScheduleTotal(schedule, countTo as int, threadCount as int);
    }
  }
}
