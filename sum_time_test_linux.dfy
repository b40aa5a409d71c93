/**
 * The pthread variant of the summation benchmark. Its `sumUp` keeps the
 * scratch `tmpSum` in a local that starts at 0 on every call, and adds it to
 * the global `sum` under a mutex. The global becomes an `Accumulator`
 * created by `Run` (a global starts at zero). The threads are run one after
 * the other. Each reads the bounds computed for its own iteration.
 */
module SumTimeTestLinux {
  import opened Uint
  import opened RangeSums
  import opened Partition
  import opened Driver

  /** `struct sumUpInput`. */
  datatype SumUpInput = SumUpInput(start: u64, end: u64)

  /**
   * `sumUp`: sums `[input.start, input.end]` from a zero scratch and adds it to
   * the global total; nothing else changes. Its loop terminates only when
   * `input.end < ULLONG_MAX`.
   */
  method SumUp(sum: Accumulator, input: SumUpInput)
    requires input.end < ULLONG_MAX
    modifies sum
    ensures sum.value == Wrap64(old(sum.value) as int + RangeSum(input.start as int, input.end as int))
  {
    var tmpSum: u64 := 0;
    var i := input.start;
    while i <= input.end
      invariant input.start <= i && (i == input.start || i <= input.end + 1)
      invariant tmpSum == Wrap64(RangeSum(input.start as int, i as int - 1))
      invariant sum.value == old(sum.value)
    {
      Wrap64AddLeft(RangeSum(input.start as int, i as int - 1), i as int);
      tmpSum := Wrap64(tmpSum as int + i as int);
      i := i + 1;
    }
    sum.Add(tmpSum);
    Wrap64AddRight(old(sum.value) as int, RangeSum(input.start as int, input.end as int));
  }

  /**
   * The `pthread_create` loop of `main` and the joins after it: thread i runs
   * `sumUp` on block i of the partition, adding to the reset global.
   */
  method RunThreads(sum: Accumulator, countTo: u64, threads: u16)
    requires countTo as int <= MAX_NUM && threads >= 1 && sum.value == 0
    modifies sum
    ensures sum.value as int == SumOfBlocks(threads as int, BlockSize(countTo as int, threads as int))
  {
    var bs := BlockSize(countTo as int, threads as int);
    var i := 0;
    while i < threads as int
      invariant 0 <= i <= threads as int
      invariant sum.value as int == SumOfBlocks(i, bs)
    {
      BlockWithinPrefix(i, threads as int, bs);
      var input := SumUpInput(BlockStart(i, bs) as u64, BlockEnd(i, bs) as u64);
      SumUp(sum, input);
      BlocksFit(i + 1, countTo as int, threads as int);
      i := i + 1;
    }
  }

  /** The single-threaded phase of `main`: `sumUp` on `{0, count_to}` with the global still at zero. */
  method SingleThreaded(sum: Accumulator, countTo: u64) returns (single: u64)
    requires countTo as int <= MAX_NUM && sum.value == 0
    modifies sum
    ensures single == sum.value
    ensures single as int == Triangle(countTo as int)
  {
    SumUp(sum, SumUpInput(0, countTo));
    SingleThreadedTotal(countTo as int);
    single := sum.value;
  }

  /**
   * The multi-threaded phase of `main`: `sum = 0`, `count_to / thread_count`
   * (a division by zero when thread_count is 0), then the threads.
   */
  method MultiThreaded(sum: Accumulator, countTo: u64, threads: u16) returns (multi: Multi)
    requires countTo as int <= MAX_NUM
    modifies sum
    ensures multi.DivideByZero? <==> threads == 0
    ensures multi.Summed? ==> multi.total == sum.value
    ensures multi.Summed? ==>
              multi.total as int == SumOfBlocks(threads as int, BlockSize(countTo as int, threads as int))
  {
    sum.value := 0;
    if threads == 0 {
      return DivideByZero;
    }
    RunThreads(sum, countTo, threads);
    multi := Summed(sum.value);
  }

  /**
   * `main`: the single-threaded call on `{0, count_to}`, the reset of `sum`,
   * then one thread per block of the partition and the joins. The thread
   * phase divides by zero when `thread_count` is 0; otherwise it adds
   * 0 + 1 + ... + T*bs, which is the full sum only when T divides count_to.
   */
  method Run(cl: CommandLine) returns (rep: Report)
    ensures rep.countTo == CountTo(cl) && rep.threads == ThreadCount(cl)
    ensures rep.single as int == Triangle(rep.countTo as int)
    ensures rep.multi.DivideByZero? <==> rep.threads == 0
    ensures rep.multi.Summed? ==>
              var covered := rep.threads as int * BlockSize(rep.countTo as int, rep.threads as int);
              rep.multi.total as int == Triangle(covered)
    ensures rep.multi.Summed? ==>
              (rep.multi.total == rep.single <==> rep.countTo as int % rep.threads as int == 0)
  {
    var countTo := CountTo(cl);
    var threadCount := ThreadCount(cl);
    var sum := new Accumulator();
    var single := SingleThreaded(sum, countTo);
    var multi := MultiThreaded(sum, countTo, threadCount);
    if threadCount != 0 {
      PartitionTotal(countTo as int, threadCount as int);
    }
    rep := Report(countTo, threadCount, single, multi);
  }
}
