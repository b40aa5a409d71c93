/**
 * What the two `main` functions share: the command-line clamp on
 * `count_to` and `thread_count`, the shared 64-bit total, and the report
 * they print (timings left out).
 */
module Driver {
  import opened Uint
  import opened RangeSums
  import opened Partition

  /** `MAX_NUM`, the default and the largest accepted `count_to`. */
  const MAX_NUM: int := 6_000_000_000

  /** 0 + 1 + ... + MAX_NUM, the largest total either program can form on a fresh scratch. */
  const MAX_TOTAL: int := 18_000_000_003_000_000_000

  /**
   * The command line after the foreign parsers ran: `Given` when `argc >= 3`,
   * holding what `atoi(argv[1])` and `strtoull(argv[2], NULL, 10)` returned.
   */
  datatype CommandLine = Defaults | Given(threadsArg: int, countArg: u64)

  /** `thread_count`: 8, or atoi's result stored in an `unsigned short`. */
  function ThreadCount(cl: CommandLine): (t: u16)
    ensures cl.Defaults? ==> t == 8
    ensures cl.Given? ==> t as int == cl.threadsArg % TWO_16
    ensures cl.Given? && 0 <= cl.threadsArg < TWO_16 ==> t as int == cl.threadsArg
  {
    if cl.Given? then ToU16(cl.threadsArg) else 8
  }

  /** `count_to`: MAX_NUM, replaced by the parsed value only when that is at most MAX_NUM. */
  function CountTo(cl: CommandLine): (c: u64)
    ensures c as int <= MAX_NUM
    ensures c as int == MAX_NUM || (cl.Given? && c == cl.countArg)
    ensures cl.Given? && cl.countArg as int <= MAX_NUM ==> c == cl.countArg
  {
    if cl.Given? && cl.countArg as int <= MAX_NUM then cl.countArg else MAX_NUM as u64
  }

  /** For every range ending at or below MAX_NUM the sum fits in 64 bits, so no accumulation wraps. */
  lemma TotalsFit(start: nat, end: int)
    requires end <= MAX_NUM
    ensures RangeSum(start, end) <= MAX_TOTAL < TWO_64
  {
    RangeSumMonotone(start, end, MAX_NUM);
    RangeSumClosedForm(MAX_NUM);
  }

  /** Summing `[0, count_to]` from a zero scratch into a zero total leaves exactly count_to(count_to+1)/2. */
  lemma SingleThreadedTotal(countTo: nat)
    requires countTo <= MAX_NUM
    ensures Wrap64(Wrap64(RangeSum(0, countTo)) as int) as int == Triangle(countTo)
  {
    TotalsFit(0, countTo);
    RangeSumClosedForm(countTo);
  }

  /** The first n block sums of a clamped count_to fit in 64 bits. */
  lemma BlocksFit(n: nat, countTo: nat, threads: nat)
    requires countTo <= MAX_NUM && 1 <= threads && n <= threads
    ensures SumOfBlocks(n, BlockSize(countTo, threads)) < TWO_64
  {
    var bs := BlockSize(countTo, threads);
    SumOfBlocksIsPrefixSum(n, bs);
    MulLe(n, threads, bs);
    TotalsFit(0, n * bs);
  }

  /**
   * The blocks of a clamped count_to add up to covered(covered+1)/2 with
   * covered = threads*bs, and that equals count_to(count_to+1)/2 exactly when
   * threads divides count_to.
   */
  lemma PartitionTotal(countTo: nat, threads: nat)
    requires countTo <= MAX_NUM && threads >= 1
    ensures var covered := threads * BlockSize(countTo, threads);
            SumOfBlocks(threads, BlockSize(countTo, threads)) == Triangle(covered)
    ensures SumOfBlocks(threads, BlockSize(countTo, threads)) == Triangle(countTo)
            <==> countTo % threads == 0
  {
    var bs := BlockSize(countTo, threads);
    SumOfBlocksIsPrefixSum(threads, bs);
    RangeSumClosedForm(threads * bs);
    RangeSumClosedForm(countTo);
    TailDropped(countTo, threads);
  }

  /** The shared `unsigned long long` total (an atomic, or a global under a mutex). */
  class Accumulator {
    var value: u64

    /** Zero-initialised, as `std::atomic<unsigned long long> sum{}` and a global are. */
    constructor ()
      ensures value == 0
    {
      value := 0;
    }

    /** `fetch_add` / `sum += d`: addition modulo 2^64. */
    method Add(d: u64)
      modifies this
      ensures value == Wrap64(old(value) as int + d as int)
    {
      value := Wrap64(value as int + d as int);
    }
  }

  /** The multi-threaded phase either produces a total or divides by zero at `count_to / thread_count`. */
  datatype Multi = Summed(total: u64) | DivideByZero

  /** What a run prints: "Count to", the single-threaded sum and the multi-threaded sum. */
  datatype Report = Report(countTo: u64, threads: u16, single: u64, multi: Multi)
}
