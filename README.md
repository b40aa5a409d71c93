# Summation benchmark of threads_test, modelled in Dafny

The repository times two ways of summing the unsigned 64-bit integers
`0 .. count_to`. The first is one thread. The second is `thread_count`
tasks, each summing one block of the range. There are two drivers:

- a thread-pool variant (`sum-time-test.cpp`). Its kernel `sumUp` adds into
  a `thread_local` scratch `tmpSum` that is never reset. It then adds that
  whole scratch to a `std::atomic` total.
- a pthread variant (`sum-time-test_Linux.cpp`). Its `sumUp` starts a local
  scratch at 0 on every call. It adds that scratch to a global total under
  a mutex.

This project models:

- the two overflow guards (module `Overflow`). Both files define them
  identically, so the model defines each one once.
- the mathematical range sum and its closed form (`RangeSums`).
- the block-partition rule. Both drivers use the same rule (`Partition`).
- the command-line clamp, the shared total and the report (`Driver`).
- the kernels and `main` of each driver (`SumTimeTest`, `SumTimeTestLinux`).

Every `unsigned long long` is a `u64`, and its arithmetic wraps modulo 2^64
explicitly (`Wrap64`). The lemmas show that wrapping never happens for a
clamped `count_to` (at most `MAX_NUM = 6·10^9`) when each task starts from a
zero scratch.

In the pool variant, each pool thread is a `Worker` object. Its field
`tmpSum` is the thread-local scratch, so it carries over from one task to
the next on the same thread. The pool's scheduling decision is an input:
`schedule[k]` is the worker that runs task k. The tasks run in the order
they were pushed. Every worker keeps its own scratch, and the shared total
only changes by addition modulo 2^64. So the final state matches that of any
interleaving that keeps each worker's tasks in order. The pool source
(`Thread-Pool-Cpp/ThreadPool.hpp`) is not part of this model. It is assumed
to run every pushed task exactly once, on one of its `thread_count` threads,
before `join` returns.

A division by zero at `count_to / thread_count` is modelled as the outcome
`Multi.DivideByZero`, not as a precondition. Both drivers do that division
when `thread_count` is 0, after printing the single-threaded sum. The
timings, console output and `atoi`/`strtoull` are foreign calls. Their
parsed values come in as a `Driver.CommandLine`.

## Model

| member | source | states |
|---|---|---|
| `Overflow.UnsignedIntOverflow` | sum-time-test/sum-time-test/sum-time-test.cpp:16-25 | returns 1 exactly when a + b > UINT_MAX and 0 exactly when it fits; `UINT_MAX - a` is checked never to underflow |
| `Overflow.UnsignedLLongOverflow` | sum-time-test/sum-time-test/sum-time-test.cpp:26-35 | returns 1 exactly when a + b > ULLONG_MAX and 0 exactly when it fits, without forming the wrapped sum |
| `Overflow.IntOverflowIffWraps` | sum-time-test/sum-time-test/sum-time-test_Linux.cpp:16-25 | the 32-bit guard (same text in both files) says 1 iff the wrapped sum is below a, and 0 iff the wrapped sum equals the true sum |
| `Overflow.LLongOverflowIffWraps` | sum-time-test/sum-time-test/sum-time-test_Linux.cpp:26-35 | the 64-bit guard (same text in both files) says 1 iff the wrapped sum is below a, and 0 iff no wrap occurs |
| `RangeSums.RangeSumClosedForm` | sum-time-test/sum-time-test/sum-time-test.cpp:53-60 | what the kernel loop accumulates from 0 to n equals n(n+1)/2 |
| `Driver.ThreadCount` | sum-time-test/sum-time-test/sum-time-test.cpp:66-79 | thread_count is 8 by default, else atoi's result reduced modulo 2^16 (stored in an `unsigned short`) |
| `Driver.CountTo` | sum-time-test/sum-time-test/sum-time-test.cpp:77-83 | count_to never exceeds MAX_NUM; it is the supplied value when that is at most MAX_NUM, else MAX_NUM |
| `Driver.TotalsFit` | sum-time-test/sum-time-test/sum-time-test.cpp:14 | every range sum ending at or below MAX_NUM is at most 18000000003000000000 < 2^64, so no accumulation from a zero scratch wraps |
| `Driver.SingleThreadedTotal` | sum-time-test/sum-time-test/sum-time-test.cpp:97-98 | summing [0, count_to] from zero into a zero total gives exactly count_to(count_to+1)/2 after both 64-bit additions |
| `Driver.BlocksFit` | sum-time-test/sum-time-test/sum-time-test_Linux.cpp:106-109 | the running total of the first n block sums stays below 2^64 for a clamped count_to |
| `Driver.PartitionTotal` | sum-time-test/sum-time-test/sum-time-test_Linux.cpp:100-109 | the blocks sum to covered(covered+1)/2, covered = T·bs, which equals count_to(count_to+1)/2 iff T divides count_to |
| `Driver.Accumulator.constructor` | sum-time-test/sum-time-test/sum-time-test.cpp:67 | the shared total starts at zero (`sum{}`, and a zero-initialised global) |
| `Driver.Accumulator.Add` | sum-time-test/sum-time-test/sum-time-test.cpp:61 | `fetch_add` / `sum += tmpSum` adds modulo 2^64 |
| `Partition.BlockSize` | sum-time-test/sum-time-test/sum-time-test.cpp:111 | T·bs <= count_to < T·bs + T, and T·bs == count_to iff T divides count_to |
| `Partition.BlocksAdjacent` | sum-time-test/sum-time-test/sum-time-test.cpp:117-118 | block 0 is [0, bs], block i > 0 starts at i·bs + 1, and each block ends one before the next starts |
| `Partition.BlocksDisjoint` | sum-time-test/sum-time-test/sum-time-test.cpp:115-118 | no value lies in two different blocks |
| `Partition.BlockWithinPrefix` | sum-time-test/sum-time-test/sum-time-test_Linux.cpp:108-109 | every block bound of the first n blocks is at most n·bs + 1, so the unsigned products never wrap |
| `Partition.BlocksCover` | sum-time-test/sum-time-test/sum-time-test.cpp:115-118 | a value lies in some block i < T iff it lies in [0, T·bs] |
| `Partition.SumOfBlocksIsPrefixSum` | sum-time-test/sum-time-test/sum-time-test.cpp:115-120 | the block sums of the first n blocks add up to 0 + 1 + ... + n·bs |
| `Partition.TailDropped` | sum-time-test/sum-time-test/sum-time-test_Linux.cpp:100-109 | the blocks sum to at most 0 + ... + count_to, with equality iff T divides count_to; otherwise (T·bs, count_to] is never summed |
| `Partition.TailDroppedExample` | sum-time-test/sum-time-test/sum-time-test.cpp:111-119 | count_to = 10, T = 3: the blocks sum to 45, the full range to 55 |
| `Partition.FixedPartitionSum` | sum-time-test/sum-time-test/sum-time-test.cpp:111-119 | with the last block ending at count_to, the blocks sum to exactly 0 + ... + count_to for every T >= 1 |
| `SumTimeTest.SumUpTasks` | sum-time-test/sum-time-test/sum-time-test.cpp:37-49 | the promised value is the range sum modulo 2^64 (0 for an empty range), and exactly the range sum when end <= MAX_NUM |
| `SumTimeTest.Worker.constructor` | sum-time-test/sum-time-test/sum-time-test.cpp:50 | a new thread's `tmpSum` is 0 |
| `SumTimeTest.Worker.SumUp` | sum-time-test/sum-time-test/sum-time-test.cpp:51-62 | `tmpSum` grows by the range sum on top of its old value, and the shared total grows by the whole new `tmpSum` |
| `SumTimeTest.Worker.SumUpFresh` | sum-time-test/sum-time-test/sum-time-test.cpp:50-61 | corrected kernel: clears the scratch first, so the total grows by exactly the range sum |
| `SumTimeTest.PoolTotalExcess` | sum-time-test/sum-time-test/sum-time-test.cpp:115-122 | the pool total is never below the sum of the blocks; it equals it when no worker ran two tasks, and exceeds it otherwise when blocks are non-empty |
| `SumTimeTest.PoolTotalExactIff` | sum-time-test/sum-time-test/sum-time-test.cpp:50-61 | for bs >= 1 the pool adds 0 + ... + T·bs iff every task ran on its own thread |
| `SumTimeTest.ReusedWorkerOvercounts` | sum-time-test/sum-time-test/sum-time-test.cpp:50-61 | count_to = 4, T = 2, both tasks on worker 0: the pool adds 13 where the range sums to 10 |
| `SumTimeTest.NewPool` | sum-time-test/sum-time-test/sum-time-test.cpp:112 | the pool owns T new, distinct threads, each with a zero scratch |
| `SumTimeTest.RunTasks` | sum-time-test/sum-time-test/sum-time-test.cpp:115-122 | after the push loop and join, each worker's scratch is the sum of its blocks and the total grew by the pool total of the schedule |
| `SumTimeTest.RunTasksFresh` | sum-time-test/sum-time-test/sum-time-test.cpp:115-122 | corrected phase: for every schedule the total grows by exactly 0 + ... + T·bs |
| `SumTimeTest.DistinctScheduleTotal` | sum-time-test/sum-time-test/sum-time-test.cpp:111-122 | with one task per thread the multi-threaded sum is exactly covered(covered+1)/2, covered = T·bs |
| `SumTimeTest.Run` | sum-time-test/sum-time-test/sum-time-test.cpp:63-128 | the report holds the clamped count_to and thread_count; single = count_to(count_to+1)/2; division by zero iff thread_count = 0; otherwise multi is the schedule's pool total modulo 2^64, which is covered(covered+1)/2 with one task per thread |
| `SumTimeTestLinux.SumUp` | sum-time-test/sum-time-test/sum-time-test_Linux.cpp:43-58 | starting from a zero scratch, the global grows by exactly the range sum (0 for an empty range) modulo 2^64; nothing else changes |
| `SumTimeTestLinux.SingleThreaded` | sum-time-test/sum-time-test/sum-time-test_Linux.cpp:83-91 | the call on {0, count_to} leaves the global at count_to(count_to+1)/2 |
| `SumTimeTestLinux.RunThreads` | sum-time-test/sum-time-test/sum-time-test_Linux.cpp:106-120 | after the create and join loops the reset global holds the sum of all T block sums |
| `SumTimeTestLinux.MultiThreaded` | sum-time-test/sum-time-test/sum-time-test_Linux.cpp:95-121 | resets the global; divides by zero iff thread_count = 0, else yields the sum of the block sums |
| `SumTimeTestLinux.Run` | sum-time-test/sum-time-test/sum-time-test_Linux.cpp:59-126 | single = count_to(count_to+1)/2; division by zero iff thread_count = 0; otherwise multi = covered(covered+1)/2, covered = T·bs, and multi == single iff T divides count_to |

## Left out

- The thread pool itself (`Thread-Pool-Cpp/ThreadPool.hpp`, its lock, condition variable and workers) is not part of this model; task execution is the sequential `SumTimeTest.RunTasks` driven by a schedule parameter.
- `pthread_create`/`pthread_join`, `std::thread`, the mutex and `std::atomic` memory ordering: threads run one after the other, which gives the same totals because addition modulo 2^64 commutes.
- The data race on the single `input` struct shared by every pthread (sum-time-test_Linux.cpp:108-110): each thread reads the bounds computed for its own iteration.
- A failing `pthread_join` and the `exit(-1)` after it (sum-time-test_Linux.cpp:115-119): joins are taken to succeed.
- Timing with `std::chrono` and all console output, including the warnings the overflow guards print: I/O.
- `atoi` and `strtoull`: foreign parsers, whose results are the fields of `Driver.CommandLine`.
- The `_DEBUG` branches inside the kernels: they refer to an undefined `temp` and do not compile.
- The missing return value of the pthread `sumUp`: undefined behaviour with no logic in it.
- The pool's clamp of a zero thread count to one: both drivers already divide by zero before building the pool.
- The commented-out `sumUpTasks` call in `main` (sum-time-test.cpp:91-95): it is not run; `SumTimeTest.SumUpTasks` models the function on its own.
- SumTimeTest.SumUpTasks, SumTimeTest.Worker.SumUp and SumTimeTestLinux.SumUp require `end < ULLONG_MAX`: with `end == ULLONG_MAX` the source's `i <= end` loop never terminates. Every call in `main` has `end <= count_to <= MAX_NUM`.
- The pi-series benchmarks: floating-point series with thread plumbing, outside this model.

## Findings

| source | as written | input that shows it | evidently intended | confidence | as-written member | corrected member |
|---|---|---|---|---|---|---|
| sum-time-test/sum-time-test/sum-time-test.cpp:111-119 | the last block ends at `thread_count * block_size`, so `(T·bs, count_to]` is never summed | count_to = 10, thread_count = 3: the multi-threaded sum is 45, the single-threaded one 55 | the last block ends at `count_to`, so both phases print the same sum | not executed; the same rule is at sum-time-test_Linux.cpp:100-109 | `Partition.TailDroppedExample` | `Partition.FixedPartitionSum` |
| sum-time-test/sum-time-test/sum-time-test.cpp:50-61 | the `thread_local tmpSum` is never reset, so a pool thread that runs a second task adds the first task's sum again | count_to = 4, thread_count = 2, both tasks taken by the same pool thread: 13 is added instead of 10 | each call starts its scratch at 0, as the pthread variant's local `tmpSum` does (sum-time-test_Linux.cpp:45) | not executed; depends on how the pool schedules tasks | `SumTimeTest.ReusedWorkerOvercounts` | `SumTimeTest.RunTasksFresh` |
