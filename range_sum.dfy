/**
 * The mathematical value every summation kernel computes: the sum of the
 * integers from `start` to `end` inclusive, zero when `start > end`.
 */
module RangeSums {

  /** start + (start + 1) + ... + end, or 0 when the range is empty. */
  function RangeSum(start: nat, end: int): nat
    decreases end - start + 1
  {
    if end < start then 0 else RangeSum(start, end - 1) + end
  }

  /** n(n+1)/2. */
  function Triangle(n: nat): nat
  {
    n * (n + 1) / 2
  }

  /** Gauss's closed form: 0 + 1 + ... + n == n(n+1)/2. */
  lemma {:induction false} RangeSumClosedForm(n: nat)
    ensures 2 * RangeSum(0, n) == n * (n + 1)
    ensures RangeSum(0, n) == Triangle(n)
  {
    if n > 0 {
      RangeSumClosedForm(n - 1);
      assert (n - 1) * n + 2 * n == n * (n + 1);
    }
  }

  /** A range splits into two adjacent ranges at any point b. */
  lemma {:induction false} RangeSumSplit(a: nat, b: int, c: int)
    requires a <= b + 1 <= c + 1
    ensures RangeSum(a, c) == RangeSum(a, b) + RangeSum(b + 1, c)
  {
    if c > b {
      RangeSumSplit(a, b, c - 1);
    }
  }

  /** Extending the range at either end never decreases the sum. */
  lemma RangeSumMonotone(start: nat, end: int, bound: int)
    requires end <= bound
    ensures RangeSum(start, end) <= RangeSum(0, bound)
  {
    if start <= end {
      if start > 0 {
        RangeSumSplit(0, start - 1, end);
      }
      RangeSumSplit(0, end, bound);
    }
  }

  /** A non-empty range ending at a positive value has a positive sum, at least its last value. */
  lemma RangeSumAtLeastEnd(start: nat, end: int)
    requires start <= end
    ensures RangeSum(start, end) >= end
  {
  }
}
