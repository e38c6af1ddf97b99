/** Integer facts behind the overall-progress formula of the batch upload,
    `Math.floor((i * 100 + p) / total)`. On non-negative operands the
    floor of the quotient is the number of times `total` can be taken
    away; it is written that way so that the proofs about it stay linear. */
module Arith {

  /** `Math.floor(n / d)` for `n >= 0` and `d > 0`. */
  function Quotient(n: nat, d: nat): nat
    requires d > 0
    decreases n
  {
    if n < d then 0 else 1 + Quotient(n - d, d)
  }

  lemma {:induction false} QuotientMonotone(a: nat, b: nat, d: nat)
    requires a <= b && d > 0
    ensures Quotient(a, d) <= Quotient(b, d)
    decreases a
  {
    if a >= d {
      QuotientMonotone(a - d, b - d, d);
    }
  }

  /** At most `k` when `n` is at most `k` times `d`. */
  lemma {:induction false} QuotientAtMost(n: nat, d: nat, k: nat)
    requires d > 0 && n <= k * d
    ensures Quotient(n, d) <= k
    decreases k
  {
    if n >= d {
      assert k * d == (k - 1) * d + d;
      QuotientAtMost(n - d, d, k - 1);
    }
  }

  /** The overall progress of file `i` of `total` at file progress `p`. */
  function Overall(i: nat, p: nat, total: nat): nat
    requires i < total
  {
    Quotient(i * 100 + p, total)
  }

  /** Overall progress is a percentage, grows with the file progress, and
      stays between its values at the start of file `i` and at the start
      of file `i + 1`. */
  lemma OverallProgressBounds(i: nat, p: nat, q: nat, total: nat)
    requires i < total && p <= q <= 100
    ensures Overall(i, 0, total) <= Overall(i, p, total) <= Overall(i, q, total)
    ensures Overall(i, q, total) <= Quotient((i + 1) * 100, total) <= 100
    ensures i + 1 < total ==> Quotient((i + 1) * 100, total) == Overall(i + 1, 0, total)
  {
    QuotientMonotone(i * 100, i * 100 + p, total);
    QuotientMonotone(i * 100 + p, i * 100 + q, total);
    QuotientMonotone(i * 100 + q, (i + 1) * 100, total);
    assert (i + 1) * 100 <= 100 * total;
    QuotientAtMost((i + 1) * 100, total, 100);
  }

  /** Real division undone by multiplication. */
  lemma DivThenMul(x: real, t: real)
    requires t > 0.0
    ensures (x / t) * t == x
  {
  }

  /** A positive factor cancels from an inequality. */
  lemma CancelPositive(a: real, b: real, t: real)
    requires t > 0.0 && a * t <= b * t
    ensures a <= b
  {
  }
}
