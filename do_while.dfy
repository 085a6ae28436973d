/**
 * Every copy loop has the shape
 *
 *     2:  <body>
 *         inc/add counter, step
 *         cmp counter, bound
 *         jne 2b
 *
 * with the counter starting at 0: the body runs before the first test, and
 * the loop is left only when the counter compares EQUAL to the bound. This
 * module states when such a loop exits, with the counter taken as an
 * unbounded integer.
 */
module DoWhile {
  import Arith

  /** The counter after the body and the increment have run `k` times. */
  function Counter(step: nat, k: nat): (c: nat)
  {
    k * step
  }

  /** The test after the `k`-th iteration falls through, and no earlier test did. */
  ghost predicate ExitsAfter(bound: nat, step: nat, k: nat)
  {
    1 <= k && Counter(step, k) == bound &&
    forall j :: 1 <= j < k ==> Counter(step, j) != bound
  }

  /** Some iteration ends the loop. */
  ghost predicate Terminates(bound: nat, step: nat)
  {
    exists k: nat :: ExitsAfter(bound, step, k)
  }

  /** With a positive step the counter strictly increases from one iteration to the next. */
  lemma {:induction false} CounterIncreases(step: nat, j: nat, k: nat)
    requires 0 < step && j < k
    ensures Counter(step, j) < Counter(step, k)
  {
    if j + 1 < k {
      CounterIncreases(step, j, k - 1);
    }
  }

  /** The first time the counter reaches the bound is the iteration after which the loop exits. */
  lemma FirstExit(bound: nat, step: nat, k: nat)
    requires 0 < step && 1 <= k && Counter(step, k) == bound
    ensures ExitsAfter(bound, step, k)
  {
    forall j | 1 <= j < k
      ensures Counter(step, j) != bound
    {
      CounterIncreases(step, j, k);
    }
  }

  /** A loop that exits runs exactly `bound / step` iterations, and `step` divides `bound`. */
  lemma ExitCount(bound: nat, step: nat, k: nat)
    requires 0 < step && ExitsAfter(bound, step, k)
    ensures bound % step == 0 && k == bound / step
  {
    Arith.DivModUnique(bound, step, k, 0);
  }

  /** The loop terminates exactly when the bound is a positive multiple of the step. */
  lemma TerminatesIff(bound: nat, step: nat)
    requires 0 < step
    ensures Terminates(bound, step) <==> 0 < bound && bound % step == 0
  {
    if 0 < bound && bound % step == 0 {
      var k := bound / step;
      assert Counter(step, k) == bound;
      FirstExit(bound, step, k);
    }
    if Terminates(bound, step) {
      var k: nat :| ExitsAfter(bound, step, k);
      ExitCount(bound, step, k);
      CounterIncreases(step, 0, k);
    }
  }

  /** A zero bound is not a no-op: the counter has passed it before the first test. */
  lemma ZeroBoundDiverges(step: nat)
    requires 0 < step
    ensures !Terminates(0, step)
  {
    TerminatesIff(0, step);
  }
}
