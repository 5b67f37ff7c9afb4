/**
 * Wrap-around navigation over a fixed, non-empty list of items. The video
 * carousel (6 videos) and the image lightbox (15 images) both step their
 * index with `(i + 1) % n` and `(i - 1 + n) % n`.
 */
module Cyclic {

  /** The index after `i`: one further, or back to the first item after the last. */
  function Succ(i: nat, n: nat): (r: nat)
    requires i < n
    ensures r < n
    ensures i + 1 < n ==> r == i + 1
    ensures i + 1 == n ==> r == 0
  {
    (i + 1) % n
  }

  /** The index before `i`: one back, or round to the last item from the first. */
  function Pred(i: nat, n: nat): (r: nat)
    requires i < n
    ensures r < n
    ensures i > 0 ==> r == i - 1
    ensures i == 0 ==> r == n - 1
  {
    (i - 1 + n) % n
  }

  /** Stepping back and then forward (or forward and then back) returns to the same item. */
  lemma SuccPredInverse(i: nat, n: nat)
    requires i < n
    ensures Succ(Pred(i, n), n) == i
    ensures Pred(Succ(i, n), n) == i
  {
  }

  /** `k` presses of "next" starting from `i`. */
  function SuccTimes(i: nat, n: nat, k: nat): (r: nat)
    requires i < n
    ensures r < n
    decreases k
  {
    if k == 0 then i else SuccTimes(Succ(i, n), n, k - 1)
  }

  /** Before reaching the end of the list, `k` steps simply add `k`. */
  lemma {:induction false} SuccTimesNoWrap(i: nat, n: nat, k: nat)
    requires i + k < n
    ensures SuccTimes(i, n, k) == i + k
    decreases k
  {
    if k > 0 {
      SuccTimesNoWrap(i + 1, n, k - 1);
    }
  }

  /** `a` steps followed by `b` steps are `a + b` steps. */
  lemma {:induction false} SuccTimesAdd(i: nat, n: nat, a: nat, b: nat)
    requires i < n
    ensures SuccTimes(i, n, a + b) == SuccTimes(SuccTimes(i, n, a), n, b)
    decreases a
  {
    if a > 0 {
      SuccTimesAdd(Succ(i, n), n, a - 1, b);
    }
  }

  /** Pressing "next" `n` times over `n` items comes back to the starting item. */
  lemma {:induction false} SuccTimesFullCycle(i: nat, n: nat)
    requires i < n
    ensures SuccTimes(i, n, n) == i
  {
    var toLast := n - 1 - i;
    SuccTimesNoWrap(i, n, toLast);
    SuccTimesAdd(i, n, toLast, 1);
    assert SuccTimes(n - 1, n, 1) == SuccTimes(0, n, 0) == 0;
    SuccTimesAdd(i, n, toLast + 1, i);
    SuccTimesNoWrap(0, n, i);
  }
}
