/** The three reducers `calculate_stats` applies to one day's readings:
    Python's `max`, `min` and `sum(xs) / len(xs)`, over exact reals. */
module Reductions {

  /** `m` is an element of `xs` and no element exceeds it. */
  ghost predicate IsMax(m: real, xs: seq<real>) {
    m in xs && forall x :: x in xs ==> x <= m
  }

  /** `m` is an element of `xs` and no element is below it. */
  ghost predicate IsMin(m: real, xs: seq<real>) {
    m in xs && forall x :: x in xs ==> m <= x
  }

  /** Python's `max`: start from the first element and replace the running
      maximum only by a strictly greater one. */
  function MaxOf(xs: seq<real>): (m: real)
    requires |xs| > 0
    ensures IsMax(m, xs)
  {
    if |xs| == 1 then xs[0]
    else
      var init, last := xs[..|xs| - 1], xs[|xs| - 1];
      assert xs == init + [last];
      var m := MaxOf(init);
      if last > m then last else m
  }

  /** Python's `min`, the mirror image of `MaxOf`. */
  function MinOf(xs: seq<real>): (m: real)
    requires |xs| > 0
    ensures IsMin(m, xs)
  {
    if |xs| == 1 then xs[0]
    else
      var init, last := xs[..|xs| - 1], xs[|xs| - 1];
      assert xs == init + [last];
      var m := MinOf(init);
      if last < m then last else m
  }

  /** Python's `sum`: a left fold from 0. */
  function Sum(xs: seq<real>): real {
    if |xs| == 0 then 0.0 else Sum(xs[..|xs| - 1]) + xs[|xs| - 1]
  }

  /** Folding from the right gives the same total: the sum does not depend
      on the order in which the readings are added up. */
  lemma {:induction false} SumFromFront(xs: seq<real>)
    requires |xs| > 0
    ensures Sum(xs) == xs[0] + Sum(xs[1..])
  {
    if |xs| > 1 {
      var init := xs[..|xs| - 1];
      assert xs[1..][..|xs| - 2] == init[1..];
      SumFromFront(init);
    } else {
      assert xs[1..] == [];
    }
  }

  /** A sum of `n` terms, each at most `c`, is at most `n * c`. */
  lemma {:induction false} SumAtMost(xs: seq<real>, c: real)
    requires forall x :: x in xs ==> x <= c
    ensures Sum(xs) <= |xs| as real * c
  {
    if |xs| > 0 {
      var init := xs[..|xs| - 1];
      assert forall x :: x in init ==> x in xs;
      SumAtMost(init, c);
      assert xs[|xs| - 1] in xs;
    }
  }

  /** A sum of `n` terms, each at least `c`, is at least `n * c`. */
  lemma {:induction false} SumAtLeast(xs: seq<real>, c: real)
    requires forall x :: x in xs ==> c <= x
    ensures |xs| as real * c <= Sum(xs)
  {
    if |xs| > 0 {
      var init := xs[..|xs| - 1];
      assert forall x :: x in init ==> x in xs;
      SumAtLeast(init, c);
      assert xs[|xs| - 1] in xs;
    }
  }

  /** Dividing a total bounded by `n * lo` and `n * hi` by `n` lands
      between `lo` and `hi`. */
  lemma DivideBounds(s: real, n: real, lo: real, hi: real)
    requires n > 0.0
    requires n * lo <= s <= n * hi
    ensures lo <= s / n <= hi
  {
  }

  /** The arithmetic mean `sum(xs) / len(xs)`. It lies between the smallest
      and the largest reading, and a single reading is its own mean. */
  function Mean(xs: seq<real>): (a: real)
    requires |xs| > 0
    ensures a * |xs| as real == Sum(xs)
    ensures MinOf(xs) <= a <= MaxOf(xs)
    ensures |xs| == 1 ==> a == xs[0]
  {
    var n := |xs| as real;
    SumAtMost(xs, MaxOf(xs));
    SumAtLeast(xs, MinOf(xs));
    DivideBounds(Sum(xs), n, MinOf(xs), MaxOf(xs));
    assert |xs| == 1 ==> Sum(xs) == Sum([]) + xs[0];
    Sum(xs) / n
  }
}
