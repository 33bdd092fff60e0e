/** Sums over sequences: the arithmetic behind every "how many" and "how much is left" below. */
module Sums {
  import opened Sequences

  function Sum<T>(xs: seq<T>, f: T -> nat): nat {
    if xs == [] then 0 else Sum(Init(xs), f) + f(Last(xs))
  }

  lemma {:induction false} SumOfConcat<T>(xs: seq<T>, ys: seq<T>, f: T -> nat)
    ensures Sum(xs + ys, f) == Sum(xs, f) + Sum(ys, f)
    decreases |ys|
  {
    if ys == [] {
      assert xs + ys == xs;
    } else {
      SumOfConcat(xs, Init(ys), f);
      assert Init(xs + ys) == xs + Init(ys);
    }
  }

  lemma SumOfSnoc<T>(xs: seq<T>, x: T, f: T -> nat)
    ensures Sum(xs + [x], f) == Sum(xs, f) + f(x)
  {
  }

  lemma SumOfOne<T>(x: T, f: T -> nat)
    ensures Sum([x], f) == f(x)
  {
  }

  lemma SumOfTail<T>(xs: seq<T>, f: T -> nat)
    requires xs != []
    ensures Sum(xs, f) == f(xs[0]) + Sum(xs[1..], f)
  {
    assert xs == [xs[0]] + xs[1..];
    SumOfConcat([xs[0]], xs[1..], f);
    SumOfOne(xs[0], f);
  }

  lemma SumOfUpdate<T>(xs: seq<T>, i: nat, x: T, f: T -> nat)
    requires i < |xs|
    ensures Sum(xs[i := x], f) + f(xs[i]) == Sum(xs, f) + f(x)
  {
    var a, b := xs[..i], xs[i + 1..];
    assert xs == a + ([xs[i]] + b) && xs[i := x] == a + ([x] + b);
    SumOfConcat(a, [xs[i]] + b, f);
    SumOfConcat(a, [x] + b, f);
    SumOfConcat([xs[i]], b, f);
    SumOfConcat([x], b, f);
    SumOfOne(xs[i], f);
    SumOfOne(x, f);
  }

  lemma {:induction false} SumIsAtLeast<T>(xs: seq<T>, i: nat, f: T -> nat)
    requires i < |xs|
    ensures Sum(xs, f) >= f(xs[i])
    decreases |xs|
  {
    if i < |xs| - 1 {
      SumIsAtLeast(Init(xs), i, f);
    }
  }

  lemma {:induction false} SumIsAtLeastTwo<T>(xs: seq<T>, i: nat, j: nat, f: T -> nat)
    requires i < j < |xs|
    ensures Sum(xs, f) >= f(xs[i]) + f(xs[j])
    decreases |xs|
  {
    if j < |xs| - 1 {
      SumIsAtLeastTwo(Init(xs), i, j, f);
    } else {
      SumIsAtLeast(Init(xs), i, f);
    }
  }

  lemma {:induction false} SumIsZero<T>(xs: seq<T>, f: T -> nat)
    requires forall i :: 0 <= i < |xs| ==> f(xs[i]) == 0
    ensures Sum(xs, f) == 0
    decreases |xs|
  {
    if xs != [] {
      SumIsZero(Init(xs), f);
    }
  }

  lemma {:induction false} SumIsPositive<T>(xs: seq<T>, f: T -> nat) returns (i: nat)
    requires Sum(xs, f) > 0
    ensures i < |xs| && f(xs[i]) > 0
    decreases |xs|
  {
    if f(Last(xs)) > 0 {
      i := |xs| - 1;
    } else {
      i := SumIsPositive(Init(xs), f);
    }
  }

  /** The same price, `n` times. */
  function Times(n: nat, price: nat): nat {
    if n == 0 then 0 else Times(n - 1, price) + price
  }

  lemma {:induction false} TimesIsMonotone(m: nat, n: nat, p: nat, q: nat)
    requires m <= n && p <= q
    ensures Times(m, p) <= Times(n, q)
    decreases n
  {
    if m > 0 {
      TimesIsMonotone(m - 1, n - 1, p, q);
    } else if n > 0 {
      TimesIsMonotone(0, n - 1, p, q);
    }
  }

  lemma {:induction false} SumOfEqual<T>(xs: seq<T>, ys: seq<T>, f: T -> nat)
    requires |xs| == |ys| && forall i :: 0 <= i < |xs| ==> f(xs[i]) == f(ys[i])
    ensures Sum(xs, f) == Sum(ys, f)
    decreases |xs|
  {
    if xs != [] {
      SumOfEqual(Init(xs), Init(ys), f);
    }
  }

  lemma {:induction false} SumIsMonotone<T>(xs: seq<T>, f: T -> nat, g: T -> nat)
    requires forall i :: 0 <= i < |xs| ==> f(xs[i]) <= g(xs[i])
    ensures Sum(xs, f) <= Sum(xs, g)
    decreases |xs|
  {
    if xs != [] {
      SumIsMonotone(Init(xs), f, g);
    }
  }
}
