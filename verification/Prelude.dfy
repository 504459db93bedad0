/** Small value types and helpers shared by the other modules: an optional value and a result, the minimum,
    maximum and absolute value of reals, sums and products of sequences, and the few laws of addition,
    multiplication and division that the solver is not left to find. Money and prices are exact reals
    throughout the model; bars, days and ids are integers. */
module Prelude {

  datatype Option<+T> = None | Some(value: T)

  datatype Result<+T, +E> = Ok(value: T) | Err(error: E)

  function Min(a: real, b: real): real {
    if a <= b then a else b
  }

  function Max(a: real, b: real): real {
    if a >= b then a else b
  }

  function Abs(a: real): real {
    if a >= 0.0 then a else -a
  }

  function Sum(xs: seq<real>): real {
    if xs == [] then 0.0 else Sum(xs[..|xs| - 1]) + xs[|xs| - 1]
  }

  lemma {:induction false} SumSnoc(xs: seq<real>, x: real)
    ensures Sum(xs + [x]) == Sum(xs) + x
  {
    assert (xs + [x])[..|xs|] == xs;
  }

  lemma {:induction false} SumConcat(xs: seq<real>, ys: seq<real>)
    ensures Sum(xs + ys) == Sum(xs) + Sum(ys)
    decreases |ys|
  {
    if ys == [] {
      assert xs + ys == xs;
    } else {
      var front := ys[..|ys| - 1];
      assert xs + ys == (xs + front) + [ys[|ys| - 1]];
      SumSnoc(xs + front, ys[|ys| - 1]);
      SumConcat(xs, front);
    }
  }

  lemma {:induction false} MulAssoc(a: real, b: real, c: real)
    ensures (a * b) * c == a * (b * c)
  {}

  lemma {:induction false} MulMono(x: real, y: real, k: real)
    requires x <= y && k >= 0.0
    ensures x * k <= y * k
  {
    assert (y - x) * k >= 0.0;
  }

  lemma {:induction false} MulStrict(x: real, y: real, k: real)
    requires x < y && k > 0.0
    ensures x * k < y * k
  {
    assert (y - x) * k > 0.0;
  }

  lemma {:induction false} MulCancel(x: real, y: real, k: real)
    requires x * k <= y * k && k > 0.0
    ensures x <= y
  {
    if x > y {
      MulStrict(y, x, k);
    }
  }

  lemma {:induction false} MulPositive(x: real, y: real)
    requires x > 0.0 && y > 0.0
    ensures x * y > 0.0
  {}

  lemma {:induction false} MulNonNeg(x: real, y: real)
    requires x >= 0.0 && y >= 0.0
    ensures x * y >= 0.0
  {}

  lemma {:induction false} MulMono2(x: real, y: real, k: real, l: real)
    requires x <= y && 0.0 <= y && 0.0 <= k <= l
    ensures x * k <= y * l
  {
    MulMono(x, y, k);
    MulMono(k, l, y);
  }

  lemma {:induction false} Distribute(x: real, y: real, k: real)
    ensures (x + y) * k == x * k + y * k
    ensures (x - y) * k == x * k - y * k
  {}

  lemma {:induction false} DivMono(x: real, y: real, k: real)
    requires x <= y && k > 0.0
    ensures x / k <= y / k
  {
    MulMono(x, y, 1.0 / k);
    assert x / k == x * (1.0 / k) && y / k == y * (1.0 / k);
  }

  lemma {:induction false} DivCancel(x: real, k: real)
    requires k != 0.0
    ensures (x / k) * k == x
  {}

  lemma {:induction false} MulCancelEq(x: real, y: real, k: real)
    requires k != 0.0 && x * k == y * k
    ensures x == y
  {
    assert (x - y) * k == 0.0;
  }
}
