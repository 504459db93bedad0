/** Average-cost position arithmetic (`orders/services.py`): what one execution does to a position, and
    what a whole history of executions therefore amounts to. */
module Positions {
  import opened Prelude

  datatype Position = Position(qty: real, avgCost: real, marketPrice: Option<real>)

  const FLAT := Position(0.0, 0.0, None)

  /** A signed quantity (positive when bought) at a price. */
  datatype Execution = Execution(signed: real, price: real)

  function Worth(qty: real, price: real): real {
    qty * price
  }

  function WeightedAverage(avgCost: real, held: real, price: real, added: real, total: real): real
    requires total != 0.0
  {
    (Worth(held, avgCost) + Worth(added, price)) / total
  }

  /** The source's four cases: from or to flat, adding, flipping through zero, reducing. */
  function Move(p: Position, x: Execution): (next: Position)
    ensures next.qty == p.qty + x.signed && next.marketPrice == Some(x.price)
  {
    var qty := p.qty + x.signed;
    var avgCost :=
      if p.qty == 0.0 || qty == 0.0 then (if qty != 0.0 then x.price else 0.0)
      else if (p.qty > 0.0) == (x.signed > 0.0) then WeightedAverage(p.avgCost, Abs(p.qty), x.price, Abs(x.signed), Abs(qty))
      else if (p.qty > 0.0) != (qty > 0.0) then x.price
      else p.avgCost;
    Position(qty, avgCost, Some(x.price))
  }

  function MoveAll(p: Position, xs: seq<Execution>): Position {
    if xs == [] then p else Move(MoveAll(p, xs[..|xs| - 1]), xs[|xs| - 1])
  }

  lemma {:induction false} MoveAllSnoc(p: Position, xs: seq<Execution>, x: Execution)
    ensures MoveAll(p, xs + [x]) == Move(MoveAll(p, xs), x)
  {
    assert (xs + [x])[..|xs|] == xs;
  }

  // ----- money -----

  predicate Adds(p: Position, x: Execution) {
    p.qty == 0.0 || (p.qty > 0.0) == (x.signed > 0.0)
  }

  /** The part of the position that the execution closes, signed like the position. */
  function Closed(p: Position, x: Execution): real {
    if Adds(p, x) then 0.0 else if Abs(x.signed) <= Abs(p.qty) then -x.signed else p.qty
  }

  /** Profit booked by an execution: what it closes, at its price against the average cost. */
  function Realised(p: Position, x: Execution): real {
    Worth(Closed(p, x), x.price - p.avgCost)
  }

  function RealisedAll(p: Position, xs: seq<Execution>): real {
    if xs == [] then 0.0
    else RealisedAll(p, xs[..|xs| - 1]) + Realised(MoveAll(p, xs[..|xs| - 1]), xs[|xs| - 1])
  }

  /** Net amount spent on the executions. */
  function Paid(xs: seq<Execution>): real {
    if xs == [] then 0.0 else Paid(xs[..|xs| - 1]) + Worth(xs[|xs| - 1].signed, xs[|xs| - 1].price)
  }

  function Basis(p: Position): real {
    Worth(p.qty, p.avgCost)
  }

  lemma {:induction false} WorthSplits(a: real, b: real, price: real)
    ensures Worth(a + b, price) == Worth(a, price) + Worth(b, price)
    ensures Worth(-a, price) == -Worth(a, price)
    ensures Worth(0.0, price) == 0.0
  {}

  lemma {:induction false} WorthPriceSplits(qty: real, a: real, b: real)
    ensures Worth(qty, a - b) == Worth(qty, a) - Worth(qty, b)
  {}

  lemma {:induction false} WeightedBasis(p: Position, x: Execution)
    requires p.qty != 0.0 && x.signed != 0.0 && Adds(p, x)
    ensures Basis(Move(p, x)) == Basis(p) + Worth(x.signed, x.price)
  {
    var qty, total := p.qty + x.signed, Worth(Abs(p.qty), p.avgCost) + Worth(Abs(x.signed), x.price);
    WorthSplits(p.qty, 0.0, p.avgCost);
    WorthSplits(x.signed, 0.0, x.price);
    QuotientWorth(total, Abs(qty));
    WorthSplits(Abs(qty), 0.0, total / Abs(qty));
    hide Worth;
    assert Move(p, x).avgCost == total / Abs(qty);
  }

  lemma {:induction false} QuotientWorth(total: real, k: real)
    requires k != 0.0
    ensures Worth(k, total / k) == total
  {
    DivCancel(total, k);
  }

  /** One execution conserves money: the change of the basis is what was paid plus what was realised. */
  lemma {:induction false} MoveConserves(p: Position, x: Execution)
    requires x.signed != 0.0
    ensures Basis(Move(p, x)) - Worth(x.signed, x.price) == Basis(p) + Realised(p, x)
  {
    WorthSplits(p.qty, x.signed, p.avgCost);
    WorthSplits(p.qty, x.signed, x.price);
    WorthSplits(x.signed, p.qty, x.price);
    WorthSplits(x.signed, p.qty, p.avgCost);
    WorthPriceSplits(Closed(p, x), x.price, p.avgCost);
    if p.qty != 0.0 && Adds(p, x) {
      WeightedBasis(p, x);
      hide Worth, WeightedAverage;
    } else {
      hide Worth, WeightedAverage;
      WorthSplits(p.qty + x.signed, 0.0, 0.0);
    }
  }

  ghost predicate Genuine(xs: seq<Execution>) {
    forall i :: 0 <= i < |xs| ==> xs[i].signed != 0.0
  }

  /** Average-cost accounting conserves money through adds, reductions, flips and flats: the basis less
      the net amount paid is exactly the realised profit. */
  lemma {:induction false} AccountingConserves(xs: seq<Execution>)
    requires Genuine(xs)
    ensures Basis(MoveAll(FLAT, xs)) - Paid(xs) == RealisedAll(FLAT, xs)
  {
    if xs == [] {
      WorthSplits(0.0, 0.0, 0.0);
    } else {
      AccountingConserves(xs[..|xs| - 1]);
      MoveConserves(MoveAll(FLAT, xs[..|xs| - 1]), xs[|xs| - 1]);
      hide Basis, Realised, Move, Worth;
    }
  }

  /** What the executions gained, each valued on its own at price `mark`. */
  function Gain(xs: seq<Execution>, mark: real): real {
    if xs == [] then 0.0 else Gain(xs[..|xs| - 1], mark) + Worth(xs[|xs| - 1].signed, mark - xs[|xs| - 1].price)
  }

  lemma {:induction false} GainIsValueLessPaid(xs: seq<Execution>, mark: real)
    ensures Gain(xs, mark) == Worth(MoveAll(FLAT, xs).qty, mark) - Paid(xs)
  {
    if xs == [] {
      WorthSplits(0.0, 0.0, mark);
    } else {
      var x := xs[|xs| - 1];
      GainIsValueLessPaid(xs[..|xs| - 1], mark);
      WorthPriceSplits(x.signed, mark, x.price);
      WorthSplits(MoveAll(FLAT, xs[..|xs| - 1]).qty, x.signed, mark);
      hide Worth;
    }
  }

  /** Realised profit plus the unrealised profit the position row reports, at any mark, is the gain of
      the executions themselves: the average-cost method neither creates nor loses money. */
  lemma {:induction false} RealisedPlusUnrealised(xs: seq<Execution>, mark: real)
    requires Genuine(xs)
    ensures var p := MoveAll(FLAT, xs);
      RealisedAll(FLAT, xs) + Worth(p.qty, mark - p.avgCost) == Gain(xs, mark)
  {
    var p := MoveAll(FLAT, xs);
    AccountingConserves(xs);
    GainIsValueLessPaid(xs, mark);
    WorthPriceSplits(p.qty, mark, p.avgCost);
    hide Worth, RealisedAll, Gain, Paid, MoveAll;
  }

  // ----- the average cost stays among the opening prices -----

  /** The prices of the executions that opened or added to the current position, since it was last flat
      or flipped. */
  function OpeningPrices(xs: seq<Execution>): seq<real> {
    if xs == [] then []
    else
      var p, x := MoveAll(FLAT, xs[..|xs| - 1]), xs[|xs| - 1];
      var earlier := OpeningPrices(xs[..|xs| - 1]);
      if p.qty + x.signed == 0.0 then []
      else if p.qty == 0.0 || (p.qty > 0.0) != (p.qty + x.signed > 0.0) then [x.price]
      else if Adds(p, x) then earlier + [x.price]
      else earlier
  }

  ghost predicate Among(price: real, prices: seq<real>) {
    (exists i :: 0 <= i < |prices| && prices[i] <= price) && (exists i :: 0 <= i < |prices| && price <= prices[i])
  }

  lemma {:induction false} WeightedBetween(a: real, m: real, b: real, n: real, total: real)
    requires m > 0.0 && n > 0.0 && total == m + n
    ensures Min(a, b) <= WeightedAverage(a, m, b, n, total) <= Max(a, b)
  {
    var lo, hi := Min(a, b), Max(a, b);
    WorthBetween(m, lo, a, hi);
    WorthBetween(n, lo, b, hi);
    WorthSplits(m, n, lo);
    WorthSplits(m, n, hi);
    var sum := Worth(m, a) + Worth(n, b);
    QuotientWorth(sum, total);
    hide Worth;
    BetweenQuotient(lo, hi, sum, total);
  }

  lemma {:induction false} WorthBetween(qty: real, lo: real, x: real, hi: real)
    requires qty > 0.0 && lo <= x <= hi
    ensures Worth(qty, lo) <= Worth(qty, x) <= Worth(qty, hi)
  {
    MulMono(lo, x, qty);
    MulMono(x, hi, qty);
  }

  lemma {:induction false} BetweenQuotient(lo: real, hi: real, sum: real, total: real)
    requires total > 0.0 && Worth(total, lo) <= sum <= Worth(total, hi)
    ensures lo <= sum / total <= hi
  {
    DivCancel(sum, total);
    MulCancel(lo, sum / total, total);
    MulCancel(sum / total, hi, total);
  }

  lemma {:induction false} AmongExtended(price: real, prices: seq<real>, x: real, avg: real)
    requires Among(price, prices) && Min(price, x) <= avg <= Max(price, x)
    ensures Among(avg, prices + [x])
  {
    var i :| 0 <= i < |prices| && prices[i] <= price;
    var j :| 0 <= j < |prices| && price <= prices[j];
    var longer := prices + [x];
    assert longer[i] == prices[i] && longer[j] == prices[j] && longer[|prices|] == x;
  }

  /** While shares are held, the average cost lies between the lowest and the highest opening price
      since the position was last flat or flipped; a flat position has cost zero. */
  lemma {:induction false} AverageCostAmongOpeningPrices(xs: seq<Execution>)
    requires Genuine(xs)
    ensures var p := MoveAll(FLAT, xs);
      if p.qty != 0.0 then Among(p.avgCost, OpeningPrices(xs)) else p.avgCost == 0.0 && OpeningPrices(xs) == []
  {
    if xs != [] {
      var front, x := xs[..|xs| - 1], xs[|xs| - 1];
      var p := MoveAll(FLAT, front);
      AverageCostAmongOpeningPrices(front);
      if p.qty != 0.0 && Adds(p, x) {
        WeightedBetween(p.avgCost, Abs(p.qty), x.price, Abs(x.signed), Abs(p.qty + x.signed));
        hide WeightedAverage, Worth;
        AmongExtended(p.avgCost, OpeningPrices(front), x.price, Move(p, x).avgCost);
      } else if p.qty == 0.0 || p.qty + x.signed == 0.0 || (p.qty > 0.0) != (p.qty + x.signed > 0.0) {
        hide WeightedAverage, Worth;
        assert p.qty + x.signed != 0.0 ==> Move(p, x).avgCost == x.price && OpeningPrices(xs) == [x.price];
        AmongItself(x.price);
      } else {
        hide WeightedAverage, Worth;
      }
    }
  }

  lemma {:induction false} AmongItself(price: real)
    ensures Among(price, [price])
  {
    assert [price][0] == price;
  }
}
