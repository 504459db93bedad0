/** Performance metrics of one replay (`backtest/stats.py`), and what they mean for its trades. */
module Stats {
  import opened Prelude
  import opened Sizing
  import opened Replay
  import opened ReplayMoney
  import opened ReplayEngine

  // ----- returns and trade statistics -----

  function TotalReturn(equity: seq<real>, initialCash: real): real
    requires equity != [] && initialCash != 0.0
  {
    equity[|equity| - 1] / initialCash - 1.0
  }

  function Pnls(trades: seq<Trade>): seq<real> {
    seq(|trades|, i requires 0 <= i < |trades| => trades[i].pnl)
  }

  function Wins(pnls: seq<real>): seq<real> {
    if pnls == [] then []
    else Wins(pnls[..|pnls| - 1]) + (if pnls[|pnls| - 1] > 0.0 then [pnls[|pnls| - 1]] else [])
  }

  function Losses(pnls: seq<real>): seq<real> {
    if pnls == [] then []
    else Losses(pnls[..|pnls| - 1]) + (if pnls[|pnls| - 1] < 0.0 then [pnls[|pnls| - 1]] else [])
  }

  datatype TradeStats = TradeStats(winPct: real, profitFactor: Option<real>, avgWin: real, avgLoss: real, expectancy: real)

  function Mean(xs: seq<real>): real {
    if xs == [] then 0.0 else Sum(xs) / |xs| as real
  }

  function ComputeTradeStats(trades: seq<Trade>): TradeStats {
    if trades == [] then TradeStats(0.0, None, 0.0, 0.0, 0.0)
    else
      var pnls := Pnls(trades);
      var wins, losses := Wins(pnls), Losses(pnls);
      var grossWin, grossLoss := Sum(wins), Abs(Sum(losses));
      TradeStats(|wins| as real / |pnls| as real * 100.0,
                 if grossLoss > 0.0 then Some(grossWin / grossLoss) else None,
                 Mean(wins), Mean(losses), Mean(pnls))
  }

  lemma {:induction false} PnlsSum(trades: seq<Trade>)
    ensures Sum(Pnls(trades)) == TotalPnl(trades)
  {
    if trades != [] {
      PnlsSum(trades[..|trades| - 1]);
      assert Pnls(trades)[..|trades| - 1] == Pnls(trades[..|trades| - 1]);
    }
  }

  lemma {:induction false} WinsAndLosses(pnls: seq<real>)
    ensures Sum(Wins(pnls)) + Sum(Losses(pnls)) == Sum(pnls)
    ensures Sum(Wins(pnls)) >= 0.0 && Sum(Losses(pnls)) <= 0.0
    ensures |Wins(pnls)| + |Losses(pnls)| <= |pnls|
  {
    if pnls != [] {
      var front, last := pnls[..|pnls| - 1], pnls[|pnls| - 1];
      WinsAndLosses(front);
      SumSnoc(Wins(front), last);
      SumSnoc(Losses(front), last);
      assert Wins(front) + [] == Wins(front) && Losses(front) + [] == Losses(front);
    }
  }

  function Weighted(average: real, count: nat): real {
    average * count as real
  }

  lemma {:induction false} MeanTimesCount(xs: seq<real>)
    ensures Weighted(Mean(xs), |xs|) == Sum(xs)
  {
    if xs != [] {
      DivCancel(Sum(xs), |xs| as real);
    }
  }

  /** The expectancy times the number of trades is the total profit. */
  lemma {:induction false} ExpectancyAccounts(trades: seq<Trade>)
    ensures Weighted(ComputeTradeStats(trades).expectancy, |trades|) == TotalPnl(trades)
  {
    hide Weighted;
    PnlsSum(trades);
    MeanTimesCount(Pnls(trades));
    assert ComputeTradeStats(trades).expectancy == Mean(Pnls(trades));
  }

  /** The average win and the average loss, weighted by their counts, add up to the total profit. */
  lemma {:induction false} AveragesAccount(trades: seq<Trade>)
    ensures Weighted(ComputeTradeStats(trades).avgWin, |Wins(Pnls(trades))|)
         + Weighted(ComputeTradeStats(trades).avgLoss, |Losses(Pnls(trades))|) == TotalPnl(trades)
  {
    hide Weighted;
    PnlsSum(trades);
    WinsAndLosses(Pnls(trades));
    MeanTimesCount(Wins(Pnls(trades)));
    MeanTimesCount(Losses(Pnls(trades)));
  }

  /** A profit factor above one means a net profit, and only that; there is none when nothing was lost. */
  lemma {:induction false} ProfitFactorSign(trades: seq<Trade>)
    ensures var s := ComputeTradeStats(trades);
      && (s.profitFactor.Some? <==> Losses(Pnls(trades)) != [] && Sum(Losses(Pnls(trades))) < 0.0)
      && (s.profitFactor.Some? ==> (s.profitFactor.value > 1.0 <==> TotalPnl(trades) > 0.0))
  {
    PnlsSum(trades);
    WinsAndLosses(Pnls(trades));
    var win, loss := Sum(Wins(Pnls(trades))), Sum(Losses(Pnls(trades)));
    if loss < 0.0 {
      RatioAboveOne(win, -loss);
    }
    hide Wins, Losses, Mean;
  }

  ghost function Winners(trades: seq<Trade>): set<nat> {
    set i: nat | i < |trades| && trades[i].pnl > 0.0
  }

  ghost function Losers(trades: seq<Trade>): set<nat> {
    set i: nat | i < |trades| && trades[i].pnl < 0.0
  }

  ghost function Above(xs: seq<real>, bound: real): set<nat> {
    set i: nat | i < |xs| && xs[i] > bound
  }

  ghost function Under(xs: seq<real>, bound: real): set<nat> {
    set i: nat | i < |xs| && xs[i] < bound
  }

  lemma {:induction false} CountSnoc(xs: seq<real>, bound: real)
    requires xs != []
    ensures var k := |xs| - 1;
      && |Above(xs, bound)| == |Above(xs[..k], bound)| + (if xs[k] > bound then 1 else 0)
      && |Under(xs, bound)| == |Under(xs[..k], bound)| + (if xs[k] < bound then 1 else 0)
  {
    var k := |xs| - 1;
    assert Above(xs, bound) == Above(xs[..k], bound) + if xs[k] > bound then {k} else {};
    assert Under(xs, bound) == Under(xs[..k], bound) + if xs[k] < bound then {k} else {};
    assert k !in Above(xs[..k], bound) && k !in Under(xs[..k], bound);
    hide Above, Under;
  }

  lemma {:induction false} SplitCounted(pnls: seq<real>)
    ensures |Wins(pnls)| == |Above(pnls, 0.0)| && |Losses(pnls)| == |Under(pnls, 0.0)|
  {
    if pnls == [] {
      assert Above(pnls, 0.0) == {} && Under(pnls, 0.0) == {};
    } else {
      hide Above, Under;
      SplitCounted(pnls[..|pnls| - 1]);
      CountSnoc(pnls, 0.0);
    }
  }

  lemma {:induction false} WinsCounted(trades: seq<Trade>)
    ensures |Wins(Pnls(trades))| == |Winners(trades)| && |Losses(Pnls(trades))| == |Losers(trades)|
  {
    SplitCounted(Pnls(trades));
    assert Above(Pnls(trades), 0.0) == Winners(trades);
    assert Under(Pnls(trades), 0.0) == Losers(trades);
    hide Wins, Losses;
  }

  lemma {:induction false} StatsAre(trades: seq<Trade>)
    requires trades != []
    ensures var s, wins, losses := ComputeTradeStats(trades), Wins(Pnls(trades)), Losses(Pnls(trades));
      && s.winPct == |wins| as real / |trades| as real * 100.0
      && s.avgWin == Mean(wins) && s.avgLoss == Mean(losses)
      && (s.profitFactor.Some? ==> Abs(Sum(losses)) > 0.0 && s.profitFactor.value == Sum(wins) / Abs(Sum(losses)))
  {
    hide Wins, Losses, Mean, Sum, Abs;
  }

  /** The win percentage is the share of trades with a profit; the profit factor is what was won over what was
      lost. */
  lemma {:induction false} WinsAndFactor(trades: seq<Trade>)
    requires trades != []
    ensures var s := ComputeTradeStats(trades);
      && s.winPct * |trades| as real == 100.0 * |Winners(trades)| as real
      && (s.profitFactor.Some? ==>
            s.profitFactor.value * -Weighted(s.avgLoss, |Losers(trades)|) == Weighted(s.avgWin, |Winners(trades)|))
  {
    hide *;
    StatsAre(trades);
    WinsCounted(trades);
    WinsAndLosses(Pnls(trades));
    MeanTimesCount(Wins(Pnls(trades)));
    MeanTimesCount(Losses(Pnls(trades)));
    ShareOf(|Wins(Pnls(trades))| as real, |trades| as real);
    FactorOf(Sum(Wins(Pnls(trades))), Sum(Losses(Pnls(trades))));
  }

  lemma {:induction false} FactorOf(won: real, lost: real)
    requires lost <= 0.0
    ensures Abs(lost) > 0.0 ==> (won / Abs(lost)) * -lost == won
  {
    if lost < 0.0 {
      DivCancel(won, -lost);
    }
  }

  lemma {:induction false} ShareOf(part: real, whole: real)
    requires whole != 0.0
    ensures (part / whole * 100.0) * whole == 100.0 * part
  {
    DivCancel(part, whole);
  }

  lemma {:induction false} RatioAboveOne(win: real, loss: real)
    requires loss > 0.0
    ensures win / loss > 1.0 <==> win > loss
  {
    DivCancel(win, loss);
    if win > loss {
      DivStrict(loss, win, loss);
    } else {
      DivMono(win, loss, loss);
    }
    assert loss / loss == 1.0;
  }

  lemma {:induction false} DivStrict(x: real, y: real, k: real)
    requires x < y && k > 0.0
    ensures x / k < y / k
  {
    DivMono(x, y, k);
    if x / k == y / k {
      DivCancel(x, k);
      DivCancel(y, k);
    }
  }

  /** The total return of a replay, in money, is its expectancy times its number of trades. */
  lemma {:induction false} ReturnIsExpectancy(inp: Input)
    requires inp.Valid() && inp.Length() > 0 && inp.cfg.initialCash != 0.0
    ensures var r := ResultOf(inp);
      && r.equity != []
      && Worth(TotalReturn(r.equity, inp.cfg.initialCash), inp.cfg.initialCash) ==
           Weighted(ComputeTradeStats(r.trades).expectancy, |r.trades|)
  {
    var r := ResultOf(inp);
    assert r.equity != [] && r.equity[|r.equity| - 1] == inp.cfg.initialCash + TotalPnl(r.trades) by {
      hide Run, Held, Worth;
      EndsFlat(inp);
    }
    hide ResultOf, ComputeTradeStats, TotalPnl, Weighted, Worth, Input.Valid;
    ExpectancyAccounts(r.trades);
    ReturnInMoney(r.equity[|r.equity| - 1], inp.cfg.initialCash);
  }

  lemma {:induction false} ReturnInMoney(final: real, cash: real)
    requires cash != 0.0
    ensures Worth(final / cash - 1.0, cash) == final - cash
  {
    DivCancel(final, cash);
    Distribute(final / cash, 1.0, cash);
  }

  // ----- drawdown -----

  function RunningMax(equity: seq<real>, i: nat): real
    requires i < |equity|
  {
    if i == 0 then equity[0] else Max(RunningMax(equity, i - 1), equity[i])
  }

  function Drawdown(equity: seq<real>, i: nat): real
    requires i < |equity| && RunningMax(equity, i) != 0.0
  {
    equity[i] / RunningMax(equity, i) - 1.0
  }

  lemma {:induction false} RunningMaxIsMax(equity: seq<real>, i: nat) returns (peak: nat)
    requires i < |equity|
    ensures forall k :: 0 <= k <= i ==> equity[k] <= RunningMax(equity, i)
    ensures peak <= i && equity[peak] == RunningMax(equity, i)
  {
    peak := i;
    if i > 0 {
      var before := RunningMaxIsMax(equity, i - 1);
      if equity[before] >= equity[i] {
        peak := before;
      }
    }
  }

  /** The change from bar `i` to bar `j`. */
  function Change(equity: seq<real>, i: nat, j: nat): real
    requires i < |equity| && j < |equity| && equity[i] != 0.0
  {
    equity[j] / equity[i] - 1.0
  }

  /** A curve that starts above zero, which the equity of a replay does: the drawdown at a bar is the
      change into it from the peak so far and never positive. While equity is not negative that is the
      worst change into the bar from any bar with positive equity; once it is negative it is the mildest.
      It is a total loss or more exactly when nothing is left. */
  lemma {:induction false} DrawdownIsWorstChange(equity: seq<real>, j: nat)
    requires j < |equity| && equity[0] > 0.0
    ensures RunningMax(equity, j) > 0.0 && Drawdown(equity, j) <= 0.0
    ensures Drawdown(equity, j) <= -1.0 <==> equity[j] <= 0.0
    ensures equity[j] >= 0.0 ==> forall i :: 0 <= i <= j && equity[i] > 0.0 ==> Drawdown(equity, j) <= Change(equity, i, j)
    ensures equity[j] <= 0.0 ==> forall i :: 0 <= i <= j && equity[i] > 0.0 ==> Drawdown(equity, j) >= Change(equity, i, j)
    ensures exists i :: 0 <= i <= j && equity[i] > 0.0 && Drawdown(equity, j) == Change(equity, i, j)
  {
    var peak := RunningMaxIsMax(equity, j);
    assert Drawdown(equity, j) == Change(equity, peak, j);
    forall i | 0 <= i <= j && equity[i] > 0.0
      ensures equity[j] >= 0.0 ==> Change(equity, peak, j) <= Change(equity, i, j)
      ensures equity[j] <= 0.0 ==> Change(equity, peak, j) >= Change(equity, i, j)
    {
      ChangeFromHigher(equity, i, peak, j);
    }
    ChangeSign(equity, peak, j);
    hide Change, Drawdown;
  }

  lemma {:induction false} ChangeFromHigher(equity: seq<real>, low: nat, high: nat, j: nat)
    requires low < |equity| && high < |equity| && j < |equity| && 0.0 < equity[low] <= equity[high]
    ensures equity[j] >= 0.0 ==> Change(equity, high, j) <= Change(equity, low, j)
    ensures equity[j] <= 0.0 ==> Change(equity, high, j) >= Change(equity, low, j)
  {
    if equity[j] >= 0.0 {
      QuotientMono(equity[j], equity[j], equity[high], equity[low]);
    }
    if equity[j] <= 0.0 {
      QuotientMono(-equity[j], -equity[j], equity[high], equity[low]);
      Negated(equity[j], equity[high]);
      Negated(equity[j], equity[low]);
    }
  }

  lemma {:induction false} Negated(x: real, y: real)
    requires y != 0.0
    ensures (-x) / y == -(x / y)
  {}

  /** From a positive equity to one no larger. */
  lemma {:induction false} ChangeSign(equity: seq<real>, i: nat, j: nat)
    requires i < |equity| && j < |equity| && equity[i] > 0.0 && equity[j] <= equity[i]
    ensures Change(equity, i, j) <= 0.0
    ensures Change(equity, i, j) <= -1.0 <==> equity[j] <= 0.0
  {
    DivMono(equity[j], equity[i], equity[i]);
    DivCancel(equity[i], equity[i]);
    if equity[j] <= 0.0 {
      DivMono(equity[j], 0.0, equity[i]);
    } else {
      MulPositive(equity[j], 1.0 / equity[i]);
    }
  }
}
