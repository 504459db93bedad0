/** A finished replay in plain numbers (`backtest/replay_engine.py`): when and at what price each trade left,
    what its fills cost, and how large its order was. */
module ReplayPlain {
  import opened Prelude
  import opened Sizing
  import opened SizingPlain
  import opened Replay
  import opened ReplayBook
  import opened ReplayRun
  import opened ReplayTrades

  // ----- stops and targets -----

  /** The bar reaches the stop `pct` below the average entry; a missing or zero percentage is no stop. */
  predicate ReachesStop(avg: real, pct: Option<real>, bar: Bar) {
    pct.Some? && pct.value != 0.0 && bar.low <= avg * (1.0 - pct.value)
  }

  predicate ReachesTarget(avg: real, pct: Option<real>, bar: Bar) {
    pct.Some? && pct.value != 0.0 && bar.high >= avg * (1.0 + pct.value)
  }

  lemma {:induction false} CheckMeans(avg: real, stop: Option<real>, target: Option<real>, bar: Bar)
    ensures var exit := CheckExit(avg, stop, target, bar);
      && (exit.None? <==> !ReachesStop(avg, stop, bar) && !ReachesTarget(avg, target, bar))
      && (exit.Some? && exit.value.1 == STOP <==> ReachesStop(avg, stop, bar))
      && (exit.Some? && exit.value.1 == TARGET <==> !ReachesStop(avg, stop, bar) && ReachesTarget(avg, target, bar))
      && (exit.Some? && exit.value.1 == STOP ==>
            exit.value.0 == if bar.open < avg * (1.0 - stop.value) then bar.open else avg * (1.0 - stop.value))
      && (exit.Some? && exit.value.1 == TARGET ==>
            exit.value.0 == if bar.open > avg * (1.0 + target.value) then bar.open else avg * (1.0 + target.value))
      && (exit.Some? ==> exit.value.1 == STOP || exit.value.1 == TARGET)
  {
    if stop.Some? {
      assert avg * (1.0 + -1.0 * stop.value) == avg * (1.0 - stop.value);
    }
    if target.Some? {
      assert avg * (1.0 + 1.0 * target.value) == avg * (1.0 + target.value);
    }
  }

  function SignalStop(inp: Input, t: Trade): Option<real>
    requires inp.Valid() && 0 < t.orderBar <= inp.Length()
  {
    inp.Sig(t.orderBar - 1).stopPct
  }

  function SignalTarget(inp: Input, t: Trade): Option<real>
    requires inp.Valid() && 0 < t.orderBar <= inp.Length()
  {
    inp.Sig(t.orderBar - 1).targetPct
  }

  /** The reason and the price at which a trade leaves on its last bar, `kept` being what slippage leaves of a
      sale: a stop reached goes before a target reached, each at its level unless the bar opens beyond it. */
  predicate Leaves(t: Trade, stop: Option<real>, target: Option<real>, bar: Bar, kept: real) {
    var avg := t.entryPrice;
    && (t.reason == STOP <==> t.reason != SIGNAL && ReachesStop(avg, stop, bar))
    && (t.reason == TARGET <==> t.reason != SIGNAL && !ReachesStop(avg, stop, bar) && ReachesTarget(avg, target, bar))
    && (t.reason == STOP ==> t.exitPrice == (if bar.open < avg * (1.0 - stop.value) then bar.open else avg * (1.0 - stop.value)) * kept)
    && (t.reason == TARGET ==> t.exitPrice == (if bar.open > avg * (1.0 + target.value) then bar.open else avg * (1.0 + target.value)) * kept)
    && (t.reason == SIGNAL ==> t.exitPrice == bar.open * kept)
    && (t.reason == FORCE_CLOSE ==> t.exitPrice == bar.close * kept)
  }

  /** The check of the bar and the price it gave make the trade leave as it should. */
  lemma {:induction false} LeavesAsChecked(t: Trade, stop: Option<real>, target: Option<real>, bar: Bar, kept: real)
    requires var exit := CheckExit(t.entryPrice, stop, target, bar);
      && (t.reason == SIGNAL ==> t.exitPrice == bar.open * kept)
      && (t.reason == FORCE_CLOSE ==> exit.None? && t.exitPrice == bar.close * kept)
      && (t.reason == STOP || t.reason == TARGET ==> exit.Some? && exit.value.1 == t.reason && t.exitPrice == exit.value.0 * kept)
    ensures Leaves(t, stop, target, bar, kept)
  {
    CheckMeans(t.entryPrice, stop, target, bar);
    hide CheckExit;
  }

  lemma {:induction false} TradeParts(inp: Input, t: Trade)
    requires inp.Valid() && TradeOk(inp, t)
    ensures 0 < t.orderBar <= t.entryBar <= t.exitBar < inp.Length()
    ensures t.entryPrice == AvgAt(inp, t.qty + t.cancelledQty, t.orderBar, t.exitBar)
    ensures ExitOk(inp, t, t.qty + t.cancelledQty)
    ensures NoExitBefore(inp, t.qty + t.cancelledQty, t.orderBar, t.entryBar, t.exitBar)
  {
    hide QtyAt, CostAt, AvgAt, DoneAt, FirstFill, NoExitBefore, ExitOk, EntryFee, Input.Commission, EntryOnly, SizeEntry, Run;
  }

  lemma {:induction false} ExitAtIs(inp: Input, t: Trade, b: nat)
    requires inp.Valid() && 0 < t.orderBar <= b < inp.Length()
    ensures ExitAt(inp, t.qty + t.cancelledQty, t.orderBar, b)
         == CheckExit(AvgAt(inp, t.qty + t.cancelledQty, t.orderBar, b), SignalStop(inp, t), SignalTarget(inp, t), inp.Bar(b))
  {
    hide CheckExit, AvgAt;
  }

  lemma {:induction false} ExitOkMeans(inp: Input, t: Trade, target: real)
    requires inp.Valid() && 0 < t.orderBar <= t.entryBar <= t.exitBar < inp.Length() && ExitOk(inp, t, target)
    ensures var bar, exit := inp.Bar(t.exitBar), ExitAt(inp, target, t.orderBar, t.exitBar);
      && (t.reason == SIGNAL ==> t.exitPrice == inp.SellPrice(bar.open))
      && (t.reason == FORCE_CLOSE ==> exit.None? && t.exitPrice == inp.SellPrice(bar.close) && t.exitBar == inp.Length() - 1)
      && (t.reason == STOP || t.reason == TARGET ==> exit.Some? && exit.value.1 == t.reason && t.exitPrice == inp.SellPrice(exit.value.0))
  {
    hide ExitAt, DoneAt, NoExitSignalBefore, ExcursionsOver, ExitOnly, Input.SellPrice;
  }

  lemma {:induction false} SaleIs(inp: Input, price: real)
    ensures inp.SellPrice(price) == price * (1.0 - inp.cfg.slippageBps / 10000.0)
  {}

  lemma {:induction false} TradeLeaves(inp: Input, t: Trade)
    requires inp.Valid() && TradeOk(inp, t)
    ensures 0 < t.orderBar <= t.entryBar <= t.exitBar < inp.Length()
    ensures Leaves(t, SignalStop(inp, t), SignalTarget(inp, t), inp.Bar(t.exitBar), 1.0 - inp.cfg.slippageBps / 10000.0)
    ensures t.reason == FORCE_CLOSE ==> t.exitBar == inp.Length() - 1
  {
    hide TradeOk, ExitOk, ExitAt, CheckExit, AvgAt, NoExitBefore, Input.SellPrice;
    TradeParts(inp, t);
    var bar, exit := inp.Bar(t.exitBar), ExitAt(inp, t.qty + t.cancelledQty, t.orderBar, t.exitBar);
    ExitAtIs(inp, t, t.exitBar);
    ExitOkMeans(inp, t, t.qty + t.cancelledQty);
    SaleIs(inp, bar.open);
    SaleIs(inp, bar.close);
    SaleIs(inp, if exit.Some? then exit.value.0 else 0.0);
    hide SignalStop, SignalTarget, Leaves;
    LeavesAsChecked(t, SignalStop(inp, t), SignalTarget(inp, t), bar, 1.0 - inp.cfg.slippageBps / 10000.0);
  }

  /** When and at what price a trade of a run leaves. While it is held, a bar that reaches the stop below the
      average entry ends it at the stop level, or at the open if that is lower, whatever else the bar reaches;
      one that reaches only the target ends it there, or at a higher open; slippage comes off every sale. */
  lemma {:induction false} ExitsAtItsLevels(inp: Input, k: nat)
    requires inp.Valid() && k < |Run(inp, inp.Length()).trades|
    ensures var t := Run(inp, inp.Length()).trades[k];
      && 0 < t.orderBar <= t.entryBar <= t.exitBar < inp.Length()
      && Leaves(t, SignalStop(inp, t), SignalTarget(inp, t), inp.Bar(t.exitBar), 1.0 - inp.cfg.slippageBps / 10000.0)
      && (t.reason == FORCE_CLOSE ==> t.exitBar == inp.Length() - 1)
  {
    hide *;
    TradeIsOk(inp, k);
    TradeLeaves(inp, Run(inp, inp.Length()).trades[k]);
  }

  lemma {:induction false} HeldBetween(inp: Input, t: Trade, b: nat)
    requires inp.Valid() && TradeOk(inp, t) && t.entryBar <= b < t.exitBar
    ensures 0 < t.orderBar <= b < inp.Length()
    ensures var avg := AvgAt(inp, t.qty + t.cancelledQty, t.orderBar, b);
      && !ReachesStop(avg, SignalStop(inp, t), inp.Bar(b)) && !ReachesTarget(avg, SignalTarget(inp, t), inp.Bar(b))
  {
    hide TradeOk, ExitOk, ExitAt, CheckExit, AvgAt, ReachesStop, ReachesTarget;
    TradeParts(inp, t);
    CheckMeans(AvgAt(inp, t.qty + t.cancelledQty, t.orderBar, b), SignalStop(inp, t), SignalTarget(inp, t), inp.Bar(b));
    ExitAtIs(inp, t, b);
    hide SignalStop, SignalTarget;
  }

  lemma {:induction false} NotReached(avg: real, stop: Option<real>, target: Option<real>, bar: Bar)
    requires !ReachesStop(avg, stop, bar) && !ReachesTarget(avg, target, bar)
    ensures stop.Some? && stop.value != 0.0 ==> avg * (1.0 - stop.value) < bar.low
    ensures target.Some? && target.value != 0.0 ==> bar.high < avg * (1.0 + target.value)
  {}

  /** No earlier bar on which shares were held reached either level around the average entry of that bar. */
  lemma {:induction false} HeldBetweenItsLevels(inp: Input, k: nat, b: nat)
    requires inp.Valid() && k < |Run(inp, inp.Length()).trades|
    requires var t := Run(inp, inp.Length()).trades[k];
      t.entryBar <= b < t.exitBar
    ensures var t := Run(inp, inp.Length()).trades[k];
      && 0 < t.orderBar <= b < inp.Length()
      && var avg, bar, stop, target := AvgAt(inp, t.qty + t.cancelledQty, t.orderBar, b), inp.Bar(b), SignalStop(inp, t), SignalTarget(inp, t);
      && (stop.Some? && stop.value != 0.0 ==> avg * (1.0 - stop.value) < bar.low)
      && (target.Some? && target.value != 0.0 ==> bar.high < avg * (1.0 + target.value))
  {
    hide Run, TradeOk, AvgAt;
    TradeIsOk(inp, k);
    var t := Run(inp, inp.Length()).trades[k];
    HeldBetween(inp, t, b);
    NotReached(AvgAt(inp, t.qty + t.cancelledQty, t.orderBar, b), SignalStop(inp, t), SignalTarget(inp, t), inp.Bar(b));
    hide ReachesStop, ReachesTarget, SignalStop, SignalTarget;
  }

  // ----- fills and fees -----

  /** What was already filled before bar `i`. */
  function FilledBefore(inp: Input, target: real, s: nat, i: nat): real
    requires inp.Valid() && s <= i < inp.Length()
  {
    if i == s then 0.0 else QtyAt(inp, target, s, i - 1)
  }

  lemma {:induction false} FirstFillIs(inp: Input, target: real, s: nat)
    requires inp.Valid() && s < inp.Length() && target > 0.0
    ensures FillOn(inp, target, s, s) == AttemptQty(target, inp.VolumeCap(s))
  {
    assert Filled(inp, target, s, 0) == (0.0, 0.0);
    FilledStep(inp, target, s, 0);
    hide Filled, AttemptQty, Input.Spend, Input.VolumeCap;
  }

  lemma {:induction false} LaterFillIs(inp: Input, target: real, s: nat, i: nat)
    requires inp.Valid() && s < i < inp.Length() && target > 0.0
    ensures var missing := target - QtyAt(inp, target, s, i - 1);
      FillOn(inp, target, s, i) == if i < s + 5 && missing > 0.000000001 then AttemptQty(missing, inp.VolumeCap(i)) else 0.0
  {
    FillsRespectCap(inp, target, s, i);
    DoneMeans(inp, target, s, i - 1);
    hide QtyAt, CostAt, DoneAt, FillOn, SpentOn, AttemptQty, Input.Spend, Input.VolumeCap;
  }

  /** On each of the five bars after its signal an unfinished order buys what is missing or the bar's share of
      its volume, whichever is less, crumbs aside, at the open plus slippage; later, or with a billionth
      missing, it buys nothing. */
  lemma {:induction false} FillsInNumbers(inp: Input, target: real, s: nat, i: nat)
    requires inp.Valid() && s <= i < inp.Length() && target > 0.0
    ensures var fill, missing := FillOn(inp, target, s, i), target - FilledBefore(inp, target, s, i);
      var cap := inp.cfg.volumeParticipationPct / 100.0 * inp.Bar(i).volume;
      var least := if missing < cap then missing else cap;
      && fill == (if i < s + 5 && (i == s || missing > 0.000000001) && cap > 0.0 && least > 0.000000000001 then least else 0.0)
      && SpentOn(inp, target, s, i) == fill * (inp.Bar(i).open * (1.0 + inp.cfg.slippageBps / 10000.0))
  {
    var fill, missing := FillOn(inp, target, s, i), target - FilledBefore(inp, target, s, i);
    if i == s {
      FirstFillIs(inp, target, s);
    } else {
      LaterFillIs(inp, target, s, i);
    }
    CapIs(inp, i);
    AttemptIs(missing, inp.VolumeCap(i));
    FillsRespectCap(inp, target, s, i);
    SpendIs(inp, fill, i);
    hide *;
  }

  lemma {:induction false} SpendIs(inp: Input, qty: real, i: nat)
    requires inp.Valid() && i < inp.Length()
    ensures inp.Spend(qty, i) == qty * (inp.Bar(i).open * (1.0 + inp.cfg.slippageBps / 10000.0))
  {}

  lemma {:induction false} CapIs(inp: Input, i: nat)
    requires inp.Valid() && i < inp.Length()
    ensures inp.VolumeCap(i) == inp.cfg.volumeParticipationPct / 100.0 * inp.Bar(i).volume
  {}

  lemma {:induction false} AttemptIs(missing: real, cap: real)
    ensures var least := if missing < cap then missing else cap;
      AttemptQty(missing, cap) == if cap > 0.0 && least > 0.000000000001 then least else 0.0
  {}

  lemma {:induction false} DoneMeans(inp: Input, target: real, s: nat, i: nat)
    requires inp.Valid() && s <= i < inp.Length()
    ensures DoneAt(inp, target, s, i) <==> i + 1 >= s + 5 || target - QtyAt(inp, target, s, i) <= 0.000000001
  {
    hide QtyAt;
  }

  /** What a trade of a run cost and brought: it paid on entry what its fills cost, a commission of so much an
      order and so much a share on exit and the same or nothing on entry, and its profit is the difference. */
  lemma {:induction false} TradeInNumbers(inp: Input, k: nat)
    requires inp.Valid() && k < |Run(inp, inp.Length()).trades|
    ensures var t := Run(inp, inp.Length()).trades[k];
      && 0 < t.orderBar <= t.exitBar < inp.Length() && t.qty > 0.0
      && t.qty * t.entryPrice == CostAt(inp, t.qty + t.cancelledQty, t.orderBar, t.exitBar)
      && t.exitCommission == inp.cfg.perOrderUsd + inp.cfg.perShareUsd * t.qty
      && (t.entryCommission == t.exitCommission || t.entryCommission == 0.0)
      && t.pnl == t.qty * t.exitPrice - t.qty * t.entryPrice - t.entryCommission - t.exitCommission
      && inp.Sig(t.orderBar - 1).entry && !inp.Sig(t.orderBar - 1).exit
      && (t.reason == SIGNAL ==> inp.Sig(t.exitBar - 1).exit && !inp.Sig(t.exitBar - 1).entry)
  {
    hide *;
    TradeIsOk(inp, k);
    TradeCost(inp, Run(inp, inp.Length()).trades[k]);
  }

  lemma {:induction false} FilledGrows(inp: Input, target: real, s: nat, k: nat, m: nat)
    requires inp.Valid() && k <= m && s + m <= inp.Length()
    ensures Filled(inp, target, s, k).0 <= Filled(inp, target, s, m).0
    decreases m
  {
    hide Input.Spend, Input.VolumeCap;
    if k < m {
      FilledGrows(inp, target, s, k, m - 1);
    }
  }

  lemma {:induction false} StillHolds(inp: Input, target: real, s: nat, b: nat, j: nat)
    requires inp.Valid() && s <= b <= j < inp.Length() && QtyAt(inp, target, s, b) > 0.0
    ensures QtyAt(inp, target, s, j) > 0.0
  {
    FilledGrows(inp, target, s, Attempts(s, b), Attempts(s, j));
    hide Filled;
  }

  lemma {:induction false} CostParts(inp: Input, t: Trade)
    requires inp.Valid() && TradeOk(inp, t)
    ensures var target, s := t.qty + t.cancelledQty, t.orderBar;
      && 0 < s <= t.entryBar <= t.exitBar < inp.Length()
      && QtyAt(inp, target, s, t.entryBar) > 0.0 && t.qty == QtyAt(inp, target, s, t.exitBar)
      && t.entryPrice == AvgEntry(QtyAt(inp, target, s, t.exitBar), CostAt(inp, target, s, t.exitBar))
      && t.exitCommission == inp.Commission(t.qty) && (t.entryCommission == inp.Commission(t.qty) || t.entryCommission == 0.0)
      && t.pnl == Worth(t.qty, t.exitPrice) - CostAt(inp, target, s, t.exitBar) - t.entryCommission - t.exitCommission
  {
    hide Worth, AvgEntry, QtyAt, CostAt, DoneAt, NoExitBefore, ExitOk, Input.Commission, EntryOnly, SizeEntry, Run;
  }

  lemma {:induction false} SignalParts(inp: Input, t: Trade)
    requires inp.Valid() && TradeOk(inp, t)
    ensures 0 < t.orderBar <= t.exitBar < inp.Length()
    ensures inp.Sig(t.orderBar - 1).entry && !inp.Sig(t.orderBar - 1).exit
    ensures t.reason == SIGNAL ==> inp.Sig(t.exitBar - 1).exit && !inp.Sig(t.exitBar - 1).entry
  {
    hide QtyAt, CostAt, AvgAt, DoneAt, FirstFill, NoExitBefore, NoExitSignalBefore, ExcursionsOver, ExitAt, EntryFee, Input.Commission, Input.SellPrice, SizeEntry, Run;
  }

  lemma {:induction false} CommissionIs(inp: Input, qty: real)
    ensures inp.Commission(qty) == inp.cfg.perOrderUsd + inp.cfg.perShareUsd * qty
  {}

  lemma {:induction false} TradeCost(inp: Input, t: Trade)
    requires inp.Valid() && TradeOk(inp, t)
    ensures 0 < t.orderBar <= t.exitBar < inp.Length() && t.qty > 0.0
    ensures t.qty * t.entryPrice == CostAt(inp, t.qty + t.cancelledQty, t.orderBar, t.exitBar)
    ensures t.exitCommission == inp.cfg.perOrderUsd + inp.cfg.perShareUsd * t.qty
    ensures t.entryCommission == t.exitCommission || t.entryCommission == 0.0
    ensures t.pnl == t.qty * t.exitPrice - t.qty * t.entryPrice - t.entryCommission - t.exitCommission
    ensures inp.Sig(t.orderBar - 1).entry && !inp.Sig(t.orderBar - 1).exit
    ensures t.reason == SIGNAL ==> inp.Sig(t.exitBar - 1).exit && !inp.Sig(t.exitBar - 1).entry
  {
    hide *;
    var target, s := t.qty + t.cancelledQty, t.orderBar;
    CostParts(inp, t);
    SignalParts(inp, t);
    CommissionIs(inp, t.qty);
    StillHolds(inp, target, s, t.entryBar, t.exitBar);
    AvgTimesQty(t.qty, CostAt(inp, target, s, t.exitBar));
    WorthIs(t.qty, t.exitPrice);
    WorthIs(t.qty, t.entryPrice);
  }

  lemma {:induction false} WorthIs(qty: real, price: real)
    ensures Worth(qty, price) == qty * price
  {}

  // ----- the size of an order -----

  /** Bought at this close with this much cash, so many shares lose no more at any stop than six tenths of the
      risk share, halved if the soft stop is at zero drawdown. */
  ghost predicate OrderLosses(shares: real, close: real, cash: real, atr: Option<real>, stopPct: Option<real>, profile: Profile) {
    var price := if close < 0.01 then 0.01 else close;
    var allowed := cash * (profile.riskPerTradePct * 0.6 / 100.0) * (if profile.softStopPct <= 0.0 then 0.5 else 1.0);
    var stopped := stopPct.Some? && stopPct.value != 0.0 && close * stopPct.value > 0.0;
    var volatile := atr.Some? && profile.atrFactor * atr.value > 0.0;
    && (stopped ==> shares * (close * stopPct.value) <= allowed)
    && (volatile ==> shares * (profile.atrFactor * atr.value) <= allowed)
    && (!stopped && !volatile ==> shares * (price * 0.02) <= allowed)
  }

  /** And they keep the exposure limits. */
  ghost predicate OrderExposure(shares: real, close: real, cash: real, profile: Profile) {
    var price := if close < 0.01 then 0.01 else close;
    && shares * price <= cash * (profile.maxPositionPct / 100.0) * (if profile.softStopPct <= 0.0 then 0.5 else 1.0)
    && shares * price <= cash * (profile.maxPositionPct / 100.0)
    && (profile.leverageCap > 0.0 ==> shares * price <= cash * profile.leverageCap)
  }

  ghost predicate OrderFits(shares: real, close: real, cash: real, atr: Option<real>, stopPct: Option<real>, profile: Profile) {
    OrderLosses(shares, close, cash, atr, stopPct, profile) && OrderExposure(shares, close, cash, profile)
  }

  function OrderInputs(close: real, cash: real, atr: Option<real>, stopPct: Option<real>): SizingInputs {
    SizingInputs(0.0, BUY, close, cash, NEUTRAL, 0.0, 0.0, atr,
                 if stopPct.Some? && stopPct.value != 0.0 then Some(close * stopPct.value) else None, 1.0, 1.0)
  }

  lemma {:induction false} OrderTerms(shares: real, close: real, cash: real, atr: Option<real>, stopPct: Option<real>, profile: Profile)
    ensures var inp := OrderInputs(close, cash, atr, stopPct);
      && LossAllowed(inp, profile) == cash * (profile.riskPerTradePct * 0.6 / 100.0) * (if profile.softStopPct <= 0.0 then 0.5 else 1.0)
      && Appetite(inp, profile) == (if profile.softStopPct <= 0.0 then 0.5 else 1.0)
      && Contract(inp) == 1.0 && Lot(inp) == 1.0 && Price(inp) == (if close < 0.01 then 0.01 else close)
      && VolatilityStop(inp, profile) == (if atr.Some? then profile.atrFactor * atr.value else 0.0)
  {}

  lemma {:induction false} TimesOne(shares: real, x: real)
    ensures shares * (x * 1.0) == shares * x
  {}

  lemma {:induction false} OrderLossIff(shares: real, close: real, cash: real, atr: Option<real>, stopPct: Option<real>, profile: Profile)
    ensures OrderLosses(shares, close, cash, atr, stopPct, profile) <==> LossFits(shares, OrderInputs(close, cash, atr, stopPct), profile)
  {
    OrderTerms(shares, close, cash, atr, stopPct, profile);
    hide LossAllowed, Appetite, Contract, Price, VolatilityStop;
    TimesOne(shares, (if close < 0.01 then 0.01 else close) * 0.02);
    if atr.Some? {
      TimesOne(shares, profile.atrFactor * atr.value);
    }
    if stopPct.Some? {
      TimesOne(shares, close * stopPct.value);
    }
  }

  lemma {:induction false} OrderExposureIff(shares: real, close: real, cash: real, atr: Option<real>, stopPct: Option<real>, profile: Profile)
    ensures OrderExposure(shares, close, cash, profile) <==> ExposureFits(shares, OrderInputs(close, cash, atr, stopPct), profile)
  {
    OrderTerms(shares, close, cash, atr, stopPct, profile);
    hide LossAllowed, Appetite, Contract, Price, VolatilityStop;
    TimesOne(shares, if close < 0.01 then 0.01 else close);
  }

  lemma {:induction false} OrderFitsIff(shares: real, close: real, cash: real, atr: Option<real>, stopPct: Option<real>, profile: Profile)
    ensures OrderFits(shares, close, cash, atr, stopPct, profile) <==> Fits(shares, OrderInputs(close, cash, atr, stopPct), profile)
  {
    hide LossFits, ExposureFits, OrderLosses, OrderExposure;
    OrderLossIff(shares, close, cash, atr, stopPct, profile);
    OrderExposureIff(shares, close, cash, atr, stopPct, profile);
  }

  /** How many shares the order behind a trade asked for: one, or with production sizing the largest whole
      number that fits the cash of the account at the close of its signal. */
  lemma {:induction false} OrderSize(inp: Input, k: nat)
    requires inp.Valid() && k < |Run(inp, inp.Length()).trades|
    ensures var t := Run(inp, inp.Length()).trades[k];
      && 0 < t.orderBar < inp.Length()
      && var shares, j := t.qty + t.cancelledQty, t.orderBar - 1;
      && (!inp.cfg.production ==> shares == 1.0)
      && (inp.cfg.production ==>
            && inp.profile.Some?
            && IsLargestOrder(shares, inp.Bar(j).close, Run(inp, t.orderBar).cash, Atr14(inp.bars, inp.lo + j), inp.Sig(j).stopPct,
                              inp.profile.value))
  {
    hide *;
    TradeIsOk(inp, k);
    var t := Run(inp, inp.Length()).trades[k];
    OrderParts(inp, t);
    SizedOrder(inp, t.orderBar - 1, Run(inp, t.orderBar).cash, inp.Sig(t.orderBar - 1).stopPct);
  }

  ghost predicate IsLargestOrder(shares: real, close: real, cash: real, atr: Option<real>, stopPct: Option<real>, profile: Profile) {
    && OrderFits(shares, close, cash, atr, stopPct, profile)
    && exists n: int :: n > 0 && shares == Whole(n) && forall more: int :: more > n ==> !OrderFits(Whole(more), close, cash, atr, stopPct, profile)
  }

  function Whole(n: int): real {
    n as real
  }

  lemma {:induction false} OrderParts(inp: Input, t: Trade)
    requires inp.Valid() && TradeOk(inp, t)
    ensures 0 < t.orderBar < inp.Length() && t.qty + t.cancelledQty > 0.0
    ensures t.qty + t.cancelledQty == SizeEntry(inp, t.orderBar - 1, Run(inp, t.orderBar).cash, inp.Sig(t.orderBar - 1).stopPct)
  {
    hide QtyAt, CostAt, AvgAt, DoneAt, FirstFill, NoExitBefore, ExitOk, EntryFee, Input.Commission, SizeEntry, Run, EntryOnly;
  }

  lemma {:induction false} SizedOrder(inp: Input, j: nat, cash: real, stopPct: Option<real>)
    requires inp.Valid() && j < inp.Length() && SizeEntry(inp, j, cash, stopPct) > 0.0
    ensures !inp.cfg.production ==> SizeEntry(inp, j, cash, stopPct) == 1.0
    ensures inp.cfg.production ==>
      && inp.profile.Some?
      && IsLargestOrder(SizeEntry(inp, j, cash, stopPct), inp.Bar(j).close, cash, Atr14(inp.bars, inp.lo + j), stopPct, inp.profile.value)
  {
    if inp.cfg.production {
      assert inp.profile.Some?;
      ProductionIs(inp.profile.value, inp.Bar(j).close, cash, Atr14(inp.bars, inp.lo + j), stopPct);
    }
    hide ProductionSize, IsLargestOrder, Atr14;
  }

  lemma {:induction false} ProductionIs(profile: Profile, close: real, cash: real, atr: Option<real>, stopPct: Option<real>)
    ensures ProductionSize(profile, close, cash, atr, stopPct) > 0.0 ==>
      IsLargestOrder(ProductionSize(profile, close, cash, atr, stopPct), close, cash, atr, stopPct, profile)
  {
    var inp, shares := OrderInputs(close, cash, atr, stopPct), ProductionSize(profile, close, cash, atr, stopPct);
    assert shares == SizedQty(ComputeSize(inp, profile));
    assert shares > 0.0 ==> ComputeSize(inp, profile).Accept? && ComputeSize(inp, profile).qty == shares;
    assert Lot(inp) == 1.0;
    hide ComputeSize, ProductionSize, OrderFits, Fits, Lot;
    if shares > 0.0 {
      LargestThatFits(inp, profile);
      OrderFitsIff(shares, close, cash, atr, stopPct, profile);
      var lots: int :| lots > 0 && shares == WholeLots(lots, inp) && forall more: int :: more > lots ==> !Fits(WholeLots(more, inp), inp, profile);
      assert shares == Whole(lots);
      forall more: int | more > lots ensures !OrderFits(Whole(more), close, cash, atr, stopPct, profile) {
        assert Whole(more) == WholeLots(more, inp);
        OrderFitsIff(Whole(more), close, cash, atr, stopPct, profile);
      }
    }
  }
}
