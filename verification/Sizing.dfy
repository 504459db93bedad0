/** Position sizing (`risk/sizing.py`) and the two forms of ATR-14: the backtester's forward pass
    over a frame and the live service's pass over the newest stored bars. */
module Sizing {
  import opened Prelude

  datatype Bar = Bar(day: int, open: real, high: real, low: real, close: real, volume: real)

  // ----- ATR-14 -----

  const ATR_BARS := 15

  function TrueRange(bar: Bar, prevClose: real): real {
    Max(bar.high - bar.low, Max(Abs(bar.high - prevClose), Abs(bar.low - prevClose)))
  }

  /** The true range of every bar but the first, oldest first. */
  function TrueRanges(bars: seq<Bar>): (trs: seq<real>)
    ensures |trs| == if |bars| < 2 then 0 else |bars| - 1
  {
    if |bars| < 2 then []
    else seq(|bars| - 1, i requires 0 <= i < |bars| - 1 => TrueRange(bars[i + 1], bars[i].close))
  }

  function MeanTrueRange(bars: seq<Bar>): Option<real> {
    if |bars| < 2 then None else Some(Sum(TrueRanges(bars)) / (|bars| - 1) as real)
  }

  /** The window the backtester reads: at most 15 bars ending at `endPos`, inclusive. */
  function AtrWindow(bars: seq<Bar>, endPos: nat): seq<Bar>
    requires endPos < |bars|
  {
    bars[if endPos >= ATR_BARS - 1 then endPos - (ATR_BARS - 1) else 0..endPos + 1]
  }

  function Atr14(bars: seq<Bar>, endPos: nat): Option<real>
    requires endPos < |bars|
  {
    MeanTrueRange(AtrWindow(bars, endPos))
  }

  method Atr14FromBars(bars: seq<Bar>, endPos: nat) returns (atr: Option<real>)
    requires endPos < |bars|
    ensures atr == Atr14(bars, endPos)
  {
    var lo := if endPos - (ATR_BARS - 1) > 0 then endPos - (ATR_BARS - 1) else 0;
    var window := bars[lo..endPos + 1];
    if |window| < 2 {
      return None;
    }
    var trs: seq<real> := [];
    for i := 1 to |window|
      invariant |trs| == i - 1
      invariant forall k :: 0 <= k < i - 1 ==> trs[k] == TrueRange(window[k + 1], window[k].close)
    {
      trs := trs + [TrueRange(window[i], window[i - 1].close)];
    }
    assert trs == TrueRanges(window);
    atr := Some(Sum(trs) / |trs| as real);
  }

  function Reverse<T>(xs: seq<T>): (r: seq<T>)
    ensures |r| == |xs|
    ensures forall i :: 0 <= i < |xs| ==> r[i] == xs[|xs| - 1 - i]
  {
    seq(|xs|, i requires 0 <= i < |xs| => xs[|xs| - 1 - i])
  }

  lemma {:induction false} SumReverse(xs: seq<real>)
    ensures Sum(Reverse(xs)) == Sum(xs)
  {
    if xs != [] {
      var front, last := xs[..|xs| - 1], xs[|xs| - 1];
      assert Reverse(xs) == [last] + Reverse(front);
      SumConcat([last], Reverse(front));
      assert Sum([last]) == last by { assert [last] == [] + [last]; SumSnoc([], last); }
      SumReverse(front);
    }
  }

  /** Pairing each bar with the next older one, newest first, gives the same true ranges reversed. */
  lemma {:induction false} LivePairsReversed(window: seq<Bar>, newest: seq<Bar>, trs: seq<real>)
    requires |window| == |newest| >= 2 && newest == Reverse(window)
    requires |trs| == |newest| - 1
    requires forall k :: 0 <= k < |trs| ==> trs[k] == TrueRange(newest[k], newest[k + 1].close)
    ensures Sum(trs) == Sum(TrueRanges(window))
  {
    var forward := TrueRanges(window);
    forall k | 0 <= k < |trs| ensures trs[k] == Reverse(forward)[k] {
      assert newest[k] == window[|window| - 1 - k] && newest[k + 1] == window[|window| - 2 - k];
    }
    assert trs == Reverse(forward);
    SumReverse(forward);
  }

  /** The live service: `stored` is the whole history, oldest first; it reads the newest 15 in
      descending order and pairs each bar with the next (older) one. */
  method Atr14Live(stored: seq<Bar>) returns (atr: Option<real>)
    ensures atr == if stored == [] then None else Atr14(stored, |stored| - 1)
  {
    var newest := Reverse(stored);
    var bars := if |newest| > ATR_BARS then newest[..ATR_BARS] else newest;
    if |bars| < 2 {
      return None;
    }
    ghost var window := AtrWindow(stored, |stored| - 1);
    assert bars == Reverse(window);
    var trs: seq<real> := [];
    for i := 0 to |bars| - 1
      invariant |trs| == i
      invariant forall k :: 0 <= k < i ==> trs[k] == TrueRange(bars[k], bars[k + 1].close)
    {
      trs := trs + [TrueRange(bars[i], bars[i + 1].close)];
    }
    LivePairsReversed(window, bars, trs);
    atr := Some(Sum(trs) / |trs| as real);
  }

  /** The ATR seen at a bar depends on no later bar. */
  lemma {:induction false} Atr14Causal(a: seq<Bar>, b: seq<Bar>, endPos: nat)
    requires endPos < |a| && endPos < |b|
    requires a[..endPos + 1] == b[..endPos + 1]
    ensures Atr14(a, endPos) == Atr14(b, endPos)
  {
    var lo := if endPos >= ATR_BARS - 1 then endPos - (ATR_BARS - 1) else 0;
    assert a[lo..endPos + 1] == a[..endPos + 1][lo..];
    assert b[lo..endPos + 1] == b[..endPos + 1][lo..];
  }

  // ----- compute_size -----

  datatype Regime = CRISIS | BEAR | CHOP | NEUTRAL | BULL | OTHER_REGIME

  datatype Side = LONG | BUY | BUY_TO_OPEN | BUY_TO_CLOSE | SHORT_SIDE

  datatype Profile = Profile(
    riskPerTradePct: real, maxPositionPct: real, atrFactor: real, softStopPct: real,
    hardStopPct: real, leverageCap: real, strictMode: bool)

  datatype SizingInputs = SizingInputs(
    requestedQty: real, side: Side, price: real, equity: real, regime: Regime,
    sentiment: real, intradayDdPct: real, atr14: Option<real>, stopDistance: Option<real>,
    contractMultiplier: real, lotSize: real)

  datatype Reject = REGIME_SIDE_MISMATCH | REGIME_CRISIS | HARD_STOP | SIZING_ZERO

  datatype SizingResult = Accept(qty: real) | Rejected(reason: Reject)

  const MIN_PRICE := 0.01
  const DEFAULT_STOP_FRAC := 0.02

  function RegimeScale(regime: Regime): real {
    match regime
    case CRISIS => 0.0
    case BEAR => 0.3
    case CHOP => 0.6
    case NEUTRAL => 0.6
    case BULL => 1.0
    case OTHER_REGIME => 0.6
  }

  predicate IsLong(side: Side) {
    side != SHORT_SIDE
  }

  function OrDefault(x: real, default: real): real {
    if x == 0.0 then default else x
  }

  function OrZero(x: Option<real>): real {
    if x.Some? then x.value else 0.0
  }

  function RoundToLot(qty: real, lot: real): real
    requires lot != 0.0
  {
    (qty / lot).Floor as real * lot
  }

  function ScaledRisk(inp: SizingInputs, profile: Profile): real {
    profile.riskPerTradePct * RegimeScale(inp.regime)
  }

  function EffectivePrice(inp: SizingInputs): real {
    Max(inp.price, MIN_PRICE)
  }

  function StopDistance(inp: SizingInputs, profile: Profile): (d: real)
    ensures d > 0.0
  {
    var d := Max(OrZero(inp.stopDistance), profile.atrFactor * OrZero(inp.atr14));
    if d <= 0.0 then EffectivePrice(inp) * DEFAULT_STOP_FRAC else d
  }

  /** How many contracts a fraction of the equity covers, at so much money each. */
  function Affordable(equity: real, fraction: real, unit: real, mult: real): real
    requires unit > 0.0 && mult > 0.0
  {
    (equity * fraction) / (unit * mult)
  }

  function Multiplier(inp: SizingInputs): (m: real)
    requires inp.contractMultiplier >= 0.0
    ensures m > 0.0
  {
    OrDefault(inp.contractMultiplier, 1.0)
  }

  function RawQty(inp: SizingInputs, profile: Profile): real
    requires inp.contractMultiplier >= 0.0
  {
    Affordable(inp.equity, ScaledRisk(inp, profile) / 100.0, StopDistance(inp, profile), Multiplier(inp))
  }

  function PositionCeiling(inp: SizingInputs, profile: Profile): real
    requires inp.contractMultiplier >= 0.0
  {
    Affordable(inp.equity, profile.maxPositionPct / 100.0, EffectivePrice(inp), Multiplier(inp))
  }

  function LeverageCeiling(inp: SizingInputs, profile: Profile): real
    requires inp.contractMultiplier >= 0.0
  {
    Affordable(inp.equity, profile.leverageCap, EffectivePrice(inp), Multiplier(inp))
  }

  function SentimentFactor(inp: SizingInputs): real {
    if inp.sentiment > 0.7 && IsLong(inp.side) then 1.1
    else if inp.sentiment < -0.5 && IsLong(inp.side) then 0.5
    else 1.0
  }

  function SoftStopFactor(inp: SizingInputs, profile: Profile): real {
    if inp.intradayDdPct >= profile.softStopPct then 0.5 else 1.0
  }

  function Adjusted(base: real, boost: real, soft: real): real {
    base * boost * soft
  }

  /** The ceilings re-applied after the adjustments, in the source's order. */
  function Clamp(adjusted: real, ceiling: real, leverage: Option<real>, requested: real): real {
    var capped := Min(adjusted, ceiling);
    var levered := if leverage.Some? then Min(capped, leverage.value) else capped;
    if requested > 0.0 then Min(levered, requested) else levered
  }

  function UnroundedQty(inp: SizingInputs, profile: Profile): real
    requires inp.contractMultiplier >= 0.0
  {
    var ceiling := PositionCeiling(inp, profile);
    Clamp(Adjusted(Min(RawQty(inp, profile), ceiling), SentimentFactor(inp), SoftStopFactor(inp, profile)), ceiling,
          if profile.leverageCap > 0.0 then Some(LeverageCeiling(inp, profile)) else None, inp.requestedQty)
  }

  function ComputeSize(inp: SizingInputs, profile: Profile): SizingResult
    requires inp.contractMultiplier >= 0.0
  {
    if profile.strictMode && inp.regime in {BEAR, CRISIS} && IsLong(inp.side) then Rejected(REGIME_SIDE_MISMATCH)
    else if inp.regime == CRISIS then Rejected(REGIME_CRISIS)
    else if profile.hardStopPct > 0.0 && inp.intradayDdPct >= profile.hardStopPct then Rejected(HARD_STOP)
    else
      var qty := RoundToLot(UnroundedQty(inp, profile), OrDefault(inp.lotSize, 1.0));
      if qty <= 0.0 then Rejected(SIZING_ZERO) else Accept(qty)
  }

  function SizedQty(result: SizingResult): real {
    if result.Accept? then result.qty else 0.0
  }

  function LotsOf(lots: int, lot: real): real {
    lots as real * lot
  }

  /** `qty` is `lots` whole lots, the most that fit under `limit`. */
  ghost predicate LargestLots(qty: real, lot: real, lots: int, limit: real) {
    && qty == LotsOf(lots, lot) <= limit
    && forall more :: more > lots ==> limit < LotsOf(more, lot)
  }

  lemma {:induction false} LotsAboveExceed(more: int, lot: real, q: real)
    requires lot > 0.0 && more > q.Floor
    ensures q * lot < LotsOf(more, lot)
  {
    MulStrict(q, more as real, lot);
  }

  lemma {:induction false} FloorIsLargest(lot: real, q: real)
    requires lot > 0.0
    ensures LargestLots(LotsOf(q.Floor, lot), lot, q.Floor, q * lot)
  {
    assert LotsOf(q.Floor, lot) <= q * lot by { MulMono(q.Floor as real, q, lot); }
    forall more | more > q.Floor ensures q * lot < LotsOf(more, lot) {
      LotsAboveExceed(more, lot, q);
    }
  }

  lemma {:induction false} RoundToLotLargest(qty: real, lot: real)
    requires lot > 0.0
    ensures LargestLots(RoundToLot(qty, lot), lot, (qty / lot).Floor, qty)
  {
    DivCancel(qty, lot);
    FloorIsLargest(lot, qty / lot);
  }

  lemma {:induction false} RoundToLotMono(x: real, y: real, lot: real)
    requires lot > 0.0 && x <= y
    ensures RoundToLot(x, lot) <= RoundToLot(y, lot)
  {
    DivMono(x, y, lot);
    MulMono((x / lot).Floor as real, (y / lot).Floor as real, lot);
  }

  lemma {:induction false} PositiveRounding(qty: real, lot: real)
    requires lot > 0.0 && RoundToLot(qty, lot) > 0.0
    ensures exists lots :: lots > 0 && LargestLots(RoundToLot(qty, lot), lot, lots, qty)
    ensures RoundToLot(qty, lot) <= qty
  {
    RoundToLotLargest(qty, lot);
    PositiveFactor((qty / lot).Floor as real, lot);
  }

  /** Everything a size has to stay under: the risk size and the position ceiling, both scaled by sentiment
      and soft stop, and the position, leverage and requested ceilings as they are. */
  predicate UnderEveryCeiling(qty: real, inp: SizingInputs, profile: Profile)
    requires inp.contractMultiplier >= 0.0
  {
    && qty <= Adjusted(Min(RawQty(inp, profile), PositionCeiling(inp, profile)), SentimentFactor(inp), SoftStopFactor(inp, profile))
    && qty <= PositionCeiling(inp, profile)
    && (profile.leverageCap > 0.0 ==> qty <= LeverageCeiling(inp, profile))
    && (inp.requestedQty > 0.0 ==> qty <= inp.requestedQty)
  }

  lemma {:induction false} UnroundedIsTightest(qty: real, inp: SizingInputs, profile: Profile)
    requires inp.contractMultiplier >= 0.0
    ensures qty <= UnroundedQty(inp, profile) <==> UnderEveryCeiling(qty, inp, profile)
  {
    hide Adjusted, RawQty, PositionCeiling, LeverageCeiling, SentimentFactor, SoftStopFactor;
  }

  /** Every accepted size is a positive whole number of lots, below every ceiling at once, and one lot more
      would be above one of them; the risk ceiling is the size that the risk budget affords, boosted. */
  lemma {:induction false} AcceptedWithinCeilings(inp: SizingInputs, profile: Profile)
    requires inp.contractMultiplier >= 0.0 && inp.lotSize >= 0.0
    requires ComputeSize(inp, profile).Accept?
    ensures var qty, lot := ComputeSize(inp, profile).qty, OrDefault(inp.lotSize, 1.0);
      && 0.0 < qty <= RawQty(inp, profile) * SentimentFactor(inp)
      && UnderEveryCeiling(qty, inp, profile)
      && exists lots :: lots > 0 && qty == LotsOf(lots, lot) && forall more :: more > lots ==> !UnderEveryCeiling(LotsOf(more, lot), inp, profile)
  {
    var qty, lot, limit := ComputeSize(inp, profile).qty, OrDefault(inp.lotSize, 1.0), UnroundedQty(inp, profile);
    PositiveRounding(limit, lot);
    AcceptedBelowBoostedRaw(inp, profile);
    UnroundedIsTightest(qty, inp, profile);
    hide UnderEveryCeiling, UnroundedQty, RoundToLot, LotsOf;
    var lots :| lots > 0 && LargestLots(qty, lot, lots, limit);
    forall more | more > lots ensures !UnderEveryCeiling(LotsOf(more, lot), inp, profile) {
      UnroundedIsTightest(LotsOf(more, lot), inp, profile);
    }
  }

  function MoneyAtStop(qty: real, inp: SizingInputs, profile: Profile): real
    requires inp.contractMultiplier >= 0.0
  {
    Cost(qty, StopDistance(inp, profile), Multiplier(inp))
  }

  function Cost(qty: real, unit: real, mult: real): real {
    qty * (unit * mult)
  }

  function RiskBudget(inp: SizingInputs, profile: Profile): real {
    Fraction(inp.equity, ScaledRisk(inp, profile) / 100.0)
  }

  function Fraction(equity: real, fraction: real): real {
    equity * fraction
  }

  lemma {:induction false} AcceptedBelowBoostedRaw(inp: SizingInputs, profile: Profile)
    requires inp.contractMultiplier >= 0.0 && inp.lotSize >= 0.0
    requires ComputeSize(inp, profile).Accept?
    ensures 0.0 < ComputeSize(inp, profile).qty <= RawQty(inp, profile) * SentimentFactor(inp)
  {
    PositiveRounding(UnroundedQty(inp, profile), OrDefault(inp.lotSize, 1.0));
    BoundedByRaw(ComputeSize(inp, profile).qty, RawQty(inp, profile), Min(RawQty(inp, profile), PositionCeiling(inp, profile)),
                 SentimentFactor(inp), SoftStopFactor(inp, profile));
  }

  /** Without a sentiment boost the money at risk at the stop never exceeds the risk budget; with it,
      never more than 1.1 times the budget. */
  lemma {:induction false} AcceptedRiskBounded(inp: SizingInputs, profile: Profile)
    requires inp.contractMultiplier >= 0.0 && inp.lotSize >= 0.0
    requires ComputeSize(inp, profile).Accept?
    ensures MoneyAtStop(ComputeSize(inp, profile).qty, inp, profile) <= RiskBudget(inp, profile) * 1.1
    ensures inp.sentiment <= 0.7 || !IsLong(inp.side) ==>
              MoneyAtStop(ComputeSize(inp, profile).qty, inp, profile) <= RiskBudget(inp, profile)
  {
    AcceptedBelowBoostedRaw(inp, profile);
    RiskAtStop(ComputeSize(inp, profile).qty, SentimentFactor(inp), inp.equity, ScaledRisk(inp, profile) / 100.0,
               StopDistance(inp, profile), Multiplier(inp));
  }

  /** A positive size below an adjusted base is below any bound of that base, boosted. */
  lemma {:induction false} BoundedByRaw(qty: real, raw: real, base: real, boost: real, soft: real)
    requires qty > 0.0 && base <= raw
    requires 0.0 < boost && 0.0 < soft <= 1.0
    requires qty <= Adjusted(base, boost, soft)
    ensures qty <= raw * boost
  {
    var boosted := base * boost;
    PositiveFactor(boosted, soft);
    assert boosted * soft <= boosted by { assert boosted * (1.0 - soft) >= 0.0; }
    MulMono(base, raw, boost);
  }

  lemma {:induction false} RiskAtStop(qty: real, boost: real, equity: real, fraction: real, stop: real, mult: real)
    requires qty > 0.0 && stop > 0.0 && mult > 0.0 && 0.0 < boost <= 1.1
    requires qty <= Affordable(equity, fraction, stop, mult) * boost
    ensures Cost(qty, stop, mult) <= Fraction(equity, fraction) * 1.1
    ensures boost <= 1.0 ==> Cost(qty, stop, mult) <= Fraction(equity, fraction)
  {
    MulPositive(stop, mult);
    DivCancel(equity * fraction, stop * mult);
    BoostedCost(qty, boost, equity * fraction, stop * mult, Affordable(equity, fraction, stop, mult));
  }

  lemma {:induction false} BoostedCost(qty: real, boost: real, budget: real, unit: real, raw: real)
    requires qty > 0.0 && unit > 0.0 && 0.0 < boost <= 1.1
    requires raw * unit == budget && qty <= raw * boost
    ensures qty * unit <= budget * 1.1
    ensures boost <= 1.0 ==> qty * unit <= budget
  {
    PositiveFactor(raw, boost);
    MulMono(boost, 1.1, raw);
    MulMono(qty, raw * 1.1, unit);
    assert (raw * 1.1) * unit == (raw * unit) * 1.1;
    if boost <= 1.0 {
      MulMono(boost, 1.0, raw);
      MulMono(qty, raw, unit);
    }
  }

  lemma {:induction false} PositiveFactor(x: real, k: real)
    requires k > 0.0 && x * k > 0.0
    ensures x > 0.0
  {
    if x <= 0.0 {
      MulMono(x, 0.0, k);
    }
  }

  // ----- monotonicity -----

  ghost predicate SaneProfile(profile: Profile) {
    profile.riskPerTradePct >= 0.0 && profile.maxPositionPct >= 0.0 && profile.leverageCap >= 0.0
  }

  lemma {:induction false} QuotientMono(n1: real, n2: real, d1: real, d2: real)
    requires n1 <= n2 && 0.0 <= n2 && 0.0 < d2 <= d1
    ensures n1 / d1 <= n2 / d2
  {
    DivMono(n1, n2, d1);
    assert n2 / d1 <= n2 / d2 by {
      assert n2 / d2 == (n2 / d1) * (d1 / d2);
      assert d1 / d2 >= 1.0 by { DivMono(d2, d1, d2); assert d2 / d2 == 1.0; }
      assert n2 / d1 >= 0.0 by { DivMono(0.0, n2, d1); }
      MulMono(1.0, d1 / d2, n2 / d1);
    }
  }

  /** `b` sees at least as much equity, at most as high a price and drawdown, and is otherwise the same. */
  ghost predicate AtLeastAsGood(b: SizingInputs, a: SizingInputs) {
    && b == a.(equity := b.equity, price := b.price, intradayDdPct := b.intradayDdPct)
    && b.equity >= a.equity && b.price <= a.price && b.intradayDdPct <= a.intradayDdPct
  }

  lemma {:induction false} AdjustedMono(base: real, base': real, boost: real, soft: real, soft': real)
    requires base <= base' && 0.0 <= base' && boost > 0.0 && 0.0 < soft <= soft'
    ensures Adjusted(base, boost, soft) <= Adjusted(base', boost, soft')
  {
    MulMono(base, base', boost);
    MulNonNeg(base', boost);
    MulMono2(base * boost, base' * boost, soft, soft');
  }

  lemma {:induction false} AffordableMono(equity: real, equity': real, fraction: real, unit: real, unit': real, mult: real)
    requires equity <= equity' && 0.0 <= equity' && 0.0 <= fraction
    requires 0.0 < unit' <= unit && mult > 0.0
    ensures Affordable(equity, fraction, unit, mult) <= Affordable(equity', fraction, unit', mult)
    ensures 0.0 <= Affordable(equity', fraction, unit', mult)
  {
    MulMono(unit', unit, mult);
    MulPositive(unit', mult);
    MulMono(equity, equity', fraction);
    MulNonNeg(equity', fraction);
    QuotientMono(equity * fraction, equity' * fraction, unit * mult, unit' * mult);
    DivMono(0.0, equity' * fraction, unit' * mult);
  }

  lemma {:induction false} StopDistanceAntitone(a: SizingInputs, b: SizingInputs, profile: Profile)
    requires AtLeastAsGood(b, a)
    ensures StopDistance(b, profile) <= StopDistance(a, profile)
  {
    assert profile.atrFactor * OrZero(a.atr14) == profile.atrFactor * OrZero(b.atr14);
    MulMono(EffectivePrice(b), EffectivePrice(a), DEFAULT_STOP_FRAC);
  }

  lemma {:induction false} RiskFractionNonNeg(inp: SizingInputs, profile: Profile)
    requires SaneProfile(profile)
    ensures ScaledRisk(inp, profile) / 100.0 >= 0.0
  {
    MulNonNeg(profile.riskPerTradePct, RegimeScale(inp.regime));
    DivMono(0.0, ScaledRisk(inp, profile), 100.0);
  }

  lemma {:induction false} RiskSizeMono(a: SizingInputs, b: SizingInputs, profile: Profile)
    requires SaneProfile(profile) && AtLeastAsGood(b, a)
    requires a.contractMultiplier >= 0.0 && b.equity >= 0.0
    ensures RawQty(a, profile) <= RawQty(b, profile) && 0.0 <= RawQty(b, profile)
  {
    RiskFractionNonNeg(a, profile);
    StopDistanceAntitone(a, b, profile);
    AffordableMono(a.equity, b.equity, ScaledRisk(a, profile) / 100.0,
                   StopDistance(a, profile), StopDistance(b, profile), Multiplier(a));
  }

  lemma {:induction false} CeilingsMono(a: SizingInputs, b: SizingInputs, profile: Profile)
    requires SaneProfile(profile) && AtLeastAsGood(b, a)
    requires a.contractMultiplier >= 0.0 && b.equity >= 0.0
    ensures PositionCeiling(a, profile) <= PositionCeiling(b, profile) && 0.0 <= PositionCeiling(b, profile)
    ensures LeverageCeiling(a, profile) <= LeverageCeiling(b, profile)
  {
    AffordableMono(a.equity, b.equity, profile.maxPositionPct / 100.0, EffectivePrice(a), EffectivePrice(b), Multiplier(a));
    AffordableMono(a.equity, b.equity, profile.leverageCap, EffectivePrice(a), EffectivePrice(b), Multiplier(a));
  }

  lemma {:induction false} UnroundedMonotone(a: SizingInputs, b: SizingInputs, profile: Profile)
    requires SaneProfile(profile) && AtLeastAsGood(b, a)
    requires a.contractMultiplier >= 0.0 && b.equity >= 0.0
    ensures UnroundedQty(a, profile) <= UnroundedQty(b, profile)
  {
    RiskSizeMono(a, b, profile);
    CeilingsMono(a, b, profile);
    AdjustedMono(Min(RawQty(a, profile), PositionCeiling(a, profile)), Min(RawQty(b, profile), PositionCeiling(b, profile)),
                 SentimentFactor(a), SoftStopFactor(a, profile), SoftStopFactor(b, profile));
  }

  /** A better account state never sizes smaller: monotone in equity, antitone in price and in
      drawdown, with rejections counted as size zero. */
  lemma {:induction false} SizeMonotone(a: SizingInputs, b: SizingInputs, profile: Profile)
    requires SaneProfile(profile) && AtLeastAsGood(b, a)
    requires a.contractMultiplier >= 0.0 && a.lotSize >= 0.0
    ensures SizedQty(ComputeSize(a, profile)) <= SizedQty(ComputeSize(b, profile))
  {
    if ComputeSize(a, profile).Accept? {
      AcceptedNeedsEquity(a, profile);
      UnroundedMonotone(a, b, profile);
      RoundToLotMono(UnroundedQty(a, profile), UnroundedQty(b, profile), OrDefault(a.lotSize, 1.0));
    }
  }

  lemma {:induction false} AcceptedNeedsEquity(inp: SizingInputs, profile: Profile)
    requires SaneProfile(profile) && inp.contractMultiplier >= 0.0 && inp.lotSize >= 0.0
    requires ComputeSize(inp, profile).Accept?
    ensures inp.equity > 0.0
  {
    AcceptedWithinCeilings(inp, profile);
    AffordableNeedsEquity(inp.equity, profile.maxPositionPct / 100.0, EffectivePrice(inp), Multiplier(inp));
  }

  lemma {:induction false} AffordableNeedsEquity(equity: real, fraction: real, unit: real, mult: real)
    requires fraction >= 0.0 && unit > 0.0 && mult > 0.0 && Affordable(equity, fraction, unit, mult) > 0.0
    ensures equity > 0.0
  {
    MulPositive(unit, mult);
    if equity <= 0.0 {
      MulMono(equity, 0.0, fraction);
      DivMono(equity * fraction, 0.0, unit * mult);
    }
  }
}
