/** What a position size is, in numbers (`risk/sizing.py`), and when there is none. */
module SizingPlain {
  import opened Prelude
  import opened Sizing

  // ----- the quantities a reader of the profile would name -----

  predicate GoesLong(side: Side) {
    side in {LONG, BUY, BUY_TO_OPEN, BUY_TO_CLOSE}
  }

  /** The money one trade may lose at its stop: the risk share of the equity, scaled by the regime, raised by
      a tenth for a long on good sentiment and halved on bad, and halved again beyond the soft stop. */
  function LossAllowed(inp: SizingInputs, profile: Profile): real {
    inp.equity * (profile.riskPerTradePct * (if inp.regime == BULL then 1.0 else if inp.regime == BEAR then 0.3 else if inp.regime == CRISIS then 0.0 else 0.6) / 100.0)
      * Appetite(inp, profile)
  }

  function Appetite(inp: SizingInputs, profile: Profile): real {
    (if !GoesLong(inp.side) then 1.0 else if inp.sentiment > 0.7 then 1.1 else if inp.sentiment < -0.5 then 0.5 else 1.0)
      * (if inp.intradayDdPct >= profile.softStopPct then 0.5 else 1.0)
  }

  function Contract(inp: SizingInputs): real {
    if inp.contractMultiplier == 0.0 then 1.0 else inp.contractMultiplier
  }

  function Price(inp: SizingInputs): real {
    if inp.price < 0.01 then 0.01 else inp.price
  }

  function Lot(inp: SizingInputs): real {
    if inp.lotSize == 0.0 then 1.0 else inp.lotSize
  }

  function WholeLots(lots: int, inp: SizingInputs): real {
    lots as real * Lot(inp)
  }

  function VolatilityStop(inp: SizingInputs, profile: Profile): real {
    if inp.atr14.Some? then profile.atrFactor * inp.atr14.value else 0.0
  }

  /** At every stop there is, the given one, the volatility one, or failing both two per cent of the price,
      `qty` loses no more than is allowed. */
  ghost predicate LossFits(qty: real, inp: SizingInputs, profile: Profile) {
    var given := inp.stopDistance.Some? && inp.stopDistance.value > 0.0;
    && (given ==> qty * (inp.stopDistance.value * Contract(inp)) <= LossAllowed(inp, profile))
    && (VolatilityStop(inp, profile) > 0.0 ==> qty * (VolatilityStop(inp, profile) * Contract(inp)) <= LossAllowed(inp, profile))
    && (!given && VolatilityStop(inp, profile) <= 0.0 ==> qty * ((Price(inp) * 0.02) * Contract(inp)) <= LossAllowed(inp, profile))
  }

  /** Its exposure stays under the position limit, with and without the appetite, under the leverage limit if
      there is one, and it is no more than was requested, if anything was. */
  ghost predicate ExposureFits(qty: real, inp: SizingInputs, profile: Profile) {
    var exposure := qty * (Price(inp) * Contract(inp));
    && exposure <= inp.equity * (profile.maxPositionPct / 100.0) * Appetite(inp, profile)
    && exposure <= inp.equity * (profile.maxPositionPct / 100.0)
    && (profile.leverageCap > 0.0 ==> exposure <= inp.equity * profile.leverageCap)
    && (inp.requestedQty > 0.0 ==> qty <= inp.requestedQty)
  }

  ghost predicate Fits(qty: real, inp: SizingInputs, profile: Profile) {
    LossFits(qty, inp, profile) && ExposureFits(qty, inp, profile)
  }

  // ----- the ceilings of the source say the same -----

  lemma {:induction false} Crosswise(qty: real, n: real, d: real, k: real)
    requires d > 0.0
    ensures qty <= (n / d) * k <==> qty * d <= n * k
  {
    DivCancel(n, d);
    var x := n / d;
    assert (x * k) * d == n * k;
    if qty <= x * k {
      MulMono(qty, x * k, d);
    }
    if qty * d <= n * k {
      MulCancel(qty, x * k, d);
    }
  }

  lemma {:induction false} AffordableMeans(qty: real, equity: real, fraction: real, unit: real, mult: real, k: real)
    requires unit > 0.0 && mult > 0.0
    ensures qty <= Affordable(equity, fraction, unit, mult) * k <==> qty * (unit * mult) <= (equity * fraction) * k
  {
    MulPositive(unit, mult);
    Crosswise(qty, equity * fraction, unit * mult, k);
  }

  lemma {:induction false} FactorsAgree(inp: SizingInputs, profile: Profile)
    ensures SentimentFactor(inp) * SoftStopFactor(inp, profile) == Appetite(inp, profile)
    ensures SentimentFactor(inp) > 0.0 && SoftStopFactor(inp, profile) > 0.0
    ensures EffectivePrice(inp) == Price(inp) > 0.0
    ensures OrDefault(inp.lotSize, 1.0) == Lot(inp)
    ensures inp.contractMultiplier >= 0.0 ==> Multiplier(inp) == Contract(inp) > 0.0
    ensures inp.equity * (ScaledRisk(inp, profile) / 100.0) * Appetite(inp, profile) == LossAllowed(inp, profile)
  {
    hide Appetite;
    assert SentimentFactor(inp) * SoftStopFactor(inp, profile) == Appetite(inp, profile) by { AppetiteIs(inp, profile); }
  }

  lemma {:induction false} AppetiteIs(inp: SizingInputs, profile: Profile)
    ensures SentimentFactor(inp) * SoftStopFactor(inp, profile) == Appetite(inp, profile)
  {}

  lemma {:induction false} AdjustedMeans(qty: real, raw: real, cap: real, boost: real, soft: real)
    requires boost > 0.0 && soft > 0.0
    ensures qty <= Adjusted(Min(raw, cap), boost, soft) <==> qty <= raw * (boost * soft) && qty <= cap * (boost * soft)
  {
    var k := boost * soft;
    MulPositive(boost, soft);
    assert Adjusted(Min(raw, cap), boost, soft) == Min(raw, cap) * k;
    if raw <= cap {
      MulMono(raw, cap, k);
    } else {
      MulMono(cap, raw, k);
    }
  }

  lemma {:induction false} StopCases(qty: real, given: real, volatility: real, fallback: real, mult: real, most: real)
    requires qty >= 0.0 && mult > 0.0
    ensures var d := if Max(given, volatility) <= 0.0 then fallback else Max(given, volatility);
      qty * (d * mult) <= most <==>
        && (given > 0.0 ==> qty * (given * mult) <= most)
        && (volatility > 0.0 ==> qty * (volatility * mult) <= most)
        && (given <= 0.0 && volatility <= 0.0 ==> qty * (fallback * mult) <= most)
  {
    LargerLosesMore(qty, given, volatility, mult);
    LargerLosesMore(qty, volatility, given, mult);
  }

  /** The stop distance is the larger of the two stops, or two per cent of the price. */
  lemma {:induction false} StopIs(inp: SizingInputs, profile: Profile)
    ensures var given, volatility := OrZero(inp.stopDistance), VolatilityStop(inp, profile);
      StopDistance(inp, profile) == if Max(given, volatility) <= 0.0 then Price(inp) * 0.02 else Max(given, volatility)
    ensures OrZero(inp.stopDistance) > 0.0 <==> inp.stopDistance.Some? && inp.stopDistance.value > 0.0
    ensures inp.stopDistance.Some? ==> OrZero(inp.stopDistance) == inp.stopDistance.value
  {
    assert profile.atrFactor * OrZero(inp.atr14) == VolatilityStop(inp, profile);
  }

  lemma {:induction false} LossFitsIs(qty: real, inp: SizingInputs, profile: Profile)
    ensures var given, volatility := OrZero(inp.stopDistance), VolatilityStop(inp, profile);
      LossFits(qty, inp, profile) <==>
        && (given > 0.0 ==> qty * (given * Contract(inp)) <= LossAllowed(inp, profile))
        && (volatility > 0.0 ==> qty * (volatility * Contract(inp)) <= LossAllowed(inp, profile))
        && (given <= 0.0 && volatility <= 0.0 ==> qty * ((Price(inp) * 0.02) * Contract(inp)) <= LossAllowed(inp, profile))
  {
    hide VolatilityStop, Contract, LossAllowed, Price;
  }

  lemma {:induction false} StopMeans(qty: real, inp: SizingInputs, profile: Profile)
    requires inp.contractMultiplier >= 0.0 && qty >= 0.0
    ensures qty * (StopDistance(inp, profile) * Multiplier(inp)) <= LossAllowed(inp, profile) <==> LossFits(qty, inp, profile)
  {
    hide *;
    FactorsAgree(inp, profile);
    StopIs(inp, profile);
    LossFitsIs(qty, inp, profile);
    StopCases(qty, OrZero(inp.stopDistance), VolatilityStop(inp, profile), Price(inp) * 0.02, Contract(inp), LossAllowed(inp, profile));
  }

  lemma {:induction false} LargerLosesMore(qty: real, near: real, far: real, mult: real)
    requires qty >= 0.0 && mult > 0.0
    ensures near <= far ==> qty * (near * mult) <= qty * (far * mult)
  {
    if near <= far {
      MulMono(near, far, mult);
      MulMono(near * mult, far * mult, qty);
    }
  }

  lemma {:induction false} RawIs(inp: SizingInputs, profile: Profile)
    requires inp.contractMultiplier >= 0.0
    ensures RawQty(inp, profile) == Affordable(inp.equity, ScaledRisk(inp, profile) / 100.0, StopDistance(inp, profile), Multiplier(inp))
  {
    hide Affordable, StopDistance, ScaledRisk, Multiplier;
  }

  lemma {:induction false} RiskPart(qty: real, inp: SizingInputs, profile: Profile)
    requires inp.contractMultiplier >= 0.0 && qty >= 0.0
    ensures qty <= RawQty(inp, profile) * Appetite(inp, profile) <==> LossFits(qty, inp, profile)
  {
    hide *;
    RawIs(inp, profile);
    FactorsAgree(inp, profile);
    StopMeans(qty, inp, profile);
    AffordableMeans(qty, inp.equity, ScaledRisk(inp, profile) / 100.0, StopDistance(inp, profile), Multiplier(inp), Appetite(inp, profile));
  }

  lemma {:induction false} ExposureIs(qty: real, inp: SizingInputs, profile: Profile)
    requires inp.contractMultiplier >= 0.0
    ensures PositionCeiling(inp, profile) == Affordable(inp.equity, profile.maxPositionPct / 100.0, EffectivePrice(inp), Multiplier(inp))
    ensures LeverageCeiling(inp, profile) == Affordable(inp.equity, profile.leverageCap, EffectivePrice(inp), Multiplier(inp))
    ensures var exposure := qty * (Price(inp) * Contract(inp));
      ExposureFits(qty, inp, profile) <==>
        && exposure <= (inp.equity * (profile.maxPositionPct / 100.0)) * Appetite(inp, profile)
        && exposure <= (inp.equity * (profile.maxPositionPct / 100.0)) * 1.0
        && (profile.leverageCap > 0.0 ==> exposure <= (inp.equity * profile.leverageCap) * 1.0)
        && (inp.requestedQty > 0.0 ==> qty <= inp.requestedQty)
  {
    hide Affordable, EffectivePrice, Multiplier, Price, Contract, Appetite;
  }

  lemma {:induction false} ExposurePart(qty: real, inp: SizingInputs, profile: Profile)
    requires inp.contractMultiplier >= 0.0
    ensures ExposureFits(qty, inp, profile) <==>
      && qty <= PositionCeiling(inp, profile) * Appetite(inp, profile)
      && qty <= PositionCeiling(inp, profile) * 1.0
      && (profile.leverageCap > 0.0 ==> qty <= LeverageCeiling(inp, profile) * 1.0)
      && (inp.requestedQty > 0.0 ==> qty <= inp.requestedQty)
  {
    hide *;
    FactorsAgree(inp, profile);
    ExposureIs(qty, inp, profile);
    var m, p, e := Multiplier(inp), EffectivePrice(inp), inp.equity;
    AffordableMeans(qty, e, profile.maxPositionPct / 100.0, p, m, Appetite(inp, profile));
    AffordableMeans(qty, e, profile.maxPositionPct / 100.0, p, m, 1.0);
    AffordableMeans(qty, e, profile.leverageCap, p, m, 1.0);
  }

  lemma {:induction false} FitsIffUnder(qty: real, inp: SizingInputs, profile: Profile)
    requires inp.contractMultiplier >= 0.0 && qty >= 0.0
    ensures Fits(qty, inp, profile) <==> UnderEveryCeiling(qty, inp, profile)
  {
    FactorsAgree(inp, profile);
    RiskPart(qty, inp, profile);
    ExposurePart(qty, inp, profile);
    AdjustedMeans(qty, RawQty(inp, profile), PositionCeiling(inp, profile), SentimentFactor(inp), SoftStopFactor(inp, profile));
    hide LossFits, ExposureFits, Appetite, RawQty, PositionCeiling, LeverageCeiling, Adjusted, SentimentFactor, SoftStopFactor, Min;
  }

  // ----- the laws -----

  /** When nothing is sized at all before any quantity is looked at. */
  lemma {:induction false} RejectedOutright(inp: SizingInputs, profile: Profile)
    requires inp.contractMultiplier >= 0.0
    ensures var r := ComputeSize(inp, profile);
      var mismatch := profile.strictMode && (inp.regime == BEAR || inp.regime == CRISIS) && GoesLong(inp.side);
      var hard := profile.hardStopPct > 0.0 && inp.intradayDdPct >= profile.hardStopPct;
      && (r == Rejected(REGIME_SIDE_MISMATCH) <==> mismatch)
      && (r == Rejected(REGIME_CRISIS) <==> inp.regime == CRISIS && !mismatch)
      && (r == Rejected(HARD_STOP) <==> hard && inp.regime != CRISIS && !mismatch)
  {
    hide UnroundedQty, RoundToLot, OrDefault;
  }

  /** Otherwise the size is the largest number of whole lots that fits; and it is zero, hence rejected, exactly
      when not even one lot does. */
  lemma {:induction false} LargestThatFits(inp: SizingInputs, profile: Profile)
    requires inp.contractMultiplier >= 0.0 && inp.lotSize >= 0.0
    ensures var r := ComputeSize(inp, profile);
      && (r.Accept? ==>
            && r.qty > 0.0 && Fits(r.qty, inp, profile)
            && exists lots: int :: lots > 0 && r.qty == WholeLots(lots, inp) && forall more: int :: more > lots ==> !Fits(WholeLots(more, inp), inp, profile))
      && (r == Rejected(SIZING_ZERO) ==> !Fits(Lot(inp), inp, profile))
  {
    FactorsAgree(inp, profile);
    if ComputeSize(inp, profile).Accept? {
      AcceptedFits(inp, profile);
    } else if ComputeSize(inp, profile) == Rejected(SIZING_ZERO) {
      ZeroFitsNothing(inp, profile);
    }
    hide Fits, ComputeSize;
  }

  lemma {:induction false} LotsAre(lots: int, inp: SizingInputs)
    requires inp.lotSize >= 0.0
    ensures LotsOf(lots, OrDefault(inp.lotSize, 1.0)) == WholeLots(lots, inp)
    ensures lots >= 0 ==> WholeLots(lots, inp) >= 0.0
  {
    if lots >= 0 {
      MulNonNeg(lots as real, Lot(inp));
    }
  }

  lemma {:induction false} AcceptedFits(inp: SizingInputs, profile: Profile)
    requires inp.contractMultiplier >= 0.0 && inp.lotSize >= 0.0 && ComputeSize(inp, profile).Accept?
    ensures var qty := ComputeSize(inp, profile).qty;
      && qty > 0.0 && Fits(qty, inp, profile)
      && exists lots: int :: lots > 0 && qty == WholeLots(lots, inp) && forall more: int :: more > lots ==> !Fits(WholeLots(more, inp), inp, profile)
  {
    hide *;
    var qty, lot := ComputeSize(inp, profile).qty, OrDefault(inp.lotSize, 1.0);
    AcceptedWithinCeilings(inp, profile);
    FitsIffUnder(qty, inp, profile);
    var lots :| lots > 0 && qty == LotsOf(lots, lot) && forall more :: more > lots ==> !UnderEveryCeiling(LotsOf(more, lot), inp, profile);
    LotsAre(lots, inp);
    forall more: int | more > lots ensures !Fits(WholeLots(more, inp), inp, profile) {
      LotsAre(more, inp);
      FitsIffUnder(WholeLots(more, inp), inp, profile);
    }
  }

  lemma {:induction false} ZeroFitsNothing(inp: SizingInputs, profile: Profile)
    requires inp.contractMultiplier >= 0.0 && inp.lotSize >= 0.0 && ComputeSize(inp, profile) == Rejected(SIZING_ZERO)
    ensures !Fits(Lot(inp), inp, profile)
  {
    var lot, limit := Lot(inp), UnroundedQty(inp, profile);
    FactorsAgree(inp, profile);
    FitsIffUnder(lot, inp, profile);
    UnroundedIsTightest(lot, inp, profile);
    hide Fits, UnderEveryCeiling, UnroundedQty, Lot;
    RoundedToZero(limit, lot);
  }

  lemma {:induction false} RoundedToZero(qty: real, lot: real)
    requires lot > 0.0
    ensures qty >= lot ==> RoundToLot(qty, lot) >= lot
  {
    if qty >= lot {
      DivMono(lot, qty, lot);
      assert lot / lot == 1.0;
      MulMono(1.0, (qty / lot).Floor as real, lot);
    }
  }

  /** So whatever stop the position is really left with, it loses at most the allowance. */
  lemma {:induction false} LossAtEveryStop(inp: SizingInputs, profile: Profile)
    requires inp.contractMultiplier >= 0.0 && inp.lotSize >= 0.0 && ComputeSize(inp, profile).Accept?
    ensures LossFits(ComputeSize(inp, profile).qty, inp, profile)
  {
    AcceptedFits(inp, profile);
    hide ComputeSize, LossFits;
  }

  // ----- ATR-14 -----

  /** `x` is the largest of a bar's range and its distances from the close before. */
  predicate IsTrueRange(x: real, bar: Bar, prev: real) {
    && x >= bar.high - bar.low && x >= bar.high - prev && x >= prev - bar.high && x >= bar.low - prev && x >= prev - bar.low
    && (x == bar.high - bar.low || x == bar.high - prev || x == prev - bar.high || x == bar.low - prev || x == prev - bar.low)
  }

  lemma {:induction false} OnlyTrueRange(x: real, bar: Bar, prev: real)
    ensures IsTrueRange(x, bar, prev) <==> x == TrueRange(bar, prev)
  {}

  /** The ATR at a bar is the mean of the last fourteen true ranges up to it, or of as many as there are; the
      first bar has none. */
  lemma {:induction false} Atr14IsMean(bars: seq<Bar>, endPos: nat, trs: seq<real>)
    requires endPos < |bars| && |trs| == (if endPos < 14 then endPos else 14)
    requires forall i :: 0 <= i < |trs| ==> IsTrueRange(trs[i], bars[endPos - |trs| + 1 + i], bars[endPos - |trs| + i].close)
    ensures Atr14(bars, endPos) == if endPos == 0 then None else Some(Sum(trs) / |trs| as real)
  {
    var window := AtrWindow(bars, endPos);
    if endPos > 0 {
      assert |window| == |trs| + 1;
      forall i | 0 <= i < |trs| ensures trs[i] == TrueRanges(window)[i] {
        assert window[i + 1] == bars[endPos - |trs| + 1 + i] && window[i] == bars[endPos - |trs| + i];
        OnlyTrueRange(trs[i], window[i + 1], window[i].close);
      }
      assert trs == TrueRanges(window);
    }
  }
}
