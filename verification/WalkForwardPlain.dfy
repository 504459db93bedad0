/** The walk in plain numbers (`backtest/wf.py`): its windows, what a replay of one sees, and its curve. */
module WalkForwardPlain {
  import opened Prelude
  import opened Sizing
  import opened Replay
  import opened ReplayMoney
  import opened ReplayEngine
  import opened WalkForward

  /** Every window trains right up to its test, for the training length or from the very start, tests for the
      test length, and ends in time; each begins one step after the one before, the first at the start, and a
      further one would end too late. */
  lemma {:induction false} WindowSpans(cfg: WFConfig, windows: seq<Window>)
    requires AllWindows(cfg, windows)
    ensures forall i :: 0 <= i < |windows| ==>
      var w := windows[i];
      && w.index == i && w.trainEnd == w.testStart && w.testEnd == w.testStart + cfg.testDays && w.testEnd <= cfg.end
      && w.trainStart == (if cfg.anchored then cfg.start else w.trainEnd - cfg.trainDays)
    ensures forall i :: 0 < i < |windows| ==> windows[i].testStart == windows[i - 1].testStart + cfg.stepDays
    ensures windows != [] ==>
      windows[0].testStart == cfg.start + cfg.trainDays && windows[|windows| - 1].testEnd + cfg.stepDays > cfg.end
    ensures windows == [] ==> cfg.start + cfg.trainDays + cfg.testDays > cfg.end
  {
    forall i | 0 < i < |windows| ensures windows[i].testStart == windows[i - 1].testStart + cfg.stepDays {
      OffsetStep(cfg, i - 1);
    }
    if windows != [] {
      OffsetStep(cfg, |windows| - 1);
    }
  }

  /** The replay of a window gets all bars and the window's own signals, and trades on exactly the bars dated
      within the test span. */
  lemma {:induction false} TestSees(m: Market, w: Window)
    requires m.Valid()
    ensures |m.gen(w)| == |m.bars|
    ensures var inp := m.TestInput(w);
      && inp.bars == m.bars && inp.signals == m.gen(w) && inp.cfg == m.cfg && inp.profile == m.profile
      && forall i :: 0 <= i < |m.bars| ==> (inp.lo <= i < inp.hi <==> w.testStart <= m.bars[i].day && m.bars[i].day < w.testEnd)
  {
    WindowMask(m.bars, m.gen(w), w.testStart, w.testEnd, m.cfg, m.profile);
  }

  /** Its curve is the replay's equity, dated by the bars. */
  lemma {:induction false} CurveIsDatedEquity(inp: Input, j: nat)
    requires inp.Valid() && j < inp.Length()
    ensures |Run(inp, inp.Length()).equity| == inp.Length()
    ensures Curve(inp)[j] == Point(inp.bars[inp.lo + j].day, Run(inp, inp.Length()).equity[j])
  {
    CurveLength(inp);
    hide Run;
  }

  /** A return belongs to the later of its two days and takes the earlier value to the later one. */
  lemma {:induction false} ReturnsMean(eq: seq<Point>, i: nat)
    requires Divisible(eq) && i + 1 < |eq|
    ensures |PctChange(eq)| == |eq| - 1
    ensures PctChange(eq)[i].day == eq[i + 1].day
    ensures eq[i].value * (1.0 + PctChange(eq)[i].value) == eq[i + 1].value
  {
    DivCancel(eq[i + 1].value, eq[i].value);
    assert 1.0 + (eq[i + 1].value / eq[i].value - 1.0) == eq[i + 1].value / eq[i].value;
  }

  /** The out-of-sample curve starts from the initial cash and takes one return after the other. */
  lemma {:induction false} CurveSteps(rets: seq<Point>, initialCash: real, i: nat)
    requires i < |rets|
    ensures var curve := CumulativeCurve(rets, initialCash);
      && |curve| == |rets| && curve[i].day == rets[i].day
      && curve[i].value == (if i == 0 then initialCash else curve[i - 1].value) * (1.0 + rets[i].value)
  {
    assert rets[..i + 1] == rets[..i] + [rets[i]];
    GrowthSnoc(rets[..i], rets[i]);
    StepOf(Growth(rets[..i]), rets[i].value, initialCash);
    hide Growth, Compound, Times;
    if i == 0 {
      assert rets[..0] == [];
      NoGrowth(initialCash);
    }
  }

  lemma {:induction false} NoGrowth(cash: real)
    ensures Times(Growth([]), cash) == cash
  {}

  lemma {:induction false} StepOf(growth: real, ret: real, cash: real)
    ensures Times(Compound(growth, ret), cash) == Times(growth, cash) * (1.0 + ret)
  {
    MulAssoc(growth, 1.0 + ret, cash);
    MulAssoc(growth, cash, 1.0 + ret);
    assert (1.0 + ret) * cash == cash * (1.0 + ret);
  }
}
