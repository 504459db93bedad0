/** The walk-forward orchestrator (`backtest/wf.py`): calendar windows, one replay a window, and the
    out-of-sample curve compounded in return space. Dates are day numbers. */
module WalkForward {
  import opened Prelude
  import opened Sizing
  import opened Replay
  import opened ReplayMoney
  import opened ReplayEngine

  // ----- windows -----

  datatype WFConfig = WFConfig(start: int, end: int, trainDays: int, testDays: int, stepDays: int, anchored: bool)

  datatype Window = Window(index: nat, trainStart: int, trainEnd: int, testStart: int, testEnd: int)

  function Offset(cfg: WFConfig, i: nat): int {
    cfg.start + i * cfg.stepDays
  }

  predicate Fits(cfg: WFConfig, i: nat) {
    Offset(cfg, i) + cfg.trainDays + cfg.testDays <= cfg.end
  }

  function WindowAt(cfg: WFConfig, i: nat): Window {
    var t := Offset(cfg, i);
    var trainEnd := t + cfg.trainDays;
    Window(i, if cfg.anchored then cfg.start else t, trainEnd, trainEnd, trainEnd + cfg.testDays)
  }

  lemma {:induction false} OffsetStep(cfg: WFConfig, i: nat)
    ensures Offset(cfg, i + 1) == Offset(cfg, i) + cfg.stepDays
  {
    assert (i + 1) * cfg.stepDays == i * cfg.stepDays + cfg.stepDays;
  }

  /** The windows are the evenly spaced ones that fit, all of them, in order. A step of zero or less
      would never leave the loop. */
  method ComputeWindows(cfg: WFConfig) returns (windows: seq<Window>)
    requires cfg.stepDays > 0
    ensures forall i :: 0 <= i < |windows| ==> windows[i] == WindowAt(cfg, i) && Fits(cfg, i)
    ensures !Fits(cfg, |windows|)
  {
    windows := [];
    var t, idx := cfg.start, 0;
    while t + cfg.trainDays + cfg.testDays <= cfg.end
      invariant idx == |windows| && t == Offset(cfg, idx)
      invariant forall i :: 0 <= i < |windows| ==> windows[i] == WindowAt(cfg, i) && Fits(cfg, i)
      decreases cfg.end - cfg.trainDays - cfg.testDays - t
    {
      var trainStart := if cfg.anchored then cfg.start else t;
      var trainEnd := t + cfg.trainDays;
      var testEnd := trainEnd + cfg.testDays;
      windows := windows + [Window(idx, trainStart, trainEnd, trainEnd, testEnd)];
      OffsetStep(cfg, idx);
      t := t + cfg.stepDays;
      idx := idx + 1;
    }
  }

  /** What `ComputeWindows` returns. */
  ghost predicate AllWindows(cfg: WFConfig, windows: seq<Window>) {
    && (forall i :: 0 <= i < |windows| ==> windows[i] == WindowAt(cfg, i) && Fits(cfg, i))
    && !Fits(cfg, |windows|)
  }

  /** When the step equals the test length the test windows tile: no gap, no overlap, and fewer than
      one test length of days dropped at the tail. */
  lemma {:induction false} WindowsTile(cfg: WFConfig, windows: seq<Window>)
    requires cfg.stepDays > 0 && cfg.stepDays == cfg.testDays && AllWindows(cfg, windows)
    ensures forall i :: 0 < i < |windows| ==> windows[i].testStart == windows[i - 1].testEnd
    ensures windows != [] ==>
      windows[0].testStart == cfg.start + cfg.trainDays && 0 <= cfg.end - windows[|windows| - 1].testEnd < cfg.testDays
    ensures windows == [] ==> cfg.end < cfg.start + cfg.trainDays + cfg.testDays
  {
    forall i | 0 < i < |windows| ensures windows[i].testStart == windows[i - 1].testEnd {
      OffsetStep(cfg, i - 1);
    }
    if windows != [] {
      OffsetStep(cfg, |windows| - 1);
    }
  }

  // ----- windows over bars -----

  ghost predicate InDayOrder(bars: seq<Bar>) {
    forall i, j :: 0 <= i < j < |bars| ==> bars[i].day < bars[j].day
  }

  /** How many bars are dated before `day`: the position of a day boundary in an ordered frame. */
  function Before(bars: seq<Bar>, day: int): (k: nat)
    ensures k <= |bars|
  {
    if bars == [] then 0
    else if bars[|bars| - 1].day < day then |bars|
    else Before(bars[..|bars| - 1], day)
  }

  lemma {:induction false} BeforeSplits(bars: seq<Bar>, day: int)
    requires InDayOrder(bars)
    ensures forall i :: 0 <= i < |bars| ==> (i < Before(bars, day) <==> bars[i].day < day)
  {
    if bars != [] && bars[|bars| - 1].day >= day {
      BeforeSplits(bars[..|bars| - 1], day);
    }
  }

  lemma {:induction false} BeforeMonotone(bars: seq<Bar>, a: int, b: int)
    requires InDayOrder(bars) && a <= b
    ensures Before(bars, a) <= Before(bars, b)
  {
    BeforeSplits(bars, a);
    BeforeSplits(bars, b);
    if Before(bars, b) < |bars| {
      assert bars[Before(bars, b)].day >= a;
    }
  }

  function InputFor(bars: seq<Bar>, signals: seq<Signal>, start: int, end: int, cfg: Config, profile: Option<Profile>): (inp: Input)
    requires |signals| == |bars|
    ensures inp.Valid()
  {
    var lo := Before(bars, start);
    var hi := Before(bars, end);
    Input(bars, signals, lo, if hi >= lo then hi else lo, cfg, profile)
  }

  /** A replay sees exactly the bars dated in the half-open window. */
  lemma {:induction false} WindowMask(bars: seq<Bar>, signals: seq<Signal>, start: int, end: int, cfg: Config, profile: Option<Profile>)
    requires InDayOrder(bars) && |signals| == |bars|
    ensures var inp := InputFor(bars, signals, start, end, cfg, profile);
      forall i :: 0 <= i < |bars| ==> (inp.lo <= i < inp.hi <==> start <= bars[i].day < end)
  {
    BeforeSplits(bars, start);
    BeforeSplits(bars, end);
  }

  /** Tiling windows split the covered bars into consecutive runs: where one window's bars stop, the
      next one's start. */
  lemma {:induction false} BarsTile(cfg: WFConfig, windows: seq<Window>, bars: seq<Bar>, i: nat)
    requires cfg.stepDays > 0 && cfg.stepDays == cfg.testDays && AllWindows(cfg, windows) && InDayOrder(bars)
    requires 0 < i < |windows|
    ensures Before(bars, windows[i - 1].testStart) <= Before(bars, windows[i - 1].testEnd) == Before(bars, windows[i].testStart)
  {
    WindowsTile(cfg, windows);
    BeforeMonotone(bars, windows[i - 1].testStart, windows[i - 1].testEnd);
  }

  // ----- the out-of-sample curve -----

  datatype Point = Point(day: int, value: real)

  /** Every value a return is computed from is non-zero. */
  ghost predicate Divisible(eq: seq<Point>) {
    forall i :: 0 <= i < |eq| - 1 ==> eq[i].value != 0.0
  }

  function PctChange(eq: seq<Point>): (r: seq<Point>)
    requires Divisible(eq)
    ensures |r| == if |eq| < 2 then 0 else |eq| - 1
  {
    if |eq| < 2 then []
    else seq(|eq| - 1, i requires 0 <= i < |eq| - 1 => Point(eq[i + 1].day, eq[i + 1].value / eq[i].value - 1.0))
  }

  predicate DaySorted(points: seq<Point>) {
    forall i, j :: 0 <= i < j < |points| ==> points[i].day <= points[j].day
  }

  function Insert(p: Point, points: seq<Point>): seq<Point> {
    if points == [] then [p]
    else
      var last := points[|points| - 1];
      if last.day <= p.day then points + [p] else Insert(p, points[..|points| - 1]) + [last]
  }

  /** `sort_index`: a stable sort by day. */
  function SortByDay(points: seq<Point>): seq<Point> {
    if points == [] then [] else Insert(points[|points| - 1], SortByDay(points[..|points| - 1]))
  }

  function Compound(growth: real, ret: real): real {
    growth * (1.0 + ret)
  }

  function Times(x: real, y: real): real {
    x * y
  }

  lemma {:induction false} CompoundLaws(x: real, growth: real, r: real, q: real)
    ensures Times(x, Compound(growth, r)) == Compound(Times(x, growth), r)
    ensures Compound(Compound(growth, r), q) == Compound(Compound(growth, q), r)
    ensures Times(x, 1.0) == x
  {
    MulAssoc(x, growth, 1.0 + r);
    MulAssoc(growth, 1.0 + r, 1.0 + q);
    MulAssoc(growth, 1.0 + q, 1.0 + r);
    assert (1.0 + r) * (1.0 + q) == (1.0 + q) * (1.0 + r);
  }

  /** Growth of one unit over a list of returns. */
  function Growth(rets: seq<Point>): real {
    if rets == [] then 1.0 else Compound(Growth(rets[..|rets| - 1]), rets[|rets| - 1].value)
  }

  lemma {:induction false} GrowthSnoc(rets: seq<Point>, r: Point)
    ensures Growth(rets + [r]) == Compound(Growth(rets), r.value)
  {
    assert (rets + [r])[..|rets|] == rets;
  }

  lemma {:induction false} GrowthConcat(a: seq<Point>, b: seq<Point>)
    ensures Growth(a + b) == Times(Growth(a), Growth(b))
    decreases |b|
  {
    hide Compound, Times;
    if b == [] {
      assert a + b == a;
      CompoundLaws(Growth(a), 1.0, 0.0, 0.0);
    } else {
      var front, last := b[..|b| - 1], b[|b| - 1];
      assert a + b == (a + front) + [last];
      GrowthSnoc(a + front, last);
      GrowthConcat(a, front);
      CompoundLaws(Growth(a), Growth(front), last.value, 0.0);
    }
  }

  lemma {:induction false} InsertGrowth(p: Point, points: seq<Point>)
    ensures Growth(Insert(p, points)) == Compound(Growth(points), p.value)
  {
    hide Compound;
    if points == [] {
      assert [p] == [] + [p];
      GrowthSnoc([], p);
    } else {
      var front, last := points[..|points| - 1], points[|points| - 1];
      assert points == front + [last];
      if last.day <= p.day {
        GrowthSnoc(points, p);
      } else {
        InsertGrowth(p, front);
        GrowthSnoc(Insert(p, front), last);
        GrowthSnoc(front, last);
        CompoundLaws(0.0, Growth(front), p.value, last.value);
      }
    }
  }

  lemma {:induction false} InsertKeeps(p: Point, points: seq<Point>)
    requires DaySorted(points)
    ensures DaySorted(Insert(p, points)) && multiset(Insert(p, points)) == multiset(points) + multiset{p}
  {
    if points != [] {
      var front, last := points[..|points| - 1], points[|points| - 1];
      assert points == front + [last];
      if last.day > p.day {
        InsertKeeps(p, front);
        InsertBounded(p, front, last.day);
      }
    }
  }

  lemma {:induction false} InsertBounded(p: Point, points: seq<Point>, day: int)
    requires p.day <= day && forall q :: q in points ==> q.day <= day
    ensures forall q :: q in Insert(p, points) ==> q.day <= day
  {
    if points != [] {
      InsertBounded(p, points[..|points| - 1], day);
    }
  }

  /** Sorting reorders and changes no compounded total. */
  lemma {:induction false} SortKeeps(points: seq<Point>)
    ensures DaySorted(SortByDay(points)) && multiset(SortByDay(points)) == multiset(points)
    ensures Growth(SortByDay(points)) == Growth(points)
  {
    if points != [] {
      var front, last := points[..|points| - 1], points[|points| - 1];
      assert points == front + [last];
      SortKeeps(front);
      InsertKeeps(last, SortByDay(front));
      InsertGrowth(last, SortByDay(front));
      GrowthSnoc(front, last);
      hide Compound, Insert, DaySorted;
    }
  }

  /** Returns already in day order are left as they are. */
  lemma {:induction false} SortedStays(points: seq<Point>)
    requires DaySorted(points)
    ensures SortByDay(points) == points
  {
    if points != [] {
      var front, last := points[..|points| - 1], points[|points| - 1];
      assert points == front + [last];
      SortedStays(front);
    }
  }

  /** Within a segment the returns telescope. */
  lemma {:induction false} ReturnsTelescope(eq: seq<Point>)
    requires Divisible(eq) && |eq| >= 2
    ensures Growth(PctChange(eq)) == eq[|eq| - 1].value / eq[0].value
  {
    var rets := PctChange(eq);
    var last := |eq| - 1;
    var front := eq[..last];
    assert rets == PctChange(front) + [rets[last - 1]];
    GrowthSnoc(PctChange(front), rets[last - 1]);
    assert rets[last - 1].value == eq[last].value / eq[last - 1].value - 1.0;
    ChainRatio(eq[0].value, eq[last - 1].value, eq[last].value);
    if |eq| == 2 {
      assert PctChange(front) == [] && Growth([]) == 1.0;
      assert front == [eq[0]];
      NoChange(eq[0].value);
    } else {
      ReturnsTelescope(front);
    }
    hide *;
  }

  lemma {:induction false} NoChange(x: real)
    requires x != 0.0
    ensures x / x == 1.0
  {}

  lemma {:induction false} ChainRatio(a: real, b: real, c: real)
    requires a != 0.0 && b != 0.0
    ensures Compound(b / a, c / b - 1.0) == c / a
  {
    assert 1.0 + (c / b - 1.0) == c / b;
    assert (b / a) * (c / b) == c / a;
  }

  /** The returns of all segments with at least two points, in segment order. */
  function SegmentReturns(equities: seq<seq<Point>>): seq<Point>
    requires forall i :: 0 <= i < |equities| ==> Divisible(equities[i])
  {
    if equities == [] then []
    else SegmentReturns(equities[..|equities| - 1]) + PctChange(equities[|equities| - 1])
  }

  function SegmentFactor(eq: seq<Point>): real
    requires Divisible(eq)
  {
    if |eq| >= 2 then eq[|eq| - 1].value / eq[0].value else 1.0
  }

  function SegmentFactors(equities: seq<seq<Point>>): real
    requires forall i :: 0 <= i < |equities| ==> Divisible(equities[i])
  {
    if equities == [] then 1.0
    else Times(SegmentFactors(equities[..|equities| - 1]), SegmentFactor(equities[|equities| - 1]))
  }

  lemma {:induction false} SegmentsCompound(equities: seq<seq<Point>>)
    requires forall i :: 0 <= i < |equities| ==> Divisible(equities[i])
    ensures Growth(SegmentReturns(equities)) == SegmentFactors(equities)
  {
    if equities != [] {
      var last := equities[|equities| - 1];
      SegmentsCompound(equities[..|equities| - 1]);
      GrowthConcat(SegmentReturns(equities[..|equities| - 1]), PctChange(last));
      hide Times, Compound;
      if |last| >= 2 {
        ReturnsTelescope(last);
      }
    }
  }

  /** The running compound of the returns, scaled to the initial cash. */
  function CumulativeCurve(rets: seq<Point>, initialCash: real): (curve: seq<Point>)
    ensures |curve| == |rets|
  {
    seq(|rets|, i requires 0 <= i < |rets| => Point(rets[i].day, Times(Growth(rets[..i + 1]), initialCash)))
  }

  lemma {:induction false} CurveEnd(equities: seq<seq<Point>>, rets: seq<Point>, initialCash: real)
    requires forall i :: 0 <= i < |equities| ==> Divisible(equities[i])
    requires rets == SortByDay(SegmentReturns(equities)) && rets != []
    ensures CumulativeCurve(rets, initialCash)[|rets| - 1].value == Times(SegmentFactors(equities), initialCash)
  {
    assert rets[..|rets|] == rets;
    SortKeeps(SegmentReturns(equities));
    SegmentsCompound(equities);
    hide Times, Growth, SortByDay, SegmentReturns, SegmentFactors;
  }

  /** `concat_oos`: the curve is the running compound of the returns in day order, so its last value is
      the initial cash times every segment's own last-over-first ratio, whatever the segments' order. */
  method ConcatOos(equities: seq<seq<Point>>, initialCash: real) returns (curve: seq<Point>, rets: seq<Point>)
    requires forall i :: 0 <= i < |equities| ==> Divisible(equities[i])
    ensures rets == SortByDay(SegmentReturns(equities)) && curve == CumulativeCurve(rets, initialCash)
    ensures DaySorted(rets) && multiset(rets) == multiset(SegmentReturns(equities))
    ensures curve != [] ==> curve[|curve| - 1].value == Times(SegmentFactors(equities), initialCash)
  {
    var gathered: seq<Point> := [];
    for k := 0 to |equities|
      invariant gathered == SegmentReturns(equities[..k])
    {
      assert equities[..k + 1][..k] == equities[..k];
      if |equities[k]| >= 2 {
        gathered := gathered + PctChange(equities[k]);
      } else {
        assert gathered + PctChange(equities[k]) == gathered;
      }
    }
    assert equities[..|equities|] == equities;
    rets := SortByDay(gathered);
    curve := CumulativeCurve(rets, initialCash);
    SortKeeps(gathered);
    hide SegmentReturns, SortByDay, CumulativeCurve, Growth, Times;
    if rets != [] {
      CurveEnd(equities, rets, initialCash);
    }
  }

  // ----- the walk -----

  /** The bars, the configuration, and the signals the adapter produces for a window's best parameters. */
  datatype Market = Market(bars: seq<Bar>, gen: Window -> seq<Signal>, cfg: Config, profile: Option<Profile>)
  {
    ghost predicate Valid() {
      InDayOrder(bars) && cfg.initialCash != 0.0 && forall w :: |gen(w)| == |bars|
    }

    function TestInput(w: Window): (inp: Input)
      requires |gen(w)| == |bars|
      ensures inp.Valid() && inp.cfg == cfg
    {
      InputFor(bars, gen(w), w.testStart, w.testEnd, cfg, profile)
    }
  }

  function Curve(inp: Input): seq<Point>
    requires inp.Valid()
  {
    DatedCurve(inp, ResultOf(inp).equity)
  }

  function DatedCurve(inp: Input, equity: seq<real>): (curve: seq<Point>)
    requires inp.Valid()
    ensures |curve| == inp.Length()
  {
    seq(inp.Length(), j requires 0 <= j < inp.Length() => Point(inp.Bar(j).day, if j < |equity| then equity[j] else 0.0))
  }

  /** What a window's trades make of one unit of cash. */
  function WindowFactor(trades: seq<Trade>, initialCash: real): real
    requires initialCash != 0.0
  {
    1.0 + TotalPnl(trades) / initialCash
  }

  function WindowFactors(results: seq<ReplayResult>, initialCash: real): real
    requires initialCash != 0.0
  {
    if results == [] then 1.0
    else Times(WindowFactors(results[..|results| - 1], initialCash), WindowFactor(results[|results| - 1].trades, initialCash))
  }

  lemma {:induction false} CurveLength(inp: Input)
    requires inp.Valid()
    ensures |ResultOf(inp).equity| == inp.Length()
  {
    RunAppends(inp, 0, inp.Length());
    hide Run;
  }

  /** A window's own last-over-first ratio is what its trades made, because its replay starts at the
      initial cash and ends flat. */
  lemma {:induction false} SegmentIsItsTrades(inp: Input)
    requires inp.Valid() && inp.cfg.initialCash != 0.0 && Divisible(Curve(inp))
    ensures SegmentFactor(Curve(inp)) == WindowFactor(ResultOf(inp).trades, inp.cfg.initialCash)
  {
    hide Run;
    CurveLength(inp);
    if inp.Length() > 0 {
      StartsAtInitialCash(inp);
      EndsFlat(inp);
      RatioOfGain(inp.cfg.initialCash, TotalPnl(ResultOf(inp).trades));
    } else {
      assert Run(inp, 0).trades == [] by { EmptyRun(inp); }
    }
  }

  lemma {:induction false} EmptyRun(inp: Input)
    requires inp.Valid()
    ensures Run(inp, 0).trades == []
  {
    hide Step;
  }

  lemma {:induction false} RatioOfGain(cash: real, gain: real)
    requires cash != 0.0
    ensures (cash + gain) / cash == 1.0 + gain / cash
    ensures cash + gain == cash ==> 1.0 + gain / cash == 1.0
  {
    DivCancel(cash + gain, cash);
    DivCancel(gain, cash);
    Distribute(1.0, gain / cash, cash);
    MulCancelEq((cash + gain) / cash, 1.0 + gain / cash, cash);
  }

  /** The `k`-th result is the replay of the `k`-th test window. */
  ghost predicate ReplaysWindows(m: Market, windows: seq<Window>, results: seq<ReplayResult>)
    requires m.Valid()
  {
    && |results| <= |windows|
    && forall k :: 0 <= k < |results| ==> results[k] == ResultOf(m.TestInput(windows[k]))
  }

  lemma {:induction false} CurvesCompoundTrades(curves: seq<seq<Point>>, results: seq<ReplayResult>, initialCash: real)
    requires initialCash != 0.0 && |curves| == |results|
    requires forall k :: 0 <= k < |curves| ==> Divisible(curves[k]) && SegmentFactor(curves[k]) == WindowFactor(results[k].trades, initialCash)
    ensures SegmentFactors(curves) == WindowFactors(results, initialCash)
  {
    hide WindowFactor, SegmentFactor, Times;
    if curves != [] {
      CurvesCompoundTrades(curves[..|curves| - 1], results[..|results| - 1], initialCash);
    }
  }

  method ReplayTest(m: Market, w: Window) returns (r: ReplayResult, curve: seq<Point>)
    requires m.Valid() && Divisible(Curve(m.TestInput(w)))
    ensures r == ResultOf(m.TestInput(w)) && curve == Curve(m.TestInput(w))
    ensures SegmentFactor(curve) == WindowFactor(r.trades, m.cfg.initialCash)
  {
    var inp := m.TestInput(w);
    r := ReplayWindow(inp);
    curve := DatedCurve(inp, r.equity);
    SegmentIsItsTrades(inp);
    hide ResultOf, WindowFactor, SegmentFactor;
  }

  /** No test window's equity passes through zero, so that every return exists. */
  ghost predicate Measurable(m: Market, windows: seq<Window>)
    requires m.Valid()
  {
    forall k :: 0 <= k < |windows| ==> Divisible(Curve(m.TestInput(windows[k])))
  }

  /** The equity curves of a list of test windows. */
  ghost function CurvesFor(m: Market, windows: seq<Window>): (curves: seq<seq<Point>>)
    requires m.Valid()
    ensures |curves| == |windows|
  {
    seq(|windows|, i requires 0 <= i < |windows| => Curve(m.TestInput(windows[i])))
  }

  /** The curves of the replayed windows, each the compound of its window's trades. */
  ghost predicate CurvesOf(m: Market, windows: seq<Window>, results: seq<ReplayResult>, curves: seq<seq<Point>>)
    requires m.Valid()
  {
    && |curves| == |results| <= |windows|
    && (forall i :: 0 <= i < |curves| ==> curves[i] == Curve(m.TestInput(windows[i])))
    && forall i :: 0 <= i < |curves| ==>
         Divisible(curves[i]) && SegmentFactor(curves[i]) == WindowFactor(results[i].trades, m.cfg.initialCash)
  }

  /** The loop of `walk_forward`: the cancel check first answers yes before window `cancelAt`. */
  method ReplayAll(m: Market, windows: seq<Window>, cancelAt: nat) returns (results: seq<ReplayResult>, curves: seq<seq<Point>>)
    requires m.Valid() && Measurable(m, windows)
    ensures |results| == (if cancelAt < |windows| then cancelAt else |windows|)
    ensures ReplaysWindows(m, windows, results) && CurvesOf(m, windows, results, curves)
  {
    hide ResultOf, Curve, WindowFactor, SegmentFactor, Divisible, Market.TestInput, InDayOrder, InputFor;
    results, curves := [], [];
    var k := 0;
    while k < |windows| && k < cancelAt
      invariant k == |results| <= |windows| && k <= cancelAt
      invariant ReplaysWindows(m, windows, results) && CurvesOf(m, windows, results, curves)
    {
      var r, curve := ReplayTest(m, windows[k]);
      results := results + [r];
      curves := curves + [curve];
      k := k + 1;
    }
  }

  /** `walk_forward`. The sweep that picks each window's parameters and the adapter that turns them into
      signals are the market's `gen`. The end of the out-of-sample curve is the initial cash times what
      each window's trades made of it. */
  method RunWalk(m: Market, cfg: WFConfig, cancelAt: nat)
    returns (windows: seq<Window>, results: seq<ReplayResult>, curve: seq<Point>, rets: seq<Point>)
    requires m.Valid() && cfg.stepDays > 0
    requires forall i: nat :: Fits(cfg, i) ==> Divisible(Curve(m.TestInput(WindowAt(cfg, i))))
    ensures AllWindows(cfg, windows)
    ensures |results| == (if cancelAt < |windows| then cancelAt else |windows|)
    ensures ReplaysWindows(m, windows, results)
    ensures rets == SortByDay(SegmentReturns(CurvesFor(m, windows[..|results|]))) && DaySorted(rets)
    ensures curve == CumulativeCurve(rets, m.cfg.initialCash)
    ensures curve != [] ==> curve[|curve| - 1].value == Times(WindowFactors(results, m.cfg.initialCash), m.cfg.initialCash)
  {
    windows := ComputeWindows(cfg);
    assert Measurable(m, windows);
    var curves;
    results, curves := ReplayAll(m, windows, cancelAt);
    curve, rets := ConcatOos(curves, m.cfg.initialCash);
    CurvesCompoundTrades(curves, results, m.cfg.initialCash);
    assert curves == CurvesFor(m, windows[..|results|]);
    hide ReplaysWindows, SegmentFactors, SegmentReturns, Times, SortByDay, CumulativeCurve, WindowFactors;
  }

  ghost predicate StrictDays(points: seq<Point>) {
    forall i, j :: 0 <= i < j < |points| ==> points[i].day < points[j].day
  }

  ghost predicate DaysWithin(points: seq<Point>, start: int, end: int) {
    forall i :: 0 <= i < |points| ==> start <= points[i].day < end
  }

  lemma {:induction false} WindowReturnsInside(m: Market, w: Window)
    requires m.Valid() && Divisible(Curve(m.TestInput(w)))
    ensures StrictDays(PctChange(Curve(m.TestInput(w)))) && DaysWithin(PctChange(Curve(m.TestInput(w))), w.testStart, w.testEnd)
  {
    hide ResultOf;
    var inp := m.TestInput(w);
    WindowMask(m.bars, m.gen(w), w.testStart, w.testEnd, m.cfg, m.profile);
    hide InDayOrder, InputFor, Market.TestInput;
    var curve := Curve(inp);
    forall j | 0 <= j < |curve| ensures curve[j].day == m.bars[inp.lo + j].day && w.testStart <= curve[j].day < w.testEnd {
      assert inp.lo <= inp.lo + j < inp.hi;
    }
    CurveInside(m, inp, curve, w);
  }

  lemma {:induction false} CurveInside(m: Market, inp: Input, curve: seq<Point>, w: Window)
    requires m.Valid() && inp.lo + |curve| <= |m.bars| && Divisible(curve)
    requires forall j :: 0 <= j < |curve| ==> curve[j].day == m.bars[inp.lo + j].day && w.testStart <= curve[j].day < w.testEnd
    ensures StrictDays(PctChange(curve)) && DaysWithin(PctChange(curve), w.testStart, w.testEnd)
  {}

  /** When a step never falls short of the test length, the test windows are disjoint and no day is
      counted twice: the out-of-sample returns are in strict day order as gathered, and the sort that
      precedes compounding moves nothing. */
  lemma {:induction false} NoDayCountedTwice(m: Market, cfg: WFConfig, windows: seq<Window>)
    requires m.Valid() && cfg.stepDays >= cfg.testDays && cfg.stepDays > 0 && Measurable(m, windows)
    requires forall i :: 0 <= i < |windows| ==> windows[i] == WindowAt(cfg, i)
    ensures var rets := SegmentReturns(CurvesFor(m, windows));
      && StrictDays(rets) && SortByDay(rets) == rets
      && (windows != [] ==> forall i :: 0 <= i < |rets| ==> rets[i].day < windows[|windows| - 1].testEnd)
  {
    hide *;
    CurvesDivisible(m, windows);
    if windows == [] {
      NoReturns(m);
    } else {
      var k := |windows| - 1;
      var front, w := windows[..k], windows[k];
      MeasurableParts(m, windows);
      CurvesDivisible(m, front);
      NoDayCountedTwice(m, cfg, front);
      ReturnsOfLast(m, windows);
      WindowReturnsInside(m, w);
      WindowsApart(cfg, k);
      SignalsFit(m, w);
      if k == 0 {
        NoReturns(m);
        assert front == [];
      } else {
        assert front[k - 1] == windows[k - 1];
      }
      JoinStrict(SegmentReturns(CurvesFor(m, front)), PctChange(Curve(m.TestInput(w))), w.testStart, w.testEnd);
    }
    StrictIsSorted(SegmentReturns(CurvesFor(m, windows)));
    SortedStays(SegmentReturns(CurvesFor(m, windows)));
  }

  lemma {:induction false} SignalsFit(m: Market, w: Window)
    requires m.Valid()
    ensures |m.gen(w)| == |m.bars|
  {}

  lemma {:induction false} StrictIsSorted(points: seq<Point>)
    requires StrictDays(points)
    ensures DaySorted(points)
  {}

  lemma {:induction false} NoReturns(m: Market)
    requires m.Valid()
    ensures SegmentReturns(CurvesFor(m, [])) == [] && StrictDays([])
  {}

  lemma {:induction false} MeasurableParts(m: Market, windows: seq<Window>)
    requires m.Valid() && Measurable(m, windows) && windows != []
    ensures Measurable(m, windows[..|windows| - 1]) && Divisible(Curve(m.TestInput(windows[|windows| - 1])))
  {
    hide Curve, Divisible, Market.TestInput;
  }

  lemma {:induction false} CurvesDivisible(m: Market, windows: seq<Window>)
    requires m.Valid() && Measurable(m, windows)
    ensures forall k :: 0 <= k < |windows| ==> Divisible(CurvesFor(m, windows)[k])
  {
    hide Curve, Divisible, Market.TestInput;
  }

  lemma {:induction false} ReturnsOfLast(m: Market, windows: seq<Window>)
    requires m.Valid() && Measurable(m, windows) && windows != []
    ensures var k := |windows| - 1;
      SegmentReturns(CurvesFor(m, windows)) == SegmentReturns(CurvesFor(m, windows[..k])) + PctChange(Curve(m.TestInput(windows[k])))
  {
    hide Curve, Divisible, Market.TestInput;
    var k := |windows| - 1;
    assert CurvesFor(m, windows)[..k] == CurvesFor(m, windows[..k]);
  }

  /** Windows a step apart do not overlap. */
  lemma {:induction false} WindowsApart(cfg: WFConfig, k: nat)
    requires cfg.stepDays >= cfg.testDays
    ensures k > 0 ==> WindowAt(cfg, k - 1).testEnd <= WindowAt(cfg, k).testStart
    ensures cfg.stepDays > 0 ==> k > 0 ==> WindowAt(cfg, k - 1).testEnd <= WindowAt(cfg, k).testEnd
  {
    if k > 0 {
      OffsetStep(cfg, k - 1);
    }
    hide Offset;
  }

  lemma {:induction false} JoinStrict(a: seq<Point>, b: seq<Point>, start: int, end: int)
    requires StrictDays(a) && StrictDays(b) && DaysWithin(b, start, end)
    requires forall i :: 0 <= i < |a| ==> a[i].day < start && a[i].day < end
    ensures StrictDays(a + b) && forall i :: 0 <= i < |a + b| ==> (a + b)[i].day < end
  {}
}
