/** What a finished replay says about its trades, and that no decision looks ahead. */
module ReplayTrades {
  import opened Prelude
  import opened Sizing
  import opened Replay
  import opened ReplayBook
  import opened ReplayRun
  import opened ReplayMoney

  // ----- trade bookkeeping -----

  /** Every trade of a finished run is the one its order's book prescribes, the trades are in time
      order, and the exposure count is the number of closes at which shares were held. */
  lemma {:induction false} TradesByTheBook(inp: Input)
    requires inp.Valid()
    ensures TradesOk(inp, Run(inp, inp.Length()).trades, inp.Length())
    ensures Run(inp, inp.Length()).exposureBars == BarsHeldAtCloses(Run(inp, inp.Length()).trades)
  {
    RunKeepsBook(inp, inp.Length());
    hide Run, TradesOk, FillsOk, HeldOk;
  }

  /** Orders and trades never overlap in time. */
  lemma {:induction false} TradesDisjoint(inp: Input, a: nat, b: nat)
    requires inp.Valid() && a < b < |Run(inp, inp.Length()).trades|
    ensures Run(inp, inp.Length()).trades[a].exitBar < Run(inp, inp.Length()).trades[b].orderBar
    ensures Run(inp, inp.Length()).trades[b].orderBar <= Run(inp, inp.Length()).trades[b].exitBar
    decreases b
  {
    TradesByTheBook(inp);
    var trades := Run(inp, inp.Length()).trades;
    assert TradeOk(inp, trades[b]);
    hide Run, OrderOk, ExitOk, NoExitBefore;
    if a < b - 1 {
      TradesDisjoint(inp, a, b - 1);
    }
  }

  ghost predicate SaneBar(bar: Bar) {
    bar.low <= bar.open <= bar.high && bar.low <= bar.close <= bar.high
  }

  lemma {:induction false} TradeIsOk(inp: Input, k: nat)
    requires inp.Valid() && k < |Run(inp, inp.Length()).trades|
    ensures TradeOk(inp, Run(inp, inp.Length()).trades[k])
  {
    TradesByTheBook(inp);
    hide Run, TradeOk;
  }

  lemma {:induction false} ExitOfTrade(inp: Input, t: Trade)
    requires inp.Valid() && TradeOk(inp, t) && SaneBar(inp.Bar(t.exitBar))
    ensures exists px ::
      && t.exitPrice == inp.SellPrice(px)
      && inp.Bar(t.exitBar).low <= px <= inp.Bar(t.exitBar).high
      && (t.reason != SIGNAL ==> t.mae <= px - t.entryPrice <= t.mfe)
  {
    var s, target, j := t.orderBar, t.qty + t.cancelledQty, t.exitBar;
    var bar := inp.Bar(j);
    var px := match t.reason
      case SIGNAL => bar.open
      case FORCE_CLOSE => bar.close
      case _ => ExitAt(inp, target, s, j).value.0;
    assert bar.low <= px <= bar.high by {
      hide OrderOk, FirstFill, QtyAt, CostAt, AvgAt;
    }
    assert t.exitPrice == inp.SellPrice(px);
    if t.reason != SIGNAL {
      assert ExcursionsOver(inp, target, s, t.entryBar, j, t.mfe, t.mae);
      hide OrderOk, FirstFill, QtyAt, CostAt, ExitAt, NoExitBefore, NoExitSignalBefore, ExitOk, Input.SellPrice;
      assert t.mae <= bar.low - AvgAt(inp, target, s, j) && bar.high - AvgAt(inp, target, s, j) <= t.mfe;
    }
  }

  /** Before slippage every exit price of a run lies inside its bar; a stop, target or forced exit also
      lies between the recorded excursions. */
  lemma {:induction false} ExitInsideBar(inp: Input, k: nat)
    requires inp.Valid() && k < |Run(inp, inp.Length()).trades|
    requires forall j :: 0 <= j < inp.Length() ==> SaneBar(inp.Bar(j))
    ensures var t := Run(inp, inp.Length()).trades[k];
      && 0 <= t.exitBar < inp.Length()
      && exists px ::
        && t.exitPrice == inp.SellPrice(px)
        && inp.Bar(t.exitBar).low <= px <= inp.Bar(t.exitBar).high
        && (t.reason != SIGNAL ==> t.mae <= px - t.entryPrice <= t.mfe)
  {
    TradeIsOk(inp, k);
    var t := Run(inp, inp.Length()).trades[k];
    hide Run;
    assert SaneBar(inp.Bar(t.exitBar));
    ExitOfTrade(inp, t);
    hide TradeOk, SaneBar, Input.SellPrice;
  }

  lemma {:induction false} FeeOfTrade(inp: Input, t: Trade)
    requires inp.Valid() && TradeOk(inp, t)
    ensures t.entryCommission == inp.Commission(t.qty) <==>
      (t.reason in {SIGNAL, FORCE_CLOSE} || DoneAt(inp, t.qty + t.cancelledQty, t.orderBar, t.exitBar) || inp.Commission(t.qty) == 0.0)
  {
    assert t.entryCommission == EntryFee(inp, t.reason, DoneAt(inp, t.qty + t.cancelledQty, t.orderBar, t.exitBar), t.qty);
    hide TradeOk, DoneAt, Input.Commission;
  }

  /** When a trade of a run pays its entry commission: always, unless it is stopped out or reaches its
      target while its order is still filling and that commission is not zero anyway. */
  lemma {:induction false} EntryCommissionCharged(inp: Input, k: nat)
    requires inp.Valid() && k < |Run(inp, inp.Length()).trades|
    ensures var t := Run(inp, inp.Length()).trades[k];
      && t.orderBar <= t.exitBar < inp.Length()
      && (t.entryCommission == inp.Commission(t.qty) <==>
            (t.reason in {SIGNAL, FORCE_CLOSE} || DoneAt(inp, t.qty + t.cancelledQty, t.orderBar, t.exitBar) || inp.Commission(t.qty) == 0.0))
  {
    TradeIsOk(inp, k);
    FeeOfTrade(inp, Run(inp, inp.Length()).trades[k]);
    hide Run, DoneAt, Input.Commission, OrderOk, ExitOk;
  }

  /** Half a share of volume a bar, one dollar an order, and a stop ten percent down that the first
      fill bar already touches. */
  function StoppedWhileFilling(): (inp: Input)
    ensures inp.Valid() && inp.Length() == 2
  {
    Input([Bar(0, 100.0, 100.0, 100.0, 100.0, 50.0), Bar(1, 100.0, 100.0, 80.0, 95.0, 50.0)],
          [Signal(true, false, Some(0.1), None), Signal(false, false, None, None)],
          0, 2, Config(1000.0, 0.0, 1.0, 0.0, 1.0, false), None)
  }

  lemma {:induction false} StoppedAfterBar0(inp: Input)
    requires inp == StoppedWhileFilling()
    ensures Run(inp, 1) == State(1000.0, None, Some(Pending(0, Some(0.1), None, 1.0)), false, [], [1000.0], 0)
  {
    assert Run(inp, 0) == Start(inp);
    assert Marked(inp, Start(inp), 0) == Start(inp).(equity := [1000.0]);
    assert SizeEntry(inp, 0, 1000.0, Some(0.1)) == 1.0;
  }

  function HalfFilled(): Pos {
    Pos(1.0, Some(0.1), None, 0.5, 50.0, 1, false, true, 1, 0.0, 0.0, 0.0, false, 1)
  }

  lemma {:induction false} StoppedHalfFills(st: State)
    requires st == State(1000.0, None, Some(Pending(0, Some(0.1), None, 1.0)), false, [], [1000.0], 0)
    ensures Fills(StoppedWhileFilling(), st, 1) == State(950.0, Some(HalfFilled()), None, false, [], [1000.0], 0)
  {
    var inp := StoppedWhileFilling();
    var p := Pos(1.0, Some(0.1), None, 0.0, 0.0, 0, false, false, 1, 0.0, 0.0, 0.0, false, 1);
    assert BeginEntry(st, 1) == st.(pos := Some(p), pendingSignal := None);
    assert inp.VolumeCap(1) == 0.5;
    assert inp.Spend(0.5, 1) == 50.0;
    assert Attempt(inp, p, 1) == HalfFilled();
  }

  predicate StoppedWithoutFee(trades: seq<Trade>) {
    && |trades| == 1
    && trades[0].reason == STOP && trades[0].qty == 0.5 && trades[0].entryCommission == 0.0
  }

  lemma {:induction false} StopsOut(inp: Input, st: State, j: nat)
    requires inp.Valid() && j < inp.Length() && st.trades == [] && st.pos.Some? && st.pos.value.qty > 0.0
    requires var p, bar := st.pos.value, inp.Bar(j);
      CheckExit(AvgEntry(p.qty, p.cost), p.stopPct, p.targetPct, bar).Some?
      && CheckExit(AvgEntry(p.qty, p.cost), p.stopPct, p.targetPct, bar).value.1 == STOP
    ensures var p, trades := st.pos.value, Exits(inp, st, j).trades;
      |trades| == 1 && trades[0].reason == STOP && trades[0].qty == p.qty && trades[0].entryCommission == p.entryCommission
  {
    hide AvgEntry, CheckExit, Worth, Input.SellPrice, Input.Commission, Input.Valid;
  }

  /** So not every trade pays its entry commission, here one dollar: this one is stopped out while its
      order is still filling. */
  lemma {:induction false} StoppedOrderPaysNoEntryCommission(inp: Input)
    requires inp == StoppedWhileFilling()
    ensures StoppedWithoutFee(Run(inp, 2).trades) && inp.Commission(0.5) == 1.0
  {
    hide Step, Fills, Exits;
    StoppedAfterBar0(inp);
    var st := Run(inp, 1);
    StoppedHalfFills(st);
    var half := Fills(inp, st, 1);
    StepTrades(inp, st, 1);
    assert CheckExit(AvgEntry(0.5, 50.0), Some(0.1), None, inp.Bar(1)).value.1 == STOP;
    hide AvgEntry, CheckExit, Run, Input.Valid;
    StopsOut(inp, half, 1);
  }

  lemma {:induction false} StepTrades(inp: Input, st: State, j: nat)
    requires inp.Valid() && j < inp.Length()
    ensures Step(inp, st, j).trades == Exits(inp, Fills(inp, st, j), j).trades
  {
    hide SizeEntry, Fills, Exits, Worth;
  }

  // ----- no look-ahead -----

  /** The same market and configuration through window bar `k - 1`, and the same signals before it. */
  ghost predicate SameThrough(a: Input, b: Input, bars: nat, signals: nat) {
    && a.Valid() && b.Valid()
    && a.cfg == b.cfg && a.profile == b.profile && a.lo == b.lo && a.hi == b.hi
    && signals <= bars <= a.Length()
    && a.bars[..a.lo + bars] == b.bars[..b.lo + bars]
    && (forall j :: 0 <= j < signals ==> a.Sig(j) == b.Sig(j))
  }

  lemma {:induction false} SameBar(a: Input, b: Input, bars: nat, signals: nat, j: nat)
    requires SameThrough(a, b, bars, signals) && j < bars
    ensures a.Bar(j) == b.Bar(j)
  {
    assert a.Bar(j) == a.bars[..a.lo + bars][a.lo + j];
    assert b.Bar(j) == b.bars[..b.lo + bars][b.lo + j];
  }

  lemma {:induction false} SizingCausal(a: Input, b: Input, bars: nat, signals: nat, j: nat, cash: real, stopPct: Option<real>)
    requires SameThrough(a, b, bars, signals) && j < bars
    ensures SizeEntry(a, j, cash, stopPct) == SizeEntry(b, j, cash, stopPct)
  {
    SameBar(a, b, bars, signals, j);
    assert a.bars[..a.lo + j + 1] == a.bars[..a.lo + bars][..a.lo + j + 1];
    assert b.bars[..b.lo + j + 1] == b.bars[..b.lo + bars][..b.lo + j + 1];
    Atr14Causal(a.bars, b.bars, a.lo + j);
    hide Atr14, ProductionSize;
  }

  lemma {:induction false} SameCosts(a: Input, b: Input, bars: nat, signals: nat, j: nat)
    requires SameThrough(a, b, bars, signals) && j < bars
    ensures a.Bar(j) == b.Bar(j) && a.VolumeCap(j) == b.VolumeCap(j)
    ensures forall q: real :: a.Commission(q) == b.Commission(q)
    ensures forall q: real :: a.SellPrice(q) == b.SellPrice(q)
    ensures forall q: real :: a.Spend(q, j) == b.Spend(q, j)
  {
    SameBar(a, b, bars, signals, j);
  }

  lemma {:induction false} SignalExitCausal(a: Input, b: Input, bars: nat, signals: nat, st: State, j: nat)
    requires SameThrough(a, b, bars, signals) && j < bars
    ensures ExitAtOpen(a, st, j) == ExitAtOpen(b, st, j)
  {
    SameCosts(a, b, bars, signals, j);
    hide Worth, AvgEntry, Input.Commission, Input.SellPrice;
  }

  lemma {:induction false} FillCausal(a: Input, b: Input, bars: nat, signals: nat, st: State, j: nat)
    requires SameThrough(a, b, bars, signals) && j < bars
    ensures FillAtOpen(a, st, j) == FillAtOpen(b, st, j)
  {
    SameCosts(a, b, bars, signals, j);
    hide Input.Commission, Input.Spend, Input.VolumeCap, AttemptQty;
  }

  lemma {:induction false} OpeningCausal(a: Input, b: Input, bars: nat, signals: nat, st: State, j: nat)
    requires SameThrough(a, b, bars, signals) && j < bars
    ensures Fills(a, st, j) == Fills(b, st, j)
  {
    hide ExitAtOpen, BeginEntry, FillAtOpen;
    SignalExitCausal(a, b, bars, signals, st, j);
    FillCausal(a, b, bars, signals, BeginEntry(ExitAtOpen(a, st, j), j), j);
  }

  lemma {:induction false} IntraBarCausal(a: Input, b: Input, bars: nat, signals: nat, st: State, j: nat)
    requires SameThrough(a, b, bars, signals) && j < bars
    ensures IntraBar(a, st, j) == IntraBar(b, st, j)
  {
    SameCosts(a, b, bars, signals, j);
    hide Worth, AvgEntry, Input.Commission, Input.SellPrice, CheckExit, UpdateExcursions;
  }

  lemma {:induction false} ForceCloseCausal(a: Input, b: Input, bars: nat, signals: nat, st: State, j: nat)
    requires SameThrough(a, b, bars, signals) && j < bars
    ensures ForceClose(a, st, j) == ForceClose(b, st, j)
  {
    SameCosts(a, b, bars, signals, j);
    hide Worth, AvgEntry, Input.Commission, Input.SellPrice;
  }

  lemma {:induction false} ClosingCausal(a: Input, b: Input, bars: nat, signals: nat, st: State, j: nat)
    requires SameThrough(a, b, bars, signals) && j < bars
    ensures Mark(a, Exits(a, st, j), j) == Mark(b, Exits(b, st, j), j)
  {
    IntraBarCausal(a, b, bars, signals, st, j);
    ForceCloseCausal(a, b, bars, signals, IntraBar(a, st, j), j);
    hide IntraBar, ForceClose;
  }

  lemma {:induction false} DecisionCausal(a: Input, b: Input, bars: nat, signals: nat, st: State, j: nat)
    requires SameThrough(a, b, bars, signals) && j < signals
    ensures Decide(a, st, j) == Decide(b, st, j)
  {
    SizingCausal(a, b, bars, signals, j, st.cash, a.Sig(j).stopPct);
    hide SizeEntry;
  }

  lemma {:induction false} MarkedCausal(a: Input, b: Input, bars: nat, signals: nat, st: State, j: nat)
    requires SameThrough(a, b, bars, signals) && j < bars
    ensures Marked(a, st, j) == Marked(b, st, j)
  {
    hide Fills, Exits, Mark;
    OpeningCausal(a, b, bars, signals, st, j);
    ClosingCausal(a, b, bars, signals, Fills(a, st, j), j);
  }

  lemma {:induction false} SameThroughShorter(a: Input, b: Input, k: nat)
    requires k > 0 && SameThrough(a, b, k, k)
    ensures SameThrough(a, b, k - 1, k - 1)
  {
    assert a.bars[..a.lo + k - 1] == a.bars[..a.lo + k][..a.lo + k - 1];
    assert b.bars[..b.lo + k - 1] == b.bars[..b.lo + k][..b.lo + k - 1];
  }

  lemma {:induction false} StepCausal(a: Input, b: Input, st: State, j: nat)
    requires SameThrough(a, b, j + 1, j + 1)
    ensures Step(a, st, j) == Step(b, st, j)
  {
    hide Marked, Decide;
    MarkedCausal(a, b, j + 1, j + 1, st, j);
    DecisionCausal(a, b, j + 1, j + 1, Marked(a, st, j), j);
  }

  /** Two runs that agree on bars and signals before bar `k` are in the same state there. */
  lemma {:induction false} RunCausal(a: Input, b: Input, k: nat)
    requires SameThrough(a, b, k, k)
    ensures Run(a, k) == Run(b, k)
  {
    hide Step;
    if k > 0 {
      SameThroughShorter(a, b, k);
      RunCausal(a, b, k - 1);
      StepCausal(a, b, Run(a, k - 1), k - 1);
    }
  }

  // ----- what the finished run shows of its first bars -----

  /** The trades of a list that exited by bar `k`. */
  function ExitedBy(trades: seq<Trade>, k: nat): seq<Trade> {
    if trades == [] then []
    else
      var earlier, last := ExitedBy(trades[..|trades| - 1], k), trades[|trades| - 1];
      if last.exitBar <= k then earlier + [last] else earlier
  }

  lemma {:induction false} ExitedByAll(trades: seq<Trade>, k: nat)
    requires forall i :: 0 <= i < |trades| ==> trades[i].exitBar <= k
    ensures ExitedBy(trades, k) == trades
  {
    if trades != [] {
      ExitedByAll(trades[..|trades| - 1], k);
    }
  }

  lemma {:induction false} ExitedByPrefix(trades: seq<Trade>, later: seq<Trade>, k: nat)
    requires trades <= later
    requires forall i :: |trades| <= i < |later| ==> later[i].exitBar > k
    ensures ExitedBy(later, k) == ExitedBy(trades, k)
    decreases |later|
  {
    if |trades| < |later| {
      ExitedByPrefix(trades, later[..|later| - 1], k);
    } else {
      assert trades == later;
    }
  }

  predicate AddedNow(before: seq<Trade>, after: seq<Trade>, j: nat) {
    before <= after && forall i :: |before| <= i < |after| ==> after[i].exitBar == j
  }

  lemma {:induction false} OpeningTradesNow(inp: Input, st: State, j: nat)
    requires inp.Valid() && j < inp.Length()
    ensures AddedNow(st.trades, Fills(inp, st, j).trades, j)
  {
    hide Attempt, Worth, AvgEntry, Input.Commission, Input.SellPrice;
  }

  lemma {:induction false} ClosingTradesNow(inp: Input, st: State, j: nat)
    requires inp.Valid() && j < inp.Length()
    ensures AddedNow(st.trades, Exits(inp, st, j).trades, j)
  {
    hide CheckExit, UpdateExcursions, Worth, AvgEntry, Input.Commission, Input.SellPrice;
  }

  lemma {:induction false} StepTradesNow(inp: Input, st: State, j: nat)
    requires inp.Valid() && j < inp.Length()
    ensures AddedNow(st.trades, Step(inp, st, j).trades, j)
  {
    OpeningTradesNow(inp, st, j);
    ClosingTradesNow(inp, Fills(inp, st, j), j);
    hide Fills, Exits, SizeEntry, Worth;
  }

  predicate AddedSince(before: seq<Trade>, after: seq<Trade>, i: nat) {
    before <= after && forall t :: |before| <= t < |after| ==> after[t].exitBar >= i
  }

  lemma {:induction false} AddedThenNow(x: seq<Trade>, y: seq<Trade>, z: seq<Trade>, i: nat, j: nat)
    requires AddedSince(x, y, i) && AddedNow(y, z, j) && i <= j
    ensures AddedSince(x, z, i)
  {
  }

  /** Trades recorded after bar `i` exit later. */
  lemma {:induction false} LaterTradesExitLater(inp: Input, i: nat, j: nat)
    requires inp.Valid() && i <= j <= inp.Length()
    ensures AddedSince(Run(inp, i).trades, Run(inp, j).trades, i)
    decreases j
  {
    hide Step, AddedNow;
    if i < j {
      LaterTradesExitLater(inp, i, j - 1);
      StepTradesNow(inp, Run(inp, j - 1), j - 1);
      AddedThenNow(Run(inp, i).trades, Run(inp, j - 1).trades, Run(inp, j).trades, i, j - 1);
    }
  }

  lemma {:induction false} TradesExitInTime(inp: Input, j: nat)
    requires inp.Valid() && j <= inp.Length()
    ensures forall i :: 0 <= i < |Run(inp, j).trades| ==> Run(inp, j).trades[i].exitBar < j
  {
    hide Run;
    RunKeepsBook(inp, j);
    hide TradeOk, FillsOk, HeldOk, SizeEntry;
  }

  lemma {:induction false} FinishedRunShows(inp: Input, k: nat)
    requires inp.Valid() && k < inp.Length()
    ensures |Run(inp, inp.Length()).equity| == inp.Length()
    ensures Run(inp, inp.Length()).equity[..k + 1] == Run(inp, k + 1).equity
    ensures ExitedBy(Run(inp, inp.Length()).trades, k) == Run(inp, k + 1).trades
  {
    hide Run;
    RunAppends(inp, k + 1, inp.Length());
    LaterTradesExitLater(inp, k + 1, inp.Length());
    TradesExitInTime(inp, k + 1);
    ExitedByAll(Run(inp, k + 1).trades, k);
    ExitedByPrefix(Run(inp, k + 1).trades, Run(inp, inp.Length()).trades, k);
  }

  lemma {:induction false} DecideRecordsNothing(inp: Input, st: State, j: nat)
    requires inp.Valid() && j < inp.Length()
    ensures Decide(inp, st, j).equity == st.equity && Decide(inp, st, j).trades == st.trades
  {
    hide SizeEntry;
  }

  /** No look-ahead, production sizing included: two runs of equal length that agree on all bars up to
      and including `k` and on the signals strictly before `k` have the same equity through bar `k` and
      the same trades exited by it. */
  lemma {:induction false} NoLookAhead(a: Input, b: Input, k: nat)
    requires SameThrough(a, b, k + 1, k)
    ensures |Run(a, a.Length()).equity| == |Run(b, b.Length()).equity| == a.Length()
    ensures Run(a, a.Length()).equity[..k + 1] == Run(b, b.Length()).equity[..k + 1]
    ensures ExitedBy(Run(a, a.Length()).trades, k) == ExitedBy(Run(b, b.Length()).trades, k)
  {
    assert SameThrough(a, b, k, k) by {
      assert a.bars[..a.lo + k] == a.bars[..a.lo + k + 1][..a.lo + k];
      assert b.bars[..b.lo + k] == b.bars[..b.lo + k + 1][..b.lo + k];
    }
    RunCausal(a, b, k);
    var marked := Marked(a, Run(a, k), k);
    MarkedCausal(a, b, k + 1, k, Run(a, k), k);
    assert Run(a, k + 1) == Decide(a, marked, k) && Run(b, k + 1) == Decide(b, marked, k) by {
      hide Marked, Decide;
    }
    hide Run, Decide, Marked;
    DecideRecordsNothing(a, marked, k);
    DecideRecordsNothing(b, marked, k);
    FinishedRunShows(a, k);
    FinishedRunShows(b, k);
  }
}
