/** Money is conserved by every replay: cash, closed profit and the cost of the open position always
    add up to the initial cash, so a run ends at the initial cash plus the profit of its trades. */
module ReplayMoney {
  import opened Prelude
  import opened Sizing
  import opened Replay
  import opened ReplayBook
  import opened ReplayRun

  function TotalPnl(trades: seq<Trade>): real {
    if trades == [] then 0.0 else TotalPnl(trades[..|trades| - 1]) + trades[|trades| - 1].pnl
  }

  lemma {:induction false} TotalPnlSnoc(trades: seq<Trade>, t: Trade)
    ensures TotalPnl(trades + [t]) == TotalPnl(trades) + t.pnl
  {
    assert (trades + [t])[..|trades|] == trades;
  }

  /** Cash spent on the open position and not yet accounted for by a trade. */
  function TiedUp(st: State): real {
    if st.pos.Some? then st.pos.value.cost + st.pos.value.entryCommission else 0.0
  }

  function Net(st: State): real {
    st.cash + TiedUp(st) - TotalPnl(st.trades)
  }

  lemma {:induction false} ClosingKeepsNet(inp: Input, st: State, p: Pos, price: real, reason: Reason, j: nat)
    requires p.qty > 0.0
    ensures Net(ClosePosition(inp, st, p, price, reason, j)) == Net(st.(pos := Some(p)))
  {
    AvgTimesQty(p.qty, p.cost);
    TotalPnlSnoc(st.trades, Closing(inp, st, p, price, reason, j));
    hide Worth, AvgEntry, Input.Commission;
  }

  lemma {:induction false} FillKeepsNet(inp: Input, st: State, j: nat)
    requires inp.Valid() && j < inp.Length()
    requires st.pos.Some? && !st.pos.value.complete ==> st.pos.value.entryCommission == 0.0
    requires st.pos.Some? && !st.pos.value.complete && Attempt(inp, st.pos.value, j).qty <= DUST ==>
      Attempt(inp, st.pos.value, j).cost == 0.0
    ensures Net(FillAtOpen(inp, st, j)) == Net(st)
  {
    if st.pos.Some? {
      assert Attempt(inp, st.pos.value, j).entryCommission == st.pos.value.entryCommission;
    }
    hide Attempt, Input.Commission;
  }

  lemma {:induction false} UnfilledCostsNothing(inp: Input, p: Pos, j: nat)
    requires inp.Valid() && 0 < p.orderBar && SharesOk(inp, p, j) && p.qty <= DUST
    ensures p.cost == 0.0
  {
    assert p.targetQty > 0.0;
    hide OrderOk, FirstFill;
    FilledBounds(inp, p.targetQty, p.orderBar, Attempts(p.orderBar, j));
    hide Filled;
  }

  lemma {:induction false} OpeningKeepsNet(inp: Input, j: nat)
    requires inp.Valid() && j < inp.Length() && BookInv(inp, Run(inp, j), j)
    ensures Net(Fills(inp, Run(inp, j), j)) == Net(Run(inp, j))
  {
    var st := Run(inp, j);
    if st.pendingExit {
      SignalExitKeepsNet(inp, st, j);
    } else if st.pendingSignal.Some? {
      BeginKeepsNet(inp, j);
    } else {
      ContinueKeepsNet(inp, st, j);
    }
  }

  lemma {:induction false} SignalExitKeepsNet(inp: Input, st: State, j: nat)
    requires inp.Valid() && j < inp.Length() && BookInv(inp, st, j) && st.pendingExit
    ensures Net(Fills(inp, st, j)) == Net(st)
  {
    var p := st.pos.value;
    var price := inp.SellPrice(inp.Bar(j).open);
    assert p.complete && p.qty > 0.0 && st.pendingSignal.None?;
    hide BookInv, Worth, AvgEntry, Input.Commission, Input.SellPrice;
    ClosingKeepsNet(inp, st, p, price, SIGNAL, j);
    assert st.(pos := Some(p)) == st;
  }

  lemma {:induction false} BeginKeepsNet(inp: Input, j: nat)
    requires inp.Valid() && j < inp.Length() && BookInv(inp, Run(inp, j), j) && Run(inp, j).pendingSignal.Some?
    ensures Net(Fills(inp, Run(inp, j), j)) == Net(Run(inp, j))
  {
    var st := Run(inp, j);
    var order := st.pendingSignal.value;
    var p := Pos(order.qty, order.stopPct, order.targetPct, 0.0, 0.0, 0, false, false, j, 0.0, 0.0, 0.0, false, j);
    assert st.pos.None? && !st.pendingExit && 0 < j && p.targetQty > 0.0;
    assert p.stopPct == inp.Sig(j - 1).stopPct && p.targetPct == inp.Sig(j - 1).targetPct;
    FirstAttemptCost(inp, p, j);
    hide BookInv, Run, Attempt, Input.Commission;
    FillKeepsNet(inp, BeginEntry(st, j), j);
  }

  lemma {:induction false} FirstAttemptCost(inp: Input, p: Pos, j: nat)
    requires inp.Valid() && j < inp.Length() && p.qty == 0.0 && p.cost == 0.0
    ensures Attempt(inp, p, j).qty <= DUST ==> Attempt(inp, p, j).cost == 0.0
  {}

  lemma {:induction false} ContinueKeepsNet(inp: Input, st: State, j: nat)
    requires inp.Valid() && j < inp.Length() && BookInv(inp, st, j)
    requires !st.pendingExit && st.pendingSignal.None?
    ensures Net(Fills(inp, st, j)) == Net(st)
  {
    if st.pos.Some? && !st.pos.value.complete {
      var p := st.pos.value;
      assert FillsOk(inp, p, j - 1) && p.entryCommission == 0.0;
      AttemptShares(inp, p, j);
      hide BookInv, FillsOk;
      if Attempt(inp, p, j).qty <= DUST {
        UnfilledCostsNothing(inp, Attempt(inp, p, j), j);
      }
      hide SharesOk, Attempt, Input.Commission;
      FillKeepsNet(inp, st, j);
    } else {
      hide BookInv;
    }
  }

  lemma {:induction false} IntraBarKeepsNet(inp: Input, st: State, j: nat)
    requires inp.Valid() && j < inp.Length()
    ensures Net(IntraBar(inp, st, j)) == Net(st)
  {
    hide CheckExit, ClosePosition, AvgEntry;
    if st.pos.Some? && st.pos.value.qty > 0.0 {
      var q := UpdateExcursions(st.pos.value, inp.Bar(j));
      var exit := CheckExit(AvgEntry(q.qty, q.cost), q.stopPct, q.targetPct, inp.Bar(j));
      if exit.Some? {
        ClosingKeepsNet(inp, st, q, inp.SellPrice(exit.value.0), exit.value.1, j);
      }
    }
  }

  lemma {:induction false} ForceCloseKeepsNet(inp: Input, st: State, j: nat)
    requires inp.Valid() && j < inp.Length()
    ensures Net(ForceClose(inp, st, j)) == Net(st)
  {
    hide ClosePosition, Input.Commission, Input.SellPrice;
    if j + 1 == inp.Length() && st.pos.Some? && st.pos.value.qty > 0.0 {
      var p := st.pos.value;
      var sale := inp.SellPrice(inp.Bar(j).close);
      if !p.complete && p.entryCommission == 0.0 {
        var fee := inp.Commission(p.qty);
        ClosingKeepsNet(inp, st.(cash := st.cash - fee), p.(entryCommission := fee, complete := true), sale, FORCE_CLOSE, j);
      } else {
        ClosingKeepsNet(inp, st, p, sale, FORCE_CLOSE, j);
      }
    }
  }

  lemma {:induction false} StepKeepsNet(inp: Input, j: nat)
    requires inp.Valid() && j < inp.Length() && BookInv(inp, Run(inp, j), j)
    ensures Net(Run(inp, j + 1)) == Net(Run(inp, j))
  {
    hide BookInv, Fills, IntraBar, ForceClose, Worth, SizeEntry;
    OpeningKeepsNet(inp, j);
    var st := Fills(inp, Run(inp, j), j);
    IntraBarKeepsNet(inp, st, j);
    ForceCloseKeepsNet(inp, IntraBar(inp, st, j), j);
  }

  lemma {:induction false} NetConstant(inp: Input, j: nat)
    requires inp.Valid() && j <= inp.Length()
    ensures Net(Run(inp, j)) == inp.cfg.initialCash
  {
    hide BookInv, Step;
    if j > 0 {
      NetConstant(inp, j - 1);
      RunKeepsBook(inp, j - 1);
      StepKeepsNet(inp, j - 1);
    }
  }

  /** Cash after any number of bars: the initial cash, plus closed profit, minus what the open
      position has cost so far. */
  lemma {:induction false} MoneyConserved(inp: Input, j: nat)
    requires inp.Valid() && j <= inp.Length()
    ensures Run(inp, j).cash == inp.cfg.initialCash + TotalPnl(Run(inp, j).trades) - TiedUp(Run(inp, j))
  {
    hide Run;
    NetConstant(inp, j);
  }

  // ----- what a run records is never rewritten -----

  lemma {:induction false} FillsAppend(inp: Input, st: State, j: nat)
    requires inp.Valid() && j < inp.Length()
    ensures Fills(inp, st, j).equity == st.equity && st.trades <= Fills(inp, st, j).trades
  {
    hide CheckExit, Attempt, Worth, SizeEntry, AvgEntry, Input.Commission, Input.SellPrice, UpdateExcursions;
  }

  lemma {:induction false} ExitsAppend(inp: Input, st: State, j: nat)
    requires inp.Valid() && j < inp.Length()
    ensures Exits(inp, st, j).equity == st.equity && st.trades <= Exits(inp, st, j).trades
  {
    hide CheckExit, Attempt, Worth, SizeEntry, AvgEntry, Input.Commission, Input.SellPrice, UpdateExcursions;
  }

  lemma {:induction false} StepAppends(inp: Input, st: State, j: nat)
    requires inp.Valid() && j < inp.Length()
    ensures st.equity <= Step(inp, st, j).equity && |Step(inp, st, j).equity| == |st.equity| + 1
    ensures st.trades <= Step(inp, st, j).trades
  {
    hide Fills, Exits, Worth, SizeEntry;
    FillsAppend(inp, st, j);
    ExitsAppend(inp, Fills(inp, st, j), j);
  }

  lemma {:induction false} RunAppends(inp: Input, i: nat, j: nat)
    requires inp.Valid() && i <= j <= inp.Length()
    ensures |Run(inp, i).equity| == i && |Run(inp, j).equity| == j
    ensures Run(inp, i).equity <= Run(inp, j).equity && Run(inp, i).trades <= Run(inp, j).trades
    decreases j
  {
    hide Step;
    if i < j {
      RunAppends(inp, i, j - 1);
      StepAppends(inp, Run(inp, j - 1), j - 1);
    } else if j > 0 {
      RunAppends(inp, j - 1, j - 1);
      StepAppends(inp, Run(inp, j - 1), j - 1);
    }
  }

  /** The mark of a state at a close: what the open shares are worth beyond what they cost. */
  function OpenGain(st: State, close: real): real {
    Worth(Held(st), close) - TiedUp(st)
  }

  /** The equity recorded at every bar of a finished run is the initial cash, plus the profit of the
      trades closed by then, plus the open gain at that close. */
  lemma {:induction false} EquityConserved(inp: Input, i: nat)
    requires inp.Valid() && i < inp.Length()
    ensures |Run(inp, inp.Length()).equity| == inp.Length()
    ensures Run(inp, i + 1).trades <= Run(inp, inp.Length()).trades
    ensures Run(inp, inp.Length()).equity[i] ==
      inp.cfg.initialCash + TotalPnl(Run(inp, i + 1).trades) + OpenGain(Run(inp, i + 1), inp.Bar(i).close)
  {
    hide Run, Worth, Held, TiedUp;
    RunAppends(inp, i + 1, inp.Length());
    MoneyConserved(inp, i + 1);
    LastMark(inp, i);
  }

  lemma {:induction false} LastMark(inp: Input, i: nat)
    requires inp.Valid() && i < inp.Length()
    ensures var st := Run(inp, i + 1);
      |st.equity| == i + 1 && st.equity[i] == st.cash + Worth(Held(st), inp.Bar(i).close)
  {
    hide Step, Worth;
    RunAppends(inp, i + 1, i + 1);
    StepMarks(inp, Run(inp, i), i);
  }

  lemma {:induction false} StepMarks(inp: Input, st: State, j: nat)
    requires inp.Valid() && j < inp.Length()
    ensures var next := Step(inp, st, j);
      next.equity != [] && next.equity[|next.equity| - 1] == next.cash + Worth(Held(next), inp.Bar(j).close)
  {
    hide Fills, Exits, Worth, SizeEntry;
  }

  /** What is left of a position after the last bar has not bought anything. */
  lemma {:induction false} NotStartedAtEnd(inp: Input, st: State)
    requires inp.Valid() && inp.Length() > 0 && BookInv(inp, st, inp.Length()) && st.pos.Some?
    ensures FillsOk(inp, st.pos.value, inp.Length() - 1) && !st.pos.value.started && st.pos.value.entryCommission == 0.0
  {
    hide SharesOk, HeldOk, TradesOk, DoneAt, Input.Commission;
  }

  /** The run ends flat: no shares are held after the last bar, so the final equity is the initial cash
      plus the profit of all trades. */
  lemma {:induction false} EndsFlat(inp: Input)
    requires inp.Valid() && inp.Length() > 0
    ensures var st := Run(inp, inp.Length());
      && Held(st) == 0.0
      && |st.equity| == inp.Length()
      && st.equity[inp.Length() - 1] == inp.cfg.initialCash + TotalPnl(st.trades)
  {
    hide Run, BookInv, FillsOk;
    var n := inp.Length();
    EquityConserved(inp, n - 1);
    RunKeepsBook(inp, n);
    var st := Run(inp, n);
    if st.pos.Some? {
      NotStartedAtEnd(inp, st);
      FlatCostsNothing(inp, st.pos.value, n - 1);
      assert st.pos.value.qty == 0.0 && st.pos.value.entryCommission == 0.0;
    }
    assert Worth(0.0, inp.Bar(n - 1).close) == 0.0;
  }

  lemma {:induction false} FlatCostsNothing(inp: Input, p: Pos, j: nat)
    requires inp.Valid() && FillsOk(inp, p, j) && !p.started
    ensures p.qty == 0.0 && p.cost == 0.0
  {
    assert p.targetQty > 0.0;
    hide OrderOk, FirstFill, Input.Commission;
    FilledBounds(inp, p.targetQty, p.orderBar, Attempts(p.orderBar, j));
    hide Filled;
  }

  /** Nothing can be bought on the first bar: the curve starts at the initial cash. */
  lemma {:induction false} StartsAtInitialCash(inp: Input)
    requires inp.Valid() && inp.Length() > 0
    ensures |Run(inp, inp.Length()).equity| > 0 && Run(inp, inp.Length()).equity[0] == inp.cfg.initialCash
  {
    EquityConserved(inp, 0);
    FirstBarIdle(inp);
    hide Run;
  }

  lemma {:induction false} FirstBarIdle(inp: Input)
    requires inp.Valid() && inp.Length() > 0
    ensures Run(inp, 1).pos.None? && Run(inp, 1).trades == []
    ensures OpenGain(Run(inp, 1), inp.Bar(0).close) == 0.0
  {
    assert Run(inp, 1) == Step(inp, Start(inp), 0) by { assert Run(inp, 0) == Start(inp); }
    hide Run, SizeEntry;
  }
}
