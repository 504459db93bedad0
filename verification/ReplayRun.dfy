/** Every run of the replay machine keeps its book: the invariant, phase by phase in the order in which
    the source takes them within a bar (exit at the open, entry, fills, stops and targets, forced close,
    decision), and what follows for the finished trades and the exposure count. */
module ReplayRun {
  import opened Prelude
  import opened Sizing
  import opened Replay
  import opened ReplayBook

  lemma {:induction false} TradesStayOk(inp: Input, trades: seq<Trade>, j: nat)
    requires inp.Valid() && TradesOk(inp, trades, j)
    ensures TradesOk(inp, trades, j + 1)
  {
    hide TradeOk;
  }

  /** A finished order is unchanged on the next bar. */
  lemma {:induction false} DoneCarries(inp: Input, p: Pos, j: nat)
    requires inp.Valid() && 0 < j < inp.Length() && FillsOk(inp, p, j - 1) && p.complete
    ensures FillsOk(inp, p, j)
  {
    DoneIsFinal(inp, p.targetQty, p.orderBar, j);
    hide OrderOk, QtyAt, CostAt, Input.Commission, FirstFill, DoneAt;
  }

  lemma {:induction false} SignalTradeOk(inp: Input, st: State, p: Pos, j: nat)
    requires inp.Valid() && 0 < j < inp.Length() && FillsOk(inp, p, j - 1) && HeldOk(inp, p, j)
    requires NoExitSignalBefore(inp, p.targetQty, p.orderBar, j - 1)
    requires p.complete && ExitOnly(inp.Sig(j - 1))
    ensures TradeOk(inp, Closing(inp, st, p, inp.SellPrice(inp.Bar(j).open), SIGNAL, j))
  {
    var t := Closing(inp, st, p, inp.SellPrice(inp.Bar(j).open), SIGNAL, j);
    DoneCarries(inp, p, j);
    assert ExitOk(inp, t, p.targetQty) by {
      hide Filled, OrderOk, Input.Commission, Worth, AvgEntry;
    }
    CloseIsSound(inp, st, p, inp.SellPrice(inp.Bar(j).open), SIGNAL, j);
    hide TradeOk, OrderOk, QtyAt, CostAt, ExitOk, Worth, Input.Commission, FirstFill, AvgEntry, Closing;
  }

  /** Once a sound trade is recorded the account is flat and the book in order. */
  lemma {:induction false} FlatAfterClose(inp: Input, st: State, q: Pos, price: real, reason: Reason, j: nat)
    requires inp.Valid() && j < inp.Length() && q.entryBar <= j
    requires TradesOk(inp, st.trades, j + 1) && FreeFrom(st.trades, q.orderBar)
    requires st.pendingSignal.None? && !st.pendingExit
    requires st.exposureBars == BarsHeldAtCloses(st.trades) + (j - q.entryBar)
    requires TradeOk(inp, Closing(inp, st, q, price, reason, j))
    ensures EndInv(inp, ClosePosition(inp, st, q, price, reason, j), j)
  {
    hide TradeOk, TradesOk, AvgEntry, Worth, Input.Commission;
    var t := Closing(inp, st, q, price, reason, j);
    var flat := ClosePosition(inp, st, q, price, reason, j);
    assert t.exitBar == j && t.orderBar == q.orderBar && t.entryBar == q.entryBar;
    assert flat == st.(cash := flat.cash, trades := st.trades + [t], pos := None);
    hide ClosePosition;
    AddTrade(inp, st.trades, t, j);
  }

  lemma {:induction false} SignalExitPhase(inp: Input, st: State, j: nat)
    requires inp.Valid() && 0 < j < inp.Length() && BookInv(inp, st, j) && st.pendingExit
    ensures MidInv(inp, Fills(inp, st, j), j)
  {
    var p := st.pos.value;
    var calm := st.(pendingExit := false);
    var price := inp.SellPrice(inp.Bar(j).open);
    assert Fills(inp, st, j) == ClosePosition(inp, calm, p, price, SIGNAL, j) by {
      hide TradesOk, HeldOk, OrderOk, QtyAt, CostAt, DoneAt, FirstFill, Worth, AvgEntry, Input.Commission, Input.SellPrice;
    }
    hide Fills, ClosePosition, TradesOk, FillsOk, HeldOk, TradeOk, Closing;
    TradesStayOk(inp, st.trades, j);
    SignalTradeOk(inp, calm, p, j);
    FlatAfterClose(inp, calm, p, price, SIGNAL, j);
  }

  lemma {:induction false} EntryPhase(inp: Input, j: nat)
    requires inp.Valid() && 0 < j < inp.Length()
    requires BookInv(inp, Run(inp, j), j) && Run(inp, j).pendingSignal.Some?
    ensures MidInv(inp, Fills(inp, Run(inp, j), j), j)
  {
    var st := Run(inp, j);
    var order := st.pendingSignal.value;
    assert OrderOk(inp, order.qty, j);
    TradesStayOk(inp, st.trades, j);
    var p := Pos(order.qty, order.stopPct, order.targetPct, 0.0, 0.0, 0, false, false, j, 0.0, 0.0, 0.0, false, j);
    FirstAttemptFollowsBook(inp, p, j);
    assert FreeFrom(st.trades, j) by {
      hide TradeOk;
    }
    hide TradesOk, OrderOk, QtyAt, CostAt, DoneAt, FirstFill, Run, Input.Commission, Input.Spend, Input.VolumeCap, AttemptQty;
  }

  lemma {:induction false} OnlyAttempts(inp: Input, st: State, j: nat)
    requires inp.Valid() && j < inp.Length() && st.pos.Some? && !st.pos.value.complete
    ensures Fills(inp, st, j) == FillAtOpen(inp, st, j)
  {
    hide FillAtOpen;
  }

  lemma {:induction false} AttemptShape(inp: Input, p: Pos, j: nat)
    requires inp.Valid() && 0 < j < inp.Length() && FillsOk(inp, p, j - 1) && !p.complete
    ensures var q := Attempt(inp, p, j);
      && q.orderBar == p.orderBar && q.targetQty == p.targetQty
      && (q.started <==> q.qty > 0.0) && (p.started ==> q.started && q.entryBar == p.entryBar)
      && (!p.started && q.started ==> q.entryBar == j)
  {
    AttemptShares(inp, p, j);
    hide OrderOk, QtyAt, CostAt, DoneAt, FirstFill, Input.Commission, Input.Spend, Input.VolumeCap, AttemptQty;
  }

  lemma {:induction false} AttemptPhase(inp: Input, st: State, j: nat)
    requires inp.Valid() && 0 < j < inp.Length() && BookInv(inp, st, j)
    requires st.pos.Some? && !st.pos.value.complete
    ensures MidInv(inp, Fills(inp, st, j), j)
  {
    var p := st.pos.value;
    OnlyAttempts(inp, st, j);
    TradesStayOk(inp, st.trades, j);
    AttemptFollowsBook(inp, p, j);
    AttemptKeepsHeld(inp, p, j);
    AttemptShape(inp, p, j);
    NotDoneBefore(inp, p, j);
    hide Fills, Attempt, FillsOk, HeldOk, TradesOk, DoneAt, Input.Commission;
  }

  /** An exit signal counts only once its order is done. */
  lemma {:induction false} NotDoneBefore(inp: Input, p: Pos, j: nat)
    requires inp.Valid() && 0 < j < inp.Length() && FillsOk(inp, p, j - 1) && !p.complete
    requires NoExitSignalBefore(inp, p.targetQty, p.orderBar, j - 1)
    ensures NoExitSignalBefore(inp, p.targetQty, p.orderBar, j)
  {
    assert !DoneAt(inp, p.targetQty, p.orderBar, j - 1);
    hide OrderOk, QtyAt, CostAt, DoneAt, FirstFill, Input.Commission;
  }

  lemma {:induction false} AttemptKeepsHeld(inp: Input, p: Pos, j: nat)
    requires inp.Valid() && 0 < j < inp.Length() && FillsOk(inp, p, j - 1) && !p.complete && HeldOk(inp, p, j)
    ensures 0 < Attempt(inp, p, j).orderBar
    ensures Attempt(inp, p, j).started ==> Attempt(inp, p, j).orderBar <= Attempt(inp, p, j).entryBar
    ensures HeldOk(inp, Attempt(inp, p, j), j)
  {
    assert 0 < p.orderBar <= j;
    hide OrderOk, QtyAt, CostAt, DoneAt, FirstFill, Input.Commission, Input.Spend, Input.VolumeCap, AttemptQty, ExcursionsOver, NoExitBefore;
  }

  lemma {:induction false} CarryPhase(inp: Input, st: State, j: nat)
    requires inp.Valid() && 0 < j < inp.Length() && BookInv(inp, st, j)
    requires st.pos.Some? && st.pos.value.complete && !st.pendingExit
    ensures MidInv(inp, Fills(inp, st, j), j)
  {
    TradesStayOk(inp, st.trades, j);
    DoneCarries(inp, st.pos.value, j);
    hide TradesOk, OrderOk, QtyAt, CostAt, DoneAt, FirstFill, Input.Commission;
  }

  /** The opening phases of bar `j`. */
  lemma {:induction false} FillsPhase(inp: Input, j: nat)
    requires inp.Valid() && j < inp.Length() && BookInv(inp, Run(inp, j), j)
    ensures MidInv(inp, Fills(inp, Run(inp, j), j), j)
  {
    var st := Run(inp, j);
    if st.pendingExit {
      SignalExitPhase(inp, st, j);
    } else if st.pendingSignal.Some? {
      EntryPhase(inp, j);
    } else if st.pos.None? {
      TradesStayOk(inp, st.trades, j);
      hide TradesOk;
    } else if st.pos.value.complete {
      CarryPhase(inp, st, j);
    } else {
      AttemptPhase(inp, st, j);
    }
  }

  /** Extremes over `[lo, j - 1]` and the values of bar `j` make the extremes over `[lo, j]`. */
  lemma {:induction false} ExcursionsGrow(inp: Input, target: real, s: nat, lo: nat, j: nat, mfe: real, mae: real)
    requires inp.Valid() && s <= lo < j < inp.Length()
    requires ExcursionsOver(inp, target, s, lo, j - 1, mfe, mae)
    ensures ExcursionsOver(inp, target, s, lo, j, Max(mfe, inp.Bar(j).high - AvgAt(inp, target, s, j)),
                           Min(mae, inp.Bar(j).low - AvgAt(inp, target, s, j)))
  {
    hide AvgAt;
  }

  lemma {:induction false} FirstExcursion(inp: Input, target: real, s: nat, j: nat)
    requires inp.Valid() && s <= j < inp.Length()
    ensures ExcursionsOver(inp, target, s, j, j, inp.Bar(j).high - AvgAt(inp, target, s, j), inp.Bar(j).low - AvgAt(inp, target, s, j))
  {
    hide AvgAt;
  }

  /** The bar's excursions extend those of the earlier bars. */
  lemma {:induction false} ExcursionsExtend(inp: Input, p: Pos, j: nat)
    requires inp.Valid() && 0 < p.orderBar <= p.entryBar <= j < inp.Length() && p.started
    requires FillsOk(inp, p, j) && HeldOk(inp, p, j)
    ensures var q := UpdateExcursions(p, inp.Bar(j));
      ExcursionsOver(inp, p.targetQty, p.orderBar, p.entryBar, j, q.mfe, q.mae)
  {
    var s, target := p.orderBar, p.targetQty;
    assert AvgEntry(p.qty, p.cost) == AvgAt(inp, target, s, j);
    hide FillsOk, AvgAt, AvgEntry, NoExitBefore, ExcursionsOver;
    if p.excursionsInit {
      ExcursionsGrow(inp, target, s, p.entryBar, j, p.mfe, p.mae);
    } else {
      FirstExcursion(inp, target, s, j);
    }
  }

  /** Marking the bar's excursions changes nothing else, and the exit test sees the book's average. */
  lemma {:induction false} BarSeen(inp: Input, p: Pos, j: nat)
    requires inp.Valid() && j < inp.Length() && FillsOk(inp, p, j) && p.started
    ensures var q := UpdateExcursions(p, inp.Bar(j));
      && FillsOk(inp, q, j)
      && q == p.(mfe := q.mfe, mae := q.mae, excursionsInit := true)
      && CheckExit(AvgEntry(q.qty, q.cost), q.stopPct, q.targetPct, inp.Bar(j)) == ExitAt(inp, p.targetQty, p.orderBar, j)
  {
    assert AvgEntry(p.qty, p.cost) == AvgAt(inp, p.targetQty, p.orderBar, j);
    hide OrderOk, QtyAt, CostAt, DoneAt, FirstFill, Input.Commission, CheckExit, AvgEntry;
  }

  lemma {:induction false} HeldThroughBar(inp: Input, st: State, j: nat)
    requires inp.Valid() && j < inp.Length() && MidInv(inp, st, j)
    requires st.pos.Some? && st.pos.value.qty > 0.0
    requires ExitAt(inp, st.pos.value.targetQty, st.pos.value.orderBar, j).None?
    ensures LateInv(inp, IntraBar(inp, st, j), j)
  {
    var p := st.pos.value;
    var q := UpdateExcursions(p, inp.Bar(j));
    assert IntraBar(inp, st, j) == st.(pos := Some(q)) by {
      hide ExitAt, UpdateExcursions, CheckExit, FillsOk, HeldOk, TradesOk, NoExitSignalBefore;
      BarSeen(inp, p, j);
    }
    hide UpdateExcursions, FillsOk, ExitAt, TradesOk, NoExitSignalBefore, IntraBar;
    BarSeen(inp, p, j);
    StillHeld(inp, p, j);
    hide HeldOk;
  }

  lemma {:induction false} NoExitYet(inp: Input, p: Pos, j: nat)
    requires inp.Valid() && 0 < p.orderBar <= p.entryBar <= j < inp.Length() && p.started && HeldOk(inp, p, j)
    ensures NoExitBefore(inp, p.targetQty, p.orderBar, p.entryBar, j)
  {
    hide ExcursionsOver, ExitAt;
  }

  lemma {:induction false} NoExitThrough(inp: Input, target: real, s: nat, lo: nat, j: nat)
    requires inp.Valid() && 0 < s <= lo <= j < inp.Length()
    requires NoExitBefore(inp, target, s, lo, j) && ExitAt(inp, target, s, j).None?
    ensures NoExitBefore(inp, target, s, lo, j + 1)
  {
    hide ExitAt;
  }

  lemma {:induction false} StillHeld(inp: Input, p: Pos, j: nat)
    requires inp.Valid() && j < inp.Length() && p.started && FillsOk(inp, p, j) && HeldOk(inp, p, j)
    requires ExitAt(inp, p.targetQty, p.orderBar, j).None?
    ensures HeldOk(inp, UpdateExcursions(p, inp.Bar(j)), j + 1)
  {
    var q := UpdateExcursions(p, inp.Bar(j));
    assert q.excursionsInit && q.started && p.orderBar <= p.entryBar <= j && q == p.(mfe := q.mfe, mae := q.mae, excursionsInit := true);
    hide UpdateExcursions, FillsOk, ExcursionsOver, ExitAt, NoExitBefore;
    ExcursionsExtend(inp, p, j);
    NoExitYet(inp, p, j);
    NoExitThrough(inp, p.targetQty, p.orderBar, p.entryBar, j);
  }

  lemma {:induction false} StopExitOk(inp: Input, st: State, q: Pos, j: nat)
    requires inp.Valid() && 0 < q.orderBar <= q.entryBar <= j < inp.Length()
    requires ExitAt(inp, q.targetQty, q.orderBar, j).Some?
    requires NoExitSignalBefore(inp, q.targetQty, q.orderBar, j)
    requires ExcursionsOver(inp, q.targetQty, q.orderBar, q.entryBar, j, q.mfe, q.mae)
    ensures var exit := ExitAt(inp, q.targetQty, q.orderBar, j).value;
      exit.1 in {STOP, TARGET} && ExitOk(inp, Closing(inp, st, q, inp.SellPrice(exit.0), exit.1, j), q.targetQty)
  {
    var exit := ExitAt(inp, q.targetQty, q.orderBar, j).value;
    assert exit.1 in {STOP, TARGET};
    hide ExitAt, ExcursionsOver, NoExitSignalBefore, Worth, Input.Commission, Input.SellPrice, AvgEntry;
  }

  lemma {:induction false} StopTradeOk(inp: Input, st: State, p: Pos, j: nat)
    requires inp.Valid() && j < inp.Length() && p.started && FillsOk(inp, p, j) && HeldOk(inp, p, j)
    requires NoExitSignalBefore(inp, p.targetQty, p.orderBar, j)
    requires ExitAt(inp, p.targetQty, p.orderBar, j).Some?
    ensures var exit := ExitAt(inp, p.targetQty, p.orderBar, j).value;
      TradeOk(inp, Closing(inp, st, UpdateExcursions(p, inp.Bar(j)), inp.SellPrice(exit.0), exit.1, j))
  {
    var q := UpdateExcursions(p, inp.Bar(j));
    var exit := ExitAt(inp, p.targetQty, p.orderBar, j).value;
    hide UpdateExcursions, ExcursionsOver, ExitAt, NoExitSignalBefore, CheckExit, AvgEntry, OrderOk, QtyAt, CostAt,
      DoneAt, FirstFill, Worth, Input.Commission, Input.SellPrice, ExitOk, TradeOk, ClosePosition, NoExitBefore, HeldOk, Closing;
    ExcursionsExtend(inp, p, j);
    BarSeen(inp, p, j);
    StopExitOk(inp, st, q, j);
    NoExitYet(inp, p, j);
    CloseIsSound(inp, st, q, inp.SellPrice(exit.0), exit.1, j);
  }

  lemma {:induction false} StoppedInBar(inp: Input, st: State, j: nat)
    requires inp.Valid() && j < inp.Length() && MidInv(inp, st, j)
    requires st.pos.Some? && st.pos.value.qty > 0.0
    requires ExitAt(inp, st.pos.value.targetQty, st.pos.value.orderBar, j).Some?
    ensures LateInv(inp, IntraBar(inp, st, j), j)
  {
    var p := st.pos.value;
    var q := UpdateExcursions(p, inp.Bar(j));
    var exit := ExitAt(inp, p.targetQty, p.orderBar, j).value;
    assert IntraBar(inp, st, j) == ClosePosition(inp, st, q, inp.SellPrice(exit.0), exit.1, j) by {
      hide ExitAt, ClosePosition, UpdateExcursions, CheckExit, FillsOk, HeldOk, TradesOk, NoExitSignalBefore;
      BarSeen(inp, p, j);
    }
    hide *;
    StopTradeOk(inp, st, p, j);
    FlatAfterClose(inp, st, q, inp.SellPrice(exit.0), exit.1, j);
  }

  lemma {:induction false} IntraBarPhase(inp: Input, st: State, j: nat)
    requires inp.Valid() && j < inp.Length() && MidInv(inp, st, j)
    ensures LateInv(inp, IntraBar(inp, st, j), j)
  {
    if st.pos.Some? && st.pos.value.qty > 0.0 {
      if ExitAt(inp, st.pos.value.targetQty, st.pos.value.orderBar, j).None? {
        HeldThroughBar(inp, st, j);
      } else {
        StoppedInBar(inp, st, j);
      }
    } else {
      hide TradesOk, OrderOk;
    }
  }

  lemma {:induction false} ForceClosePhase(inp: Input, st: State, j: nat)
    requires inp.Valid() && j < inp.Length() && LateInv(inp, st, j)
    ensures EndInv(inp, ForceClose(inp, st, j), j)
  {
    if j + 1 == inp.Length() && st.pos.Some? && st.pos.value.qty > 0.0 {
      ForcedSale(inp, st, j);
    } else {
      hide TradesOk, OrderOk;
    }
  }

  lemma {:induction false} ForcedSale(inp: Input, st: State, j: nat)
    requires inp.Valid() && j + 1 == inp.Length() && LateInv(inp, st, j)
    requires st.pos.Some? && st.pos.value.qty > 0.0
    ensures EndInv(inp, ForceClose(inp, st, j), j)
  {
    var p := st.pos.value;
    var sale := inp.SellPrice(inp.Bar(j).close);
    var q, st' := p, st;
    if !p.complete && p.entryCommission == 0.0 {
      q := p.(entryCommission := inp.Commission(p.qty), complete := true);
      st' := st.(cash := st.cash - inp.Commission(p.qty));
    }
    assert ForceClose(inp, st, j) == ClosePosition(inp, st', q, sale, FORCE_CLOSE, j);
    assert SharesOk(inp, q, j) by {
      hide OrderOk, QtyAt, CostAt, DoneAt, FirstFill, Input.Commission;
    }
    var t := Closing(inp, st', q, sale, FORCE_CLOSE, j);
    assert ExitOk(inp, t, q.targetQty) by {
      hide SharesOk, TradesOk, Input.Commission, Worth, ExcursionsOver, NoExitSignalBefore, CheckExit;
    }
    CloseIsSound(inp, st', q, sale, FORCE_CLOSE, j);
    FlatAfterClose(inp, st', q, sale, FORCE_CLOSE, j);
  }

  /** Marking and deciding close the bar. */
  lemma {:induction false} DecidePhase(inp: Input, st: State, j: nat)
    requires inp.Valid() && j < inp.Length() && EndInv(inp, st, j)
    ensures BookInv(inp, Decide(inp, Mark(inp, st, j), j), j + 1)
  {
    hide TradesOk, OrderOk, QtyAt, CostAt, DoneAt, FirstFill, HeldOk, NoExitSignalBefore, Worth, Input.Commission, SizeEntry;
  }

  lemma {:induction false} StartKeepsBook(inp: Input)
    requires inp.Valid()
    ensures BookInv(inp, Run(inp, 0), 0)
  {
    hide TradeOk, FillsOk, HeldOk, SizeEntry;
  }

  /** One bar keeps the book. */
  lemma {:induction false} StepKeepsBook(inp: Input, j: nat)
    requires inp.Valid() && j < inp.Length() && BookInv(inp, Run(inp, j), j)
    ensures BookInv(inp, Run(inp, j + 1), j + 1)
  {
    hide BookInv, EndInv, MidInv, LateInv, Fills, IntraBar, ForceClose, Mark, Decide;
    FillsPhase(inp, j);
    var st := Fills(inp, Run(inp, j), j);
    IntraBarPhase(inp, st, j);
    ForceClosePhase(inp, IntraBar(inp, st, j), j);
    DecidePhase(inp, Exits(inp, st, j), j);
  }

  /** Every run keeps the book. */
  lemma {:induction false} RunKeepsBook(inp: Input, j: nat)
    requires inp.Valid() && j <= inp.Length()
    ensures BookInv(inp, Run(inp, j), j)
  {
    hide BookInv, Run;
    if j == 0 {
      StartKeepsBook(inp);
    } else {
      RunKeepsBook(inp, j - 1);
      StepKeepsBook(inp, j - 1);
    }
  }
}
