/** The replay loop as the source runs it: local state and one position object updated in place, bar
    by bar, with the equity list filled slot by slot. */
module ReplayEngine {
  import opened Prelude
  import opened Sizing
  import opened Replay
  import opened ReplayBook
  import opened ReplayRun
  import opened ReplayMoney
  import opened ReplayTrades

  class Position {
    var targetQty: real
    var stopPct: Option<real>
    var targetPct: Option<real>
    var qty: real
    var cost: real
    var barsFilling: nat
    var complete: bool
    var started: bool
    var entryBar: nat
    var entryCommission: real
    var mfe: real
    var mae: real
    var excursionsInit: bool
    var orderBar: nat

    ghost function Value(): Pos
      reads this
    {
      Pos(targetQty, stopPct, targetPct, qty, cost, barsFilling, complete, started, entryBar, entryCommission,
          mfe, mae, excursionsInit, orderBar)
    }

    constructor (order: Pending, j: nat)
      ensures Value() == Pos(order.qty, order.stopPct, order.targetPct, 0.0, 0.0, 0, false, false, j, 0.0, 0.0, 0.0, false, j)
    {
      targetQty, stopPct, targetPct := order.qty, order.stopPct, order.targetPct;
      qty, cost, barsFilling, complete, started := 0.0, 0.0, 0, false, false;
      entryBar, entryCommission, mfe, mae, excursionsInit := j, 0.0, 0.0, 0.0, false;
      orderBar := j;
    }

    /** One attempt at the bar's open: fill up to the cap, then decide whether the order is finished. */
    method Attempt(inp: Input, j: nat) returns (spent: real)
      requires inp.Valid() && j < inp.Length() && !complete
      modifies this
      ensures Value() == Replay.Attempt(inp, old(Value()), j)
      ensures spent == cost - old(cost)
    {
      var remaining := targetQty - qty;
      var cap := inp.VolumeCap(j);
      var fill := if cap > 0.0 then Min(remaining, cap) else 0.0;
      spent := 0.0;
      NoSharesNoMoney(inp, j);
      ghost var bought := AttemptQty(targetQty - qty, cap);
      assert bought == (if fill > DUST then fill else 0.0);
      hide Input.Spend, Input.VolumeCap;
      if fill > DUST {
        spent := inp.Spend(fill, j);
        qty := qty + fill;
        cost := cost + spent;
        if !started {
          started, entryBar := true, j;
        }
      }
      barsFilling := barsFilling + 1;
      if targetQty - qty <= DONE_WITHIN {
        complete := true;
      } else if barsFilling >= MAX_FILL_BARS {
        complete := true;
      }
    }

    method UpdateExcursions(high: real, low: real)
      modifies this
      ensures forall bar: Bar :: bar.high == high && bar.low == low ==> Value() == Replay.UpdateExcursions(old(Value()), bar)
    {
      var avg := AvgEntry(qty, cost);
      var fav, adv := high - avg, low - avg;
      if !excursionsInit {
        mfe, mae, excursionsInit := fav, adv, true;
      } else {
        mfe, mae := Max(mfe, fav), Min(mae, adv);
      }
    }
  }

  class Replayer {
    const inp: Input
    const equity: array<real>
    var cash: real
    var pos: Position?
    var pendingSignal: Option<Pending>
    var pendingExit: bool
    var trades: seq<Trade>
    var exposureBars: nat
    ghost var marked: nat

    ghost predicate Valid()
      reads this
    {
      inp.Valid() && equity.Length == inp.Length() && marked <= equity.Length
    }

    ghost function St(): State
      requires Valid()
      reads this, pos, equity
    {
      State(cash, if pos == null then None else Some(pos.Value()), pendingSignal, pendingExit, trades, equity[..marked], exposureBars)
    }

    constructor (inp: Input)
      requires inp.Valid()
      ensures Valid() && this.inp == inp && fresh(equity) && pos == null && marked == 0
      ensures St() == Start(inp)
    {
      this.inp := inp;
      equity := new real[inp.hi - inp.lo];
      cash, pos, pendingSignal, pendingExit := inp.cfg.initialCash, null, None, false;
      trades, exposureBars, marked := [], 0, 0;
    }

    /** `_close`: sell the whole position, book the cash and record the trade. */
    method Close(p: Position, price: real, reason: Reason, j: nat)
      requires Valid() && p == pos
      modifies this
      ensures Valid() && pos == null && marked == old(marked)
      ensures St() == ClosePosition(inp, old(St()), old(p.Value()), price, reason, j)
    {
      var exitCommission := inp.Commission(p.qty);
      var proceeds := Worth(p.qty, price);
      cash := cash + (proceeds - exitCommission);
      var avg := AvgEntry(p.qty, p.cost);
      var pnl := proceeds - Worth(p.qty, avg) - p.entryCommission - exitCommission;
      var held: nat := 1;
      if j + 1 > p.entryBar + 1 {
        held := j + 1 - p.entryBar;
      }
      trades := trades + [Trade(
        p.entryBar, j, avg, price, p.qty, pnl, p.mfe, p.mae, held, reason, p.entryCommission, exitCommission,
        p.targetQty > p.qty + DONE_WITHIN, Max(0.0, p.targetQty - p.qty), p.orderBar)];
      pos := null;
    }

    method ExitAtOpen(j: nat)
      requires Valid() && j < inp.Length()
      modifies this
      ensures Valid() && marked == old(marked) && (pos == old(pos) || pos == null)
      ensures St() == Replay.ExitAtOpen(inp, old(St()), j)
    {
      if pendingExit && pos != null && pos.complete && pos.qty > 0.0 {
        Close(pos, inp.SellPrice(inp.Bar(j).open), SIGNAL, j);
        pendingExit := false;
      }
    }

    method BeginEntry(j: nat)
      requires Valid()
      modifies this
      ensures Valid() && marked == old(marked) && (pos == old(pos) || fresh(pos))
      ensures St() == Replay.BeginEntry(old(St()), j)
    {
      if pendingSignal.Some? && pos == null {
        pos := new Position(pendingSignal.value, j);
        pendingSignal := None;
      }
    }

    method FillAtOpen(j: nat)
      requires Valid() && j < inp.Length()
      modifies this, pos
      ensures Valid() && marked == old(marked) && (pos == old(pos) || pos == null)
      ensures St() == Replay.FillAtOpen(inp, old(St()), j)
    {
      if pos != null && !pos.complete {
        var spent := pos.Attempt(inp, j);
        cash := cash - spent;
        if pos.complete {
          if pos.qty <= DUST {
            pos := null;
          } else {
            pos.entryCommission := inp.Commission(pos.qty);
            cash := cash - pos.entryCommission;
          }
        }
        hide Replay.Attempt, Input.Commission;
      }
    }

    method IntraBar(j: nat)
      requires Valid() && j < inp.Length()
      modifies this, pos
      ensures Valid() && marked == old(marked) && (pos == old(pos) || pos == null)
      ensures St() == Replay.IntraBar(inp, old(St()), j)
    {
      if pos != null && pos.qty > 0.0 {
        var bar := inp.Bar(j);
        pos.UpdateExcursions(bar.high, bar.low);
        assert pos.Value() == Replay.UpdateExcursions(old(pos.Value()), bar);
        var exit := CheckExit(AvgEntry(pos.qty, pos.cost), pos.stopPct, pos.targetPct, bar);
        if exit.Some? {
          Close(pos, inp.SellPrice(exit.value.0), exit.value.1, j);
        }
        hide CheckExit, AvgEntry, Replay.UpdateExcursions, ClosePosition;
      }
    }

    method ForceClose(j: nat)
      requires Valid() && j < inp.Length()
      modifies this, pos
      ensures Valid() && marked == old(marked) && (pos == old(pos) || pos == null)
      ensures St() == Replay.ForceClose(inp, old(St()), j)
    {
      if j == inp.Length() - 1 && pos != null && pos.qty > 0.0 {
        if !pos.complete && pos.entryCommission == 0.0 {
          pos.entryCommission := inp.Commission(pos.qty);
          cash := cash - pos.entryCommission;
          pos.complete := true;
        }
        Close(pos, inp.SellPrice(inp.Bar(j).close), FORCE_CLOSE, j);
      }
    }

    method Mark(j: nat)
      requires Valid() && j < inp.Length() && marked == j
      modifies this, equity
      ensures Valid() && marked == j + 1 && pos == old(pos)
      ensures St() == Replay.Mark(inp, old(St()), j)
    {
      equity[j] := cash + Worth(if pos != null then pos.qty else 0.0, inp.Bar(j).close);
      if pos != null && pos.qty > 0.0 {
        exposureBars := exposureBars + 1;
      }
      marked := j + 1;
      assert equity[..j + 1] == old(equity[..j]) + [equity[j]];
    }

    method SizeEntry(j: nat, stopPct: Option<real>) returns (qty: real)
      requires Valid() && j < inp.Length()
      ensures qty == Replay.SizeEntry(inp, j, cash, stopPct)
    {
      if !inp.cfg.production {
        return 1.0;
      }
      if inp.profile.None? {
        return 0.0;
      }
      var atr := Atr14FromBars(inp.bars, inp.lo + j);
      qty := ProductionSize(inp.profile.value, inp.Bar(j).close, cash, atr, stopPct);
    }

    method Decide(j: nat)
      requires Valid() && j < inp.Length()
      modifies this
      ensures Valid() && marked == old(marked) && pos == old(pos)
      ensures St() == Replay.Decide(inp, old(St()), j)
    {
      var s := inp.Sig(j);
      if s.entry && s.exit {
      } else if s.entry && pos == null && pendingSignal.None? && j + 1 < inp.Length() {
        var qty := SizeEntry(j, s.stopPct);
        if qty > 0.0 {
          pendingSignal := Some(Pending(j, s.stopPct, s.targetPct, qty));
        }
      } else if s.exit && pos != null && pos.complete {
        pendingExit := true;
      }
    }

    method StepBar(j: nat)
      requires Valid() && j < inp.Length() && marked == j
      modifies this, equity, pos
      ensures Valid() && marked == j + 1 && (pos == null || pos == old(pos) || fresh(pos))
      ensures St() == Step(inp, old(St()), j)
    {
      ExitAtOpen(j);
      BeginEntry(j);
      FillAtOpen(j);
      IntraBar(j);
      ForceClose(j);
      Mark(j);
      Decide(j);
      hide Replay.ExitAtOpen, Replay.BeginEntry, Replay.FillAtOpen, Replay.IntraBar, Replay.ForceClose, Replay.Mark, Replay.Decide;
    }
  }

  datatype ReplayResult = ReplayResult(equity: seq<real>, trades: seq<Trade>, exposureBars: nat)

  function ResultOf(inp: Input): ReplayResult
    requires inp.Valid()
  {
    var st := Run(inp, inp.Length());
    ReplayResult(st.equity, st.trades, st.exposureBars)
  }

  /** The replay of one test window. Its result is the machine's, so every law proved of the machine is
      one of the returned curve and trades; the money law is spelled out. */
  method ReplayWindow(inp: Input) returns (r: ReplayResult)
    requires inp.Valid()
    ensures r == ResultOf(inp)
    ensures |r.equity| == inp.Length()
    ensures r.equity != [] ==> r.equity[0] == inp.cfg.initialCash
    ensures r.equity != [] ==> r.equity[|r.equity| - 1] == inp.cfg.initialCash + TotalPnl(r.trades)
    ensures TradesOk(inp, r.trades, inp.Length()) && r.exposureBars == BarsHeldAtCloses(r.trades)
  {
    var engine := new Replayer(inp);
    for j := 0 to inp.Length()
      invariant engine.Valid() && engine.inp == inp && engine.marked == j
      invariant fresh(engine) && fresh(engine.equity) && (engine.pos == null || fresh(engine.pos))
      invariant engine.St() == Run(inp, j)
    {
      engine.StepBar(j);
      hide Step;
    }
    assert engine.equity[..] == engine.equity[..inp.Length()];
    r := ReplayResult(engine.equity[..], engine.trades, engine.exposureBars);
    hide Run, TradesOk;
    RunAppends(inp, 0, inp.Length());
    TradesByTheBook(inp);
    if inp.Length() > 0 {
      StartsAtInitialCash(inp);
      EndsFlat(inp);
    }
  }
}
