/** The backtest replay machine (`backtest/replay_engine.py`): what one bar does to the account, and
    what a whole run therefore is. Bars and signals are indexed inside the test window `[lo, hi)`. */
module Replay {
  import opened Prelude
  import opened Sizing

  const MAX_FILL_BARS := 5
  const DUST := 0.000000000001
  const DONE_WITHIN := 0.000000001

  datatype Config = Config(
    initialCash: real, slippageBps: real, perOrderUsd: real, perShareUsd: real,
    volumeParticipationPct: real, production: bool)

  datatype Signal = Signal(entry: bool, exit: bool, stopPct: Option<real>, targetPct: Option<real>)

  datatype Reason = SIGNAL | STOP | TARGET | FORCE_CLOSE

  datatype Pending = Pending(bar: nat, stopPct: Option<real>, targetPct: Option<real>, qty: real)

  /** `orderBar` is the bar after the signal. The source keeps it in `entry_bar` until the first fill
      overwrites it; the model remembers it to name the order a trade came from. */
  datatype Pos = Pos(
    targetQty: real, stopPct: Option<real>, targetPct: Option<real>, qty: real, cost: real,
    barsFilling: nat, complete: bool, started: bool, entryBar: nat, entryCommission: real,
    mfe: real, mae: real, excursionsInit: bool, orderBar: nat)

  datatype Trade = Trade(
    entryBar: nat, exitBar: nat, entryPrice: real, exitPrice: real, qty: real, pnl: real,
    mfe: real, mae: real, barsHeld: nat, reason: Reason, entryCommission: real,
    exitCommission: real, partial: bool, cancelledQty: real, orderBar: nat)

  datatype State = State(
    cash: real, pos: Option<Pos>, pendingSignal: Option<Pending>, pendingExit: bool,
    trades: seq<Trade>, equity: seq<real>, exposureBars: nat)

  datatype Input = Input(
    bars: seq<Bar>, signals: seq<Signal>, lo: nat, hi: nat, cfg: Config, profile: Option<Profile>)
  {
    ghost predicate Valid() {
      lo <= hi <= |bars| == |signals|
    }

    function Length(): nat
      requires Valid()
    {
      hi - lo
    }

    function Bar(j: nat): Bar
      requires Valid() && j < Length()
    {
      bars[lo + j]
    }

    function Sig(j: nat): Signal
      requires Valid() && j < Length()
    {
      signals[lo + j]
    }

    function Slip(): real {
      cfg.slippageBps / 10000.0
    }

    function BuyPrice(j: nat): real
      requires Valid() && j < Length()
    {
      Bar(j).open * (1.0 + Slip())
    }

    function Spend(qty: real, j: nat): real
      requires Valid() && j < Length()
    {
      qty * BuyPrice(j)
    }

    function SellPrice(price: real): real {
      price * (1.0 - Slip())
    }

    function Commission(qty: real): real {
      cfg.perOrderUsd + cfg.perShareUsd * qty
    }

    function VolumeCap(j: nat): real
      requires Valid() && j < Length()
    {
      cfg.volumeParticipationPct / 100.0 * Bar(j).volume
    }
  }

  // ----- pure helpers of the source -----

  function AvgEntry(qty: real, cost: real): real {
    if qty > 0.0 then cost / qty else 0.0
  }

  /** A missing or zero percentage means no level. */
  function Level(avg: real, pct: Option<real>, direction: real): Option<real> {
    if pct.Some? && pct.value != 0.0 then Some(avg * (1.0 + direction * pct.value)) else None
  }

  /** The exit price before slippage, and why; a bar that hits both levels counts as stopped. */
  function CheckExit(avg: real, stopPct: Option<real>, targetPct: Option<real>, bar: Bar): Option<(real, Reason)> {
    var stop := Level(avg, stopPct, -1.0);
    var target := Level(avg, targetPct, 1.0);
    if stop.Some? && bar.low <= stop.value then Some((Min(bar.open, stop.value), STOP))
    else if target.Some? && bar.high >= target.value then Some((Max(bar.open, target.value), TARGET))
    else None
  }

  function Worth(qty: real, price: real): real {
    qty * price
  }

  /** Production sizing with the regime, sentiment and drawdown inputs neutralised. */
  function ProductionSize(profile: Profile, price: real, cash: real, atr: Option<real>, stopPct: Option<real>): real {
    var stopDistance := if stopPct.Some? && stopPct.value != 0.0 then Some(price * stopPct.value) else None;
    SizedQty(ComputeSize(SizingInputs(0.0, BUY, price, cash, NEUTRAL, 0.0, 0.0, atr, stopDistance, 1.0, 1.0), profile))
  }

  function SizeEntry(inp: Input, j: nat, cash: real, stopPct: Option<real>): real
    requires inp.Valid() && j < inp.Length()
  {
    if !inp.cfg.production then 1.0
    else if inp.profile.None? then 0.0
    else ProductionSize(inp.profile.value, inp.Bar(j).close, cash, Atr14(inp.bars, inp.lo + j), stopPct)
  }

  // ----- one bar, phase by phase -----

  function ClosePosition(inp: Input, st: State, p: Pos, price: real, reason: Reason, j: nat): State {
    var avg := AvgEntry(p.qty, p.cost);
    var exitCommission := inp.Commission(p.qty);
    var proceeds := Worth(p.qty, price);
    var pnl := proceeds - Worth(p.qty, avg) - p.entryCommission - exitCommission;
    var held := if j + 1 > p.entryBar + 1 then j + 1 - p.entryBar else 1;
    var trade := Trade(
      p.entryBar, j, avg, price, p.qty, pnl, p.mfe, p.mae, held, reason, p.entryCommission, exitCommission,
      p.targetQty > p.qty + DONE_WITHIN, Max(0.0, p.targetQty - p.qty), p.orderBar);
    st.(cash := st.cash + (proceeds - exitCommission), trades := st.trades + [trade], pos := None)
  }

  function ExitAtOpen(inp: Input, st: State, j: nat): State
    requires inp.Valid() && j < inp.Length()
  {
    if st.pendingExit && st.pos.Some? && st.pos.value.complete && st.pos.value.qty > 0.0 then
      ClosePosition(inp, st, st.pos.value, inp.SellPrice(inp.Bar(j).open), SIGNAL, j).(pendingExit := false)
    else st
  }

  function BeginEntry(st: State, j: nat): State {
    if st.pendingSignal.Some? && st.pos.None? then
      var s := st.pendingSignal.value;
      st.(pos := Some(Pos(s.qty, s.stopPct, s.targetPct, 0.0, 0.0, 0, false, false, j, 0.0, 0.0, 0.0, false, j)),
          pendingSignal := None)
    else st
  }

  /** What one attempt fills: the remainder, capped by volume; crumbs are skipped. */
  function AttemptQty(remaining: real, cap: real): real {
    var fill := if cap > 0.0 then Min(remaining, cap) else 0.0;
    if fill > DUST then fill else 0.0
  }

  function Attempt(inp: Input, p: Pos, j: nat): Pos
    requires inp.Valid() && j < inp.Length()
  {
    var fill := AttemptQty(p.targetQty - p.qty, inp.VolumeCap(j));
    var qty := p.qty + fill;
    p.(qty := qty,
       cost := p.cost + inp.Spend(fill, j),
       entryBar := if fill > 0.0 && !p.started then j else p.entryBar,
       started := p.started || fill > 0.0,
       barsFilling := p.barsFilling + 1,
       complete := p.targetQty - qty <= DONE_WITHIN || p.barsFilling + 1 >= MAX_FILL_BARS)
  }

  function FillAtOpen(inp: Input, st: State, j: nat): State
    requires inp.Valid() && j < inp.Length()
  {
    if st.pos.None? || st.pos.value.complete then st
    else
      var p := Attempt(inp, st.pos.value, j);
      var paid := st.cash - (p.cost - st.pos.value.cost);
      if !p.complete then st.(pos := Some(p), cash := paid)
      else if p.qty <= DUST then st.(pos := None, cash := paid)
      else st.(pos := Some(p.(entryCommission := inp.Commission(p.qty))), cash := paid - inp.Commission(p.qty))
  }

  function UpdateExcursions(p: Pos, bar: Bar): Pos {
    var avg := AvgEntry(p.qty, p.cost);
    if !p.excursionsInit then p.(mfe := bar.high - avg, mae := bar.low - avg, excursionsInit := true)
    else p.(mfe := Max(p.mfe, bar.high - avg), mae := Min(p.mae, bar.low - avg))
  }

  function IntraBar(inp: Input, st: State, j: nat): State
    requires inp.Valid() && j < inp.Length()
  {
    if st.pos.None? || st.pos.value.qty <= 0.0 then st
    else
      var p := UpdateExcursions(st.pos.value, inp.Bar(j));
      var exit := CheckExit(AvgEntry(p.qty, p.cost), p.stopPct, p.targetPct, inp.Bar(j));
      if exit.None? then st.(pos := Some(p))
      else ClosePosition(inp, st, p, inp.SellPrice(exit.value.0), exit.value.1, j)
  }

  /** On the last bar whatever is held is sold at the close; an order still filling is charged its
      entry commission first. */
  function ForceClose(inp: Input, st: State, j: nat): State
    requires inp.Valid() && j < inp.Length()
  {
    if j + 1 < inp.Length() || st.pos.None? || st.pos.value.qty <= 0.0 then st
    else
      var p := st.pos.value;
      var sale := inp.SellPrice(inp.Bar(j).close);
      if !p.complete && p.entryCommission == 0.0 then
        var fee := inp.Commission(p.qty);
        ClosePosition(inp, st.(cash := st.cash - fee), p.(entryCommission := fee, complete := true), sale, FORCE_CLOSE, j)
      else ClosePosition(inp, st, p, sale, FORCE_CLOSE, j)
  }

  function Held(st: State): real {
    if st.pos.Some? then st.pos.value.qty else 0.0
  }

  function Mark(inp: Input, st: State, j: nat): State
    requires inp.Valid() && j < inp.Length()
  {
    st.(equity := st.equity + [st.cash + Worth(Held(st), inp.Bar(j).close)],
        exposureBars := if Held(st) > 0.0 then st.exposureBars + 1 else st.exposureBars)
  }

  predicate EntryOnly(s: Signal) {
    s.entry && !s.exit
  }

  predicate ExitOnly(s: Signal) {
    s.exit && !s.entry
  }

  function Decide(inp: Input, st: State, j: nat): State
    requires inp.Valid() && j < inp.Length()
  {
    var s := inp.Sig(j);
    if EntryOnly(s) && st.pos.None? && st.pendingSignal.None? && j + 1 < inp.Length() then
      var qty := SizeEntry(inp, j, st.cash, s.stopPct);
      if qty > 0.0 then st.(pendingSignal := Some(Pending(j, s.stopPct, s.targetPct, qty))) else st
    else if ExitOnly(s) && st.pos.Some? && st.pos.value.complete then st.(pendingExit := true)
    else st
  }

  function Fills(inp: Input, st: State, j: nat): State
    requires inp.Valid() && j < inp.Length()
  {
    FillAtOpen(inp, BeginEntry(ExitAtOpen(inp, st, j), j), j)
  }

  function Exits(inp: Input, st: State, j: nat): State
    requires inp.Valid() && j < inp.Length()
  {
    ForceClose(inp, IntraBar(inp, st, j), j)
  }

  function Marked(inp: Input, st: State, j: nat): State
    requires inp.Valid() && j < inp.Length()
  {
    Mark(inp, Exits(inp, Fills(inp, st, j), j), j)
  }

  function Step(inp: Input, st: State, j: nat): State
    requires inp.Valid() && j < inp.Length()
  {
    Decide(inp, Marked(inp, st, j), j)
  }

  function Start(inp: Input): State {
    State(inp.cfg.initialCash, None, None, false, [], [], 0)
  }

  /** The machine after its first `j` bars. */
  function Run(inp: Input, j: nat): State
    requires inp.Valid() && j <= inp.Length()
  {
    if j == 0 then Start(inp) else Step(inp, Run(inp, j - 1), j - 1)
  }
}
