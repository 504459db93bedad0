/** What a replay run means, stated without the machine: an order placed at bar `s` for `target`
    shares fills greedily over five bars; its trade ends at the first bar that triggers an exit.
    `TradeOk` says it of a finished trade, `BookInv` of the run so far. */
module ReplayBook {
  import opened Prelude
  import opened Sizing
  import opened Replay

  // ----- the reference order book of one order -----

  /** Shares and money after `k` attempts of an order whose first attempt is on bar `s`. */
  function Filled(inp: Input, target: real, s: nat, k: nat): (real, real)
    requires inp.Valid() && s + k <= inp.Length()
  {
    if k == 0 then (0.0, 0.0)
    else
      var (qty, cost) := Filled(inp, target, s, k - 1);
      if k > 1 && target - qty <= DONE_WITHIN then (qty, cost)
      else
        var fill := AttemptQty(target - qty, inp.VolumeCap(s + k - 1));
        (qty + fill, cost + inp.Spend(fill, s + k - 1))
  }

  /** Attempts made by the end of bar `i`. */
  function Attempts(s: nat, i: nat): (k: nat)
    requires s <= i
  {
    if i - s + 1 < MAX_FILL_BARS then i - s + 1 else MAX_FILL_BARS
  }

  function QtyAt(inp: Input, target: real, s: nat, i: nat): real
    requires inp.Valid() && s <= i < inp.Length()
  {
    Filled(inp, target, s, Attempts(s, i)).0
  }

  function CostAt(inp: Input, target: real, s: nat, i: nat): real
    requires inp.Valid() && s <= i < inp.Length()
  {
    Filled(inp, target, s, Attempts(s, i)).1
  }

  function AvgAt(inp: Input, target: real, s: nat, i: nat): real
    requires inp.Valid() && s <= i < inp.Length()
  {
    AvgEntry(QtyAt(inp, target, s, i), CostAt(inp, target, s, i))
  }

  /** The order is finished: filled but for a crumb, or out of attempts. */
  predicate DoneAt(inp: Input, target: real, s: nat, i: nat)
    requires inp.Valid() && s <= i < inp.Length()
  {
    i - s + 1 >= MAX_FILL_BARS || target - QtyAt(inp, target, s, i) <= DONE_WITHIN
  }

  /** Bar `b` is the first on which the order held shares. */
  predicate FirstFill(inp: Input, target: real, s: nat, b: nat)
    requires inp.Valid() && s <= b < inp.Length()
  {
    QtyAt(inp, target, s, b) > 0.0 && (b > s ==> QtyAt(inp, target, s, b - 1) == 0.0)
  }

  function ExitAt(inp: Input, target: real, s: nat, i: nat): Option<(real, Reason)>
    requires inp.Valid() && 0 < s <= i < inp.Length()
  {
    CheckExit(AvgAt(inp, target, s, i), inp.Sig(s - 1).stopPct, inp.Sig(s - 1).targetPct, inp.Bar(i))
  }

  lemma {:induction false} FilledBounds(inp: Input, target: real, s: nat, k: nat)
    requires inp.Valid() && s + k <= inp.Length() && target > 0.0
    ensures 0.0 <= Filled(inp, target, s, k).0 <= target
    ensures Filled(inp, target, s, k).0 == 0.0 || Filled(inp, target, s, k).0 > DUST
    ensures Filled(inp, target, s, k).0 == 0.0 ==> Filled(inp, target, s, k).1 == 0.0
  {
    if k > 0 {
      FilledBounds(inp, target, s, k - 1);
    }
  }

  /** What the order buys on bar `i`. */
  function FillOn(inp: Input, target: real, s: nat, i: nat): real
    requires inp.Valid() && s <= i < inp.Length()
  {
    QtyAt(inp, target, s, i) - (if i == s then 0.0 else QtyAt(inp, target, s, i - 1))
  }

  function SpentOn(inp: Input, target: real, s: nat, i: nat): real
    requires inp.Valid() && s <= i < inp.Length()
  {
    CostAt(inp, target, s, i) - (if i == s then 0.0 else CostAt(inp, target, s, i - 1))
  }

  /** Every fill is at most the bar's volume cap, is paid at that bar's open plus slippage, and comes
      within the first five bars; an unfinished order takes all it can, a finished one nothing. */
  lemma {:induction false} FillsRespectCap(inp: Input, target: real, s: nat, i: nat)
    requires inp.Valid() && s <= i < inp.Length() && target > 0.0
    ensures 0.0 <= FillOn(inp, target, s, i) <= Max(0.0, inp.VolumeCap(i))
    ensures i >= s + MAX_FILL_BARS ==> FillOn(inp, target, s, i) == 0.0
    ensures SpentOn(inp, target, s, i) == inp.Spend(FillOn(inp, target, s, i), i)
    ensures i > s && DoneAt(inp, target, s, i - 1) ==> FillOn(inp, target, s, i) == 0.0
    ensures i > s && !DoneAt(inp, target, s, i - 1) ==>
      FillOn(inp, target, s, i) == AttemptQty(target - QtyAt(inp, target, s, i - 1), inp.VolumeCap(i))
  {
    NoSharesNoMoney(inp, i);
    if i == s {
      assert Filled(inp, target, s, 0) == (0.0, 0.0);
      FilledStep(inp, target, s, 0);
    } else if !DoneAt(inp, target, s, i - 1) {
      FilledStep(inp, target, s, i - s);
      FilledBounds(inp, target, s, i - s);
    } else {
      DoneIsFinal(inp, target, s, i);
    }
    hide Filled, Input.Spend, Input.VolumeCap;
  }

  lemma {:induction false} NoSharesNoMoney(inp: Input, i: nat)
    requires inp.Valid() && i < inp.Length()
    ensures inp.Spend(0.0, i) == 0.0
  {}

  // ----- what holds of an open position and of a finished trade -----

  ghost predicate ExcursionsOver(inp: Input, target: real, s: nat, lo: nat, hi: nat, mfe: real, mae: real)
    requires inp.Valid() && s <= lo <= hi < inp.Length()
  {
    && (forall b :: lo <= b <= hi ==>
          mae <= inp.Bar(b).low - AvgAt(inp, target, s, b) && inp.Bar(b).high - AvgAt(inp, target, s, b) <= mfe)
    && (exists b :: lo <= b <= hi && mfe == inp.Bar(b).high - AvgAt(inp, target, s, b))
    && (exists b :: lo <= b <= hi && mae == inp.Bar(b).low - AvgAt(inp, target, s, b))
  }

  /** No bar of `[lo, hi)` triggered a stop or a target. */
  ghost predicate NoExitBefore(inp: Input, target: real, s: nat, lo: nat, hi: nat)
    requires inp.Valid() && 0 < s <= lo && hi <= inp.Length()
  {
    forall b :: lo <= b < hi ==> ExitAt(inp, target, s, b).None?
  }

  /** No bar of `[s, hi)` closed with an exit signal that the finished order could act on. */
  ghost predicate NoExitSignalBefore(inp: Input, target: real, s: nat, hi: nat)
    requires inp.Valid() && hi <= inp.Length()
  {
    forall b :: s <= b < hi ==> !(DoneAt(inp, target, s, b) && ExitOnly(inp.Sig(b)))
  }

  /** The order of bar `s` follows an entry signal and has the size computed at that signal's close. */
  ghost predicate OrderOk(inp: Input, target: real, s: nat)
    requires inp.Valid()
  {
    && 0 < s < inp.Length()
    && EntryOnly(inp.Sig(s - 1))
    && target > 0.0
    && target == SizeEntry(inp, s - 1, Run(inp, s).cash, inp.Sig(s - 1).stopPct)
  }

  /** Shares, money and first fill of `p` are those of its order at the end of bar `i`. */
  ghost predicate SharesOk(inp: Input, p: Pos, i: nat)
    requires inp.Valid()
  {
    var s, target := p.orderBar, p.targetQty;
    && OrderOk(inp, target, s)
    && s <= i < inp.Length()
    && p.qty == QtyAt(inp, target, s, i) && p.cost == CostAt(inp, target, s, i)
    && p.started == (p.qty > 0.0)
    && (p.started ==> s <= p.entryBar <= i && p.entryBar < s + MAX_FILL_BARS && FirstFill(inp, target, s, p.entryBar))
  }

  ghost predicate FillsOk(inp: Input, p: Pos, i: nat)
    requires inp.Valid()
  {
    var s, target := p.orderBar, p.targetQty;
    && SharesOk(inp, p, i)
    && p.stopPct == inp.Sig(s - 1).stopPct && p.targetPct == inp.Sig(s - 1).targetPct
    && p.complete == DoneAt(inp, target, s, i)
    && (!p.complete ==> p.barsFilling == i - s + 1)
    && (p.complete ==> p.started)
    && (!p.started ==> !p.excursionsInit)
    && p.entryCommission == (if p.complete then inp.Commission(p.qty) else 0.0)
  }

  /** Since the first fill, bars before `hi` triggered no exit and are covered by the excursions. */
  ghost predicate HeldOk(inp: Input, p: Pos, hi: nat)
    requires inp.Valid() && 0 < p.orderBar && (p.started ==> p.orderBar <= p.entryBar) && hi <= inp.Length()
  {
    var s, target := p.orderBar, p.targetQty;
    && (p.excursionsInit == (p.started && p.entryBar < hi))
    && (p.excursionsInit ==>
          && ExcursionsOver(inp, target, s, p.entryBar, hi - 1, p.mfe, p.mae)
          && NoExitBefore(inp, target, s, p.entryBar, hi))
  }

  ghost predicate TradeOk(inp: Input, t: Trade)
    requires inp.Valid()
  {
    var s, target := t.orderBar, t.qty + t.cancelledQty;
    && OrderOk(inp, target, s)
    && s <= t.entryBar <= t.exitBar < inp.Length() && t.entryBar < s + MAX_FILL_BARS
    && FirstFill(inp, target, s, t.entryBar)
    && t.qty == QtyAt(inp, target, s, t.exitBar) && t.entryPrice == AvgAt(inp, target, s, t.exitBar)
    && t.cancelledQty >= 0.0 && t.partial == (t.cancelledQty > DONE_WITHIN)
    && t.barsHeld == t.exitBar - t.entryBar + 1
    && t.exitCommission == inp.Commission(t.qty)
    && t.entryCommission == EntryFee(inp, t.reason, DoneAt(inp, target, s, t.exitBar), t.qty)
    && t.pnl == Worth(t.qty, t.exitPrice) - CostAt(inp, target, s, t.exitBar) - t.entryCommission - t.exitCommission
    && NoExitBefore(inp, target, s, t.entryBar, t.exitBar)
    && ExitOk(inp, t, target)
  }

  ghost predicate ExitOk(inp: Input, t: Trade, target: real)
    requires inp.Valid() && 0 < t.orderBar <= t.entryBar <= t.exitBar < inp.Length()
  {
    var s, j := t.orderBar, t.exitBar;
    match t.reason
    case SIGNAL =>
      && t.entryBar < j && DoneAt(inp, target, s, j - 1) && ExitOnly(inp.Sig(j - 1))
      && NoExitSignalBefore(inp, target, s, j - 1)
      && t.exitPrice == inp.SellPrice(inp.Bar(j).open)
      && ExcursionsOver(inp, target, s, t.entryBar, j - 1, t.mfe, t.mae)
    case FORCE_CLOSE =>
      && j == inp.Length() - 1 && ExitAt(inp, target, s, j).None?
      && NoExitSignalBefore(inp, target, s, j)
      && t.exitPrice == inp.SellPrice(inp.Bar(j).close)
      && ExcursionsOver(inp, target, s, t.entryBar, j, t.mfe, t.mae)
    case _ =>
      && ExitAt(inp, target, s, j).Some? && ExitAt(inp, target, s, j).value.1 == t.reason
      && NoExitSignalBefore(inp, target, s, j)
      && t.exitPrice == inp.SellPrice(ExitAt(inp, target, s, j).value.0)
      && ExcursionsOver(inp, target, s, t.entryBar, j, t.mfe, t.mae)
  }

  function BarsHeldAtCloses(trades: seq<Trade>): int {
    if trades == [] then 0
    else BarsHeldAtCloses(trades[..|trades| - 1]) + (trades[|trades| - 1].barsHeld - 1)
  }

  /** Finished trades are sound, in time order, and over before bar `j`; orders never overlap. */
  ghost predicate TradesOk(inp: Input, trades: seq<Trade>, j: nat)
    requires inp.Valid()
  {
    && (forall k :: 0 <= k < |trades| ==> TradeOk(inp, trades[k]) && trades[k].exitBar < j)
    && (forall k :: 0 < k < |trades| ==> trades[k - 1].exitBar < trades[k].orderBar)
  }

  ghost predicate FreeFrom(trades: seq<Trade>, s: nat) {
    trades != [] ==> trades[|trades| - 1].exitBar < s
  }

  /** After the opening phases of bar `j`. */
  ghost predicate MidInv(inp: Input, st: State, j: nat)
    requires inp.Valid() && j < inp.Length()
  {
    && TradesOk(inp, st.trades, j + 1)
    && st.pendingSignal.None? && !st.pendingExit
    && (st.pos.Some? ==>
          && FillsOk(inp, st.pos.value, j)
          && HeldOk(inp, st.pos.value, j)
          && NoExitSignalBefore(inp, st.pos.value.targetQty, st.pos.value.orderBar, j)
          && FreeFrom(st.trades, st.pos.value.orderBar))
    && st.exposureBars == BarsHeldAtCloses(st.trades) + (if st.pos.Some? && st.pos.value.started then j - st.pos.value.entryBar else 0)
  }

  /** After the stop and target check of bar `j`. */
  ghost predicate LateInv(inp: Input, st: State, j: nat)
    requires inp.Valid() && j < inp.Length()
  {
    && TradesOk(inp, st.trades, j + 1)
    && st.pendingSignal.None? && !st.pendingExit
    && (st.pos.Some? ==>
          && FillsOk(inp, st.pos.value, j)
          && HeldOk(inp, st.pos.value, j + 1)
          && NoExitSignalBefore(inp, st.pos.value.targetQty, st.pos.value.orderBar, j)
          && FreeFrom(st.trades, st.pos.value.orderBar))
    && st.exposureBars == BarsHeldAtCloses(st.trades) + (if st.pos.Some? && st.pos.value.started then j - st.pos.value.entryBar else 0)
  }

  /** After the closing phases of bar `j`. */
  ghost predicate EndInv(inp: Input, st: State, j: nat)
    requires inp.Valid() && j < inp.Length()
  {
    LateInv(inp, st, j) && (j + 1 == inp.Length() && st.pos.Some? ==> !st.pos.value.started)
  }

  /** Between bars: after the first `j` bars. */
  ghost predicate BookInv(inp: Input, st: State, j: nat)
    requires inp.Valid() && j <= inp.Length()
  {
    && TradesOk(inp, st.trades, j)
    && (st.pos.Some? ==>
          && 0 < j && FillsOk(inp, st.pos.value, j - 1)
          && HeldOk(inp, st.pos.value, j)
          && NoExitSignalBefore(inp, st.pos.value.targetQty, st.pos.value.orderBar, j - 1)
          && FreeFrom(st.trades, st.pos.value.orderBar)
          && (j == inp.Length() ==> !st.pos.value.started))
    && (st.pendingExit <==> st.pos.Some? && 0 < j && st.pos.value.complete && ExitOnly(inp.Sig(j - 1)))
    && (st.pendingSignal.Some? ==>
          && st.pos.None? && 0 < j < inp.Length() && st.pendingSignal.value.bar == j - 1
          && st.pendingSignal.value == Pending(j - 1, inp.Sig(j - 1).stopPct, inp.Sig(j - 1).targetPct, st.pendingSignal.value.qty)
          && EntryOnly(inp.Sig(j - 1)) && st.pendingSignal.value.qty > 0.0
          && st.pendingSignal.value.qty == SizeEntry(inp, j - 1, st.cash, inp.Sig(j - 1).stopPct))
    && st.exposureBars == BarsHeldAtCloses(st.trades) + (if st.pos.Some? && st.pos.value.started then j - st.pos.value.entryBar else 0)
  }

  // ----- the machine keeps the book, phase by phase -----

  lemma {:induction false} AddTrade(inp: Input, trades: seq<Trade>, t: Trade, j: nat)
    requires inp.Valid() && TradesOk(inp, trades, j + 1) && FreeFrom(trades, t.orderBar)
    requires TradeOk(inp, t) && t.exitBar == j
    ensures TradesOk(inp, trades + [t], j + 1)
    ensures BarsHeldAtCloses(trades + [t]) == BarsHeldAtCloses(trades) + (j - t.entryBar)
  {
    hide TradeOk;
    TradeHeld(inp, t);
    assert (trades + [t])[..|trades|] == trades;
  }

  lemma {:induction false} TradeHeld(inp: Input, t: Trade)
    requires inp.Valid() && TradeOk(inp, t)
    ensures t.barsHeld == t.exitBar - t.entryBar + 1
  {}

  /** One more attempt of an unfinished order, by the book. */
  lemma {:induction false} FilledStep(inp: Input, target: real, s: nat, k: nat)
    requires inp.Valid() && s + k < inp.Length() && k < MAX_FILL_BARS && target > 0.0
    requires k > 0 ==> target - Filled(inp, target, s, k).0 > DONE_WITHIN
    ensures var fill := AttemptQty(target - Filled(inp, target, s, k).0, inp.VolumeCap(s + k));
      && QtyAt(inp, target, s, s + k) == Filled(inp, target, s, k).0 + fill
      && CostAt(inp, target, s, s + k) == Filled(inp, target, s, k).1 + inp.Spend(fill, s + k)
      && (fill == 0.0 || fill > DUST)
  {
    hide Input.Spend, Input.VolumeCap;
  }

  /** A position still filling, in terms of the book before its next attempt. */
  lemma {:induction false} StillFilling(inp: Input, p: Pos, i: nat)
    requires inp.Valid() && 0 < i < inp.Length()
    requires FillsOk(inp, p, i - 1) && !p.complete
    ensures var s, target := p.orderBar, p.targetQty;
      && s < i < s + MAX_FILL_BARS && target > 0.0 && p.barsFilling == i - s
      && (p.qty, p.cost) == Filled(inp, target, s, i - s) && target - p.qty > DONE_WITHIN && p.qty >= 0.0
  {
    hide Filled, Input.Commission;
    FilledBounds(inp, p.targetQty, p.orderBar, i - p.orderBar);
  }

  /** One attempt buys what the book says. */
  lemma {:induction false} AttemptBuys(inp: Input, p: Pos, i: nat)
    requires inp.Valid() && p.orderBar < i < inp.Length() && i < p.orderBar + MAX_FILL_BARS
    requires p.targetQty > 0.0 && p.barsFilling == i - p.orderBar && p.targetQty - p.qty > DONE_WITHIN
    requires (p.qty, p.cost) == Filled(inp, p.targetQty, p.orderBar, i - p.orderBar)
    ensures var q, s, target := Attempt(inp, p, i), p.orderBar, p.targetQty;
      && q.qty == QtyAt(inp, target, s, i) && q.cost == CostAt(inp, target, s, i)
      && q.complete == DoneAt(inp, target, s, i)
      && p.qty <= q.qty && (q.qty == 0.0 || q.qty > DUST)
  {
    var s, target := p.orderBar, p.targetQty;
    FilledStep(inp, target, s, i - s);
    FilledBounds(inp, target, s, i - s + 1);
    hide Input.Spend, Input.VolumeCap, Filled;
  }

  /** So an attempt keeps a position in step with the book. */
  lemma {:induction false} AttemptShares(inp: Input, p: Pos, i: nat)
    requires inp.Valid() && 0 < i < inp.Length()
    requires FillsOk(inp, p, i - 1) && !p.complete
    ensures SharesOk(inp, Attempt(inp, p, i), i)
    ensures Attempt(inp, p, i).complete == DoneAt(inp, p.targetQty, p.orderBar, i)
    ensures Attempt(inp, p, i).qty > 0.0 ==> Attempt(inp, p, i).qty > DUST
  {
    StillFilling(inp, p, i);
    AttemptBuys(inp, p, i);
    hide OrderOk, Filled, QtyAt, CostAt, DoneAt, Input.Commission, AttemptQty, Input.Spend, Input.VolumeCap;
  }

  lemma {:induction false} AttemptFollowsBook(inp: Input, p: Pos, i: nat)
    requires inp.Valid() && 0 < i < inp.Length()
    requires FillsOk(inp, p, i - 1) && !p.complete
    ensures var q := Attempt(inp, p, i);
      && (q.complete && q.qty > DUST ==> FillsOk(inp, q.(entryCommission := inp.Commission(q.qty)), i))
      && (!q.complete ==> FillsOk(inp, q, i))
      && (q.qty > 0.0 ==> q.qty > DUST)
  {
    AttemptShares(inp, p, i);
    hide OrderOk, Input.Commission, QtyAt, CostAt, FirstFill, Input.Spend, Input.VolumeCap, AttemptQty;
  }

  lemma {:induction false} FirstAttemptFollowsBook(inp: Input, p: Pos, s: nat)
    requires inp.Valid() && s < inp.Length() && OrderOk(inp, p.targetQty, s)
    requires p == Pos(p.targetQty, inp.Sig(s - 1).stopPct, inp.Sig(s - 1).targetPct, 0.0, 0.0, 0, false, false, s, 0.0, 0.0, 0.0, false, s)
    ensures var q := Attempt(inp, p, s);
      && (q.complete && q.qty > DUST ==> FillsOk(inp, q.(entryCommission := inp.Commission(q.qty)), s))
      && (!q.complete ==> FillsOk(inp, q, s))
      && (q.qty > 0.0 ==> q.qty > DUST)
  {
    var q := Attempt(inp, p, s);
    assert Filled(inp, p.targetQty, s, 0) == (0.0, 0.0);
    FilledStep(inp, p.targetQty, s, 0);
    FilledBounds(inp, p.targetQty, s, 1);
    assert q.qty == QtyAt(inp, p.targetQty, s, s) && q.cost == CostAt(inp, p.targetQty, s, s);
    hide OrderOk, Filled, AttemptQty, Input.Spend, Input.VolumeCap, Input.Commission;
  }

  /** A finished order's book no longer changes. */
  lemma {:induction false} DoneIsFinal(inp: Input, target: real, s: nat, i: nat)
    requires inp.Valid() && s < i < inp.Length() && target > 0.0
    requires DoneAt(inp, target, s, i - 1)
    ensures QtyAt(inp, target, s, i) == QtyAt(inp, target, s, i - 1)
    ensures CostAt(inp, target, s, i) == CostAt(inp, target, s, i - 1)
    ensures DoneAt(inp, target, s, i)
  {}

  lemma {:induction false} AvgTimesQty(qty: real, cost: real)
    requires qty > 0.0
    ensures Worth(qty, AvgEntry(qty, cost)) == cost
  {
    DivCancel(cost, qty);
  }

  /** The trade that closing `p` on bar `j` records. */
  function Closing(inp: Input, st: State, p: Pos, price: real, reason: Reason, j: nat): Trade {
    ClosePosition(inp, st, p, price, reason, j).trades[|st.trades|]
  }

  /** The fee a finished trade was charged on entry: none if stopped out before the order was done. */
  function EntryFee(inp: Input, reason: Reason, done: bool, qty: real): real {
    if reason in {STOP, TARGET} && !done then 0.0 else inp.Commission(qty)
  }

  /** Closing a booked position records a sound trade, provided the exit itself is right. */
  lemma {:induction false} CloseIsSound(inp: Input, st: State, p: Pos, price: real, reason: Reason, j: nat)
    requires inp.Valid() && 0 < p.orderBar && p.started && SharesOk(inp, p, j)
    requires p.entryCommission == EntryFee(inp, reason, DoneAt(inp, p.targetQty, p.orderBar, j), p.qty)
    requires NoExitBefore(inp, p.targetQty, p.orderBar, p.entryBar, j)
    requires ExitOk(inp, Closing(inp, st, p, price, reason, j), p.targetQty)
    ensures ClosePosition(inp, st, p, price, reason, j).trades == st.trades + [Closing(inp, st, p, price, reason, j)]
    ensures TradeOk(inp, Closing(inp, st, p, price, reason, j))
  {
    var t := Closing(inp, st, p, price, reason, j);
    AvgTimesQty(p.qty, p.cost);
    FilledBounds(inp, p.targetQty, p.orderBar, Attempts(p.orderBar, j));
    assert t.qty + t.cancelledQty == p.targetQty;
    assert t.entryPrice == AvgAt(inp, p.targetQty, p.orderBar, j);
    hide OrderOk, ExitOk, Worth, Input.Commission, NoExitBefore, QtyAt, CostAt, AvgAt, DoneAt, FirstFill, AvgEntry;
  }
}
