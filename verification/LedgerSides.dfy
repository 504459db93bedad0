/** Which way a fill moves a position (`orders/services.py`), said side by side and without the arithmetic that
    ledger and reference broker share: three sides buy and three sell, a redelivery or a notice moves nothing,
    opening and closing cancel out, and a flatten closes what is held. */
module LedgerSides {
  import opened Prelude
  import opened Positions
  import opened Ledger
  import opened LedgerOrders
  import opened LedgerDb
  import opened FakeBroker
  import opened FakeBrokerAdapter

  /** The quantity as the side moves it: up for the three buying sides, down for the three selling ones. */
  function Moved(side: Side, qty: real): real {
    match side
    case BUY => qty
    case BUY_TO_OPEN => qty
    case BUY_TO_CLOSE => qty
    case SELL => -qty
    case SELL_TO_OPEN => -qty
    case SELL_TO_CLOSE => -qty
  }

  lemma {:induction false} SignedIsMoved(side: Side, qty: real)
    ensures Signed(side, qty) == Moved(side, qty)
  {}

  ghost predicate IsNew(t: Tables, e: FillEvent, account: AccountId) {
    forall k :: 0 <= k < |t.fills| ==> !(t.fills[k].account == account && t.fills[k].execId == e.execId)
  }

  /** An execution that the account has not recorded yet moves the position of its order's symbol by its
      quantity, in the direction of the order's side, and no other position. */
  lemma {:induction false} ExecutionMoves(t: Tables, e: FillEvent, i: nat, key: PositionKey)
    requires Resolve(t.orders, e) == Some(i) && t.orders[i].account.Some?
    requires (e.kind == Fill || e.kind == PartialFill) && e.qty > 0.0 && IsNew(t, e, t.orders[i].account.value)
    ensures var o, after := t.orders[i], Ingest(t, e);
      PositionOf(after.positions, key).qty == PositionOf(t.positions, key).qty
        + if key == PositionKey(o.account.value, o.symbol) then Moved(o.side, e.qty) else 0.0
  {
    assert Creates(t, i, e);
    SignedIsMoved(t.orders[i].side, e.qty);
    hide UpdatedOrder, Resolve, Signed, Moved, WeightedAverage;
  }

  /** A redelivery, a notice or an event of an unknown order moves nothing. */
  lemma {:induction false} OthersMoveNothing(t: Tables, e: FillEvent)
    requires !(e.kind == Fill || e.kind == PartialFill) || e.qty <= 0.0 || Resolve(t.orders, e).None?
          || (var o := t.orders[Resolve(t.orders, e).value]; o.account.None? || !IsNew(t, e, o.account.value))
    ensures Ingest(t, e).positions == t.positions
  {
    hide UpdatedOrder, Resolve, Apply;
  }

  /** Opening a position and closing it with the same quantity leaves it flat, long or short. */
  lemma {:induction false} OpenedAndClosed(p: Position, opening: Side, closing: Side, qty: real, bought: real, sold: real)
    requires p.qty == 0.0 && qty > 0.0
    requires (opening, closing) in {(BUY, SELL), (SELL, BUY), (BUY_TO_OPEN, SELL_TO_CLOSE), (SELL_TO_OPEN, BUY_TO_CLOSE)}
    ensures var held := Move(p, Execution(Signed(opening, qty), bought));
      var closed := Move(held, Execution(Signed(closing, qty), sold));
      held.qty == Moved(opening, qty) && held.avgCost == bought && closed.qty == 0.0 && closed.avgCost == 0.0
  {
    hide WeightedAverage;
  }

  /** The reference broker moves its own book the same way. */
  lemma {:induction false} BookMoves(book: map<string, Position>, symbol: string, side: Side, qty: real, price: real, other: string)
    ensures BookAt(Booked(book, symbol, side, qty, price), other).qty == BookAt(book, other).qty + if other == symbol then Moved(side, qty) else 0.0
  {
    SignedIsMoved(side, qty);
    hide Signed, Moved, WeightedAverage;
  }

  /** The event that flattens a held symbol closes exactly what is held, at its mark or failing that at the
      default price. */
  lemma {:induction false} FlattenCloses(symbol: string, p: Position, number: nat, defaultPrice: real)
    requires p.qty != 0.0
    ensures var e := FlattenEvent(symbol, p, number, defaultPrice);
      && e.execId == Numbered("flatten-" + symbol, number) && e.clientOrderId == "flatten-" + symbol
      && e.brokerOrderId == "fakeord-" + ("flatten-" + symbol)
      && e.symbol == symbol && e.kind == Fill && e.qty > 0.0 && e.filledQty == e.qty
      && p.qty + Moved(e.side, e.qty) == 0.0
      && e.price == (if p.marketPrice.Some? && p.marketPrice.value != 0.0 then p.marketPrice.value else defaultPrice)
  {}

  /** The script is followed in order, and an order that it says nothing about is filled at once and whole, at
      its limit, or else its stop, or else the default price. */
  lemma {:induction false} ScriptedOrNot(script: seq<ScriptStep>, req: OrderRequest, defaultPrice: real)
    ensures NextStep(script) == if script == [] then None else Some(script[0])
    ensures FillsOf(None, req, defaultPrice) == [ScriptedFill(req.qty,
      if req.limitPrice.Some? then req.limitPrice.value else if req.stopPrice.Some? then req.stopPrice.value else defaultPrice)]
  {}
}
