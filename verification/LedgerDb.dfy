/** The ledger as the service mutates it (`orders/services.py`): rows updated step by step, each method
    tied to the functions of module `Ledger`. Besides ingest it holds the reconcile pass that snaps
    positions to what the broker reports, loop by loop as the source runs it: first the reported
    symbols, then the held symbols that the broker no longer reports. */
module LedgerDb {
  import opened Prelude
  import opened Positions
  import opened Ledger

  // ----- the snap to the broker's list -----

  /** One row against the broker's position for its symbol; a row that agrees keeps its mark. */
  function Snap(p: Position, broker: Option<Position>): Position {
    match broker
    case Some(b) => if p.qty != b.qty || p.avgCost != b.avgCost then b else p
    case None => if p.qty != 0.0 then p.(qty := 0.0, avgCost := 0.0) else p
  }

  predicate Drifts(p: Position, broker: Option<Position>) {
    match broker
    case Some(b) => p.qty != b.qty || p.avgCost != b.avgCost
    case None => p.qty != 0.0
  }

  function BrokerAt(broker: map<string, Position>, symbol: string): Option<Position> {
    if symbol in broker then Some(broker[symbol]) else None
  }

  /** The rows a snap looks at: those of the account, and one for every symbol the broker reports. */
  function Touched(positions: map<PositionKey, Position>, account: AccountId, broker: map<string, Position>): (keys: set<PositionKey>)
    ensures forall key: PositionKey :: key in keys <==> key.account == account && (key in positions || key.symbol in broker)
  {
    (set key | key in positions && key.account == account) + (set symbol | symbol in broker :: PositionKey(account, symbol))
  }

  function Snapped(positions: map<PositionKey, Position>, account: AccountId, broker: map<string, Position>): map<PositionKey, Position> {
    map key | key in positions.Keys + Touched(positions, account, broker) ::
      if key.account == account then Snap(PositionOf(positions, key), BrokerAt(broker, key.symbol)) else positions[key]
  }

  function Changes(positions: map<PositionKey, Position>, account: AccountId, broker: map<string, Position>): set<PositionKey> {
    Drifting(positions, broker, Touched(positions, account, broker))
  }

  function Drifting(positions: map<PositionKey, Position>, broker: map<string, Position>, keys: set<PositionKey>): set<PositionKey> {
    set key | key in keys && Drifts(PositionOf(positions, key), BrokerAt(broker, key.symbol))
  }

  /** After a snap every row of the account has the broker's quantity and cost, a row the broker does not
      report is flat, other accounts are as they were, and a second snap finds nothing to change. */
  lemma {:induction false} SnapConverges(positions: map<PositionKey, Position>, account: AccountId, broker: map<string, Position>)
    ensures var after := Snapped(positions, account, broker);
      && (forall symbol :: symbol in broker ==>
            PositionKey(account, symbol) in after
            && after[PositionKey(account, symbol)].qty == broker[symbol].qty
            && after[PositionKey(account, symbol)].avgCost == broker[symbol].avgCost)
      && (forall key :: key in after && key.account == account && key.symbol !in broker ==> after[key].qty == 0.0)
      && (forall key: PositionKey :: key.account != account ==> (key in after <==> key in positions) && (key in positions ==> after[key] == positions[key]))
      && Changes(after, account, broker) == {}
      && Snapped(after, account, broker) == after
  {
    var after := Snapped(positions, account, broker);
    hide Touched;
    assert after.Keys + Touched(after, account, broker) == after.Keys;
  }

  // ----- the service -----

  function OutcomeOf(t: Tables, e: FillEvent): Result<Outcome, IngestError> {
    var found := Resolve(t.orders, e);
    if found.None? then Ok(Ignored)
    else if Fails(t, e) then Err(NoAccount)
    else Ok(Applied(found.value, IngestAt(t, found.value, e).orders[found.value].status, Creates(t, found.value, e)))
  }

  /** An order row whose id and count have been written, once its status follows. */
  lemma {:induction false} Updated(o: Order, created: bool, e: FillEvent, counted: Order)
    requires SameColumns(o, counted) && counted.filledQty == NextFilled(o.filledQty, created, e) && counted.status == o.status
    requires counted.brokerOrderId == if e.brokerOrderId != "" then e.brokerOrderId else o.brokerOrderId
    ensures counted.(status := NextStatus(counted, counted.filledQty, e.kind)) == UpdatedOrder(o, created, e)
  {
    hide NextFilled;
  }

  class OrderService {
    var orders: seq<Order>
    var fills: seq<FillRow>
    var positions: map<PositionKey, Position>

    constructor (rows: seq<Order>)
      ensures State() == Tables(rows, [], map[])
    {
      orders, fills, positions := rows, [], map[];
    }

    ghost function State(): Tables
      reads this
    {
      Tables(orders, fills, positions)
    }

    method ApplyFillToPosition(key: PositionKey, side: Side, qty: real, price: real)
      requires qty > 0.0
      modifies this`positions
      ensures positions == Apply(old(positions), key, side, qty, price)
    {
      if key !in positions {
        positions := positions[key := FLAT];
      }
      var pos := positions[key];
      var signed := if IsBuy(side) then qty else -qty;
      var newQty := pos.qty + signed;
      var avgCost := pos.avgCost;
      if pos.qty == 0.0 || newQty == 0.0 {
        avgCost := if newQty != 0.0 then price else 0.0;
      } else if (pos.qty > 0.0) == (signed > 0.0) {
        avgCost := WeightedAverage(pos.avgCost, Abs(pos.qty), price, qty, Abs(newQty));
      } else if (pos.qty > 0.0) != (newQty > 0.0) {
        avgCost := price;
      }
      positions := positions[key := Position(newQty, avgCost, Some(price))];
    }

    method ResolveStatus(order: Order, kind: Kind) returns (status: Status)
      ensures status == NextStatus(order, order.filledQty, kind)
    {
      status := order.status;
      if kind == Fill {
        status := if order.filledQty >= order.qty then FILLED else PARTIAL;
      } else if status != FILLED && status != CANCELLED && status != REJECTED {
        match kind {
          case New => status := SUBMITTED;
          case Canceled => status := CANCELLED;
          case Rejected => status := REJECTED;
          case PartialFill => status := PARTIAL;
          case _ =>
        }
      }
    }

    method IngestFillEvent(e: FillEvent) returns (outcome: Result<Outcome, IngestError>)
      modifies this
      ensures State() == Ingest(old(State()), e)
      ensures outcome == OutcomeOf(old(State()), e)
    {
      hide FindByClient, FindByBroker, Seen, Apply, NextStatus;
      var found := FindByClient(orders, e.clientOrderId);
      if found.None? && e.brokerOrderId != "" {
        found := FindByBroker(orders, e.brokerOrderId);
      }
      if found.None? {
        return Ok(Ignored);
      }
      var i := found.value;
      var order := orders[i];
      if e.brokerOrderId != "" && order.brokerOrderId != e.brokerOrderId {
        order := order.(brokerOrderId := e.brokerOrderId);
      }
      var created := false;
      if (e.kind == Fill || e.kind == PartialFill) && e.qty > 0.0 {
        if order.account.None? {
          return Err(NoAccount);
        }
        if !Seen(fills, order.account.value, e.execId) {
          fills := fills + [FillRow(order.account.value, e.execId, i, e.qty, e.price)];
          ApplyFillToPosition(PositionKey(order.account.value, order.symbol), order.side, e.qty, e.price);
          order := order.(filledQty := order.filledQty + e.qty);
          created := true;
        }
      }
      if e.filledQty > 0.0 {
        order := order.(filledQty := Max(order.filledQty, e.filledQty));
      }
      assert created == Creates(old(State()), i, e);
      hide Creates;
      Updated(old(orders)[i], created, e, order);
      var status := ResolveStatus(order, e.kind);
      order := order.(status := status);
      hide NextStatus, NextFilled, UpdatedOrder;
      orders := orders[i := order];
      outcome := Ok(Applied(i, order.status, created));
    }

    method ReconcilePositions(account: AccountId, broker: map<string, Position>) returns (changed: nat)
      modifies this`positions
      ensures positions == Snapped(old(positions), account, broker)
      ensures changed == |Changes(old(positions), account, broker)|
    {
      ghost var before := positions;
      ghost var done: set<PositionKey>;
      changed, done := SnapReported(account, broker);
      changed, done := FlattenUnreported(before, account, broker, done, changed);
      PartlyToSnapped(before, positions, account, broker, done);
    }

    /** The rows of the symbols that the broker reports. */
    method SnapReported(account: AccountId, broker: map<string, Position>) returns (changed: nat, ghost done: set<PositionKey>)
      modifies this`positions
      ensures forall key :: key in done <==> key.account == account && key.symbol in broker
      ensures Partly(old(positions), positions, broker, done)
      ensures changed == |Drifting(old(positions), broker, done)|
    {
      ghost var before := positions;
      changed, done := 0, {};
      var todo := broker.Keys;
      while todo != {}
        invariant todo <= broker.Keys
        invariant forall key :: key in done <==> key.account == account && key.symbol in broker.Keys - todo
        invariant Partly(before, positions, broker, done)
        invariant changed == |Drifting(before, broker, done)|
        decreases |todo|
      {
        var symbol :| symbol in todo;
        var key := PositionKey(account, symbol);
        SnapNext(before, positions, broker, done, key);
        DriftNext(before, broker, done, key);
        hide Partly, Drifting;
        var pos := if key in positions then positions[key] else FLAT;
        var b := broker[symbol];
        if pos.qty != b.qty || pos.avgCost != b.avgCost {
          pos := pos.(qty := b.qty, avgCost := b.avgCost, marketPrice := b.marketPrice);
          changed := changed + 1;
        }
        positions := positions[key := pos];
        todo := todo - {symbol};
        done := done + {key};
      }
    }

    /** The account's other rows go flat. */
    method FlattenUnreported(ghost before: map<PositionKey, Position>, account: AccountId, broker: map<string, Position>,
                             ghost reported: set<PositionKey>, already: nat)
      returns (changed: nat, ghost done: set<PositionKey>)
      requires forall key :: key in reported <==> key.account == account && key.symbol in broker
      requires Partly(before, positions, broker, reported) && already == |Drifting(before, broker, reported)|
      modifies this`positions
      ensures done == Touched(before, account, broker)
      ensures Partly(before, positions, broker, done) && changed == |Drifting(before, broker, done)|
    {
      hide Touched;
      ghost var touched := Touched(before, account, broker);
      changed, done := already, reported;
      var rows := set key | key in positions && key.account == account && key.symbol !in broker;
      while rows != {}
        invariant forall key :: key in rows ==> key in positions && key.symbol !in broker
        invariant forall key :: key in touched <==> key in done || key in rows
        invariant forall key :: key in done ==> key !in rows
        invariant Partly(before, positions, broker, done)
        invariant changed == |Drifting(before, broker, done)|
        decreases |rows|
      {
        var key :| key in rows;
        SnapNext(before, positions, broker, done, key);
        DriftNext(before, broker, done, key);
        hide Partly, Drifting;
        var pos := positions[key];
        if pos.qty != 0.0 {
          pos := pos.(qty := 0.0, avgCost := 0.0);
          changed := changed + 1;
        }
        positions := positions[key := pos];
        rows := rows - {key};
        done := done + {key};
      }
    }
  }

  /** Progress of the snap: the rows in `done` are the broker's, the others are as before. */
  ghost predicate Partly(before: map<PositionKey, Position>, now: map<PositionKey, Position>, broker: map<string, Position>,
                         done: set<PositionKey>) {
    && now.Keys == before.Keys + done
    && forall key :: key in now ==>
         now[key] == if key in done then Snap(PositionOf(before, key), BrokerAt(broker, key.symbol)) else PositionOf(before, key)
  }

  lemma {:induction false} SnapNext(before: map<PositionKey, Position>, now: map<PositionKey, Position>, broker: map<string, Position>,
                 done: set<PositionKey>, key: PositionKey)
    requires Partly(before, now, broker, done) && key !in done
    ensures PositionOf(now, key) == PositionOf(before, key)
    ensures Partly(before, now[key := Snap(PositionOf(before, key), BrokerAt(broker, key.symbol))], broker, done + {key})
  {
    hide Snap;
  }

  lemma {:induction false} DriftNext(before: map<PositionKey, Position>, broker: map<string, Position>, done: set<PositionKey>, key: PositionKey)
    requires key !in done
    ensures |Drifting(before, broker, done + {key})|
         == |Drifting(before, broker, done)| + if Drifts(PositionOf(before, key), BrokerAt(broker, key.symbol)) then 1 else 0
  {
    hide Drifts;
    if Drifts(PositionOf(before, key), BrokerAt(broker, key.symbol)) {
      assert Drifting(before, broker, done + {key}) == Drifting(before, broker, done) + {key};
    } else {
      assert Drifting(before, broker, done + {key}) == Drifting(before, broker, done);
    }
  }

  lemma {:induction false} PartlyToSnapped(before: map<PositionKey, Position>, now: map<PositionKey, Position>, account: AccountId,
                        broker: map<string, Position>, done: set<PositionKey>)
    requires Partly(before, now, broker, done) && done == Touched(before, account, broker)
    ensures now == Snapped(before, account, broker)
  {
    hide Snap, Touched;
  }
}
