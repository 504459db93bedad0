/** The fill ledger (`orders/services.py`): idempotent ingest of broker events into order, fill and
    position rows, and the snap of positions to the broker's list. */
module Ledger {
  import opened Prelude
  import opened Positions

  type AccountId = string

  datatype Side = BUY | SELL | BUY_TO_OPEN | SELL_TO_OPEN | BUY_TO_CLOSE | SELL_TO_CLOSE

  datatype Status = PENDING_SUBMIT | SUBMITTED | PARTIAL | FILLED | CANCELLED | REJECTED | NEEDS_RECONCILE

  datatype Kind = New | PartialFill | Fill | Canceled | Rejected | OtherEvent(name: string)

  /** Execution ids are texts; those of the fake broker are built from a client order id and a number
      that is written last, so they are kept as that pair. */
  datatype ExecId = Named(text: string) | Numbered(clientOrderId: string, number: nat)

  datatype FillEvent = FillEvent(
    execId: ExecId, clientOrderId: string, brokerOrderId: string, symbol: string, side: Side,
    kind: Kind, qty: real, price: real, filledQty: real)

  datatype Order = Order(
    account: Option<AccountId>, clientOrderId: string, brokerOrderId: string, symbol: string, side: Side,
    qty: real, status: Status, filledQty: real)

  datatype FillRow = FillRow(account: AccountId, execId: ExecId, order: nat, qty: real, price: real)

  datatype PositionKey = PositionKey(account: AccountId, symbol: string)

  datatype Tables = Tables(orders: seq<Order>, fills: seq<FillRow>, positions: map<PositionKey, Position>)

  datatype Outcome = Ignored | Applied(order: nat, status: Status, fillCreated: bool)

  /** An order whose account was deleted: the position row cannot be created and the transaction fails. */
  datatype IngestError = NoAccount

  // ----- lookups -----

  predicate IsBuy(side: Side) {
    side in {BUY, BUY_TO_OPEN, BUY_TO_CLOSE}
  }

  function Signed(side: Side, qty: real): real {
    if IsBuy(side) then qty else -qty
  }

  /** First row, in table order, with this client order id. */
  function FindByClient(orders: seq<Order>, id: string): (found: Option<nat>)
    ensures found.Some? ==> found.value < |orders| && orders[found.value].clientOrderId == id
    ensures found.Some? ==> forall k :: 0 <= k < found.value ==> orders[k].clientOrderId != id
    ensures found.None? ==> forall k :: 0 <= k < |orders| ==> orders[k].clientOrderId != id
  {
    if orders == [] then None
    else
      var k := |orders| - 1;
      var found := FindByClient(orders[..k], id);
      if found.Some? then found else if orders[k].clientOrderId == id then Some(k) else None
  }

  function FindByBroker(orders: seq<Order>, id: string): (found: Option<nat>)
    ensures found.Some? ==> found.value < |orders| && orders[found.value].brokerOrderId == id
    ensures found.Some? ==> forall k :: 0 <= k < found.value ==> orders[k].brokerOrderId != id
    ensures found.None? ==> forall k :: 0 <= k < |orders| ==> orders[k].brokerOrderId != id
  {
    if orders == [] then None
    else
      var k := |orders| - 1;
      var found := FindByBroker(orders[..k], id);
      if found.Some? then found else if orders[k].brokerOrderId == id then Some(k) else None
  }

  /** By client order id; failing that, by a non-empty broker order id. */
  function Resolve(orders: seq<Order>, e: FillEvent): (found: Option<nat>)
    ensures found.Some? ==> found.value < |orders|
  {
    var byClient := FindByClient(orders, e.clientOrderId);
    if byClient.None? && e.brokerOrderId != "" then FindByBroker(orders, e.brokerOrderId) else byClient
  }

  predicate Seen(fills: seq<FillRow>, account: AccountId, execId: ExecId) {
    exists k :: 0 <= k < |fills| && fills[k].account == account && fills[k].execId == execId
  }

  // ----- ingest -----

  predicate Executes(e: FillEvent) {
    (e.kind == Fill || e.kind == PartialFill) && e.qty > 0.0
  }

  function NextFilled(filled: real, created: bool, e: FillEvent): real {
    var local := if created then filled + e.qty else filled;
    if e.filledQty > 0.0 then Max(local, e.filledQty) else local
  }

  function NextStatus(o: Order, filled: real, kind: Kind): Status {
    if kind == Fill then (if filled >= o.qty then FILLED else PARTIAL)
    else if o.status in {FILLED, CANCELLED, REJECTED} then o.status
    else
      match kind
      case New => SUBMITTED
      case Canceled => CANCELLED
      case Rejected => REJECTED
      case PartialFill => PARTIAL
      case _ => o.status
  }

  function UpdatedOrder(o: Order, created: bool, e: FillEvent): Order {
    var filled := NextFilled(o.filledQty, created, e);
    o.(brokerOrderId := if e.brokerOrderId != "" then e.brokerOrderId else o.brokerOrderId,
       filledQty := filled, status := NextStatus(o, filled, e.kind))
  }

  function PositionOf(positions: map<PositionKey, Position>, key: PositionKey): Position {
    if key in positions then positions[key] else FLAT
  }

  function Apply(positions: map<PositionKey, Position>, key: PositionKey, side: Side, qty: real, price: real): map<PositionKey, Position> {
    positions[key := Move(PositionOf(positions, key), Execution(Signed(side, qty), price))]
  }

  predicate Creates(t: Tables, i: nat, e: FillEvent)
    requires i < |t.orders|
  {
    Executes(e) && t.orders[i].account.Some? && !Seen(t.fills, t.orders[i].account.value, e.execId)
  }

  function IngestAt(t: Tables, i: nat, e: FillEvent): Tables
    requires i < |t.orders|
  {
    var o := t.orders[i];
    var created := Creates(t, i, e);
    Tables(
      t.orders[i := UpdatedOrder(o, created, e)],
      if created then t.fills + [FillRow(o.account.value, e.execId, i, e.qty, e.price)] else t.fills,
      if created then Apply(t.positions, PositionKey(o.account.value, o.symbol), o.side, e.qty, e.price) else t.positions)
  }

  predicate Fails(t: Tables, e: FillEvent) {
    var found := Resolve(t.orders, e);
    found.Some? && Executes(e) && t.orders[found.value].account.None?
  }

  /** The tables after one event; a failed ingest is rolled back. */
  function Ingest(t: Tables, e: FillEvent): (after: Tables)
    ensures |after.orders| == |t.orders|
  {
    var found := Resolve(t.orders, e);
    if found.None? || Fails(t, e) then t else IngestAt(t, found.value, e)
  }

  function IngestAll(t: Tables, es: seq<FillEvent>): (after: Tables)
    ensures |after.orders| == |t.orders|
  {
    if es == [] then t else Ingest(IngestAll(t, es[..|es| - 1]), es[|es| - 1])
  }

  lemma {:induction false} IngestAllSnoc(t: Tables, es: seq<FillEvent>, e: FillEvent)
    ensures IngestAll(t, es + [e]) == Ingest(IngestAll(t, es), e)
  {
    assert (es + [e])[..|es|] == es;
  }

  // ----- what no event changes -----

  /** The columns of an order row that ingest never writes. */
  ghost predicate SameColumns(a: Order, b: Order) {
    && a.account == b.account && a.clientOrderId == b.clientOrderId && a.symbol == b.symbol
    && a.side == b.side && a.qty == b.qty
  }

  ghost predicate SameOrders(a: seq<Order>, b: seq<Order>) {
    |a| == |b| && forall k :: 0 <= k < |a| ==> SameColumns(a[k], b[k])
  }

  lemma {:induction false} FindByClientSame(a: seq<Order>, b: seq<Order>, id: string)
    requires SameOrders(a, b)
    ensures FindByClient(a, id) == FindByClient(b, id)
  {
    var x, y := FindByClient(a, id), FindByClient(b, id);
    assert x.Some? ==> SameColumns(a[x.value], b[x.value]);
    assert y.Some? ==> SameColumns(a[y.value], b[y.value]);
  }

  lemma {:induction false} IngestKeepsColumns(t: Tables, es: seq<FillEvent>)
    ensures SameOrders(t.orders, IngestAll(t, es).orders)
  {
    if es != [] {
      IngestKeepsColumns(t, es[..|es| - 1]);
      hide NextStatus, NextFilled, Apply, Seen;
    }
  }

  // ----- the ledger invariant -----

  ghost predicate KeysUnique(fills: seq<FillRow>) {
    forall j, k :: 0 <= j < k < |fills| ==> !(fills[j].account == fills[k].account && fills[j].execId == fills[k].execId)
  }

  ghost predicate RowsGenuine(orders: seq<Order>, fills: seq<FillRow>) {
    forall k :: 0 <= k < |fills| ==>
      && fills[k].order < |orders| && fills[k].qty > 0.0 && orders[fills[k].order].account == Some(fills[k].account)
  }

  predicate RowMoves(orders: seq<Order>, row: FillRow, key: PositionKey) {
    row.order < |orders| && row.account == key.account && orders[row.order].symbol == key.symbol
  }

  function RowExecution(orders: seq<Order>, row: FillRow): Execution
    requires row.order < |orders|
  {
    Execution(Signed(orders[row.order].side, row.qty), row.price)
  }

  /** The executions recorded for one position, in the order the rows were inserted. */
  function History(orders: seq<Order>, fills: seq<FillRow>, key: PositionKey): seq<Execution> {
    if fills == [] then []
    else
      var k := |fills| - 1;
      History(orders, fills[..k], key)
        + if RowMoves(orders, fills[k], key) then [RowExecution(orders, fills[k])] else []
  }

  /** Every position row is exactly what its recorded executions make of a flat position, and there is a
      row only if there is one of them. */
  ghost predicate PositionsFollow(t: Tables) {
    forall key ::
      && (key in t.positions ==> t.positions[key] == MoveAll(FLAT, History(t.orders, t.fills, key)))
      && (key !in t.positions ==> History(t.orders, t.fills, key) == [])
  }

  ghost predicate LedgerInv(t: Tables) {
    && KeysUnique(t.fills)
    && RowsGenuine(t.orders, t.fills)
    && PositionsFollow(t)
  }

  lemma {:induction false} HistorySame(a: seq<Order>, b: seq<Order>, fills: seq<FillRow>, key: PositionKey)
    requires SameOrders(a, b)
    ensures History(a, fills, key) == History(b, fills, key)
  {
    if fills != [] {
      HistorySame(a, b, fills[..|fills| - 1], key);
      var row := fills[|fills| - 1];
      assert row.order < |a| ==> SameColumns(a[row.order], b[row.order]);
    }
  }

  lemma {:induction false} HistorySnoc(orders: seq<Order>, fills: seq<FillRow>, row: FillRow, key: PositionKey)
    ensures History(orders, fills + [row], key)
         == History(orders, fills, key) + if RowMoves(orders, row, key) then [RowExecution(orders, row)] else []
  {
    assert (fills + [row])[..|fills|] == fills;
  }

  /** Each (account, execution id) is recorded once and moves its position exactly once, whatever is
      delivered how often. */
  lemma {:induction false} IngestKeepsInv(t: Tables, e: FillEvent)
    requires LedgerInv(t)
    ensures LedgerInv(Ingest(t, e))
  {
    var found := Resolve(t.orders, e);
    if found.Some? && !Fails(t, e) {
      var i := found.value;
      var after := IngestAt(t, i, e);
      hide NextStatus, NextFilled;
      assert SameOrders(t.orders, after.orders);
      IngestRows(t, i, e);
      forall key
        ensures key in after.positions ==> after.positions[key] == MoveAll(FLAT, History(after.orders, after.fills, key))
        ensures key !in after.positions ==> History(after.orders, after.fills, key) == []
      {
        HistorySame(t.orders, after.orders, after.fills, key);
        if Creates(t, i, e) {
          IngestMoves(t, i, e, key);
        }
      }
    }
  }

  lemma {:induction false} IngestRows(t: Tables, i: nat, e: FillEvent)
    requires i < |t.orders| && KeysUnique(t.fills) && RowsGenuine(t.orders, t.fills)
    ensures KeysUnique(IngestAt(t, i, e).fills) && RowsGenuine(IngestAt(t, i, e).orders, IngestAt(t, i, e).fills)
  {
    hide NextStatus, NextFilled, Apply;
  }

  lemma {:induction false} IngestMoves(t: Tables, i: nat, e: FillEvent, key: PositionKey)
    requires i < |t.orders| && Creates(t, i, e) && PositionsFollow(t)
    ensures var after := IngestAt(t, i, e);
      if key in after.positions then after.positions[key] == MoveAll(FLAT, History(t.orders, after.fills, key))
      else History(t.orders, after.fills, key) == []
  {
    var o := t.orders[i];
    var row := FillRow(o.account.value, e.execId, i, e.qty, e.price);
    var moved := PositionKey(o.account.value, o.symbol);
    HistorySnoc(t.orders, t.fills, row, key);
    assert PositionOf(t.positions, moved) == MoveAll(FLAT, History(t.orders, t.fills, moved));
    MoveAllSnoc(FLAT, History(t.orders, t.fills, moved), RowExecution(t.orders, row));
    assert RowMoves(t.orders, row, key) <==> key == moved;
    var h, after := History(t.orders, t.fills, key), IngestAt(t, i, e);
    assert h + [] == h;
    assert after.fills == t.fills + [row];
    assert after.positions == t.positions[moved := Move(PositionOf(t.positions, moved), RowExecution(t.orders, row))];
    hide IngestAt, Move, MoveAll, History, NextStatus, NextFilled, Seen;
  }

  lemma {:induction false} IngestAllKeepsInv(t: Tables, es: seq<FillEvent>)
    requires LedgerInv(t)
    ensures LedgerInv(IngestAll(t, es))
  {
    if es != [] {
      IngestAllKeepsInv(t, es[..|es| - 1]);
      IngestKeepsInv(IngestAll(t, es[..|es| - 1]), es[|es| - 1]);
      hide LedgerInv, Ingest;
    }
  }

  lemma {:induction false} HistoryGenuine(orders: seq<Order>, fills: seq<FillRow>, key: PositionKey)
    requires RowsGenuine(orders, fills)
    ensures Genuine(History(orders, fills, key))
  {
    if fills != [] {
      HistoryGenuine(orders, fills[..|fills| - 1], key);
    }
  }

  /** So every position the ledger shows after any deliveries accounts for all its money, and its average
      cost lies among its opening prices. */
  lemma {:induction false} LedgerPositionsAccount(t: Tables, es: seq<FillEvent>, key: PositionKey, mark: real)
    requires LedgerInv(t)
    ensures var after := IngestAll(t, es);
      var xs := History(after.orders, after.fills, key);
      key in after.positions ==>
        var p := after.positions[key];
        && RealisedAll(FLAT, xs) + Worth(p.qty, mark - p.avgCost) == Gain(xs, mark)
        && (if p.qty != 0.0 then Among(p.avgCost, OpeningPrices(xs)) else p.avgCost == 0.0)
  {
    hide *;
    var after := IngestAll(t, es);
    var xs := History(after.orders, after.fills, key);
    IngestAllKeepsInv(t, es);
    FollowedPosition(after, key);
    RealisedPlusUnrealised(xs, mark);
    AverageCostAmongOpeningPrices(xs);
  }

  lemma {:induction false} FollowedPosition(t: Tables, key: PositionKey)
    requires LedgerInv(t)
    ensures Genuine(History(t.orders, t.fills, key))
    ensures key in t.positions ==> t.positions[key] == MoveAll(FLAT, History(t.orders, t.fills, key))
  {
    HistoryGenuine(t.orders, t.fills, key);
  }
}
