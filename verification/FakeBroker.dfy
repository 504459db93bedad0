/** The scripted reference broker (`brokers/fake.py`), whose own position book is written independently
    of the ledger, and the proof that the ledger simulates it. */
module FakeBroker {
  import opened Prelude
  import opened Positions
  import opened Ledger
  import opened LedgerDb
  import opened LedgerOrders

  datatype ScriptedFill = ScriptedFill(qty: real, price: real)

  datatype ScriptStep = ScriptStep(reject: bool, fills: seq<ScriptedFill>, leaveWorking: bool)

  datatype OrderRequest = OrderRequest(symbol: string, side: Side, qty: real, limitPrice: Option<real>, stopPrice: Option<real>)

  datatype Ack = Ack(clientOrderId: string, brokerOrderId: string, status: Status, symbol: string, qty: real, filledQty: real)

  // ----- the broker's own book -----

  /** One execution on the broker's position for a symbol, if it has one; `qty` is the quantity as scripted,
      `signed` the same with the sign of its side. */
  function BookMove(cur: Option<Position>, signed: real, qty: real, price: real): Position {
    if cur.None? || cur.value.qty == 0.0 then Position(signed, price, Some(price))
    else
      var p := cur.value;
      var after := p.qty + signed;
      var avgCost :=
        if after == 0.0 then 0.0
        else if (p.qty > 0.0) == (signed > 0.0) then WeightedAverage(p.avgCost, Abs(p.qty), price, qty, Abs(after))
        else if (p.qty > 0.0) != (after > 0.0) then price
        else p.avgCost;
      Position(after, avgCost, Some(price))
  }

  function Booked(book: map<string, Position>, symbol: string, side: Side, qty: real, price: real): map<string, Position> {
    book[symbol := BookMove(BrokerAt(book, symbol), Signed(side, qty), qty, price)]
  }

  function BookedAll(book: map<string, Position>, req: OrderRequest, fills: seq<ScriptedFill>): map<string, Position> {
    if fills == [] then book
    else
      var k := |fills| - 1;
      Booked(BookedAll(book, req, fills[..k]), req.symbol, req.side, fills[k].qty, fills[k].price)
  }

  function Listed(book: map<string, Position>): map<string, Position> {
    map symbol | symbol in book && book[symbol].qty != 0.0 :: book[symbol]
  }

  // ----- the events of one order -----

  function Total(fills: seq<ScriptedFill>): real {
    if fills == [] then 0.0 else Total(fills[..|fills| - 1]) + fills[|fills| - 1].qty
  }

  function PriceOf(req: OrderRequest, defaultPrice: real): real {
    if req.limitPrice.Some? then req.limitPrice.value
    else if req.stopPrice.Some? then req.stopPrice.value
    else defaultPrice
  }

  predicate Rejects(step: Option<ScriptStep>) {
    step.Some? && step.value.reject
  }

  /** The fills of one order: scripted, or the whole quantity at once. */
  function FillsOf(step: Option<ScriptStep>, req: OrderRequest, defaultPrice: real): seq<ScriptedFill> {
    if Rejects(step) then []
    else if step.Some? && (step.value.fills != [] || step.value.leaveWorking) then step.value.fills
    else [ScriptedFill(req.qty, PriceOf(req, defaultPrice))]
  }

  function Event(req: OrderRequest, id: string, number: nat, kind: Kind, qty: real, price: real, filledQty: real): FillEvent {
    FillEvent(Numbered(id, number), id, "fakeord-" + id, req.symbol, req.side, kind, qty, price, filledQty)
  }

  /** The events of the first `k` fills, numbered after `start`. */
  function FillEvents(req: OrderRequest, id: string, start: nat, fills: seq<ScriptedFill>, k: nat): (es: seq<FillEvent>)
    requires k <= |fills|
    ensures |es| == k
  {
    if k == 0 then []
    else
      var filled := Total(fills[..k]);
      var kind := if k == |fills| && filled >= req.qty then Fill else PartialFill;
      FillEvents(req, id, start, fills, k - 1) + [Event(req, id, start + k, kind, fills[k - 1].qty, fills[k - 1].price, filled)]
  }

  function PlacedEvents(step: Option<ScriptStep>, req: OrderRequest, id: string, start: nat, defaultPrice: real): seq<FillEvent> {
    if Rejects(step) then [Event(req, id, start + 1, Rejected, 0.0, 0.0, 0.0)]
    else
      var fills := FillsOf(step, req, defaultPrice);
      [Event(req, id, start + 1, New, 0.0, 0.0, 0.0)] + FillEvents(req, id, start + 1, fills, |fills|)
  }

  // ----- simulation -----

  /** Same quantity and cost; while shares are held also the same mark. */
  predicate Agrees(ours: Position, theirs: Position) {
    && ours.qty == theirs.qty && ours.avgCost == theirs.avgCost
    && (theirs.qty != 0.0 ==> ours.marketPrice == theirs.marketPrice)
  }

  function BookAt(book: map<string, Position>, symbol: string): Position {
    if symbol in book then book[symbol] else FLAT
  }

  ghost predicate Simulates(t: Tables, account: AccountId, book: map<string, Position>) {
    forall symbol :: Agrees(PositionOf(t.positions, PositionKey(account, symbol)), BookAt(book, symbol))
  }

  /** The broker has not used an execution number above `number` on the account. */
  ghost predicate NumbersUpTo(fills: seq<FillRow>, account: AccountId, number: nat) {
    forall k :: 0 <= k < |fills| && fills[k].account == account && fills[k].execId.Numbered? ==> fills[k].execId.number <= number
  }

  /** A flat row has cost zero. */
  ghost predicate FlatIsFree(positions: map<PositionKey, Position>) {
    forall key :: key in positions && positions[key].qty == 0.0 ==> positions[key].avgCost == 0.0
  }

  ghost predicate InStep(t: Tables, account: AccountId, book: map<string, Position>, number: nat) {
    Simulates(t, account, book) && NumbersUpTo(t.fills, account, number) && FlatIsFree(t.positions)
  }

  lemma {:induction false} FlatStaysFree(t: Tables, e: FillEvent)
    requires FlatIsFree(t.positions)
    ensures FlatIsFree(Ingest(t, e).positions)
  {
    hide UpdatedOrder, Resolve, Seen, WeightedAverage;
  }

  lemma {:induction false} FlatStaysFreeAll(t: Tables, es: seq<FillEvent>)
    requires FlatIsFree(t.positions)
    ensures FlatIsFree(IngestAll(t, es).positions)
  {
    hide Ingest, FlatIsFree;
    if es != [] {
      FlatStaysFreeAll(t, es[..|es| - 1]);
      FlatStaysFree(IngestAll(t, es[..|es| - 1]), es[|es| - 1]);
    }
  }

  /** The order row that the service wrote before it placed the order. */
  ghost predicate Placeable(orders: seq<Order>, account: AccountId, req: OrderRequest, id: string) {
    var found := FindByClient(orders, id);
    && found.Some? && orders[found.value].account == Some(account)
    && orders[found.value].symbol == req.symbol && IsBuy(orders[found.value].side) == IsBuy(req.side)
  }

  ghost predicate PositiveFills(fills: seq<ScriptedFill>) {
    forall k :: 0 <= k < |fills| ==> fills[k].qty > 0.0
  }

  lemma {:induction false} MovesAgree(ours: Position, theirs: Option<Position>, signed: real, price: real)
    requires signed != 0.0
    requires Agrees(ours, if theirs.Some? then theirs.value else FLAT)
    ensures Agrees(Move(ours, Execution(signed, price)), BookMove(theirs, signed, Abs(signed), price))
  {
    hide WeightedAverage;
  }

  lemma {:induction false} UnnumberedIsUnseen(fills: seq<FillRow>, account: AccountId, number: nat, id: string, next: nat)
    requires NumbersUpTo(fills, account, number) && next > number
    ensures !Seen(fills, account, Numbered(id, next))
  {}

  lemma {:induction false} PlaceableSame(a: seq<Order>, b: seq<Order>, account: AccountId, req: OrderRequest, id: string)
    requires SameOrders(a, b) && Placeable(a, account, req, id)
    ensures Placeable(b, account, req, id)
  {
    FindByClientSame(a, b, id);
    var i := FindByClient(a, id).value;
    assert SameColumns(a[i], b[i]);
  }

  /** One execution event applied inline moves the ledger exactly as the broker's book. */
  lemma {:induction false} ExecutionInStep(t: Tables, account: AccountId, book: map<string, Position>, req: OrderRequest, e: FillEvent, number: nat)
    requires InStep(t, account, book, number) && Placeable(t.orders, account, req, e.clientOrderId)
    requires Executes(e) && e.execId == Numbered(e.clientOrderId, number + 1)
    ensures InStep(Ingest(t, e), account, Booked(book, req.symbol, req.side, e.qty, e.price), number + 1)
  {
    var i := FindByClient(t.orders, e.clientOrderId).value;
    var o := t.orders[i];
    UnnumberedIsUnseen(t.fills, account, number, e.clientOrderId, number + 1);
    FlatStaysFree(t, e);
    hide FlatIsFree, UpdatedOrder, Seen, Move, BookMove, FindByClient;
    assert Ingest(t, e) == IngestAt(t, i, e) && Creates(t, i, e);
    var signed := Signed(o.side, e.qty);
    assert signed == Signed(req.side, e.qty) != 0.0;
    var key := PositionKey(account, req.symbol);
    assert Agrees(PositionOf(t.positions, key), BookAt(book, req.symbol));
    MovesAgree(PositionOf(t.positions, key), BrokerAt(book, req.symbol), signed, e.price);
    var after, booked := Ingest(t, e), Booked(book, req.symbol, req.side, e.qty, e.price);
    forall symbol ensures Agrees(PositionOf(after.positions, PositionKey(account, symbol)), BookAt(booked, symbol)) {
      assert Agrees(PositionOf(t.positions, PositionKey(account, symbol)), BookAt(book, symbol));
    }
  }

  lemma {:induction false} NoticeInStep(t: Tables, account: AccountId, book: map<string, Position>, e: FillEvent, number: nat)
    requires InStep(t, account, book, number) && !Executes(e)
    ensures InStep(Ingest(t, e), account, book, number + 1)
  {
    FlatStaysFree(t, e);
    hide FlatIsFree, UpdatedOrder, Resolve, Agrees;
  }

  /** A scripted fill of nothing that happens to leave the broker's book alone. */
  predicate Harmless(cur: Option<Position>, price: real) {
    if cur.None? then price == 0.0
    else if cur.value.qty == 0.0 then price == cur.value.avgCost
    else cur.value.marketPrice == Some(price)
  }

  lemma {:induction false} NothingBooked(ours: Position, cur: Option<Position>, side: Side, qty: real, price: real)
    requires Agrees(ours, if cur.Some? then cur.value else FLAT)
    ensures Agrees(ours, BookMove(cur, Signed(side, qty), qty, price)) <==> qty == 0.0 && Harmless(cur, price)
  {
    var signed := Signed(side, qty);
    if signed == 0.0 && cur.Some? && cur.value.qty != 0.0 {
      AverageOfNothing(cur.value.avgCost, Abs(cur.value.qty), price);
      assert cur.value.qty + signed == cur.value.qty;
    }
    hide WeightedAverage;
  }

  lemma {:induction false} AverageOfNothing(avg: real, qty: real, price: real)
    requires qty > 0.0
    ensures WeightedAverage(avg, qty, price, 0.0, qty) == avg
  {}

  /** The ledger ignores a fill without a positive quantity, the broker books it; so one scripted fill keeps
      them in step exactly if its quantity is positive, or zero at a price that changes nothing. */
  lemma {:induction false} FillInStepIff(t: Tables, account: AccountId, book: map<string, Position>, req: OrderRequest, e: FillEvent, number: nat)
    requires InStep(t, account, book, number) && Placeable(t.orders, account, req, e.clientOrderId)
    requires (e.kind == Fill || e.kind == PartialFill) && e.execId == Numbered(e.clientOrderId, number + 1)
    ensures InStep(Ingest(t, e), account, Booked(book, req.symbol, req.side, e.qty, e.price), number + 1) <==>
      e.qty > 0.0 || (e.qty == 0.0 && Harmless(BrokerAt(book, req.symbol), e.price))
  {
    hide Harmless, Move, FlatIsFree, NumbersUpTo;
    if e.qty > 0.0 {
      ExecutionInStep(t, account, book, req, e, number);
    } else {
      var key := PositionKey(account, req.symbol);
      var booked := Booked(book, req.symbol, req.side, e.qty, e.price);
      NoticeInStep(t, account, book, e, number);
      IgnoredMovesNothing(t, e);
      assert Agrees(PositionOf(t.positions, key), BookAt(book, req.symbol));
      NothingBooked(PositionOf(t.positions, key), BrokerAt(book, req.symbol), req.side, e.qty, e.price);
      hide BookMove, Ingest, Agrees, Placeable;
      assert BookAt(booked, req.symbol) == BookMove(BrokerAt(book, req.symbol), Signed(req.side, e.qty), e.qty, e.price);
      forall symbol | symbol != req.symbol
        ensures Agrees(PositionOf(t.positions, PositionKey(account, symbol)), BookAt(booked, symbol))
      {
        assert Agrees(PositionOf(t.positions, PositionKey(account, symbol)), BookAt(book, symbol));
      }
    }
  }

  lemma {:induction false} IgnoredMovesNothing(t: Tables, e: FillEvent)
    requires !Executes(e)
    ensures Ingest(t, e).positions == t.positions
  {
    hide UpdatedOrder, Resolve;
  }

  lemma {:induction false} FillsInStep(t: Tables, account: AccountId, book: map<string, Position>, req: OrderRequest, id: string,
                                       start: nat, fills: seq<ScriptedFill>, k: nat)
    requires k <= |fills| && PositiveFills(fills)
    requires InStep(t, account, book, start) && Placeable(t.orders, account, req, id)
    ensures InStep(IngestAll(t, FillEvents(req, id, start, fills, k)), account, BookedAll(book, req, fills[..k]), start + k)
  {
    hide *;
    if k == 0 {
      NoFills(t, book, req, id, start, fills);
    } else {
      var front, e := LastFill(req, id, start, fills, k);
      BookedLast(book, req, fills, k);
      FillsInStep(t, account, book, req, id, start, fills, k - 1);
      IngestAllSnoc(t, front, e);
      IngestKeepsColumns(t, front);
      PlaceableSame(t.orders, IngestAll(t, front).orders, account, req, id);
      ExecutionInStep(IngestAll(t, front), account, BookedAll(book, req, fills[..k - 1]), req, e, start + k - 1);
    }
  }

  lemma {:induction false} NoFills(t: Tables, book: map<string, Position>, req: OrderRequest, id: string, start: nat, fills: seq<ScriptedFill>)
    ensures IngestAll(t, FillEvents(req, id, start, fills, 0)) == t && BookedAll(book, req, fills[..0]) == book
  {}

  lemma {:induction false} LastFill(req: OrderRequest, id: string, start: nat, fills: seq<ScriptedFill>, k: nat)
    returns (front: seq<FillEvent>, e: FillEvent)
    requires 0 < k <= |fills| && PositiveFills(fills)
    ensures front == FillEvents(req, id, start, fills, k - 1) && FillEvents(req, id, start, fills, k) == front + [e]
    ensures Executes(e) && e.execId == Numbered(id, start + k) && e.clientOrderId == id
    ensures e.qty == fills[k - 1].qty && e.price == fills[k - 1].price
  {
    front, e := FillEvents(req, id, start, fills, k - 1), FillEvents(req, id, start, fills, k)[k - 1];
  }

  lemma {:induction false} BookedLast(book: map<string, Position>, req: OrderRequest, fills: seq<ScriptedFill>, k: nat)
    requires 0 < k <= |fills|
    ensures BookedAll(book, req, fills[..k])
         == Booked(BookedAll(book, req, fills[..k - 1]), req.symbol, req.side, fills[k - 1].qty, fills[k - 1].price)
  {
    assert fills[..k][..k - 1] == fills[..k - 1];
    hide Booked;
  }

  lemma {:induction false} IngestAllConcat(t: Tables, es: seq<FillEvent>, ds: seq<FillEvent>)
    ensures IngestAll(t, es + ds) == IngestAll(IngestAll(t, es), ds)
    decreases |ds|
  {
    hide Ingest;
    if ds == [] {
      assert es + ds == es;
    } else {
      var front, d := ds[..|ds| - 1], ds[|ds| - 1];
      IngestAllConcat(t, es, front);
      assert es + ds == (es + front) + [d];
      IngestAllSnoc(t, es + front, d);
    }
  }

  /** Placing one scripted order, its events applied inline, keeps ledger and broker in step. */
  lemma {:induction false} PlacedInStep(t: Tables, account: AccountId, book: map<string, Position>, step: Option<ScriptStep>,
                                        req: OrderRequest, id: string, start: nat, defaultPrice: real)
    requires InStep(t, account, book, start) && Placeable(t.orders, account, req, id)
    requires PositiveFills(FillsOf(step, req, defaultPrice))
    ensures var es := PlacedEvents(step, req, id, start, defaultPrice);
      InStep(IngestAll(t, es), account, BookedAll(book, req, FillsOf(step, req, defaultPrice)), start + |es|)
  {
    hide *;
    var notice, fills := PlacedParts(t, step, req, id, start, defaultPrice);
    var t1 := Ingest(t, notice);
    NoticeInStep(t, account, book, notice, start);
    NoticePlaceable(t, account, req, id, notice);
    FillsInStep(t1, account, book, req, id, start + 1, fills, |fills|);
    assert fills[..|fills|] == fills;
  }

  lemma {:induction false} NoticePlaceable(t: Tables, account: AccountId, req: OrderRequest, id: string, e: FillEvent)
    requires Placeable(t.orders, account, req, id)
    ensures Placeable(Ingest(t, e).orders, account, req, id)
  {
    hide FindByClient, NextFilled, NextStatus, Creates, Apply, Resolve;
    PlaceableSame(t.orders, Ingest(t, e).orders, account, req, id);
  }

  // ----- whole runs -----

  datatype Action = Place(req: OrderRequest, id: string) | Flatten(events: seq<FillEvent>)

  /** Ledger tables, broker book, script and last execution number. */
  datatype World = World(t: Tables, book: map<string, Position>, script: seq<ScriptStep>, number: nat)

  function NextStep(script: seq<ScriptStep>): Option<ScriptStep> {
    if script == [] then None else Some(script[0])
  }

  function PlaceIn(w: World, req: OrderRequest, id: string, defaultPrice: real): World {
    var step := NextStep(w.script);
    var es := PlacedEvents(step, req, id, w.number, defaultPrice);
    World(IngestAll(w.t, es), BookedAll(w.book, req, FillsOf(step, req, defaultPrice)),
          if w.script == [] then [] else w.script[1..], w.number + |es|)
  }

  function Flattened(book: map<string, Position>): map<string, Position> {
    map symbol | symbol in book :: if book[symbol].qty != 0.0 then FLAT else book[symbol]
  }

  /** Flattening emits `events` and empties the book; then the ledger snaps to the broker's list. */
  function FlattenIn(w: World, account: AccountId, events: seq<FillEvent>): World {
    var t := IngestAll(w.t, events);
    var book := Flattened(w.book);
    World(t.(positions := Snapped(t.positions, account, Listed(book))), book, w.script, w.number + |events|)
  }

  function Act(w: World, account: AccountId, a: Action, defaultPrice: real): World {
    match a
    case Place(req, id) => PlaceIn(w, req, id, defaultPrice)
    case Flatten(events) => FlattenIn(w, account, events)
  }

  function Play(w: World, account: AccountId, actions: seq<Action>, defaultPrice: real): World {
    if actions == [] then w
    else Act(Play(w, account, actions[..|actions| - 1], defaultPrice), account, actions[|actions| - 1], defaultPrice)
  }

  /** A run does one action after the other. */
  lemma {:induction false} PlaySnoc(w: World, account: AccountId, actions: seq<Action>, a: Action, defaultPrice: real)
    ensures Play(w, account, [], defaultPrice) == w
    ensures Play(w, account, actions + [a], defaultPrice) == Act(Play(w, account, actions, defaultPrice), account, a, defaultPrice)
  {
    hide Act;
    assert (actions + [a])[..|actions|] == actions;
  }

  /** What an action needs: an order row for an order, quantities that are positive, and for a flatten
      events that carry the next execution numbers. */
  ghost predicate Permitted(w: World, account: AccountId, a: Action, defaultPrice: real) {
    match a
    case Place(req, id) =>
      Placeable(w.t.orders, account, req, id) && PositiveFills(FillsOf(NextStep(w.script), req, defaultPrice))
    case Flatten(events) => FlattenNumbers(events, w.number)
  }

  ghost predicate FlattenNumbers(events: seq<FillEvent>, start: nat) {
    forall k :: 0 <= k < |events| ==> events[k].execId.Numbered? && events[k].execId.number == start + k + 1
  }

  ghost predicate AllPermitted(w: World, account: AccountId, actions: seq<Action>, defaultPrice: real) {
    forall k :: 0 <= k < |actions| ==> Permitted(Play(w, account, actions[..k], defaultPrice), account, actions[k], defaultPrice)
  }

  lemma {:induction false} NumbersAfter(t: Tables, es: seq<FillEvent>, account: AccountId, start: nat)
    requires NumbersUpTo(t.fills, account, start) && FlattenNumbers(es, start)
    ensures NumbersUpTo(IngestAll(t, es).fills, account, start + |es|)
  {
    if es != [] {
      var n := |es| - 1;
      NumbersAfter(t, es[..n], account, start);
      var before := IngestAll(t, es[..n]);
      hide UpdatedOrder, Resolve, Apply, Seen;
    }
  }

  /** Nothing is held after a flatten, at the broker or, once reconciled, in the ledger; reconciling again
      changes nothing. */
  lemma {:induction false} FlattenThenReconcileIsFlat(w: World, account: AccountId, events: seq<FillEvent>)
    ensures var after := FlattenIn(w, account, events);
      && Listed(after.book) == map[]
      && (forall key :: key in after.t.positions && key.account == account ==> after.t.positions[key].qty == 0.0)
      && Changes(after.t.positions, account, Listed(after.book)) == {}
      && Snapped(after.t.positions, account, Listed(after.book)) == after.t.positions
  {
    var before := IngestAll(w.t, events).positions;
    assert Listed(Flattened(w.book)) == map[];
    SnapConverges(before, account, map[]);
    hide Snapped, Changes;
  }

  lemma {:induction false} FlattenInStep(w: World, account: AccountId, events: seq<FillEvent>)
    requires InStep(w.t, account, w.book, w.number) && FlattenNumbers(events, w.number)
    ensures var after := FlattenIn(w, account, events);
      InStep(after.t, account, after.book, after.number)
  {
    var before := IngestAll(w.t, events).positions;
    var after := FlattenIn(w, account, events);
    NumbersAfter(w.t, events, account, w.number);
    FlatStaysFreeAll(w.t, events);
    assert Listed(Flattened(w.book)) == map[];
    hide IngestAll, NumbersUpTo, FlattenNumbers, Listed, Touched;
    forall symbol ensures Agrees(PositionOf(after.t.positions, PositionKey(account, symbol)), BookAt(after.book, symbol)) {
      assert Agrees(PositionOf(w.t.positions, PositionKey(account, symbol)), BookAt(w.book, symbol));
    }
  }

  /** Over every run of scripted orders and flattens, the ledger's quantity and cost of every symbol are
      the broker's own, and so is the mark of every symbol that is held. */
  lemma {:induction false} LedgerSimulatesBroker(w: World, account: AccountId, actions: seq<Action>, defaultPrice: real)
    requires InStep(w.t, account, w.book, w.number) && AllPermitted(w, account, actions, defaultPrice)
    ensures var after := Play(w, account, actions, defaultPrice);
      InStep(after.t, account, after.book, after.number)
  {
    if actions != [] {
      var n := |actions| - 1;
      var before := Play(w, account, actions[..n], defaultPrice);
      assert forall k :: 0 <= k < n ==> actions[..n][..k] == actions[..k];
      LedgerSimulatesBroker(w, account, actions[..n], defaultPrice);
      assert Permitted(before, account, actions[n], defaultPrice);
      hide InStep, Placeable, FlattenNumbers, PositiveFills, AllPermitted, FlattenIn;
      match actions[n]
      case Place(req, id) =>
        PlacedInStep(before.t, account, before.book, NextStep(before.script), req, id, before.number, defaultPrice);
      case Flatten(events) =>
        FlattenInStep(before, account, events);
    }
  }

  // ----- without a flatten also the marks of flat positions -----

  ghost predicate MarksAgree(t: Tables, account: AccountId, book: map<string, Position>) {
    forall symbol :: PositionOf(t.positions, PositionKey(account, symbol)).marketPrice == BookAt(book, symbol).marketPrice
  }

  lemma {:induction false} ExecutionMarks(t: Tables, account: AccountId, book: map<string, Position>, req: OrderRequest, e: FillEvent, number: nat)
    requires MarksAgree(t, account, book) && NumbersUpTo(t.fills, account, number) && Placeable(t.orders, account, req, e.clientOrderId)
    requires Executes(e) && e.execId == Numbered(e.clientOrderId, number + 1)
    ensures MarksAgree(Ingest(t, e), account, Booked(book, req.symbol, req.side, e.qty, e.price))
  {
    var i := FindByClient(t.orders, e.clientOrderId).value;
    UnnumberedIsUnseen(t.fills, account, number, e.clientOrderId, number + 1);
    hide UpdatedOrder, Seen, FindByClient, WeightedAverage;
    assert Ingest(t, e) == IngestAt(t, i, e) && Creates(t, i, e);
    var after, booked := Ingest(t, e), Booked(book, req.symbol, req.side, e.qty, e.price);
    forall symbol ensures PositionOf(after.positions, PositionKey(account, symbol)).marketPrice == BookAt(booked, symbol).marketPrice {
      assert PositionOf(t.positions, PositionKey(account, symbol)).marketPrice == BookAt(book, symbol).marketPrice;
    }
  }

  lemma {:induction false} FillsMark(t: Tables, account: AccountId, book: map<string, Position>, req: OrderRequest, id: string,
                                     start: nat, fills: seq<ScriptedFill>, k: nat)
    requires k <= |fills| && PositiveFills(fills) && MarksAgree(t, account, book)
    requires InStep(t, account, book, start) && Placeable(t.orders, account, req, id)
    ensures MarksAgree(IngestAll(t, FillEvents(req, id, start, fills, k)), account, BookedAll(book, req, fills[..k]))
  {
    hide *;
    if k == 0 {
      NoFills(t, book, req, id, start, fills);
    } else {
      var front, e := LastFill(req, id, start, fills, k);
      BookedLast(book, req, fills, k);
      FillsMark(t, account, book, req, id, start, fills, k - 1);
      FillsInStep(t, account, book, req, id, start, fills, k - 1);
      IngestAllSnoc(t, front, e);
      IngestKeepsColumns(t, front);
      PlaceableSame(t.orders, IngestAll(t, front).orders, account, req, id);
      StepNumbers(IngestAll(t, front), account, BookedAll(book, req, fills[..k - 1]), start + k - 1);
      ExecutionMarks(IngestAll(t, front), account, BookedAll(book, req, fills[..k - 1]), req, e, start + k - 1);
    }
  }

  lemma {:induction false} StepNumbers(t: Tables, account: AccountId, book: map<string, Position>, number: nat)
    requires InStep(t, account, book, number)
    ensures NumbersUpTo(t.fills, account, number)
  {}

  lemma {:induction false} NoticeMarks(t: Tables, account: AccountId, book: map<string, Position>, e: FillEvent)
    requires MarksAgree(t, account, book) && !Executes(e)
    ensures MarksAgree(Ingest(t, e), account, book)
  {
    IgnoredMovesNothing(t, e);
    hide Ingest;
  }

  lemma {:induction false} PlacedMarks(t: Tables, account: AccountId, book: map<string, Position>, step: Option<ScriptStep>,
                                       req: OrderRequest, id: string, start: nat, defaultPrice: real)
    requires InStep(t, account, book, start) && Placeable(t.orders, account, req, id) && MarksAgree(t, account, book)
    requires PositiveFills(FillsOf(step, req, defaultPrice))
    ensures MarksAgree(IngestAll(t, PlacedEvents(step, req, id, start, defaultPrice)), account, BookedAll(book, req, FillsOf(step, req, defaultPrice)))
  {
    hide *;
    var notice, fills := PlacedParts(t, step, req, id, start, defaultPrice);
    NoticeInStep(t, account, book, notice, start);
    NoticeMarks(t, account, book, notice);
    NoticePlaceable(t, account, req, id, notice);
    FillsMark(Ingest(t, notice), account, book, req, id, start + 1, fills, |fills|);
    assert fills[..|fills|] == fills;
  }

  /** Over placements alone the ledger's positions are the broker's own, in quantity, cost and mark, flat ones
      included. */
  lemma {:induction false} PlacementsMirror(w: World, account: AccountId, actions: seq<Action>, defaultPrice: real)
    requires InStep(w.t, account, w.book, w.number) && MarksAgree(w.t, account, w.book) && AllPermitted(w, account, actions, defaultPrice)
    requires forall k :: 0 <= k < |actions| ==> actions[k].Place?
    ensures var after := Play(w, account, actions, defaultPrice);
      && MarksAgree(after.t, account, after.book)
      && forall symbol :: PositionOf(after.t.positions, PositionKey(account, symbol)) == BookAt(after.book, symbol)
  {
    LedgerSimulatesBroker(w, account, actions, defaultPrice);
    if actions != [] {
      var n := |actions| - 1;
      var before := Play(w, account, actions[..n], defaultPrice);
      assert forall k :: 0 <= k < n ==> actions[..n][..k] == actions[..k];
      LedgerSimulatesBroker(w, account, actions[..n], defaultPrice);
      PlacementsMirror(w, account, actions[..n], defaultPrice);
      assert Permitted(before, account, actions[n], defaultPrice);
      PlacedMarks(before.t, account, before.book, NextStep(before.script), actions[n].req, actions[n].id, before.number, defaultPrice);
      hide Placeable, PositiveFills, AllPermitted, IngestAll, BookedAll, PlacedEvents, FillsOf;
    }
    SameInAll(Play(w, account, actions, defaultPrice), account);
  }

  lemma {:induction false} SameInAll(w: World, account: AccountId)
    requires Simulates(w.t, account, w.book) && MarksAgree(w.t, account, w.book)
    ensures forall symbol :: PositionOf(w.t.positions, PositionKey(account, symbol)) == BookAt(w.book, symbol)
  {
    forall symbol ensures PositionOf(w.t.positions, PositionKey(account, symbol)) == BookAt(w.book, symbol) {
      assert Agrees(PositionOf(w.t.positions, PositionKey(account, symbol)), BookAt(w.book, symbol));
    }
  }

  // ----- what becomes of the order -----

  /** Row `i` is the row of the order, with this much filled and this status. */
  ghost predicate OrderRow(t: Tables, i: nat, account: AccountId, req: OrderRequest, id: string, filled: real, status: Status) {
    && Placeable(t.orders, account, req, id) && FindByClient(t.orders, id) == Some(i)
    && t.orders[i].qty == req.qty && t.orders[i].filledQty == filled && t.orders[i].status == status
  }

  /** What an order comes to: rejected, working, partly filled or filled. */
  function PlacedStatus(rejected: bool, filled: real, qty: real): Status {
    if rejected then REJECTED else if filled == 0.0 then SUBMITTED else if filled >= qty then FILLED else PARTIAL
  }

  lemma {:induction false} TotalPositive(fills: seq<ScriptedFill>)
    requires PositiveFills(fills)
    ensures fills != [] ==> Total(fills) > 0.0
  {
    if fills != [] {
      TotalPositive(fills[..|fills| - 1]);
    }
  }

  lemma {:induction false} NoticeReaches(t: Tables, i: nat, account: AccountId, req: OrderRequest, id: string, e: FillEvent, status: Status)
    requires OrderRow(t, i, account, req, id, 0.0, status) && status in {PENDING_SUBMIT, SUBMITTED, NEEDS_RECONCILE}
    requires e.clientOrderId == id && !Executes(e) && e.filledQty == 0.0 && (e.kind == New || e.kind == Rejected)
    ensures OrderRow(Ingest(t, e), i, account, req, id, 0.0, if e.kind == Rejected then REJECTED else SUBMITTED)
  {
    FindByClientSame(t.orders, Ingest(t, e).orders, id);
    hide FindByClient, Seen, Apply;
  }

  lemma {:induction false} ExecutionReaches(t: Tables, i: nat, account: AccountId, req: OrderRequest, id: string, e: FillEvent,
                                            filled: real, status: Status)
    requires OrderRow(t, i, account, req, id, filled, status) && status in {SUBMITTED, PARTIAL} && filled >= 0.0
    requires e.clientOrderId == id && Executes(e) && e.filledQty == filled + e.qty && !Seen(t.fills, account, e.execId)
    ensures OrderRow(Ingest(t, e), i, account, req, id, e.filledQty,
                     if e.kind == Fill && e.filledQty >= req.qty then FILLED else PARTIAL)
  {
    FindByClientSame(t.orders, Ingest(t, e).orders, id);
    hide FindByClient, Seen, Apply;
  }

  function StatusAfter(fills: seq<ScriptedFill>, k: nat, qty: real): Status
    requires k <= |fills|
  {
    if k == 0 then SUBMITTED else if k == |fills| && Total(fills) >= qty then FILLED else PARTIAL
  }

  lemma {:induction false} LastFillTotals(req: OrderRequest, id: string, start: nat, fills: seq<ScriptedFill>, k: nat, e: FillEvent)
    requires 0 < k <= |fills| && PositiveFills(fills)
    requires FillEvents(req, id, start, fills, k) == FillEvents(req, id, start, fills, k - 1) + [e]
    ensures e.filledQty == Total(fills[..k]) == Total(fills[..k - 1]) + e.qty && Total(fills[..k - 1]) >= 0.0
    ensures (e.kind == Fill && e.filledQty >= req.qty) <==> StatusAfter(fills, k, req.qty) == FILLED
    ensures StatusAfter(fills, k, req.qty) in {FILLED, PARTIAL} && StatusAfter(fills, k - 1, req.qty) in {SUBMITTED, PARTIAL}
  {
    assert e == FillEvents(req, id, start, fills, k)[k - 1];
    assert fills[..k][..k - 1] == fills[..k - 1];
    assert fills[..|fills|] == fills;
    TotalPositive(fills[..k - 1]);
  }

  /** Status and filled quantity after the first `k` fills. */
  lemma {:induction false} FillsReachOrder(t: Tables, i: nat, account: AccountId, book: map<string, Position>, req: OrderRequest, id: string,
                                           start: nat, fills: seq<ScriptedFill>, k: nat)
    requires k <= |fills| && PositiveFills(fills)
    requires InStep(t, account, book, start) && OrderRow(t, i, account, req, id, 0.0, SUBMITTED)
    ensures OrderRow(IngestAll(t, FillEvents(req, id, start, fills, k)), i, account, req, id, Total(fills[..k]), StatusAfter(fills, k, req.qty))
  {
    hide *;
    RowPlaceable(t, i, account, req, id, 0.0, SUBMITTED);
    if k == 0 {
      NoFills(t, book, req, id, start, fills);
      NoTotal(fills, req.qty);
    } else {
      var front, e := LastFill(req, id, start, fills, k);
      var before := IngestAll(t, front);
      FillsReachOrder(t, i, account, book, req, id, start, fills, k - 1);
      FillsInStep(t, account, book, req, id, start, fills, k - 1);
      IngestAllSnoc(t, front, e);
      LastFillTotals(req, id, start, fills, k, e);
      InStepUnseen(before, account, BookedAll(book, req, fills[..k - 1]), start + k - 1, id);
      ExecutionReaches(before, i, account, req, id, e, Total(fills[..k - 1]), StatusAfter(fills, k - 1, req.qty));
    }
  }

  lemma {:induction false} RowPlaceable(t: Tables, i: nat, account: AccountId, req: OrderRequest, id: string, filled: real, status: Status)
    requires OrderRow(t, i, account, req, id, filled, status)
    ensures Placeable(t.orders, account, req, id)
  {}

  lemma {:induction false} NoTotal(fills: seq<ScriptedFill>, qty: real)
    ensures Total(fills[..0]) == 0.0 && StatusAfter(fills, 0, qty) == SUBMITTED
  {}

  lemma {:induction false} InStepUnseen(t: Tables, account: AccountId, book: map<string, Position>, number: nat, id: string)
    requires InStep(t, account, book, number)
    ensures !Seen(t.fills, account, Numbered(id, number + 1))
  {}

  /** Placing an order emits a notice, then its fills. */
  lemma {:induction false} PlacedParts(t: Tables, step: Option<ScriptStep>, req: OrderRequest, id: string, start: nat, defaultPrice: real)
    returns (notice: FillEvent, fills: seq<ScriptedFill>)
    ensures fills == FillsOf(step, req, defaultPrice)
    ensures !Executes(notice) && notice.clientOrderId == id && notice.filledQty == 0.0
    ensures notice.kind == if Rejects(step) then Rejected else New
    ensures IngestAll(t, PlacedEvents(step, req, id, start, defaultPrice))
         == IngestAll(Ingest(t, notice), FillEvents(req, id, start + 1, fills, |fills|))
    ensures |PlacedEvents(step, req, id, start, defaultPrice)| == 1 + |fills|
    ensures Rejects(step) ==> fills == []
  {
    hide *;
    notice, fills := PlacedShape(step, req, id, start, defaultPrice);
    IngestOne(t, notice);
    IngestAllConcat(t, [notice], FillEvents(req, id, start + 1, fills, |fills|));
  }

  lemma {:induction false} PlacedShape(step: Option<ScriptStep>, req: OrderRequest, id: string, start: nat, defaultPrice: real)
    returns (notice: FillEvent, fills: seq<ScriptedFill>)
    ensures fills == FillsOf(step, req, defaultPrice) && (Rejects(step) ==> fills == [])
    ensures !Executes(notice) && notice.clientOrderId == id && notice.filledQty == 0.0
    ensures notice.kind == if Rejects(step) then Rejected else New
    ensures PlacedEvents(step, req, id, start, defaultPrice) == [notice] + FillEvents(req, id, start + 1, fills, |fills|)
  {
    notice := Event(req, id, start + 1, if Rejects(step) then Rejected else New, 0.0, 0.0, 0.0);
    fills := FillsOf(step, req, defaultPrice);
    if Rejects(step) {
      assert FillEvents(req, id, start + 1, fills, 0) == [];
    } else {
      hide FillEvents, FillsOf;
    }
  }

  lemma {:induction false} IngestOne(t: Tables, e: FillEvent)
    ensures IngestAll(t, [e]) == Ingest(t, e)
  {
    hide Ingest;
    IngestAllSnoc(t, [], e);
    assert [] + [e] == [e];
  }

  /** The status the ledger shows after an order is placed inline: REJECTED, SUBMITTED without fills,
      FILLED with the whole quantity, PARTIAL otherwise; and its filled quantity is the broker's. */
  lemma {:induction false} PlacedOrderStatus(t: Tables, i: nat, account: AccountId, book: map<string, Position>, step: Option<ScriptStep>,
                                             req: OrderRequest, id: string, start: nat, defaultPrice: real, status: Status)
    requires InStep(t, account, book, start) && OrderRow(t, i, account, req, id, 0.0, status)
    requires status in {PENDING_SUBMIT, SUBMITTED, NEEDS_RECONCILE} && PositiveFills(FillsOf(step, req, defaultPrice))
    ensures var filled := Total(FillsOf(step, req, defaultPrice));
      OrderRow(IngestAll(t, PlacedEvents(step, req, id, start, defaultPrice)), i, account, req, id, filled,
               PlacedStatus(Rejects(step), filled, req.qty))
  {
    hide *;
    var notice, fills := PlacedParts(t, step, req, id, start, defaultPrice);
    var t1 := Ingest(t, notice);
    NoticeInStep(t, account, book, notice, start);
    NoticeReaches(t, i, account, req, id, notice, status);
    if Rejects(step) {
      NoFills(t1, book, req, id, start + 1, fills);
      NoTotal(fills, req.qty);
    } else {
      FillsReachOrder(t1, i, account, book, req, id, start + 1, fills, |fills|);
    }
    FinalStatus(step, fills, req.qty);
  }

  lemma {:induction false} FinalStatus(step: Option<ScriptStep>, fills: seq<ScriptedFill>, qty: real)
    requires PositiveFills(fills) && (Rejects(step) ==> fills == [])
    ensures fills[..|fills|] == fills && fills[..0] == []
    ensures PlacedStatus(Rejects(step), Total(fills), qty) == if Rejects(step) then REJECTED else StatusAfter(fills, |fills|, qty)
  {
    TotalPositive(fills);
    assert fills[..|fills|] == fills;
  }
}
