/** The reference broker as an object (`brokers/fake.py`), publishing every event straight into the ledger
    as the inline transport does. Its methods update the book, the open orders, the execution counter,
    the list of published events and the rest of the script in place, and each is proved against the
    function that says what the same step does to these values. */
module FakeBrokerAdapter {
  import opened Prelude
  import opened Positions
  import opened Ledger
  import opened LedgerDb
  import opened FakeBroker

  /** No order row has lost its account, so that no ingest raises. */
  ghost predicate Accounted(orders: seq<Order>) {
    forall k :: 0 <= k < |orders| ==> orders[k].account.Some?
  }

  lemma {:induction false} AccountedStays(t: Tables, e: FillEvent)
    requires Accounted(t.orders)
    ensures !Fails(t, e) && Accounted(Ingest(t, e).orders)
  {
    hide Resolve, NextStatus, NextFilled, Creates, Apply;
  }

  function WorkingOrders(open: seq<Ack>, step: Option<ScriptStep>, req: OrderRequest, id: string, filled: real): seq<Ack> {
    if Rejects(step) || filled >= req.qty || (step.Some? && step.value.leaveWorking) then open
    else open + [Ack(id, "fakeord-" + id, PARTIAL, req.symbol, req.qty, filled)]
  }

  function FlattenId(symbol: string): string {
    "flatten-" + symbol
  }

  function FlattenPrice(p: Position, defaultPrice: real): real {
    if p.marketPrice.Some? && p.marketPrice.value != 0.0 then p.marketPrice.value else defaultPrice
  }

  /** The event that closes the position of a symbol. */
  function FlattenEvent(symbol: string, p: Position, number: nat, defaultPrice: real): FillEvent {
    var id, qty := FlattenId(symbol), Abs(p.qty);
    FillEvent(Numbered(id, number), id, "fakeord-" + id, symbol, if p.qty > 0.0 then SELL else BUY, Fill,
              qty, FlattenPrice(p, defaultPrice), qty)
  }

  /** Exactly one closing event for each of the held symbols `symbols`, numbered from `start + 1`. */
  ghost predicate Closes(book: map<string, Position>, symbols: set<string>, events: seq<FillEvent>, start: nat, defaultPrice: real) {
    && |events| == |symbols|
    && (forall k :: 0 <= k < |events| ==> events[k].symbol in symbols && ClosesAt(book, events[k], start + k + 1, defaultPrice))
    && (forall symbol :: symbol in symbols ==> Mentioned(events, symbol))
  }

  predicate ClosesAt(book: map<string, Position>, e: FillEvent, number: nat, defaultPrice: real) {
    e.symbol in book && e == FlattenEvent(e.symbol, book[e.symbol], number, defaultPrice)
  }

  predicate Mentioned(events: seq<FillEvent>, symbol: string) {
    exists k :: 0 <= k < |events| && events[k].symbol == symbol
  }

  lemma {:induction false} RejectedEvents(t: Tables, book: map<string, Position>, step: Option<ScriptStep>, req: OrderRequest,
                                          id: string, start: nat, defaultPrice: real)
    requires Rejects(step)
    ensures var e := Event(req, id, start + 1, Rejected, 0.0, 0.0, 0.0);
      && PlacedEvents(step, req, id, start, defaultPrice) == [e] && IngestAll(t, [e]) == Ingest(t, e)
      && FillsOf(step, req, defaultPrice) == [] && BookedAll(book, req, []) == book
  {
    IngestOne(t, Event(req, id, start + 1, Rejected, 0.0, 0.0, 0.0));
  }

  lemma {:induction false} NoFillYet(book: map<string, Position>, notice: FillEvent, req: OrderRequest, id: string, start: nat, fills: seq<ScriptedFill>)
    ensures [notice] + FillEvents(req, id, start, fills, 0) == [notice]
    ensures Total(fills[..0]) == 0.0 && BookedAll(book, req, fills[..0]) == book
  {}

  function HeldSymbols(book: map<string, Position>): (held: set<string>)
    ensures held <= book.Keys
  {
    set symbol | symbol in book && book[symbol].qty != 0.0
  }

  function PartlyFlat(book: map<string, Position>, done: set<string>): map<string, Position> {
    map symbol | symbol in book :: if symbol in done then FLAT else book[symbol]
  }

  function ClosingAck(e: FillEvent): Ack {
    Ack(e.clientOrderId, e.brokerOrderId, FILLED, e.symbol, e.qty, e.qty)
  }

  lemma {:induction false} FlatOneMore(book: map<string, Position>, done: set<string>, symbol: string)
    requires symbol in book
    ensures PartlyFlat(book, done)[symbol := FLAT] == PartlyFlat(book, done + {symbol})
  {}

  lemma {:induction false} MentionedSnoc(events: seq<FillEvent>, e: FillEvent, symbol: string)
    ensures Mentioned(events + [e], symbol) <==> Mentioned(events, symbol) || e.symbol == symbol
  {
    var es := events + [e];
    assert es[|events|] == e;
    if Mentioned(events, symbol) {
      var k :| 0 <= k < |events| && events[k].symbol == symbol;
      assert es[k] == events[k];
    }
  }

  lemma {:induction false} CloseOneMore(book: map<string, Position>, done: set<string>, events: seq<FillEvent>, start: nat,
                                        defaultPrice: real, symbol: string, e: FillEvent)
    requires Closes(book, done, events, start, defaultPrice) && symbol in book && symbol !in done
    requires e.symbol == symbol && ClosesAt(book, e, start + |events| + 1, defaultPrice)
    ensures Closes(book, done + {symbol}, events + [e], start, defaultPrice)
  {
    hide ClosesAt, Mentioned;
    forall s | s in done + {symbol} ensures Mentioned(events + [e], s) {
      MentionedSnoc(events, e, s);
    }
  }

  lemma {:induction false} NotYetFlat(book: map<string, Position>, done: set<string>, symbol: string)
    requires symbol in book && symbol !in done
    ensures symbol in PartlyFlat(book, done) && PartlyFlat(book, done)[symbol] == book[symbol]
  {}

  lemma {:induction false} EventCloses(book: map<string, Position>, symbol: string, number: nat, defaultPrice: real)
    requires symbol in book
    ensures var e := FlattenEvent(symbol, book[symbol], number, defaultPrice);
      e.symbol == symbol && ClosesAt(book, e, number, defaultPrice)
  {}

  /** Progress of a flatten from `w0`: the symbols of `done` have been closed by `events`. */
  ghost predicate Flattening(w0: World, emitted0: seq<FillEvent>, done: set<string>, events: seq<FillEvent>, w: World,
                             emitted: seq<FillEvent>, defaultPrice: real) {
    && Closes(w0.book, done, events, w0.number, defaultPrice)
    && w == World(IngestAll(w0.t, events), PartlyFlat(w0.book, done), w0.script, w0.number + |events|)
    && emitted == emitted0 + events
  }

  lemma {:induction false} NothingFlat(w: World, emitted: seq<FillEvent>, defaultPrice: real)
    ensures Flattening(w, emitted, {}, [], w, emitted, defaultPrice)
    ensures ClosingAcks([]) == []
  {
    assert PartlyFlat(w.book, {}) == w.book;
  }

  lemma {:induction false} FlattenOneMore(w0: World, emitted0: seq<FillEvent>, done: set<string>, events: seq<FillEvent>, w: World,
                                          emitted: seq<FillEvent>, defaultPrice: real, symbol: string)
    requires Flattening(w0, emitted0, done, events, w, emitted, defaultPrice) && symbol in w0.book && symbol !in done
    ensures symbol in w.book
    ensures var e := FlattenEvent(symbol, w.book[symbol], w.number + 1, defaultPrice);
      Flattening(w0, emitted0, done + {symbol}, events + [e],
                 World(Ingest(w.t, e), w.book[symbol := FLAT], w.script, w.number + 1), emitted + [e], defaultPrice)
  {
    NotYetFlat(w0.book, done, symbol);
    var e := FlattenEvent(symbol, w.book[symbol], w.number + 1, defaultPrice);
    EventCloses(w0.book, symbol, w.number + 1, defaultPrice);
    CloseOneMore(w0.book, done, events, w0.number, defaultPrice, symbol, e);
    FlatOneMore(w0.book, done, symbol);
    IngestAllSnoc(w0.t, events, e);
    assert emitted0 + (events + [e]) == emitted + [e];
    hide Closes, IngestAll, Ingest, PartlyFlat, FlattenEvent;
  }

  lemma {:induction false} AllFlat(w0: World, emitted0: seq<FillEvent>, events: seq<FillEvent>, w: World, emitted: seq<FillEvent>, defaultPrice: real)
    requires Flattening(w0, emitted0, HeldSymbols(w0.book), events, w, emitted, defaultPrice)
    ensures Closes(w0.book, HeldSymbols(w0.book), events, w0.number, defaultPrice)
    ensures w == World(IngestAll(w0.t, events), Flattened(w0.book), w0.script, w0.number + |events|)
    ensures emitted == emitted0 + events
  {
    assert PartlyFlat(w0.book, HeldSymbols(w0.book)) == Flattened(w0.book);
  }

  function ClosingAcks(events: seq<FillEvent>): (acks: seq<Ack>)
    ensures |acks| == |events| && forall k :: 0 <= k < |acks| ==> acks[k] == ClosingAck(events[k])
  {
    seq(|events|, k requires 0 <= k < |events| => ClosingAck(events[k]))
  }

  lemma {:induction false} ClosingAcksSnoc(events: seq<FillEvent>, e: FillEvent)
    ensures ClosingAcks(events + [e]) == ClosingAcks(events) + [ClosingAck(e)]
  {}

  /** What a flatten emits carries the next execution numbers. */
  lemma {:induction false} ClosesIsNumbered(book: map<string, Position>, symbols: set<string>, events: seq<FillEvent>, start: nat, defaultPrice: real)
    requires Closes(book, symbols, events, start, defaultPrice)
    ensures FlattenNumbers(events, start)
  {
    forall k | 0 <= k < |events| ensures events[k].execId.Numbered? && events[k].execId.number == start + k + 1 {
      assert ClosesAt(book, events[k], start + k + 1, defaultPrice);
    }
  }

  class Adapter {
    const ledger: OrderService
    const defaultPrice: real
    var script: seq<ScriptStep>
    var book: map<string, Position>
    var openOrders: seq<Ack>
    var emitted: seq<FillEvent>
    var execSeq: nat

    constructor (ledger: OrderService, script: seq<ScriptStep>, defaultPrice: real)
      ensures this.ledger == ledger && this.script == script && this.defaultPrice == defaultPrice
      ensures book == map[] && openOrders == [] && emitted == [] && execSeq == 0
    {
      this.ledger, this.script, this.defaultPrice := ledger, script, defaultPrice;
      book, openOrders, emitted, execSeq := map[], [], [], 0;
    }

    method NextExecId(id: string) returns (execId: ExecId)
      modifies this`execSeq
      ensures execSeq == old(execSeq) + 1 && execId == Numbered(id, execSeq)
    {
      execSeq := execSeq + 1;
      execId := Numbered(id, execSeq);
    }

    method Emit(e: FillEvent)
      requires Accounted(ledger.orders)
      modifies this`emitted, ledger
      ensures emitted == old(emitted) + [e]
      ensures ledger.State() == Ingest(old(ledger.State()), e) && Accounted(ledger.orders)
    {
      AccountedStays(ledger.State(), e);
      emitted := emitted + [e];
      var _ := ledger.IngestFillEvent(e);
    }

    method ApplyPosition(symbol: string, side: Side, qty: real, price: real)
      modifies this`book
      ensures book == Booked(old(book), symbol, side, qty, price)
    {
      var signed := if IsBuy(side) then qty else -qty;
      if symbol !in book || book[symbol].qty == 0.0 {
        book := book[symbol := Position(signed, price, Some(price))];
        return;
      }
      var cur := book[symbol];
      var newQty := cur.qty + signed;
      var avgCost := cur.avgCost;
      if newQty == 0.0 {
        avgCost := 0.0;
      } else if (cur.qty > 0.0) == (signed > 0.0) {
        avgCost := WeightedAverage(cur.avgCost, Abs(cur.qty), price, qty, Abs(newQty));
      } else if (cur.qty > 0.0) != (newQty > 0.0) {
        avgCost := price;
      }
      book := book[symbol := Position(newQty, avgCost, Some(price))];
    }

    /** The scripted fills, one event and one book entry each; `notice` is what was emitted before them. */
    method EmitFills(req: OrderRequest, id: string, fills: seq<ScriptedFill>, ghost t0: Tables, ghost emitted0: seq<FillEvent>,
                     ghost notice: FillEvent, ghost start: nat) returns (filled: real)
      requires Accounted(ledger.orders) && execSeq == start
      requires emitted == emitted0 + [notice] && ledger.State() == IngestAll(t0, [notice])
      modifies this`book, this`emitted, this`execSeq, ledger
      ensures Accounted(ledger.orders) && filled == Total(fills) && execSeq == start + |fills|
      ensures book == BookedAll(old(book), req, fills)
      ensures emitted == emitted0 + ([notice] + FillEvents(req, id, start, fills, |fills|))
      ensures ledger.State() == IngestAll(t0, [notice] + FillEvents(req, id, start, fills, |fills|))
    {
      hide *;
      NoFillYet(book, notice, req, id, start, fills);
      filled := 0.0;
      var i := 0;
      while i < |fills|
        invariant 0 <= i <= |fills| && filled == Total(fills[..i]) && execSeq == start + i
        invariant book == BookedAll(old(book), req, fills[..i])
        invariant emitted == emitted0 + ([notice] + FillEvents(req, id, start, fills, i))
        invariant ledger.State() == IngestAll(t0, [notice] + FillEvents(req, id, start, fills, i))
        invariant Accounted(ledger.orders)
      {
        NextFill(t0, old(book), emitted0, notice, req, id, start, fills, i);
        filled := filled + fills[i].qty;
        var isLast := i == |fills| - 1 && filled >= req.qty;
        var execId := NextExecId(id);
        Emit(FillEvent(execId, id, "fakeord-" + id, req.symbol, req.side, if isLast then Fill else PartialFill,
                       fills[i].qty, fills[i].price, filled));
        ApplyPosition(req.symbol, req.side, fills[i].qty, fills[i].price);
        i := i + 1;
      }
      assert fills[..|fills|] == fills;
    }

    method PlaceOrder(req: OrderRequest, id: string) returns (ack: Ack)
      requires Accounted(ledger.orders)
      modifies this, ledger
      ensures Accounted(ledger.orders)
      ensures var w := old(World(ledger.State(), book, script, execSeq));
        World(ledger.State(), book, script, execSeq) == PlaceIn(w, req, id, defaultPrice)
      ensures emitted == old(emitted) + PlacedEvents(NextStep(old(script)), req, id, old(execSeq), defaultPrice)
      ensures openOrders == WorkingOrders(old(openOrders), NextStep(old(script)), req, id, Total(FillsOf(NextStep(old(script)), req, defaultPrice)))
      ensures ack == Ack(id, "fakeord-" + id, if Rejects(NextStep(old(script))) then REJECTED else SUBMITTED, req.symbol, req.qty, 0.0)
    {
      ghost var t0, start := ledger.State(), execSeq;
      var step := NextStep(script);
      if script != [] {
        script := script[1..];
      }
      hide Ingest, IngestAll, FillEvents, BookedAll, Accounted, Total;
      if step.Some? && step.value.reject {
        var execId := NextExecId(id);
        Emit(FillEvent(execId, id, "fakeord-" + id, req.symbol, req.side, Rejected, 0.0, 0.0, 0.0));
        RejectedEvents(t0, book, step, req, id, start, defaultPrice);
        hide PlacedEvents, FillsOf;
        return Ack(id, "fakeord-" + id, REJECTED, req.symbol, req.qty, 0.0);
      }
      var fills: seq<ScriptedFill>;
      if step.Some? && (step.value.fills != [] || step.value.leaveWorking) {
        fills := step.value.fills;
      } else {
        fills := [ScriptedFill(req.qty, PriceOf(req, defaultPrice))];
      }
      assert fills == FillsOf(step, req, defaultPrice);
      hide FillsOf;
      ack := Work(req, id, fills, step.Some? && step.value.leaveWorking);
    }

    /** An order that is not rejected: one notice, its fills, and its place among the open orders. */
    method Work(req: OrderRequest, id: string, fills: seq<ScriptedFill>, leaveWorking: bool) returns (ack: Ack)
      requires Accounted(ledger.orders)
      modifies this, ledger
      ensures Accounted(ledger.orders) && script == old(script) && execSeq == old(execSeq) + 1 + |fills|
      ensures book == BookedAll(old(book), req, fills)
      ensures var es := [Event(req, id, old(execSeq) + 1, New, 0.0, 0.0, 0.0)] + FillEvents(req, id, old(execSeq) + 1, fills, |fills|);
        emitted == old(emitted) + es && ledger.State() == IngestAll(old(ledger.State()), es)
      ensures openOrders == if Total(fills) < req.qty && !leaveWorking
        then old(openOrders) + [Ack(id, "fakeord-" + id, PARTIAL, req.symbol, req.qty, Total(fills))] else old(openOrders)
      ensures ack == Ack(id, "fakeord-" + id, SUBMITTED, req.symbol, req.qty, 0.0)
    {
      ghost var t0, emitted0, start := ledger.State(), emitted, execSeq;
      ghost var notice := Event(req, id, start + 1, New, 0.0, 0.0, 0.0);
      assert notice == FillEvent(Numbered(id, start + 1), id, "fakeord-" + id, req.symbol, req.side, New, 0.0, 0.0, 0.0);
      hide *;
      var execId := NextExecId(id);
      Emit(FillEvent(execId, id, "fakeord-" + id, req.symbol, req.side, New, 0.0, 0.0, 0.0));
      IngestOne(t0, notice);
      var filled := EmitFills(req, id, fills, t0, emitted0, notice, start + 1);
      if filled < req.qty && !leaveWorking {
        openOrders := openOrders + [Ack(id, "fakeord-" + id, PARTIAL, req.symbol, req.qty, filled)];
      }
      ack := Ack(id, "fakeord-" + id, SUBMITTED, req.symbol, req.qty, 0.0);
    }

    method Close(symbol: string) returns (e: FillEvent)
      requires symbol in book && Accounted(ledger.orders)
      modifies this`execSeq, this`book, this`emitted, ledger
      ensures Accounted(ledger.orders) && execSeq == old(execSeq) + 1 && emitted == old(emitted) + [e]
      ensures e == FlattenEvent(symbol, old(book)[symbol], execSeq, defaultPrice)
      ensures ledger.State() == Ingest(old(ledger.State()), e) && book == old(book)[symbol := FLAT]
    {
      var pos := book[symbol];
      var id := FlattenId(symbol);
      var execId := NextExecId(id);
      var side := if pos.qty > 0.0 then SELL else BUY;
      e := FillEvent(execId, id, "fakeord-" + id, symbol, side, Fill, Abs(pos.qty), FlattenPrice(pos, defaultPrice), Abs(pos.qty));
      Emit(e);
      book := book[symbol := FLAT];
    }

    /** Sells or covers every held position, in no particular order. */
    method FlattenAll() returns (acks: seq<Ack>, ghost events: seq<FillEvent>)
      requires Accounted(ledger.orders)
      modifies this, ledger
      ensures Accounted(ledger.orders) && openOrders == [] && script == old(script)
      ensures emitted == old(emitted) + events && execSeq == old(execSeq) + |events|
      ensures Closes(old(book), HeldSymbols(old(book)), events, old(execSeq), defaultPrice)
      ensures ledger.State() == IngestAll(old(ledger.State()), events)
      ensures book == Flattened(old(book))
      ensures acks == ClosingAcks(events)
    {
      hide *;
      ghost var w0, emitted0 := World(ledger.State(), book, script, execSeq), emitted;
      acks, events := CloseHeld(HeldSymbols(book));
      AllFlat(w0, emitted0, events, World(ledger.State(), book, script, execSeq), emitted, defaultPrice);
      openOrders := [];
    }

    /** What the kill switch does to each account: flatten at the broker, then snap the ledger to what the
        broker lists. It is a `Flatten` step of the runs over which ledger and broker agree. */
    method FlattenAccount(account: AccountId) returns (acks: seq<Ack>, ghost events: seq<FillEvent>)
      requires Accounted(ledger.orders)
      modifies this, ledger
      ensures Permitted(old(World(ledger.State(), book, script, execSeq)), account, Flatten(events), defaultPrice)
      ensures World(ledger.State(), book, script, execSeq)
           == Act(old(World(ledger.State(), book, script, execSeq)), account, Flatten(events), defaultPrice)
      ensures acks == ClosingAcks(events) && openOrders == []
    {
      ghost var was := book;
      ghost var start := execSeq;
      hide Closes, IngestAll, Snapped, FlattenNumbers, ClosingAcks;
      acks, events := FlattenAll();
      ClosesIsNumbered(was, HeldSymbols(was), events, start, defaultPrice);
      var listed := ListPositions();
      var _ := ledger.ReconcilePositions(account, listed);
    }

    method CloseHeld(held: set<string>) returns (acks: seq<Ack>, ghost events: seq<FillEvent>)
      requires Accounted(ledger.orders) && held <= book.Keys
      modifies this`execSeq, this`book, this`emitted, ledger
      ensures Accounted(ledger.orders) && acks == ClosingAcks(events)
      ensures Flattening(old(World(ledger.State(), book, script, execSeq)), old(emitted), held, events,
                         World(ledger.State(), book, script, execSeq), emitted, defaultPrice)
    {
      hide *;
      ghost var w0 := World(ledger.State(), book, script, execSeq);
      acks, events := [], [];
      var todo := held;
      NothingFlat(w0, emitted, defaultPrice);
      assert held - todo == {};
      while todo != {}
        invariant todo <= held && Accounted(ledger.orders) && acks == ClosingAcks(events)
        invariant Flattening(w0, old(emitted), held - todo, events, World(ledger.State(), book, script, execSeq), emitted, defaultPrice)
        decreases |todo|
      {
        var symbol :| symbol in todo;
        FlattenOneMore(w0, old(emitted), held - todo, events, World(ledger.State(), book, script, execSeq), emitted, defaultPrice, symbol);
        var e := Close(symbol);
        ClosingAcksSnoc(events, e);
        assert held - (todo - {symbol}) == held - todo + {symbol};
        acks := acks + [ClosingAck(e)];
        events, todo := events + [e], todo - {symbol};
      }
      assert held - todo == held;
    }

    method ListPositions() returns (listed: map<string, Position>)
      ensures listed == Listed(book)
    {
      listed := map symbol | symbol in book && book[symbol].qty != 0.0 :: book[symbol];
    }

    method CancelOrder(brokerOrderId: string)
      modifies this`openOrders
      ensures openOrders == OthersOpen(old(openOrders), brokerOrderId)
    {
      openOrders := OthersOpen(openOrders, brokerOrderId);
    }
  }

  function OthersOpen(open: seq<Ack>, brokerOrderId: string): (kept: seq<Ack>)
    ensures forall a :: a in kept <==> a in open && a.brokerOrderId != brokerOrderId
  {
    if open == [] then []
    else OthersOpen(open[..|open| - 1], brokerOrderId) + if open[|open| - 1].brokerOrderId != brokerOrderId then [open[|open| - 1]] else []
  }

  /** One more fill of the order, in events, tables and book. */
  lemma {:induction false} NextFill(t: Tables, book: map<string, Position>, emitted: seq<FillEvent>, notice: FillEvent, req: OrderRequest,
                                    id: string, start: nat, fills: seq<ScriptedFill>, k: nat)
    requires k < |fills|
    ensures Total(fills[..k + 1]) == Total(fills[..k]) + fills[k].qty
    ensures BookedAll(book, req, fills[..k + 1]) == Booked(BookedAll(book, req, fills[..k]), req.symbol, req.side, fills[k].qty, fills[k].price)
    ensures var filled := Total(fills[..k + 1]);
      var e := FillEvent(Numbered(id, start + k + 1), id, "fakeord-" + id, req.symbol, req.side,
                         if k == |fills| - 1 && filled >= req.qty then Fill else PartialFill, fills[k].qty, fills[k].price, filled);
      var es := [notice] + FillEvents(req, id, start, fills, k);
      && [notice] + FillEvents(req, id, start, fills, k + 1) == es + [e]
      && emitted + ([notice] + FillEvents(req, id, start, fills, k + 1)) == emitted + es + [e]
      && IngestAll(t, [notice] + FillEvents(req, id, start, fills, k + 1)) == Ingest(IngestAll(t, es), e)
  {
    hide *;
    var es := FillEvents(req, id, start, fills, k);
    var e := NextFillEvent(req, id, start, fills, k);
    BookedLast(book, req, fills, k + 1);
    TotalLast(fills, k + 1);
    assert [notice] + FillEvents(req, id, start, fills, k + 1) == ([notice] + es) + [e];
    IngestAllSnoc(t, [notice] + es, e);
  }

  lemma {:induction false} NextFillEvent(req: OrderRequest, id: string, start: nat, fills: seq<ScriptedFill>, k: nat) returns (e: FillEvent)
    requires k < |fills|
    ensures var filled := Total(fills[..k + 1]);
      e == FillEvent(Numbered(id, start + k + 1), id, "fakeord-" + id, req.symbol, req.side,
                     if k == |fills| - 1 && filled >= req.qty then Fill else PartialFill, fills[k].qty, fills[k].price, filled)
    ensures FillEvents(req, id, start, fills, k + 1) == FillEvents(req, id, start, fills, k) + [e]
  {
    hide Total;
    e := FillEvents(req, id, start, fills, k + 1)[k];
  }

  lemma {:induction false} TotalLast(fills: seq<ScriptedFill>, k: nat)
    requires 0 < k <= |fills|
    ensures Total(fills[..k]) == Total(fills[..k - 1]) + fills[k - 1].qty
  {
    assert fills[..k][..k - 1] == fills[..k - 1];
  }
}
