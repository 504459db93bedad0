/** Delivery order does not matter for quantities (`orders/services.py`), and where it does. */
module LedgerConfluence {
  import opened Prelude
  import opened Positions
  import opened Ledger
  import opened LedgerOrders

  // ----- quantity is the signed sum over the recorded executions -----

  function RowQty(orders: seq<Order>, row: FillRow, key: PositionKey): real {
    if RowMoves(orders, row, key) then Signed(orders[row.order].side, row.qty) else 0.0
  }

  function RowsQty(orders: seq<Order>, fills: seq<FillRow>, key: PositionKey): real {
    if fills == [] then 0.0 else RowsQty(orders, fills[..|fills| - 1], key) + RowQty(orders, fills[|fills| - 1], key)
  }

  lemma {:induction false} HistoryQty(orders: seq<Order>, fills: seq<FillRow>, key: PositionKey)
    ensures MoveAll(FLAT, History(orders, fills, key)).qty == RowsQty(orders, fills, key)
  {
    if fills != [] {
      var front, row := fills[..|fills| - 1], fills[|fills| - 1];
      HistoryQty(orders, front, key);
      if RowMoves(orders, row, key) {
        MoveAllSnoc(FLAT, History(orders, front, key), RowExecution(orders, row));
      } else {
        assert History(orders, fills, key) == History(orders, front, key);
      }
      hide Move, MoveAll;
    }
  }

  /** After any deliveries without a reconcile, a position's quantity is the signed sum over the fill
      rows, of which there is one for each account and execution id. */
  lemma {:induction false} QuantityIsSumOfFills(t: Tables, es: seq<FillEvent>, key: PositionKey)
    requires LedgerInv(t)
    ensures var after := IngestAll(t, es);
      && KeysUnique(after.fills)
      && PositionOf(after.positions, key).qty == RowsQty(after.orders, after.fills, key)
  {
    hide *;
    IngestAllKeepsInv(t, es);
    QuantityFollows(IngestAll(t, es), key);
  }

  lemma {:induction false} QuantityFollows(t: Tables, key: PositionKey)
    requires LedgerInv(t)
    ensures KeysUnique(t.fills) && PositionOf(t.positions, key).qty == RowsQty(t.orders, t.fills, key)
  {
    HistoryQty(t.orders, t.fills, key);
    hide History, RowsQty, KeysUnique, RowsGenuine;
  }

  // ----- two tables of the same executions -----

  predicate SameExecution(a: FillRow, b: FillRow) {
    a.account == b.account && a.execId == b.execId && a.order == b.order && a.qty == b.qty
  }

  ghost predicate Appears(row: FillRow, gs: seq<FillRow>) {
    exists k :: 0 <= k < |gs| && SameExecution(row, gs[k])
  }

  ghost predicate Covered(fs: seq<FillRow>, gs: seq<FillRow>) {
    forall j :: 0 <= j < |fs| ==> Appears(fs[j], gs)
  }

  function Without(gs: seq<FillRow>, k: nat): seq<FillRow>
    requires k < |gs|
  {
    gs[..k] + gs[k + 1..]
  }

  lemma {:induction false} RowsQtySnoc(orders: seq<Order>, fills: seq<FillRow>, row: FillRow, key: PositionKey)
    ensures RowsQty(orders, fills + [row], key) == RowsQty(orders, fills, key) + RowQty(orders, row, key)
  {
    assert (fills + [row])[..|fills|] == fills;
  }

  lemma {:induction false} RowsQtyWithout(orders: seq<Order>, gs: seq<FillRow>, k: nat, key: PositionKey)
    requires k < |gs|
    ensures RowsQty(orders, gs, key) == RowsQty(orders, Without(gs, k), key) + RowQty(orders, gs[k], key)
    decreases |gs|
  {
    var n := |gs| - 1;
    if k < n {
      RowsQtyWithout(orders, gs[..n], k, key);
      assert Without(gs, k) == Without(gs[..n], k) + [gs[n]];
      RowsQtySnoc(orders, Without(gs[..n], k), gs[n], key);
    } else {
      assert Without(gs, k) == gs[..n];
    }
  }

  lemma {:induction false} AppearsWithout(row: FillRow, gs: seq<FillRow>, k: nat)
    requires k < |gs| && Appears(row, gs) && !SameExecution(row, gs[k])
    ensures Appears(row, Without(gs, k))
  {
    var m :| 0 <= m < |gs| && SameExecution(row, gs[m]);
    assert Without(gs, k)[if m < k then m else m - 1] == gs[m];
  }

  predicate SameKey(a: FillRow, b: FillRow) {
    a.account == b.account && a.execId == b.execId
  }

  /** Taking one execution out of both tables leaves the rest covering each other. */
  lemma {:induction false} CoveredWithout(fs: seq<FillRow>, i: nat, gs: seq<FillRow>, k: nat)
    requires i < |fs| && k < |gs| && SameKey(fs[i], gs[k])
    requires KeysUnique(fs) && Covered(fs, gs)
    ensures Covered(Without(fs, i), Without(gs, k))
  {
    var rest := Without(fs, i);
    forall j | 0 <= j < |rest| ensures Appears(rest[j], Without(gs, k)) {
      var at := if j < i then j else j + 1;
      assert rest[j] == fs[at] && Appears(fs[at], gs);
      assert !SameKey(fs[at], fs[i]);
      AppearsWithout(fs[at], gs, k);
    }
  }

  lemma {:induction false} CoveredByNothing(gs: seq<FillRow>)
    requires gs != []
    ensures !Covered(gs, [])
  {
    assert !Appears(gs[0], []);
  }

  lemma {:induction false} WithoutUnique(gs: seq<FillRow>, k: nat)
    requires k < |gs| && KeysUnique(gs)
    ensures KeysUnique(Without(gs, k))
  {
    var rest := Without(gs, k);
    forall i, j | 0 <= i < j < |rest| ensures !(rest[i].account == rest[j].account && rest[i].execId == rest[j].execId) {
      assert rest[i] == gs[if i < k then i else i + 1] && rest[j] == gs[if j < k then j else j + 1];
    }
  }

  lemma {:induction false} SameExecutionsSameQty(orders: seq<Order>, fs: seq<FillRow>, gs: seq<FillRow>, key: PositionKey)
    requires KeysUnique(fs) && KeysUnique(gs) && Covered(fs, gs) && Covered(gs, fs)
    ensures RowsQty(orders, fs, key) == RowsQty(orders, gs, key)
    decreases |fs|
  {
    if fs == [] {
      if gs != [] {
        CoveredByNothing(gs);
      }
    } else {
      var n := |fs| - 1;
      assert Appears(fs[n], gs);
      var k :| 0 <= k < |gs| && SameExecution(fs[n], gs[k]);
      WithoutUnique(gs, k);
      WithoutUnique(fs, n);
      CoveredWithout(fs, n, gs, k);
      CoveredWithout(gs, k, fs, n);
      assert Without(fs, n) == fs[..n];
      hide Covered, KeysUnique, RowMoves, Appears;
      SameExecutionsSameQty(orders, fs[..n], Without(gs, k), key);
      RowsQtyWithout(orders, gs, k, key);
      assert RowQty(orders, fs[n], key) == RowQty(orders, gs[k], key) by {
        SameRowQty(orders, fs[n], gs[k], key);
      }
    }
  }

  lemma {:induction false} SameRowQty(orders: seq<Order>, a: FillRow, b: FillRow, key: PositionKey)
    requires SameExecution(a, b)
    ensures RowQty(orders, a, key) == RowQty(orders, b, key)
  {}

  // ----- what a delivery leaves in the table -----

  /** The order the event belongs to can be told without looking at broker order ids, which earlier events
      may have rewritten. */
  predicate Anchored(orders: seq<Order>, e: FillEvent) {
    FindByClient(orders, e.clientOrderId).Some? || e.brokerOrderId == ""
  }

  predicate Records(orders: seq<Order>, e: FillEvent, row: FillRow) {
    && Executes(e) && FindByClient(orders, e.clientOrderId) == Some(row.order) && orders[row.order].account == Some(row.account)
    && row.execId == e.execId && row.qty == e.qty
  }

  /** Redeliveries are true ones: events with the same account and execution id agree on order and
      quantity. */
  ghost predicate Consistent(orders: seq<Order>, es: seq<FillEvent>) {
    forall r, s ::
      FromEvent(orders, es, r) && FromEvent(orders, es, s) && r.account == s.account && r.execId == s.execId
      ==> SameExecution(r, s)
  }

  ghost predicate FromEvent(orders: seq<Order>, es: seq<FillEvent>, row: FillRow) {
    exists e :: e in es && Records(orders, e, row)
  }

  ghost predicate AllAnchored(orders: seq<Order>, es: seq<FillEvent>) {
    forall e :: e in es ==> Anchored(orders, e)
  }

  /** The rows of `after` are those of `t`, then rows recorded from delivered events; and every delivered
      execution is there. */
  ghost predicate Recorded(t: Tables, es: seq<FillEvent>, after: Tables) {
    && t.fills <= after.fills
    && (forall k :: |t.fills| <= k < |after.fills| ==> FromEvent(t.orders, es, after.fills[k]))
    && (forall row :: FromEvent(t.orders, es, row) ==> Seen(after.fills, row.account, row.execId))
  }

  lemma {:induction false} ResolveAnchored(t: Tables, now: seq<Order>, e: FillEvent)
    requires SameOrders(t.orders, now) && Anchored(t.orders, e)
    ensures Resolve(now, e) == FindByClient(t.orders, e.clientOrderId)
  {
    FindByClientSame(t.orders, now, e.clientOrderId);
  }

  lemma {:induction false} FromEventSnoc(orders: seq<Order>, es: seq<FillEvent>, e: FillEvent, row: FillRow)
    ensures FromEvent(orders, es + [e], row) <==> FromEvent(orders, es, row) || Records(orders, e, row)
  {
    assert forall x :: x in es + [e] <==> x in es || x == e;
    hide Records;
    if Records(orders, e, row) {
      assert e in es + [e];
    }
  }

  lemma {:induction false} RecordedStep(t: Tables, es: seq<FillEvent>, e: FillEvent, before: Tables)
    requires Anchored(t.orders, e) && SameOrders(t.orders, before.orders) && Recorded(t, es, before)
    ensures Recorded(t, es + [e], Ingest(before, e))
  {
    var after := Ingest(before, e);
    var found := FindByClient(t.orders, e.clientOrderId);
    ResolveAnchored(t, before.orders, e);
    hide Seen, UpdatedOrder, Apply, Resolve, FindByClient;
    assert found.Some? ==> SameColumns(t.orders[found.value], before.orders[found.value]);
    assert before.fills <= after.fills;
    forall k | |t.fills| <= k < |after.fills| ensures FromEvent(t.orders, es + [e], after.fills[k]) {
      FromEventSnoc(t.orders, es, e, after.fills[k]);
      if k < |before.fills| {
        assert after.fills[k] == before.fills[k];
      }
    }
    forall row | FromEvent(t.orders, es + [e], row) ensures Seen(after.fills, row.account, row.execId) {
      FromEventSnoc(t.orders, es, e, row);
      SeenAfter(before, e, row.account, row.execId);
    }
  }

  lemma {:induction false} DeliveriesRecorded(t: Tables, es: seq<FillEvent>)
    requires AllAnchored(t.orders, es)
    ensures Recorded(t, es, IngestAll(t, es))
  {
    if es != [] {
      var front, e := es[..|es| - 1], es[|es| - 1];
      DeliveriesRecorded(t, front);
      IngestKeepsColumns(t, front);
      assert es == front + [e];
      hide Recorded, Anchored;
      RecordedStep(t, front, e, IngestAll(t, front));
    }
  }

  lemma {:induction false} RecordedCovers(t: Tables, es: seq<FillEvent>, fs: Tables, es': seq<FillEvent>, gs: Tables)
    requires Recorded(t, es, fs) && Recorded(t, es', gs) && KeysUnique(fs.fills)
    requires forall e :: e in es ==> e in es'
    requires Consistent(t.orders, es')
    ensures Covered(fs.fills, gs.fills)
  {
    forall j | 0 <= j < |fs.fills| ensures Appears(fs.fills[j], gs.fills) {
      var row := fs.fills[j];
      if j < |t.fills| {
        assert gs.fills[j] == t.fills[j] == row;
      } else {
        SameFromEvent(t.orders, es, es', row);
        var k :| 0 <= k < |gs.fills| && gs.fills[k].account == row.account && gs.fills[k].execId == row.execId;
        EarlierKeysDiffer(t.fills, fs.fills, gs.fills, j);
        assert FromEvent(t.orders, es', gs.fills[k]);
      }
    }
  }

  lemma {:induction false} EarlierKeysDiffer(start: seq<FillRow>, fs: seq<FillRow>, gs: seq<FillRow>, j: nat)
    requires start <= fs && start <= gs && KeysUnique(fs) && |start| <= j < |fs|
    ensures forall k :: 0 <= k < |start| ==> !(gs[k].account == fs[j].account && gs[k].execId == fs[j].execId)
  {
    forall k | 0 <= k < |start| ensures gs[k] == fs[k] {
      assert gs[k] == start[k] == fs[k];
    }
  }

  lemma {:induction false} SameFromEvent(orders: seq<Order>, es: seq<FillEvent>, es': seq<FillEvent>, row: FillRow)
    requires forall e :: e in es ==> e in es'
    requires FromEvent(orders, es, row)
    ensures FromEvent(orders, es', row)
  {}

  /** Confluence: two deliveries of the same events, in whatever orders and with whatever repetitions,
      leave every position with the same quantity. */
  lemma {:induction false} QuantityConfluent(t: Tables, es: seq<FillEvent>, es': seq<FillEvent>, key: PositionKey)
    requires LedgerInv(t) && AllAnchored(t.orders, es) && Consistent(t.orders, es)
    requires forall e :: e in es <==> e in es'
    ensures PositionOf(IngestAll(t, es).positions, key).qty == PositionOf(IngestAll(t, es').positions, key).qty
  {
    hide *;
    SameEvents(t.orders, es, es');
    QuantityFrom(t, es, key);
    QuantityFrom(t, es', key);
    var fs, gs := IngestAll(t, es), IngestAll(t, es');
    RecordedCovers(t, es, fs, es', gs);
    RecordedCovers(t, es', gs, es, fs);
    SameExecutionsSameQty(t.orders, fs.fills, gs.fills, key);
  }

  lemma {:induction false} SameEvents(orders: seq<Order>, es: seq<FillEvent>, es': seq<FillEvent>)
    requires AllAnchored(orders, es) && Consistent(orders, es)
    requires forall e :: e in es <==> e in es'
    ensures AllAnchored(orders, es') && Consistent(orders, es')
  {
    forall r | FromEvent(orders, es', r) ensures FromEvent(orders, es, r) {
      SameFromEvent(orders, es', es, r);
    }
  }

  lemma {:induction false} QuantityFrom(t: Tables, es: seq<FillEvent>, key: PositionKey)
    requires LedgerInv(t) && AllAnchored(t.orders, es)
    ensures var after := IngestAll(t, es);
      && Recorded(t, es, after) && KeysUnique(after.fills)
      && PositionOf(after.positions, key).qty == RowsQty(t.orders, after.fills, key)
  {
    hide *;
    var after := IngestAll(t, es);
    DeliveriesRecorded(t, es);
    QuantityIsSumOfFills(t, es, key);
    IngestKeepsColumns(t, es);
    RowsQtySame(t.orders, after.orders, after.fills, key);
  }

  lemma {:induction false} RowsQtySame(a: seq<Order>, b: seq<Order>, fills: seq<FillRow>, key: PositionKey)
    requires SameOrders(a, b)
    ensures RowsQty(a, fills, key) == RowsQty(b, fills, key)
  {
    if fills != [] {
      RowsQtySame(a, b, fills[..|fills| - 1], key);
      var row := fills[|fills| - 1];
      assert row.order < |a| ==> SameColumns(a[row.order], b[row.order]);
    }
  }

  // ----- without the anchor -----

  /** The event's client order id, or else its non-empty broker order id, names a row. */
  predicate NamesRow(orders: seq<Order>, e: FillEvent) {
    || (exists k :: 0 <= k < |orders| && orders[k].clientOrderId == e.clientOrderId)
    || (e.brokerOrderId != "" && exists k :: 0 <= k < |orders| && orders[k].brokerOrderId == e.brokerOrderId)
  }

  ghost predicate HasExecution(fills: seq<FillRow>, id: ExecId) {
    exists k :: 0 <= k < |fills| && fills[k].execId == id
  }

  lemma {:induction false} ResolvesIffNamed(orders: seq<Order>, e: FillEvent)
    ensures Resolve(orders, e).Some? <==> NamesRow(orders, e)
  {
    var byClient, byBroker := FindByClient(orders, e.clientOrderId), FindByBroker(orders, e.brokerOrderId);
    assert byClient.Some? ==> orders[byClient.value].clientOrderId == e.clientOrderId;
    assert byBroker.Some? ==> orders[byBroker.value].brokerOrderId == e.brokerOrderId;
    hide FindByClient, FindByBroker;
  }

  /** Exactly when a new execution, anchored or not, is recorded: when its ids name a row at the moment it
      is delivered, and that row still has its account. */
  lemma {:induction false} RecordedIffNamed(t: Tables, es: seq<FillEvent>, e: FillEvent)
    requires Executes(e) && !HasExecution(IngestAll(t, es).fills, e.execId)
    ensures var before := IngestAll(t, es);
      HasExecution(IngestAll(t, es + [e]).fills, e.execId) <==>
        NamesRow(before.orders, e) && before.orders[Resolve(before.orders, e).value].account.Some?
  {
    var before := IngestAll(t, es);
    IngestAllSnoc(t, es, e);
    ResolvesIffNamed(before.orders, e);
    hide IngestAll, Resolve, NamesRow, UpdatedOrder, Apply;
    var found := Resolve(before.orders, e);
    if found.Some? && before.orders[found.value].account.Some? {
      assert !Seen(before.fills, before.orders[found.value].account.value, e.execId);
      assert Ingest(before, e).fills[|before.fills|].execId == e.execId;
    }
  }

  /** The event reaches row `i` by its client order id and carries a broker order id. */
  predicate Brings(orders: seq<Order>, e: FillEvent, i: nat)
    requires i < |orders|
  {
    && FindByClient(orders, e.clientOrderId) == Some(i) && e.brokerOrderId != ""
    && (Executes(e) ==> orders[i].account.Some?)
  }

  /** The broker id that the deliveries leave row `i` with: the last one brought, or the one it began with. */
  ghost predicate LeftWith(orders: seq<Order>, es: seq<FillEvent>, i: nat, id: string)
    requires i < |orders|
  {
    || (orders[i].brokerOrderId == id && forall m :: 0 <= m < |es| ==> !Brings(orders, es[m], i))
    || exists j :: 0 <= j < |es| && LastBrings(orders, es, i, j) && es[j].brokerOrderId == id
  }

  ghost predicate LastBrings(orders: seq<Order>, es: seq<FillEvent>, i: nat, j: nat)
    requires i < |orders| && j < |es|
  {
    Brings(orders, es[j], i) && forall m :: j < m < |es| ==> !Brings(orders, es[m], i)
  }

  lemma {:induction false} LeftWithSnoc(orders: seq<Order>, es: seq<FillEvent>, e: FillEvent, i: nat, id: string)
    requires i < |orders|
    ensures LeftWith(orders, es + [e], i, id) <==> if Brings(orders, e, i) then e.brokerOrderId == id else LeftWith(orders, es, i, id)
  {
    hide Brings;
    var longer := es + [e];
    assert longer[|es|] == e && forall m :: 0 <= m < |es| ==> longer[m] == es[m];
    if Brings(orders, e, i) {
      assert LastBrings(orders, longer, i, |es|);
    } else {
      forall j | 0 <= j < |es| ensures LastBrings(orders, longer, i, j) <==> LastBrings(orders, es, i, j) {}
    }
  }

  lemma {:induction false} OneBrings(t: Tables, before: Tables, e: FillEvent, i: nat)
    requires i < |t.orders| && SameOrders(t.orders, before.orders) && Anchored(t.orders, e)
    ensures Ingest(before, e).orders[i].brokerOrderId == if Brings(t.orders, e, i) then e.brokerOrderId else before.orders[i].brokerOrderId
  {
    ResolveAnchored(t, before.orders, e);
    IngestOrder(before, e, i);
    assert SameColumns(t.orders[i], before.orders[i]);
    hide Ingest, Resolve, FindByClient, NextStatus, NextFilled, Creates;
  }

  lemma {:induction false} BrokerIdAfter(t: Tables, es: seq<FillEvent>, i: nat, id: string)
    requires i < |t.orders| && AllAnchored(t.orders, es)
    ensures IngestAll(t, es).orders[i].brokerOrderId == id <==> LeftWith(t.orders, es, i, id)
  {
    hide Ingest, Brings, Anchored;
    if es != [] {
      var front, e := es[..|es| - 1], es[|es| - 1];
      BrokerIdAfter(t, front, i, id);
      IngestKeepsColumns(t, front);
      OneBrings(t, IngestAll(t, front), e, i);
      assert es == front + [e];
      LeftWithSnoc(t.orders, front, e, i, id);
      hide LeftWith;
    }
  }

  /** In terms of what was delivered before: after events that can all be placed by their client ids, a new
      execution is recorded if and only if its client id is an order's, or its broker id is the last one that
      those events, or else the placement itself, gave to some order. */
  lemma {:induction false} RecordedIffBrought(t: Tables, es: seq<FillEvent>, e: FillEvent)
    requires AllAnchored(t.orders, es) && forall i :: 0 <= i < |t.orders| ==> t.orders[i].account.Some?
    requires Executes(e) && !HasExecution(IngestAll(t, es).fills, e.execId)
    ensures HasExecution(IngestAll(t, es + [e]).fills, e.execId) <==>
      || (exists i :: 0 <= i < |t.orders| && t.orders[i].clientOrderId == e.clientOrderId)
      || (e.brokerOrderId != "" && exists i :: 0 <= i < |t.orders| && LeftWith(t.orders, es, i, e.brokerOrderId))
  {
    var before := IngestAll(t, es);
    RecordedIffNamed(t, es, e);
    IngestKeepsColumns(t, es);
    ResolvesIffNamed(before.orders, e);
    hide IngestAll, Resolve, HasExecution, LeftWith, AllAnchored;
    forall i | 0 <= i < |t.orders|
      ensures before.orders[i].account.Some? && before.orders[i].clientOrderId == t.orders[i].clientOrderId
      ensures before.orders[i].brokerOrderId == e.brokerOrderId <==> LeftWith(t.orders, es, i, e.brokerOrderId)
    {
      assert SameColumns(t.orders[i], before.orders[i]);
      BrokerIdAfter(t, es, i, e.brokerOrderId);
    }
  }

  const ACKNOWLEDGED := FillEvent(Named("1"), "c", "b", "SYM", BUY, New, 0.0, 0.0, 0.0)
  const ANONYMOUS := FillEvent(Named("2"), "?", "b", "SYM", BUY, Fill, 5.0, 10.0, 5.0)

  lemma {:induction false} BrokerIdKnown(t: Tables)
    requires t == Tables([Order(Some("acct"), "c", "", "SYM", BUY, 5.0, SUBMITTED, 0.0)], [], map[])
    ensures PositionOf(Ingest(Ingest(t, ACKNOWLEDGED), ANONYMOUS).positions, PositionKey("acct", "SYM")).qty == 5.0
  {
    assert "c" != "?";
    OneOrder(t);
    OneOrder(Ingest(t, ACKNOWLEDGED));
    hide Move, FindByClient, FindByBroker;
  }

  lemma {:induction false} BrokerIdUnknown(t: Tables)
    requires t == Tables([Order(Some("acct"), "c", "", "SYM", BUY, 5.0, SUBMITTED, 0.0)], [], map[])
    ensures PositionOf(Ingest(Ingest(t, ANONYMOUS), ACKNOWLEDGED).positions, PositionKey("acct", "SYM")).qty == 0.0
  {
    assert "c" != "?" && "b" != "";
    OneOrder(t);
    hide Move, FindByClient, FindByBroker;
  }

  /** An event that only a broker order id can place is lost if it comes before the event that brings that
      id: here the two orders of delivery end with five shares and with none. */
  lemma {:induction false} BrokerIdsAreOrderDependent(t: Tables)
    requires t == Tables([Order(Some("acct"), "c", "", "SYM", BUY, 5.0, SUBMITTED, 0.0)], [], map[])
    ensures PositionOf(IngestAll(t, [ACKNOWLEDGED, ANONYMOUS]).positions, PositionKey("acct", "SYM")).qty == 5.0
    ensures PositionOf(IngestAll(t, [ANONYMOUS, ACKNOWLEDGED]).positions, PositionKey("acct", "SYM")).qty == 0.0
  {
    BrokerIdKnown(t);
    BrokerIdUnknown(t);
    hide Ingest;
    IngestTwo(t, ACKNOWLEDGED, ANONYMOUS);
    IngestTwo(t, ANONYMOUS, ACKNOWLEDGED);
  }

  const FIVE := FillEvent(Named("1"), "c", "", "SYM", BUY, PartialFill, 5.0, 10.0, 5.0)
  const THREE := FillEvent(Named("1"), "c", "", "SYM", BUY, PartialFill, 3.0, 10.0, 3.0)

  lemma {:induction false} FirstOneCounts(t: Tables, a: FillEvent, b: FillEvent)
    requires t == Tables([Order(Some("acct"), "c", "", "SYM", BUY, 5.0, SUBMITTED, 0.0)], [], map[])
    requires a.clientOrderId == b.clientOrderId == "c" && a.execId == b.execId && Executes(a) && Executes(b)
    ensures PositionOf(Ingest(Ingest(t, a), b).positions, PositionKey("acct", "SYM")).qty == a.qty
  {
    OneOrder(t);
    var mid := Ingest(t, a);
    assert mid.fills == [FillRow("acct", a.execId, 0, a.qty, a.price)];
    assert Seen(mid.fills, "acct", b.execId) by { assert mid.fills[0].execId == b.execId; }
    OneOrder(mid);
    hide FindByClient, FindByBroker, UpdatedOrder;
  }

  /** Redeliveries must be true ones: two different reports under one execution id are both anchored, and
      whichever comes first is the one that counts. */
  lemma {:induction false} FirstReportCounts(t: Tables)
    requires t == Tables([Order(Some("acct"), "c", "", "SYM", BUY, 5.0, SUBMITTED, 0.0)], [], map[])
    ensures AllAnchored(t.orders, [FIVE, THREE])
    ensures PositionOf(IngestAll(t, [FIVE, THREE]).positions, PositionKey("acct", "SYM")).qty == 5.0
    ensures PositionOf(IngestAll(t, [THREE, FIVE]).positions, PositionKey("acct", "SYM")).qty == 3.0
  {
    OneOrder(t);
    FirstOneCounts(t, FIVE, THREE);
    FirstOneCounts(t, THREE, FIVE);
    hide Ingest, FindByClient;
    IngestTwo(t, FIVE, THREE);
    IngestTwo(t, THREE, FIVE);
  }

  lemma {:induction false} IngestTwo(t: Tables, a: FillEvent, b: FillEvent)
    ensures IngestAll(t, [a, b]) == Ingest(Ingest(t, a), b)
  {
    hide Ingest;
    IngestAllSnoc(t, [], a);
    IngestAllSnoc(t, [a], b);
    assert [a] + [b] == [a, b];
  }

  lemma {:induction false} OneOrder(t: Tables)
    requires |t.orders| == 1
    ensures forall id :: FindByClient(t.orders, id) == if t.orders[0].clientOrderId == id then Some(0) else None
    ensures forall id :: FindByBroker(t.orders, id) == if t.orders[0].brokerOrderId == id then Some(0) else None
  {}
}
