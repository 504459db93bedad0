/** What an order row goes through under ingest (`orders/services.py`): its filled quantity and status
    over arbitrary deliveries, and over the deliveries an at-least-once stream makes of one order. */
module LedgerOrders {
  import opened Prelude
  import opened Positions
  import opened Ledger

  // ----- any deliveries -----

  predicate Hits(t: Tables, e: FillEvent, i: nat) {
    Resolve(t.orders, e) == Some(i) && !Fails(t, e)
  }

  lemma {:induction false} IngestOrder(t: Tables, e: FillEvent, i: nat)
    requires i < |t.orders|
    ensures Ingest(t, e).orders[i] == if Hits(t, e, i) then UpdatedOrder(t.orders[i], Creates(t, i, e), e) else t.orders[i]
  {
    hide UpdatedOrder, Creates, Apply, Resolve;
  }

  lemma {:induction false} FilledNeverDecreases(t: Tables, es: seq<FillEvent>, i: nat)
    requires i < |t.orders|
    ensures IngestAll(t, es).orders[i].filledQty >= t.orders[i].filledQty
  {
    if es != [] {
      var front := es[..|es| - 1];
      FilledNeverDecreases(t, front, i);
      IngestOrder(IngestAll(t, front), es[|es| - 1], i);
      hide NextStatus, Creates, Hits, Ingest;
    }
  }

  /** A filled order stops being FILLED only through a terminal `fill` event that leaves it short. */
  lemma {:induction false} FilledLeftOnlyWhenShort(t: Tables, e: FillEvent, i: nat)
    requires i < |t.orders| && t.orders[i].status == FILLED
    ensures Ingest(t, e).orders[i].status != FILLED <==>
      Hits(t, e, i) && e.kind == Fill && NextFilled(t.orders[i].filledQty, Creates(t, i, e), e) < t.orders[i].qty
  {
    IngestOrder(t, e, i);
    hide NextFilled, Creates, Hits, Ingest;
  }

  /** Ingest marks an order FILLED only with its whole quantity filled. */
  lemma {:induction false} FilledMeansWhole(t: Tables, e: FillEvent, i: nat)
    requires i < |t.orders| && t.orders[i].status != FILLED && Ingest(t, e).orders[i].status == FILLED
    ensures Ingest(t, e).orders[i].filledQty >= Ingest(t, e).orders[i].qty
  {
    IngestOrder(t, e, i);
    hide NextFilled, Creates, Hits, Ingest;
  }

  lemma {:induction false} WholeStaysFilled(t: Tables, es: seq<FillEvent>, i: nat)
    requires i < |t.orders| && t.orders[i].status == FILLED && t.orders[i].filledQty >= t.orders[i].qty
    ensures IngestAll(t, es).orders[i].status == FILLED
  {
    if es != [] {
      var front, e := es[..|es| - 1], es[|es| - 1];
      var before := IngestAll(t, front);
      WholeStaysFilled(t, front, i);
      FilledNeverDecreases(t, front, i);
      IngestKeepsColumns(t, front);
      FilledLeftOnlyWhenShort(before, e, i);
      hide Hits, Ingest;
    }
  }

  /** FILLED is absorbing: once an event has marked the order, nothing delivered later unmarks it. */
  lemma {:induction false} FilledIsAbsorbing(t: Tables, e: FillEvent, later: seq<FillEvent>, i: nat)
    requires i < |t.orders| && t.orders[i].status != FILLED && Ingest(t, e).orders[i].status == FILLED
    ensures IngestAll(Ingest(t, e), later).orders[i].status == FILLED
  {
    FilledMeansWhole(t, e, i);
    WholeStaysFilled(Ingest(t, e), later, i);
  }

  /** CANCELLED and REJECTED are not: exactly a terminal `fill` event overwrites them. */
  lemma {:induction false} CancelledIsNotAbsorbing(t: Tables, e: FillEvent, i: nat)
    requires i < |t.orders| && t.orders[i].status in {CANCELLED, REJECTED}
    ensures Ingest(t, e).orders[i].status != t.orders[i].status <==> Hits(t, e, i) && e.kind == Fill
  {
    IngestOrder(t, e, i);
    hide NextFilled, Creates, Hits, Ingest;
  }

  /** A cancel or a reject stops an order that is not terminal, and it stays stopped through everything but a
      terminal `fill`. */
  lemma {:induction false} StoppedUntilFill(t: Tables, e: FillEvent, later: seq<FillEvent>, i: nat)
    requires i < |t.orders| && Hits(t, e, i) && (e.kind == Canceled || e.kind == Rejected)
    requires t.orders[i].status !in {FILLED, CANCELLED, REJECTED}
    requires forall k :: 0 <= k < |later| ==> later[k].kind != Fill
    ensures IngestAll(Ingest(t, e), later).orders[i].status == if e.kind == Canceled then CANCELLED else REJECTED
  {
    IngestOrder(t, e, i);
    if later != [] {
      var front := later[..|later| - 1];
      StoppedUntilFill(t, e, front, i);
      CancelledIsNotAbsorbing(IngestAll(Ingest(t, e), front), later[|later| - 1], i);
    }
    hide NextFilled, Creates, Hits, Ingest;
  }

  // ----- the executions of one order -----

  datatype Exec = Exec(id: ExecId, qty: real)

  ghost predicate Executions(xs: seq<Exec>) {
    && (forall k :: 0 <= k < |xs| ==> xs[k].qty > 0.0)
    && (forall j, k :: 0 <= j < k < |xs| ==> xs[j].id != xs[k].id)
  }

  /** The broker's cumulative filled quantity after its first `k` executions. */
  function Cumulative(xs: seq<Exec>, k: nat): real
    requires k <= |xs|
  {
    if k == 0 then 0.0 else Cumulative(xs, k - 1) + xs[k - 1].qty
  }

  lemma {:induction false} CumulativeGrows(xs: seq<Exec>, j: nat, k: nat)
    requires Executions(xs) && j <= k <= |xs|
    ensures Cumulative(xs, j) <= Cumulative(xs, k)
    ensures j < k ==> Cumulative(xs, j) + xs[k - 1].qty <= Cumulative(xs, k)
    decreases k
  {
    if j < k {
      CumulativeGrows(xs, j, k - 1);
    }
  }

  /** The event reports execution `k` of order `i`. */
  ghost predicate Reports(orders: seq<Order>, i: nat, xs: seq<Exec>, e: FillEvent, k: nat) {
    && k < |xs|
    && Executes(e) && e.execId == xs[k].id && e.qty == xs[k].qty && e.filledQty == Cumulative(xs, k + 1)
    && FindByClient(orders, e.clientOrderId) == Some(i)
  }

  /** The event is about another order and none of these executions. */
  ghost predicate Elsewhere(orders: seq<Order>, i: nat, xs: seq<Exec>, e: FillEvent) {
    && FindByClient(orders, e.clientOrderId).Some? && FindByClient(orders, e.clientOrderId) != Some(i)
    && forall k :: 0 <= k < |xs| ==> e.execId != xs[k].id
  }

  /** What one event of a stream is: a report of execution `k`, or something about another order. */
  datatype Delivery = Delivered(k: nat) | Other

  /** What a stream of events delivers of the order: an execution of it, or something about another one. */
  ghost predicate Delivers(orders: seq<Order>, i: nat, xs: seq<Exec>, es: seq<FillEvent>, ks: seq<Delivery>) {
    && |es| == |ks|
    && forall j :: 0 <= j < |es| ==>
         match ks[j]
         case Delivered(k) => Reports(orders, i, xs, es[j], k)
         case Other => Elsewhere(orders, i, xs, es[j])
  }

  /** Number of executions up to the latest one delivered. */
  function Reach(ks: seq<Delivery>): (n: nat)
    ensures forall j :: 0 <= j < |ks| && ks[j].Delivered? ==> ks[j].k < n
    ensures n > 0 ==> Delivered(n - 1) in ks
  {
    if ks == [] then 0
    else
      var n, k := Reach(ks[..|ks| - 1]), ks[|ks| - 1];
      if k.Delivered? && k.k >= n then k.k + 1 else n
  }

  /** Every execution is either a replay of a delivered one or later than all of them. */
  ghost predicate InOrder(ks: seq<Delivery>) {
    forall j :: 0 <= j < |ks| && ks[j].Delivered? ==> ks[j] in ks[..j] || ks[j].k >= Reach(ks[..j])
  }

  ghost predicate Untouched(t: Tables, i: nat, xs: seq<Exec>) {
    && i < |t.orders| && t.orders[i].account.Some? && t.orders[i].filledQty == 0.0
    && forall k :: 0 <= k < |xs| ==> !Seen(t.fills, t.orders[i].account.value, xs[k].id)
  }

  lemma {:induction false} SeenSnoc(fills: seq<FillRow>, row: FillRow, account: AccountId, id: ExecId)
    ensures Seen(fills + [row], account, id) <==> Seen(fills, account, id) || (row.account == account && row.execId == id)
  {
    var longer := fills + [row];
    if Seen(fills, account, id) {
      var k :| 0 <= k < |fills| && fills[k].account == account && fills[k].execId == id;
      assert longer[k] == fills[k];
    }
    assert longer[|fills|] == row;
  }

  /** The execution rows of the order are exactly the delivered executions. */
  lemma {:induction false} SeenAfter(t: Tables, e: FillEvent, account: AccountId, id: ExecId)
    ensures Seen(Ingest(t, e).fills, account, id) <==>
      Seen(t.fills, account, id)
      || (Resolve(t.orders, e).Some? && Executes(e) && e.execId == id
          && t.orders[Resolve(t.orders, e).value].account == Some(account))
  {
    var found := Resolve(t.orders, e);
    if found.Some? && !Fails(t, e) && Creates(t, found.value, e) {
      SeenSnoc(t.fills, FillRow(t.orders[found.value].account.value, e.execId, found.value, e.qty, e.price), account, id);
    }
    hide Seen, UpdatedOrder, Apply, Resolve;
  }

  /** One event of the stream. */
  ghost predicate IsDelivery(orders: seq<Order>, i: nat, xs: seq<Exec>, e: FillEvent, d: Delivery) {
    match d
    case Delivered(k) => Reports(orders, i, xs, e, k)
    case Other => Elsewhere(orders, i, xs, e)
  }

  lemma {:induction false} DeliversFront(orders: seq<Order>, i: nat, xs: seq<Exec>, es: seq<FillEvent>, ks: seq<Delivery>)
    requires Delivers(orders, i, xs, es, ks) && es != []
    ensures |ks| == |es| && Delivers(orders, i, xs, es[..|es| - 1], ks[..|es| - 1])
    ensures IsDelivery(orders, i, xs, es[|es| - 1], ks[|es| - 1])
  {
    hide Reports, Elsewhere;
  }

  /** What a delivery adds to the execution rows of the order. */
  lemma {:induction false} DeliveryRecords(t: Tables, before: Tables, i: nat, xs: seq<Exec>, e: FillEvent, d: Delivery, k: nat)
    requires Executions(xs) && k < |xs| && i < |t.orders| && t.orders[i].account.Some?
    requires SameOrders(t.orders, before.orders) && IsDelivery(t.orders, i, xs, e, d)
    ensures var account := t.orders[i].account.value;
      Seen(Ingest(before, e).fills, account, xs[k].id) <==> Seen(before.fills, account, xs[k].id) || d == Delivered(k)
  {
    FindByClientSame(t.orders, before.orders, e.clientOrderId);
    SeenAfter(before, e, t.orders[i].account.value, xs[k].id);
    assert SameColumns(t.orders[i], before.orders[i]);
    hide Seen, Ingest, FindByClient;
  }

  lemma {:induction false} SeenIffDelivered(t: Tables, i: nat, xs: seq<Exec>, es: seq<FillEvent>, ks: seq<Delivery>, k: nat)
    requires Executions(xs) && Untouched(t, i, xs) && Delivers(t.orders, i, xs, es, ks) && k < |xs|
    ensures Seen(IngestAll(t, es).fills, t.orders[i].account.value, xs[k].id) <==> Delivered(k) in ks
  {
    if es != [] {
      var n := |es| - 1;
      DeliversFront(t.orders, i, xs, es, ks);
      hide Delivers, IsDelivery, Executions, Ingest, Seen;
      SeenIffDelivered(t, i, xs, es[..n], ks[..n], k);
      IngestKeepsColumns(t, es[..n]);
      DeliveryRecords(t, IngestAll(t, es[..n]), i, xs, es[n], ks[n], k);
      assert ks == ks[..n] + [ks[n]];
    }
  }

  /** What a delivery does to the filled quantity. */
  lemma {:induction false} DeliveryFills(t: Tables, before: Tables, i: nat, xs: seq<Exec>, e: FillEvent, d: Delivery)
    requires i < |t.orders| && t.orders[i].account.Some?
    requires SameOrders(t.orders, before.orders) && IsDelivery(t.orders, i, xs, e, d)
    ensures Ingest(before, e).orders[i].filledQty == (
      if d.Other? then before.orders[i].filledQty
      else NextFilled(before.orders[i].filledQty, !Seen(before.fills, t.orders[i].account.value, xs[d.k].id), e))
  {
    FindByClientSame(t.orders, before.orders, e.clientOrderId);
    IngestOrder(before, e, i);
    assert SameColumns(t.orders[i], before.orders[i]);
    hide Seen, Ingest, FindByClient, NextFilled, NextStatus;
  }

  /** For any in-order subsequence of the broker's executions, with arbitrary gaps, arbitrary replays of
      delivered ones and anything about other orders in between, the filled quantity is the largest
      cumulative quantity delivered. */
  lemma {:induction false} FilledIsLargestCumulative(t: Tables, i: nat, xs: seq<Exec>, es: seq<FillEvent>, ks: seq<Delivery>)
    requires Executions(xs) && Untouched(t, i, xs) && Delivers(t.orders, i, xs, es, ks) && InOrder(ks)
    ensures Reach(ks) <= |xs| && IngestAll(t, es).orders[i].filledQty == Cumulative(xs, Reach(ks))
  {
    hide *;
    if es == [] {
      NothingDelivered(t, i, xs, es, ks);
    } else {
      var n := |es| - 1;
      var before := IngestAll(t, es[..n]);
      DeliversFront(t.orders, i, xs, es, ks);
      InOrderFront(ks);
      FilledIsLargestCumulative(t, i, xs, es[..n], ks[..n]);
      IngestKeepsColumns(t, es[..n]);
      UntouchedOrder(t, i, xs);
      if ks[n].Delivered? {
        DeliveryInRange(t.orders, i, xs, es[n], ks[n]);
        SeenIffDelivered(t, i, xs, es[..n], ks[..n], ks[n].k);
      }
      OneMoreDelivered(t, before, i, xs, es[n], ks);
      IngestAllSnoc(t, es[..n], es[n]);
      assert es == es[..n] + [es[n]];
    }
  }

  lemma {:induction false} NothingDelivered(t: Tables, i: nat, xs: seq<Exec>, es: seq<FillEvent>, ks: seq<Delivery>)
    requires Untouched(t, i, xs) && Delivers(t.orders, i, xs, es, ks) && es == []
    ensures Reach(ks) == 0 && IngestAll(t, es) == t && t.orders[i].filledQty == Cumulative(xs, 0)
  {}

  lemma {:induction false} UntouchedOrder(t: Tables, i: nat, xs: seq<Exec>)
    requires Untouched(t, i, xs)
    ensures i < |t.orders| && t.orders[i].account.Some?
  {}

  lemma {:induction false} DeliveryInRange(orders: seq<Order>, i: nat, xs: seq<Exec>, e: FillEvent, d: Delivery)
    requires IsDelivery(orders, i, xs, e, d) && d.Delivered?
    ensures d.k < |xs| && e.qty == xs[d.k].qty && e.filledQty == Cumulative(xs, d.k + 1)
  {}

  /** One more delivery in order moves the filled quantity to the new largest cumulative quantity. */
  lemma {:induction false} OneMoreDelivered(t: Tables, before: Tables, i: nat, xs: seq<Exec>, e: FillEvent, ks: seq<Delivery>)
    requires Executions(xs) && i < |t.orders| && t.orders[i].account.Some? && SameOrders(t.orders, before.orders)
    requires ks != [] && InOrder(ks) && IsDelivery(t.orders, i, xs, e, ks[|ks| - 1])
    requires var n := Reach(ks[..|ks| - 1]);
      n <= |xs| && before.orders[i].filledQty == Cumulative(xs, n)
    requires var front, d := ks[..|ks| - 1], ks[|ks| - 1];
      d.Delivered? ==> d.k < |xs| && (Seen(before.fills, t.orders[i].account.value, xs[d.k].id) <==> d in front)
    ensures Reach(ks) <= |xs| && Ingest(before, e).orders[i].filledQty == Cumulative(xs, Reach(ks))
  {
    var front, d := ks[..|ks| - 1], ks[|ks| - 1];
    hide InOrder, IsDelivery, Executions, Cumulative, Seen, NextFilled, Ingest;
    DeliveryFills(t, before, i, xs, e, d);
    if d.Delivered? {
      DeliveryInRange(t.orders, i, xs, e, d);
      LastInOrder(ks);
      DeliveredStep(xs, Reach(front), d.k, before.orders[i].filledQty, d !in front, e);
    }
  }

  lemma {:induction false} LastInOrder(ks: seq<Delivery>)
    requires ks != [] && InOrder(ks) && ks[|ks| - 1].Delivered?
    ensures var front, k := ks[..|ks| - 1], ks[|ks| - 1].k;
      Delivered(k) !in front <==> k >= Reach(front)
  {}

  lemma {:induction false} InOrderFront(ks: seq<Delivery>)
    requires ks != [] && InOrder(ks)
    ensures InOrder(ks[..|ks| - 1])
  {
    var front := ks[..|ks| - 1];
    forall j | 0 <= j < |front| && front[j].Delivered? ensures front[j] in front[..j] || front[j].k >= Reach(front[..j]) {
      assert front[..j] == ks[..j];
    }
  }

  lemma {:induction false} DeliveredStep(xs: seq<Exec>, n: nat, k: nat, filled: real, created: bool, e: FillEvent)
    requires Executions(xs) && k < |xs| && n <= |xs| && (created <==> k >= n)
    requires e.qty == xs[k].qty && e.filledQty == Cumulative(xs, k + 1) && filled == Cumulative(xs, n)
    ensures NextFilled(filled, created, e) == Cumulative(xs, if k >= n then k + 1 else n)
  {
    CumulativeGrows(xs, 0, k + 1);
    if created {
      CumulativeGrows(xs, n, k + 1);
    } else {
      CumulativeGrows(xs, k + 1, n);
    }
    hide Cumulative;
  }

  // ----- out of order -----

  /** The last delivery is a first one that comes after a later execution. */
  ghost predicate EndsLate(ks: seq<Delivery>) {
    && ks != [] && ks[|ks| - 1].Delivered?
    && ks[|ks| - 1] !in ks[..|ks| - 1] && ks[|ks| - 1].k < Reach(ks[..|ks| - 1])
  }

  lemma {:induction false} LastIsLate(ks: seq<Delivery>)
    ensures ks == [] ==> InOrder(ks)
    ensures ks != [] && InOrder(ks[..|ks| - 1]) && !EndsLate(ks) ==> InOrder(ks)
  {
    hide Reach;
    if ks != [] && InOrder(ks[..|ks| - 1]) && !EndsLate(ks) {
      var front := ks[..|ks| - 1];
      forall j | 0 <= j < |ks| && ks[j].Delivered? ensures ks[j] in ks[..j] || ks[j].k >= Reach(ks[..j]) {
        if j < |front| {
          assert front[j] == ks[j] && front[..j] == ks[..j];
        }
      }
    }
  }

  lemma {:induction false} PrefixOfPrefix(ks: seq<Delivery>, k: nat, n: nat)
    requires n <= k <= |ks|
    ensures |ks[..k]| == k && ks[..k][..n] == ks[..n]
  {}

  /** What is not in order has a first late delivery. */
  lemma {:induction false} FirstLate(ks: seq<Delivery>) returns (n: nat)
    requires !InOrder(ks)
    ensures n < |ks| && InOrder(ks[..n]) && EndsLate(ks[..n + 1])
  {
    hide *;
    LastIsLate(ks);
    var k := |ks| - 1;
    if InOrder(ks[..k]) {
      n := k;
      assert ks[..n + 1] == ks;
    } else {
      n := FirstLate(ks[..k]);
      PrefixOfPrefix(ks, k, n);
      PrefixOfPrefix(ks, k, n + 1);
    }
  }

  lemma {:induction false} LateMeans(ks: seq<Delivery>)
    requires EndsLate(ks)
    ensures ks != [] && ks[|ks| - 1].Delivered? && Delivered(ks[|ks| - 1].k) !in ks[..|ks| - 1]
  {}

  lemma {:induction false} SameLength(orders: seq<Order>, i: nat, xs: seq<Exec>, es: seq<FillEvent>, ks: seq<Delivery>)
    requires Delivers(orders, i, xs, es, ks)
    ensures |es| == |ks|
  {}

  lemma {:induction false} LateReach(ks: seq<Delivery>)
    requires EndsLate(ks)
    ensures Reach(ks) == Reach(ks[..|ks| - 1])
  {}

  lemma {:induction false} LateStep(xs: seq<Exec>, d: Delivery, filled: real, e: FillEvent)
    requires Executions(xs) && d.Delivered? && d.k < |xs| && e.qty == xs[d.k].qty
    ensures NextFilled(filled, true, e) > filled
  {}

  /** After deliveries in order, a late one is counted on top of the largest cumulative quantity, which
      already contains it. */
  lemma {:induction false} LateOvershoots(t: Tables, i: nat, xs: seq<Exec>, es: seq<FillEvent>, ks: seq<Delivery>)
    requires Executions(xs) && Untouched(t, i, xs) && Delivers(t.orders, i, xs, es, ks)
    requires EndsLate(ks) && InOrder(ks[..|ks| - 1])
    ensures Reach(ks) <= |xs| && IngestAll(t, es).orders[i].filledQty > Cumulative(xs, Reach(ks))
  {
    hide *;
    SameLength(t.orders, i, xs, es, ks);
    LateMeans(ks);
    var n := |es| - 1;
    var before := IngestAll(t, es[..n]);
    DeliversFront(t.orders, i, xs, es, ks);
    FilledIsLargestCumulative(t, i, xs, es[..n], ks[..n]);
    IngestKeepsColumns(t, es[..n]);
    UntouchedOrder(t, i, xs);
    DeliveryInRange(t.orders, i, xs, es[n], ks[n]);
    SeenIffDelivered(t, i, xs, es[..n], ks[..n], ks[n].k);
    DeliveryFills(t, before, i, xs, es[n], ks[n]);
    LateStep(xs, ks[n], before.orders[i].filledQty, es[n]);
    LateReach(ks);
    IngestAllSnoc(t, es[..n], es[n]);
    assert es == es[..n] + [es[n]];
  }

  /** After every delivery the filled quantity was the largest cumulative quantity delivered until then. */
  ghost predicate AlwaysExact(t: Tables, i: nat, xs: seq<Exec>, es: seq<FillEvent>, ks: seq<Delivery>)
    requires i < |t.orders| && |es| == |ks|
  {
    forall n :: 0 <= n <= |es| ==> Exact(t, i, xs, es[..n], ks[..n])
  }

  ghost predicate Exact(t: Tables, i: nat, xs: seq<Exec>, es: seq<FillEvent>, ks: seq<Delivery>)
    requires i < |t.orders|
  {
    Reach(ks) <= |xs| && IngestAll(t, es).orders[i].filledQty == Cumulative(xs, Reach(ks))
  }

  lemma {:induction false} DeliversPrefix(orders: seq<Order>, i: nat, xs: seq<Exec>, es: seq<FillEvent>, ks: seq<Delivery>, n: nat)
    requires Delivers(orders, i, xs, es, ks) && n <= |es|
    ensures |ks| == |es| && Delivers(orders, i, xs, es[..n], ks[..n])
  {
    hide Reports, Elsewhere;
  }

  lemma {:induction false} InOrderPrefix(ks: seq<Delivery>, n: nat)
    requires InOrder(ks) && n <= |ks|
    ensures InOrder(ks[..n])
  {
    forall j | 0 <= j < n && ks[j].Delivered? ensures ks[j] in ks[..n][..j] || ks[j].k >= Reach(ks[..n][..j]) {
      assert ks[..n][..j] == ks[..j];
    }
  }

  lemma {:induction false} InOrderIsExact(t: Tables, i: nat, xs: seq<Exec>, es: seq<FillEvent>, ks: seq<Delivery>)
    requires Executions(xs) && Untouched(t, i, xs) && Delivers(t.orders, i, xs, es, ks) && InOrder(ks)
    ensures i < |t.orders| && |es| == |ks| && AlwaysExact(t, i, xs, es, ks)
  {
    UntouchedOrder(t, i, xs);
    SameLength(t.orders, i, xs, es, ks);
    hide Executions, Untouched, Delivers, InOrder, IngestAll, Cumulative, Reach;
    forall n | 0 <= n <= |es| ensures Exact(t, i, xs, es[..n], ks[..n]) {
      DeliversPrefix(t.orders, i, xs, es, ks, n);
      InOrderPrefix(ks, n);
      FilledIsLargestCumulative(t, i, xs, es[..n], ks[..n]);
    }
  }

  lemma {:induction false} LateIsInexact(t: Tables, i: nat, xs: seq<Exec>, es: seq<FillEvent>, ks: seq<Delivery>)
    requires Executions(xs) && Untouched(t, i, xs) && Delivers(t.orders, i, xs, es, ks) && !InOrder(ks)
    ensures i < |t.orders| && |es| == |ks| && !AlwaysExact(t, i, xs, es, ks)
  {
    UntouchedOrder(t, i, xs);
    SameLength(t.orders, i, xs, es, ks);
    hide Executions, Untouched, Delivers, InOrder, EndsLate, IngestAll, Cumulative, Reach;
    var n := FirstLate(ks);
    DeliversPrefix(t.orders, i, xs, es, ks, n + 1);
    LateAt(ks, n);
    LateOvershoots(t, i, xs, es[..n + 1], ks[..n + 1]);
    assert !Exact(t, i, xs, es[..n + 1], ks[..n + 1]);
  }

  lemma {:induction false} LateAt(ks: seq<Delivery>, n: nat)
    requires n < |ks|
    ensures |ks[..n + 1]| == n + 1 && ks[..n + 1][..n] == ks[..n]
  {}

  /** Exactly when the filled quantity can be relied on: all along a stream of deliveries it is the largest
      cumulative quantity delivered if and only if every execution comes in order, gaps and replays
      aside. */
  lemma {:induction false} ExactIffInOrder(t: Tables, i: nat, xs: seq<Exec>, es: seq<FillEvent>, ks: seq<Delivery>)
    requires Executions(xs) && Untouched(t, i, xs) && Delivers(t.orders, i, xs, es, ks)
    ensures i < |t.orders| && |es| == |ks|
    ensures AlwaysExact(t, i, xs, es, ks) <==> InOrder(ks)
  {
    hide *;
    UntouchedOrder(t, i, xs);
    SameLength(t.orders, i, xs, es, ks);
    if InOrder(ks) {
      InOrderIsExact(t, i, xs, es, ks);
    } else {
      LateIsInexact(t, i, xs, es, ks);
    }
  }

  /** A first delivery that arrives late, its cumulative quantity already counted, is counted again. */
  lemma {:induction false} LateFillCountsAgain(t: Tables, e: FillEvent, i: nat)
    requires i < |t.orders| && Hits(t, e, i) && Creates(t, i, e) && 0.0 < e.filledQty <= t.orders[i].filledQty
    ensures Ingest(t, e).orders[i].filledQty == t.orders[i].filledQty + e.qty > t.orders[i].filledQty
  {
    IngestOrder(t, e, i);
    hide NextStatus, Hits, Ingest, Seen;
  }

  function ThirdOf(number: nat): FillEvent {
    FillEvent(Numbered("c", number), "c", "", "SYM", BUY, PartialFill, 1.0, 10.0, number as real)
  }

  /** Three executions of one share each, the second delivered last: four of three shares are counted. */
  lemma {:induction false} DroppedThenLate(t: Tables)
    requires t == Tables([Order(Some("acct"), "c", "", "SYM", BUY, 3.0, SUBMITTED, 0.0)], [], map[])
    ensures IngestAll(t, [ThirdOf(1), ThirdOf(3), ThirdOf(2)]).orders[0].filledQty == 4.0
  {
    var a := IngestAll(t, [ThirdOf(1)]);
    var b := IngestAll(t, [ThirdOf(1), ThirdOf(3)]);
    IngestAllSnoc(t, [], ThirdOf(1));
    IngestAllSnoc(t, [ThirdOf(1)], ThirdOf(3));
    IngestAllSnoc(t, [ThirdOf(1), ThirdOf(3)], ThirdOf(2));
    assert [ThirdOf(1)] + [ThirdOf(3)] == [ThirdOf(1), ThirdOf(3)];
    assert [ThirdOf(1), ThirdOf(3)] + [ThirdOf(2)] == [ThirdOf(1), ThirdOf(3), ThirdOf(2)];
    OneMore(t, ThirdOf(1));
    OneMore(a, ThirdOf(3));
    OneMore(b, ThirdOf(2));
  }

  lemma {:induction false} OneMore(t: Tables, e: FillEvent)
    requires |t.orders| == 1 && t.orders[0].clientOrderId == e.clientOrderId && t.orders[0].account == Some("acct")
    requires Executes(e) && !Seen(t.fills, "acct", e.execId)
    ensures Hits(t, e, 0) && Creates(t, 0, e)
    ensures var after := Ingest(t, e);
      && SameColumns(after.orders[0], t.orders[0])
      && after.orders[0].filledQty == NextFilled(t.orders[0].filledQty, true, e)
      && after.fills == t.fills + [FillRow("acct", e.execId, 0, e.qty, e.price)]
  {
    assert FindByClient(t.orders, e.clientOrderId) == Some(0);
    hide NextFilled, NextStatus, Apply, Seen;
  }
}
