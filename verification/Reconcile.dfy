/** Position reconciliation (`orders/reconcile.py`): a first drift is recorded, a drift found while one is
    open is healed toward the broker. */
module Reconcile {
  import opened Prelude
  import opened Positions
  import opened Ledger
  import opened LedgerDb

  const TOLERANCE := 0.01

  datatype Kind = DRIFT | HEAL

  datatype ReconRow = ReconRow(account: AccountId, symbol: string, kind: Kind, ourQty: real, brokerQty: real, resolved: bool)

  datatype Recon = Recon(positions: map<PositionKey, Position>, rows: seq<ReconRow>)

  // ----- one symbol -----

  predicate IsOpenDrift(row: ReconRow, account: AccountId, symbol: string) {
    row.account == account && row.symbol == symbol && row.kind == DRIFT && !row.resolved
  }

  function OpenDrifts(rows: seq<ReconRow>, account: AccountId, symbol: string): nat {
    if rows == [] then 0
    else OpenDrifts(rows[..|rows| - 1], account, symbol) + if IsOpenDrift(rows[|rows| - 1], account, symbol) then 1 else 0
  }

  predicate HasOpenDrift(s: Recon, account: AccountId, symbol: string) {
    OpenDrifts(s.rows, account, symbol) > 0
  }

  function ResolveDrifts(rows: seq<ReconRow>, account: AccountId, symbol: string): seq<ReconRow> {
    if rows == [] then []
    else
      var k := |rows| - 1;
      ResolveDrifts(rows[..k], account, symbol) + [if IsOpenDrift(rows[k], account, symbol) then rows[k].(resolved := true) else rows[k]]
  }

  function OurQty(s: Recon, account: AccountId, symbol: string): real {
    PositionOf(s.positions, PositionKey(account, symbol)).qty
  }

  function BrokerQty(broker: map<string, Position>, symbol: string): real {
    if symbol in broker then broker[symbol].qty else 0.0
  }

  predicate Drifting(s: Recon, account: AccountId, broker: map<string, Position>, symbol: string) {
    Abs(BrokerQty(broker, symbol) - OurQty(s, account, symbol)) > TOLERANCE
  }

  /** Our row becomes the broker's; where the broker holds nothing, a row that exists goes flat. */
  function Heal(positions: map<PositionKey, Position>, account: AccountId, broker: map<string, Position>, symbol: string): map<PositionKey, Position> {
    var key := PositionKey(account, symbol);
    if symbol !in broker || broker[symbol].qty == 0.0 then
      (if key in positions then positions[key := positions[key].(qty := 0.0, avgCost := 0.0)] else positions)
    else positions[key := broker[symbol]]
  }

  function NewDrift(s: Recon, account: AccountId, broker: map<string, Position>, symbol: string): (row: ReconRow)
    ensures row.account == account && row.symbol == symbol && row.kind == DRIFT && !row.resolved
  {
    ReconRow(account, symbol, DRIFT, OurQty(s, account, symbol), BrokerQty(broker, symbol), false)
  }

  function ReconcileSymbol(s: Recon, account: AccountId, broker: map<string, Position>, symbol: string): Recon {
    if !Drifting(s, account, broker, symbol) then s.(rows := ResolveDrifts(s.rows, account, symbol))
    else
      var drift := NewDrift(s, account, broker, symbol);
      if !HasOpenDrift(s, account, symbol) then s.(rows := s.rows + [drift])
      else Recon(Heal(s.positions, account, broker, symbol), ResolveDrifts(s.rows + [drift, drift.(kind := HEAL, resolved := true)], account, symbol))
  }

  /** The rows a comparison reports. */
  function CreatedFor(s: Recon, account: AccountId, broker: map<string, Position>, symbol: string): seq<ReconRow> {
    var drift := NewDrift(s, account, broker, symbol);
    if !Drifting(s, account, broker, symbol) then []
    else if !HasOpenDrift(s, account, symbol) then [drift]
    else [drift, drift.(kind := HEAL, resolved := true)]
  }

  // ----- one run -----

  /** The symbols a run compares: those the broker lists and those we have rows for. */
  ghost predicate InScope(s: Recon, account: AccountId, broker: map<string, Position>, symbol: string) {
    symbol in broker || PositionKey(account, symbol) in s.positions
  }

  function ReconcileAll(s: Recon, account: AccountId, broker: map<string, Position>, order: seq<string>): Recon {
    if order == [] then s
    else ReconcileSymbol(ReconcileAll(s, account, broker, order[..|order| - 1]), account, broker, order[|order| - 1])
  }

  function CreatedAll(s: Recon, account: AccountId, broker: map<string, Position>, order: seq<string>): seq<ReconRow> {
    if order == [] then []
    else
      var n := |order| - 1;
      CreatedAll(s, account, broker, order[..n]) + CreatedFor(ReconcileAll(s, account, broker, order[..n]), account, broker, order[n])
  }

  ghost predicate Distinct(order: seq<string>) {
    forall i, j :: 0 <= i < j < |order| ==> order[i] != order[j]
  }

  /** The symbols in scope, once each, in any order: the source iterates over a set. */
  ghost predicate Schedules(s: Recon, account: AccountId, broker: map<string, Position>, order: seq<string>) {
    && Distinct(order)
    && forall symbol :: symbol in order <==> InScope(s, account, broker, symbol)
  }

  lemma {:induction false} OpenDriftsSnoc(rows: seq<ReconRow>, row: ReconRow, account: AccountId, symbol: string)
    ensures OpenDrifts(rows + [row], account, symbol) == OpenDrifts(rows, account, symbol) + if IsOpenDrift(row, account, symbol) then 1 else 0
  {
    assert (rows + [row])[..|rows|] == rows;
  }

  lemma {:induction false} ResolveLeaves(rows: seq<ReconRow>, account: AccountId, symbol: string, other: string)
    ensures OpenDrifts(ResolveDrifts(rows, account, symbol), account, other) == if other == symbol then 0 else OpenDrifts(rows, account, other)
  {
    if rows != [] {
      var k := |rows| - 1;
      ResolveLeaves(rows[..k], account, symbol, other);
      OpenDriftsSnoc(ResolveDrifts(rows[..k], account, symbol), if IsOpenDrift(rows[k], account, symbol) then rows[k].(resolved := true) else rows[k], account, other);
    }
  }

  /** The rows after a drift was recorded, and healed if one was open. */
  lemma {:induction false} OpenDriftsAfter(s: Recon, account: AccountId, broker: map<string, Position>, symbol: string, other: string)
    ensures var drift := NewDrift(s, account, broker, symbol);
      && OpenDrifts(s.rows + [drift], account, other) == OpenDrifts(s.rows, account, other) + (if other == symbol then 1 else 0)
      && OpenDrifts(ResolveDrifts(s.rows + [drift, drift.(kind := HEAL, resolved := true)], account, symbol), account, other)
         == (if other == symbol then 0 else OpenDrifts(s.rows, account, other))
  {
    var drift := NewDrift(s, account, broker, symbol);
    var heal := drift.(kind := HEAL, resolved := true);
    hide OpenDrifts, ResolveDrifts, NewDrift;
    OpenDriftsSnoc(s.rows, drift, account, other);
    OpenDriftsSnoc(s.rows + [drift], heal, account, other);
    assert s.rows + [drift, heal] == s.rows + [drift] + [heal];
    ResolveLeaves(s.rows + [drift, heal], account, symbol, other);
  }

  /** The other symbols' rows and drifts are untouched. */
  lemma {:induction false} OtherSymbolsUntouched(s: Recon, account: AccountId, broker: map<string, Position>, symbol: string, other: string)
    requires other != symbol
    ensures var after := ReconcileSymbol(s, account, broker, symbol);
      && (PositionKey(account, other) in after.positions <==> PositionKey(account, other) in s.positions)
      && PositionOf(after.positions, PositionKey(account, other)) == PositionOf(s.positions, PositionKey(account, other))
      && OpenDrifts(after.rows, account, other) == OpenDrifts(s.rows, account, other)
  {
    hide OpenDrifts, ResolveDrifts, NewDrift, Drifting;
    ResolveLeaves(s.rows, account, symbol, other);
    OpenDriftsAfter(s, account, broker, symbol, other);
  }

  /** What one comparison leaves for its own symbol. */
  lemma {:induction false} SymbolReconciled(s: Recon, account: AccountId, broker: map<string, Position>, symbol: string)
    ensures var after := ReconcileSymbol(s, account, broker, symbol);
      && OpenDrifts(after.rows, account, symbol) == (if Drifting(s, account, broker, symbol) && !HasOpenDrift(s, account, symbol) then 1 else 0)
      && after.positions == (if Drifting(s, account, broker, symbol) && HasOpenDrift(s, account, symbol)
                             then Heal(s.positions, account, broker, symbol) else s.positions)
  {
    hide OpenDrifts, ResolveDrifts, NewDrift, Drifting, Heal;
    ResolveLeaves(s.rows, account, symbol, symbol);
    OpenDriftsAfter(s, account, broker, symbol, symbol);
  }

  lemma {:induction false} AllOthersUntouched(s: Recon, account: AccountId, broker: map<string, Position>, order: seq<string>, other: string)
    requires other !in order
    ensures var after := ReconcileAll(s, account, broker, order);
      && (PositionKey(account, other) in after.positions <==> PositionKey(account, other) in s.positions)
      && PositionOf(after.positions, PositionKey(account, other)) == PositionOf(s.positions, PositionKey(account, other))
      && OpenDrifts(after.rows, account, other) == OpenDrifts(s.rows, account, other)
  {
    if order != [] {
      var n := |order| - 1;
      AllOthersUntouched(s, account, broker, order[..n], other);
      hide ReconcileSymbol;
      OtherSymbolsUntouched(ReconcileAll(s, account, broker, order[..n]), account, broker, order[n], other);
    }
  }

  /** What a run makes of one symbol's row. */
  function Outcome(s: Recon, account: AccountId, broker: map<string, Position>, symbol: string): Position {
    var p := PositionOf(s.positions, PositionKey(account, symbol));
    if !Drifting(s, account, broker, symbol) || !HasOpenDrift(s, account, symbol) then p
    else if symbol !in broker || broker[symbol].qty == 0.0 then p.(qty := 0.0, avgCost := 0.0)
    else broker[symbol]
  }

  lemma {:induction false} RunOnSymbol(s: Recon, account: AccountId, broker: map<string, Position>, order: seq<string>, symbol: string)
    requires Distinct(order) && symbol in order
    ensures var after := ReconcileAll(s, account, broker, order);
      && OpenDrifts(after.rows, account, symbol) == (if Drifting(s, account, broker, symbol) && !HasOpenDrift(s, account, symbol) then 1 else 0)
      && PositionOf(after.positions, PositionKey(account, symbol)) == Outcome(s, account, broker, symbol)
      && (PositionKey(account, symbol) in s.positions ==> PositionKey(account, symbol) in after.positions)
  {
    var n := |order| - 1;
    var front, last := order[..n], order[n];
    var before := ReconcileAll(s, account, broker, front);
    assert order == front + [last];
    if last == symbol {
      AllOthersUntouched(s, account, broker, front, symbol);
      SymbolReconciled(before, account, broker, symbol);
      hide ReconcileSymbol, OpenDrifts;
    } else {
      RunOnSymbol(s, account, broker, front, symbol);
      OtherSymbolsUntouched(before, account, broker, last, symbol);
      hide ReconcileSymbol, OpenDrifts, Outcome, Drifting;
    }
  }

  // ----- what a run does, and what two runs do -----

  /** After a run a symbol has an open drift exactly if it was compared and drifts for the first time, or
      was not compared and had one; a compared symbol never has more than one; and a position changes, to
      the broker's quantity, exactly where the symbol drifts and a drift was already open. */
  lemma {:induction false} RunLeaves(s: Recon, account: AccountId, broker: map<string, Position>, order: seq<string>, symbol: string)
    requires Schedules(s, account, broker, order)
    ensures var after := ReconcileAll(s, account, broker, order);
      && (HasOpenDrift(after, account, symbol) <==>
            if InScope(s, account, broker, symbol) then Drifting(s, account, broker, symbol) && !HasOpenDrift(s, account, symbol)
            else HasOpenDrift(s, account, symbol))
      && (InScope(s, account, broker, symbol) ==> OpenDrifts(after.rows, account, symbol) <= 1)
      && (OpenDrifts(s.rows, account, symbol) <= 1 ==> OpenDrifts(after.rows, account, symbol) <= 1)
      && (PositionOf(after.positions, PositionKey(account, symbol)) != PositionOf(s.positions, PositionKey(account, symbol)) <==>
            Drifting(s, account, broker, symbol) && HasOpenDrift(s, account, symbol))
      && OurQty(after, account, symbol)
         == (if Drifting(s, account, broker, symbol) && HasOpenDrift(s, account, symbol) then BrokerQty(broker, symbol) else OurQty(s, account, symbol))
  {
    if symbol in order {
      RunOnSymbol(s, account, broker, order, symbol);
      if Drifting(s, account, broker, symbol) && HasOpenDrift(s, account, symbol) {
        HealedAgrees(s, account, broker, symbol);
      }
    } else {
      AllOthersUntouched(s, account, broker, order, symbol);
    }
    hide OpenDrifts, ReconcileAll, Distinct;
  }

  /** Nobody compares what the broker and the table agree on to within a cent: a symbol drifts when they are
      further apart. */
  lemma {:induction false} DriftingMeans(s: Recon, account: AccountId, broker: map<string, Position>, symbol: string)
    ensures Drifting(s, account, broker, symbol) <==>
      var theirs := if symbol in broker then broker[symbol].qty else 0.0;
      var ours := if PositionKey(account, symbol) in s.positions then s.positions[PositionKey(account, symbol)].qty else 0.0;
      theirs - ours > 0.01 || ours - theirs > 0.01
  {}

  /** What a healed row holds: quantity, cost and mark of the broker's, or nothing at no cost. */
  lemma {:induction false} HealedRow(s: Recon, account: AccountId, broker: map<string, Position>, order: seq<string>, symbol: string)
    requires Schedules(s, account, broker, order) && Drifting(s, account, broker, symbol) && HasOpenDrift(s, account, symbol)
    ensures var row := PositionOf(ReconcileAll(s, account, broker, order).positions, PositionKey(account, symbol));
      if symbol in broker && broker[symbol].qty != 0.0 then
        row.qty == broker[symbol].qty && row.avgCost == broker[symbol].avgCost && row.marketPrice == broker[symbol].marketPrice
      else row.qty == 0.0 && row.avgCost == 0.0
  {
    if InScope(s, account, broker, symbol) {
      RunOnSymbol(s, account, broker, order, symbol);
    } else {
      UnscopedDoesNotDrift(s, account, broker, symbol);
    }
    hide OpenDrifts, ReconcileAll, Drifting, Distinct;
  }

  lemma {:induction false} ResolveKeepsOthers(rows: seq<ReconRow>, account: AccountId, symbol: string, k: nat)
    requires k < |rows|
    ensures |ResolveDrifts(rows, account, symbol)| == |rows|
    ensures ResolveDrifts(rows, account, symbol)[k] ==
      if rows[k].account == account && rows[k].symbol == symbol && rows[k].kind == DRIFT then rows[k].(resolved := true) else rows[k]
  {
    var n := |rows| - 1;
    if n > 0 {
      ResolveKeepsOthers(rows[..n], account, symbol, if k < n then k else 0);
    }
  }

  lemma {:induction false} SymbolKeepsOthers(s: Recon, account: AccountId, broker: map<string, Position>, symbol: string, key: PositionKey, k: nat)
    requires key.account != account && k < |s.rows| && s.rows[k].account != account
    ensures var after := ReconcileSymbol(s, account, broker, symbol);
      && (key in after.positions <==> key in s.positions) && PositionOf(after.positions, key) == PositionOf(s.positions, key)
      && k < |after.rows| && after.rows[k] == s.rows[k]
  {
    var drift := NewDrift(s, account, broker, symbol);
    var more := s.rows + [drift, drift.(kind := HEAL, resolved := true)];
    assert more[k] == s.rows[k] && (s.rows + [drift])[k] == s.rows[k];
    ResolveKeepsOthers(s.rows, account, symbol, k);
    ResolveKeepsOthers(more, account, symbol, k);
    hide ResolveDrifts, OpenDrifts, Drifting, NewDrift;
  }

  /** A run touches no other account: neither its positions nor its recorded drifts. */
  lemma {:induction false} OtherAccountsUntouched(s: Recon, account: AccountId, broker: map<string, Position>, order: seq<string>, key: PositionKey, k: nat)
    requires key.account != account && k < |s.rows| && s.rows[k].account != account
    ensures var after := ReconcileAll(s, account, broker, order);
      && (key in after.positions <==> key in s.positions) && PositionOf(after.positions, key) == PositionOf(s.positions, key)
      && k < |after.rows| && after.rows[k] == s.rows[k]
  {
    hide ReconcileSymbol;
    if order != [] {
      var n := |order| - 1;
      OtherAccountsUntouched(s, account, broker, order[..n], key, k);
      SymbolKeepsOthers(ReconcileAll(s, account, broker, order[..n]), account, broker, order[n], key, k);
    }
  }

  lemma {:induction false} HealedAgrees(s: Recon, account: AccountId, broker: map<string, Position>, symbol: string)
    requires Drifting(s, account, broker, symbol) && HasOpenDrift(s, account, symbol)
    ensures Outcome(s, account, broker, symbol).qty == BrokerQty(broker, symbol)
  {
    hide OpenDrifts, Drifting;
  }

  /** Two consecutive runs on the same broker snapshot, with no fills between, leave every compared symbol
      within tolerance and without open drift. */
  lemma {:induction false} TwoRunsConverge(s: Recon, account: AccountId, broker: map<string, Position>, first: seq<string>, second: seq<string>, symbol: string)
    requires Schedules(s, account, broker, first)
    requires var mid := ReconcileAll(s, account, broker, first);
      Schedules(mid, account, broker, second)
    requires InScope(s, account, broker, symbol)
    ensures var after := ReconcileAll(ReconcileAll(s, account, broker, first), account, broker, second);
      !Drifting(after, account, broker, symbol) && !HasOpenDrift(after, account, symbol)
  {
    var mid := ReconcileAll(s, account, broker, first);
    var after := ReconcileAll(mid, account, broker, second);
    hide OpenDrifts, ReconcileAll, Distinct, Outcome;
    RunOnSymbol(s, account, broker, first, symbol);
    RunOnSymbol(mid, account, broker, second, symbol);
    OutcomeDrift(s, account, broker, symbol, mid);
    OutcomeDrift(mid, account, broker, symbol, after);
    hide Drifting;
  }

  /** Healing ends the drift, anything else leaves it as it was. */
  lemma {:induction false} OutcomeDrift(s: Recon, account: AccountId, broker: map<string, Position>, symbol: string, after: Recon)
    requires PositionOf(after.positions, PositionKey(account, symbol)) == Outcome(s, account, broker, symbol)
    ensures Drifting(after, account, broker, symbol) <==> Drifting(s, account, broker, symbol) && !HasOpenDrift(s, account, symbol)
  {
    if Drifting(s, account, broker, symbol) && HasOpenDrift(s, account, symbol) {
      HealedAgrees(s, account, broker, symbol);
    }
    hide OpenDrifts;
  }

  // ----- where the drift stays open -----

  /** Consecutive runs, each against its own broker snapshot and in its own order of symbols: `states[n]` is
      what run `n` finds and `states[n + 1]` what it leaves. */
  ghost predicate Consecutive(states: seq<Recon>, account: AccountId, brokers: seq<map<string, Position>>, orders: seq<seq<string>>) {
    && |states| == |brokers| + 1 == |orders| + 1
    && forall n :: 0 <= n < |brokers| ==>
      Schedules(states[n], account, brokers[n], orders[n]) && states[n + 1] == ReconcileAll(states[n], account, brokers[n], orders[n])
  }

  /** A symbol without a position row whose drift is open keeps it open through any number of runs whose
      snapshots do not list it: nothing compares it any more. */
  lemma {:induction false} VanishedDriftStaysOpen(states: seq<Recon>, account: AccountId, brokers: seq<map<string, Position>>, orders: seq<seq<string>>,
                                                  symbol: string, n: nat)
    requires Consecutive(states, account, brokers, orders) && n < |states|
    requires PositionKey(account, symbol) !in states[0].positions && HasOpenDrift(states[0], account, symbol)
    requires forall m :: 0 <= m < |brokers| ==> symbol !in brokers[m]
    ensures HasOpenDrift(states[n], account, symbol) && PositionKey(account, symbol) !in states[n].positions
  {
    hide ReconcileAll, OpenDrifts;
    if n > 0 {
      VanishedDriftStaysOpen(states, account, brokers, orders, symbol, n - 1);
      AllOthersUntouched(states[n - 1], account, brokers[n - 1], orders[n - 1], symbol);
    }
  }

  // ----- when a heal is the second drift in a row -----

  /** A run finds a drift while one is open, and heals. The drift was the second in a row, first seen by the
      run just before, exactly if that run compared the symbol; otherwise the open drift is an older one.
      Between the two runs fills may have moved the positions. */
  lemma {:induction false} HealIsSecondDriftIff(s: Recon, mid: Recon, account: AccountId, before: map<string, Position>, order: seq<string>,
                                                broker: map<string, Position>, symbol: string)
    requires Schedules(s, account, before, order) && mid.rows == ReconcileAll(s, account, before, order).rows
    requires Drifting(mid, account, broker, symbol) && HasOpenDrift(mid, account, symbol)
    ensures Drifting(s, account, before, symbol) && !HasOpenDrift(s, account, symbol) <==> InScope(s, account, before, symbol)
  {
    RunLeaves(s, account, before, order, symbol);
    if !InScope(s, account, before, symbol) {
      UnscopedDoesNotDrift(s, account, before, symbol);
    }
    hide ReconcileAll, OpenDrifts, Drifting, InScope, Schedules;
  }

  lemma {:induction false} UnscopedDoesNotDrift(s: Recon, account: AccountId, broker: map<string, Position>, symbol: string)
    requires !InScope(s, account, broker, symbol)
    ensures !Drifting(s, account, broker, symbol)
  {}

  const FIVE_SHARES := Position(5.0, 10.0, None)

  /** Three runs from empty tables: the broker lists five shares, lists nothing, and lists them again. The
      middle run finds no drift, and yet the third heals at once. */
  lemma {:induction false} StaleDriftHealsAtOnce(account: AccountId)
    ensures var listed, nothing := map["X" := FIVE_SHARES], map[];
      var start := Recon(map[], []);
      var first := ReconcileAll(start, account, listed, ["X"]);
      var second := ReconcileAll(first, account, nothing, []);
      var third := ReconcileAll(second, account, listed, ["X"]);
      && Schedules(start, account, listed, ["X"]) && Schedules(first, account, nothing, []) && Schedules(second, account, listed, ["X"])
      && Drifting(start, account, listed, "X") && !Drifting(first, account, nothing, "X") && Drifting(second, account, listed, "X")
      && OurQty(second, account, "X") == 0.0 && OurQty(third, account, "X") == 5.0
  {
    var listed, nothing: map<string, Position> := map["X" := FIVE_SHARES], map[];
    var start := Recon(map[], []);
    assert Schedules(start, account, listed, ["X"]);
    RunOnSymbol(start, account, listed, ["X"], "X");
    var first := ReconcileAll(start, account, listed, ["X"]);
    OneComparison(start, account, listed, "X");
    assert first.positions == map[];
    assert ReconcileAll(first, account, nothing, []) == first;
    assert Schedules(first, account, nothing, []) && Schedules(first, account, listed, ["X"]);
    hide ReconcileAll, OpenDrifts, Schedules;
    RunLeaves(first, account, listed, ["X"], "X");
  }

  lemma {:induction false} OneComparison(s: Recon, account: AccountId, broker: map<string, Position>, symbol: string)
    ensures ReconcileAll(s, account, broker, [symbol]) == ReconcileSymbol(s, account, broker, symbol)
  {
    assert [symbol][..0] == [];
    hide ReconcileSymbol;
  }

  // ----- the service -----

  class Reconciler {
    const service: OrderService
    var rows: seq<ReconRow>

    constructor (service: OrderService)
      ensures this.service == service && rows == []
    {
      this.service, rows := service, [];
    }

    ghost function State(): Recon
      reads this, service
    {
      Recon(service.positions, rows)
    }

    method HealToward(account: AccountId, symbol: string, broker: map<string, Position>)
      modifies service`positions
      ensures service.positions == Heal(old(service.positions), account, broker, symbol)
    {
      var key := PositionKey(account, symbol);
      if symbol !in broker || broker[symbol].qty == 0.0 {
        if key in service.positions {
          service.positions := service.positions[key := service.positions[key].(qty := 0.0, avgCost := 0.0)];
        }
      } else {
        service.positions := service.positions[key := broker[symbol]];
      }
    }

    method CompareSymbol(account: AccountId, broker: map<string, Position>, symbol: string) returns (created: seq<ReconRow>)
      modifies this`rows, service`positions
      ensures State() == ReconcileSymbol(old(State()), account, broker, symbol)
      ensures created == CreatedFor(old(State()), account, broker, symbol)
    {
      hide OpenDrifts, ResolveDrifts, Heal;
      var key := PositionKey(account, symbol);
      var brokerQty := if symbol in broker then broker[symbol].qty else 0.0;
      var ourQty := if key in service.positions then service.positions[key].qty else 0.0;
      if Abs(brokerQty - ourQty) <= TOLERANCE {
        rows := ResolveDrifts(rows, account, symbol);
        return [];
      }
      var prior := OpenDrifts(rows, account, symbol) > 0;
      var drift := ReconRow(account, symbol, DRIFT, ourQty, brokerQty, false);
      rows := rows + [drift];
      created := [drift];
      if prior {
        HealToward(account, symbol, broker);
        var heal := ReconRow(account, symbol, HEAL, ourQty, brokerQty, true);
        rows := rows + [heal];
        created := created + [heal];
        assert rows == old(rows) + [drift, heal];
        rows := ResolveDrifts(rows, account, symbol);
      }
    }

    /** One account against the broker's list; `order` is the order the loop happened to take. */
    method ApplyReconcile(account: AccountId, broker: map<string, Position>) returns (created: seq<ReconRow>, ghost order: seq<string>)
      modifies this`rows, service`positions
      ensures Schedules(old(State()), account, broker, order)
      ensures State() == ReconcileAll(old(State()), account, broker, order)
      ensures created == CreatedAll(old(State()), account, broker, order)
    {
      hide OpenDrifts, ResolveDrifts, ReconcileSymbol, CreatedFor;
      ghost var start := State();
      created, order := [], [];
      var ours := set key | key in service.positions && key.account == account :: key.symbol;
      var todo := broker.Keys + ours;
      ghost var scope := todo;
      assert forall symbol :: symbol in scope <==> InScope(start, account, broker, symbol);
      NothingCompared(start, account, broker);
      hide InScope, Distinct, ReconcileAll, CreatedAll;
      while todo != {}
        invariant todo <= scope && forall symbol :: symbol in order <==> symbol in scope && symbol !in todo
        invariant Distinct(order)
        invariant State() == ReconcileAll(start, account, broker, order)
        invariant created == CreatedAll(start, account, broker, order)
        decreases |todo|
      {
        var symbol :| symbol in todo;
        ReconcileNext(start, account, broker, order, symbol);
        var more := CompareSymbol(account, broker, symbol);
        created := created + more;
        order := order + [symbol];
        todo := todo - {symbol};
      }
    }
  }

  lemma {:induction false} NothingCompared(s: Recon, account: AccountId, broker: map<string, Position>)
    ensures Distinct([]) && ReconcileAll(s, account, broker, []) == s && CreatedAll(s, account, broker, []) == []
  {}

  lemma {:induction false} ReconcileNext(s: Recon, account: AccountId, broker: map<string, Position>, order: seq<string>, symbol: string)
    ensures ReconcileAll(s, account, broker, order + [symbol]) == ReconcileSymbol(ReconcileAll(s, account, broker, order), account, broker, symbol)
    ensures CreatedAll(s, account, broker, order + [symbol])
         == CreatedAll(s, account, broker, order) + CreatedFor(ReconcileAll(s, account, broker, order), account, broker, symbol)
    ensures Distinct(order) && symbol !in order ==> Distinct(order + [symbol])
  {
    assert (order + [symbol])[..|order|] == order;
    hide ReconcileSymbol, CreatedFor;
  }
}
