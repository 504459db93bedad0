/** The at-least-once fill stream (`orders/fills.py`) as a protocol: one stream, its consumer group, and
    any number of workers that share the consumer's name, each of which may crash between any two steps.
    The steps, the invariant, and what each effect on the shared state keeps of it; `FillSafety` and
    `FillRetries` draw the conclusions over whole runs. */
module FillStream {
  import opened Prelude
  import opened Positions
  import opened Ledger
  import opened LedgerOrders
  import opened LedgerDb
  import opened FillWire

  const MAX_DELIVERIES := 5

  datatype Reason = Poison | MaxRetries

  /** What becomes of a command to a store: done and answered, done with the answer lost or a later part of it
      failing, or not done. */
  datatype Reply = Answered | Lost | Refused

  /** A dead-lettered entry and the attempt count that condemned it. */
  datatype Dead = Dead(id: nat, reason: Reason, attempts: nat)

  /** A committed ingest of an entry and what it reported. */
  datatype Done = Done(id: nat, outcome: Outcome)

  /** `entries` is the stream, its positions the message ids; `pending` lists what was delivered and not
      acknowledged, oldest first. The last three fields only remember: which entries the publisher wrote,
      which ingests committed, and how often ingest failed on an entry. */
  datatype Group = Group(
    entries: seq<Raw>, delivered: nat, pending: seq<nat>, attempts: map<nat, nat>, dead: seq<Dead>, tables: Tables,
    own: set<nat>, done: seq<Done>, failures: map<nat, nat>)

  function Count(m: map<nat, nat>, id: nat): nat {
    if id in m then m[id] else 0
  }

  function Without(ids: seq<nat>, id: nat): (rest: seq<nat>)
    ensures forall x :: x in rest <==> x in ids && x != id
    ensures |rest| <= |ids|
  {
    if ids == [] then []
    else Without(ids[..|ids| - 1], id) + if ids[|ids| - 1] != id then [ids[|ids| - 1]] else []
  }

  ghost predicate Ascending(ids: seq<nat>) {
    forall i, j :: 0 <= i < j < |ids| ==> ids[i] < ids[j]
  }

  lemma {:induction false} WithoutAscending(ids: seq<nat>, id: nat)
    requires Ascending(ids)
    ensures Ascending(Without(ids, id))
    ensures id in ids ==> |Without(ids, id)| == |ids| - 1
    ensures id !in ids ==> Without(ids, id) == ids
  {
    if ids != [] {
      var k := |ids| - 1;
      WithoutAscending(ids[..k], id);
      assert ids == ids[..k] + [ids[k]];
      var rest := Without(ids[..k], id);
      forall j | 0 <= j < |rest| ensures rest[j] < ids[k] {
        assert rest[j] in ids[..k];
      }
    }
  }

  function Event(g: Group, id: nat): Option<FillEvent>
    requires id < |g.entries|
  {
    Decode(g.entries[id])
  }

  // ----- single effects on the shared state -----

  function Committed(g: Group, id: nat, e: FillEvent): Group {
    var outcome := OutcomeOf(g.tables, e);
    g.(tables := Ingest(g.tables, e),
       done := g.done + [Done(id, if outcome.Ok? then outcome.value else Ignored)])
  }

  /** A failed ingest is rolled back; it is counted, if the counter store is reached. */
  function Failed(g: Group, id: nat, counter: Reply): Group {
    g.(attempts := if counter.Refused? then g.attempts else g.attempts[id := Count(g.attempts, id) + 1],
       failures := g.failures[id := Count(g.failures, id) + 1])
  }

  /** The count the worker goes by. Increment and expiry are one command to it: a counter that rose while its
      expiry failed reads as a first try, like one that does not answer. */
  function AttemptNo(g: Group, id: nat, counter: Reply): nat {
    if counter.Answered? then Count(g.attempts, id) + 1 else 1
  }

  function Buried(g: Group, id: nat, reason: Reason, attempts: nat): Group {
    g.(dead := g.dead + [Dead(id, reason, attempts)])
  }

  function Posted(g: Group, id: nat, reason: Reason, attempts: nat, letter: Reply): Group {
    if letter.Refused? then g else Buried(g, id, reason, attempts)
  }

  function Acked(g: Group, id: nat): Group {
    g.(pending := Without(g.pending, id))
  }

  function Cleared(g: Group, id: nat): Group {
    g.(attempts := g.attempts - {id})
  }

  // ----- the machine -----

  /** Where a worker is with the first entry of its batch. */
  datatype Stage = Reading | Burying(reason: Reason, attempts: nat) | Acking(clear: bool) | Clearing

  datatype Worker = Worker(todo: seq<nat>, stage: Stage)

  const IDLE := Worker([], Reading)

  datatype World = World(g: Group, workers: map<nat, Worker>)

  /** `Elsewhere` is an event that reaches the ledger through another user's stream or inline, and
      `PlaceRow` the order row the service inserts before it places an order. */
  datatype Step =
    | Publish(e: FillEvent)
    | Inject(raw: Raw)
    | ReadPending(k: nat, count: nat)
    | ReadNew(k: nat, count: nat)
    | Try(k: nat, raises: bool, counter: Reply)
    | Bury(k: nat, letter: Reply)
    | Ack(k: nat)
    | Clear(k: nat)
    | Crash(k: nat)
    | Elsewhere(e: FillEvent)
    | PlaceRow(o: Order)

  function At(w: World, k: nat): Worker {
    if k in w.workers then w.workers[k] else IDLE
  }

  function Next(todo: seq<nat>): Worker {
    Worker(if todo == [] then [] else todo[1..], Reading)
  }

  function Least(a: nat, b: nat): (m: nat)
    ensures m <= a && m <= b && (m == a || m == b)
  {
    if a <= b then a else b
  }

  function Available(g: Group): nat {
    if g.delivered < |g.entries| then |g.entries| - g.delivered else 0
  }

  function NewBatch(g: Group, count: nat): (ids: seq<nat>)
    ensures |ids| == Least(count, Available(g)) && forall j :: 0 <= j < |ids| ==> ids[j] == g.delivered + j
  {
    seq(Least(count, Available(g)), j => g.delivered + j)
  }

  function HandedOut(g: Group, count: nat): Group {
    g.(delivered := g.delivered + |NewBatch(g, count)|, pending := g.pending + NewBatch(g, count))
  }

  /** One entry through the ingest attempt: to be buried as poison, to be acknowledged, to be buried as
      hopeless, or left pending. */
  function Tried(g: Group, todo: seq<nat>, raises: bool, counter: Reply): (Group, Worker)
    requires todo != [] && todo[0] < |g.entries|
  {
    var id := todo[0];
    match Event(g, id)
    case None => (g, Worker(todo, Burying(Poison, 0)))
    case Some(e) =>
      if !raises && !Fails(g.tables, e) then (Committed(g, id, e), Worker(todo, Acking(true)))
      else
        var n := AttemptNo(g, id, counter);
        (Failed(g, id, counter), if n >= MAX_DELIVERIES then Worker(todo, Burying(MaxRetries, n)) else Next(todo))
  }

  /** A step that is not enabled changes nothing. */
  function Do(w: World, s: Step): World {
    var g := w.g;
    match s
    case Publish(e) => w.(g := g.(entries := g.entries + [Json(Encode(e))], own := g.own + {|g.entries|}))
    case Inject(raw) => w.(g := g.(entries := g.entries + [raw]))
    case ReadPending(k, count) =>
      if At(w, k) == IDLE then w.(workers := w.workers[k := Worker(g.pending[..Least(count, |g.pending|)], Reading)]) else w
    case ReadNew(k, count) =>
      if At(w, k) == IDLE then World(HandedOut(g, count), w.workers[k := Worker(NewBatch(g, count), Reading)]) else w
    case Try(k, raises, counter) =>
      var a := At(w, k);
      if a.stage == Reading && a.todo != [] && a.todo[0] < |g.entries| then
        var (g', a') := Tried(g, a.todo, raises, counter);
        World(g', w.workers[k := a'])
      else w
    case Bury(k, letter) =>
      var a := At(w, k);
      if a.stage.Burying? && a.todo != [] then
        World(Posted(g, a.todo[0], a.stage.reason, a.stage.attempts, letter),
              w.workers[k := if letter.Answered? then Worker(a.todo, Acking(a.stage.reason == MaxRetries)) else Next(a.todo)])
      else w
    case Ack(k) =>
      var a := At(w, k);
      if a.stage.Acking? && a.todo != [] then
        World(Acked(g, a.todo[0]), w.workers[k := if a.stage.clear then Worker(a.todo, Clearing) else Next(a.todo)])
      else w
    case Clear(k) =>
      var a := At(w, k);
      if a.stage.Clearing? && a.todo != [] then World(Cleared(g, a.todo[0]), w.workers[k := Next(a.todo)]) else w
    case Crash(k) => w.(workers := w.workers[k := IDLE])
    case Elsewhere(e) => w.(g := g.(tables := Ingest(g.tables, e)))
    case PlaceRow(o) => w.(g := g.(tables := g.tables.(orders := g.tables.orders + [o])))
  }

  function DoAll(w: World, steps: seq<Step>): World {
    if steps == [] then w else Do(DoAll(w, steps[..|steps| - 1]), steps[|steps| - 1])
  }

  function Start(orders: seq<Order>): World {
    World(Group([], 0, [], map[], [], Tables(orders, [], map[]), {}, [], map[]), map[])
  }

  // ----- what every run keeps -----

  ghost predicate IsDone(done: seq<Done>, id: nat) {
    exists j :: 0 <= j < |done| && done[j].id == id
  }

  ghost predicate IsDead(dead: seq<Dead>, id: nat) {
    exists j :: 0 <= j < |dead| && dead[j].id == id
  }

  ghost predicate Settled(g: Group, id: nat) {
    IsDone(g.done, id) || IsDead(g.dead, id)
  }

  /** The execution an ingest reported as applied is in the fill table. */
  ghost predicate OnRecord(g: Group, d: Done) {
    && d.id < g.delivered <= |g.entries| && Event(g, d.id).Some?
    && (d.outcome.Applied? && Executes(Event(g, d.id).value) ==>
          && d.outcome.order < |g.tables.orders| && g.tables.orders[d.outcome.order].account.Some?
          && Seen(g.tables.fills, g.tables.orders[d.outcome.order].account.value, Event(g, d.id).value.execId))
  }

  /** Poison is what cannot be read; the others were given up after at least five real failures. */
  ghost predicate RightlyDead(g: Group, d: Dead) {
    && d.id < g.delivered <= |g.entries|
    && match d.reason
       case Poison => Event(g, d.id).None?
       case MaxRetries => Event(g, d.id).Some? && MAX_DELIVERIES <= d.attempts <= Count(g.failures, d.id)
  }

  ghost predicate WorkerInv(g: Group, a: Worker) {
    && (forall j :: 0 <= j < |a.todo| ==> a.todo[j] < g.delivered)
    && (a.stage != Reading ==> a.todo != [])
    && match a.stage
       case Reading => true
       case Burying(reason, n) => RightlyDead(g, Dead(a.todo[0], reason, n))
       case _ => Settled(g, a.todo[0])
  }

  ghost predicate StreamInv(g: Group) {
    && g.delivered <= |g.entries|
    && (forall j :: 0 <= j < |g.pending| ==> g.pending[j] < g.delivered)
    && (forall id: nat :: id < g.delivered ==> id in g.pending || Settled(g, id))
    && (forall id :: id in g.own ==> id < |g.entries| && Event(g, id).Some?)
    && (forall id :: id in g.attempts ==> g.attempts[id] <= Count(g.failures, id))
  }

  ghost predicate HistoryInv(g: Group) {
    && g.delivered <= |g.entries|
    && (forall j :: 0 <= j < |g.done| ==> OnRecord(g, g.done[j]))
    && (forall j :: 0 <= j < |g.dead| ==> RightlyDead(g, g.dead[j]))
    && LedgerInv(g.tables)
  }

  ghost predicate GroupInv(g: Group) {
    StreamInv(g) && HistoryInv(g)
  }

  ghost predicate Inv(w: World) {
    && GroupInv(w.g)
    && (forall k :: k in w.workers ==> WorkerInv(w.g, w.workers[k]))
  }

  /** `h` is a later state: entries, deliveries and history only grow. */
  ghost predicate Later(g: Group, h: Group) {
    && g.entries <= h.entries && g.delivered <= h.delivered <= |h.entries|
    && g.done <= h.done && g.dead <= h.dead
    && (forall id :: Count(g.failures, id) <= Count(h.failures, id))
    && TablesGrow(g.tables, h.tables)
  }

  ghost predicate TablesGrow(t: Tables, u: Tables) {
    && |t.orders| <= |u.orders|
    && (forall i :: 0 <= i < |t.orders| ==> SameColumns(t.orders[i], u.orders[i]))
    && (forall account, id :: Seen(t.fills, account, id) ==> Seen(u.fills, account, id))
  }

  lemma {:induction false} IngestGrows(t: Tables, e: FillEvent)
    ensures TablesGrow(t, Ingest(t, e))
  {
    forall account, id | Seen(t.fills, account, id) ensures Seen(Ingest(t, e).fills, account, id) {
      SeenAfter(t, e, account, id);
    }
    hide Seen, NextStatus, NextFilled, Apply, Resolve;
  }

  lemma {:induction false} SettledLater(g: Group, h: Group, id: nat)
    requires Later(g, h) && Settled(g, id)
    ensures Settled(h, id)
  {
    if IsDone(g.done, id) {
      var j :| 0 <= j < |g.done| && g.done[j].id == id;
      assert h.done[j] == g.done[j];
    } else {
      var j :| 0 <= j < |g.dead| && g.dead[j].id == id;
      assert h.dead[j] == g.dead[j];
    }
  }

  lemma {:induction false} OnRecordLater(g: Group, h: Group, d: Done)
    requires Later(g, h) && OnRecord(g, d)
    ensures OnRecord(h, d)
  {
    assert h.entries[d.id] == g.entries[d.id];
    hide Seen, Decode;
    if d.outcome.Applied? && Executes(Event(g, d.id).value) {
      assert SameColumns(g.tables.orders[d.outcome.order], h.tables.orders[d.outcome.order]);
    }
  }

  lemma {:induction false} RightlyDeadLater(g: Group, h: Group, d: Dead)
    requires Later(g, h) && RightlyDead(g, d)
    ensures RightlyDead(h, d)
  {
    assert h.entries[d.id] == g.entries[d.id];
    hide Decode, Seen;
  }

  lemma {:induction false} WorkerLater(g: Group, h: Group, a: Worker)
    requires Later(g, h) && WorkerInv(g, a)
    ensures WorkerInv(h, a)
  {
    if a.stage.Burying? {
      RightlyDeadLater(g, h, Dead(a.todo[0], a.stage.reason, a.stage.attempts));
    } else if a.stage != Reading {
      SettledLater(g, h, a.todo[0]);
    }
    hide Settled, RightlyDead, TablesGrow;
  }

  // ----- each effect keeps the invariants -----

  lemma {:induction false} HistoryLater(g: Group, h: Group)
    requires Later(g, h) && HistoryInv(g) && h.done == g.done && h.dead == g.dead && LedgerInv(h.tables)
    ensures HistoryInv(h)
  {
    hide OnRecord, RightlyDead, LedgerInv, TablesGrow;
    forall j | 0 <= j < |h.done| ensures OnRecord(h, h.done[j]) {
      OnRecordLater(g, h, g.done[j]);
    }
    forall j | 0 <= j < |h.dead| ensures RightlyDead(h, h.dead[j]) {
      RightlyDeadLater(g, h, g.dead[j]);
    }
  }

  lemma {:induction false} SettledLaterAll(g: Group, h: Group)
    requires Later(g, h)
    ensures forall id :: Settled(g, id) ==> Settled(h, id)
  {
    forall id | Settled(g, id) ensures Settled(h, id) {
      SettledLater(g, h, id);
    }
  }

  lemma {:induction false} AppendKeeps(g: Group, raw: Raw, own: bool)
    requires GroupInv(g) && (own ==> Decode(raw).Some?)
    ensures var h := g.(entries := g.entries + [raw], own := if own then g.own + {|g.entries|} else g.own);
      GroupInv(h) && Later(g, h)
  {
    var h := g.(entries := g.entries + [raw], own := if own then g.own + {|g.entries|} else g.own);
    hide Decode, OnRecord, RightlyDead, LedgerInv;
    assert Later(g, h);
    HistoryLater(g, h);
    assert forall id :: 0 <= id < |g.entries| ==> h.entries[id] == g.entries[id];
  }

  lemma {:induction false} DeliveredKeeps(g: Group, count: nat)
    requires GroupInv(g)
    ensures GroupInv(HandedOut(g, count)) && Later(g, HandedOut(g, count))
    ensures forall j :: 0 <= j < |NewBatch(g, count)| ==> NewBatch(g, count)[j] < HandedOut(g, count).delivered
  {
    var h, ids := HandedOut(g, count), NewBatch(g, count);
    hide Decode, OnRecord, RightlyDead, LedgerInv, Settled, NewBatch;
    assert Later(g, h);
    HistoryLater(g, h);
    SettledLaterAll(g, h);
    forall id: nat | id < h.delivered ensures id in h.pending || Settled(h, id) {
      if id >= g.delivered {
        assert ids[id - g.delivered] == id;
      }
    }
  }

  lemma {:induction false} TablesKeep(g: Group, t: Tables)
    requires GroupInv(g) && TablesGrow(g.tables, t) && LedgerInv(t)
    ensures GroupInv(g.(tables := t)) && Later(g, g.(tables := t))
  {
    var h := g.(tables := t);
    hide Decode, OnRecord, RightlyDead, LedgerInv, Settled, TablesGrow;
    assert Later(g, h);
    HistoryLater(g, h);
    SettledLaterAll(g, h);
  }

  lemma {:induction false} RowKeepsInv(t: Tables, o: Order)
    requires LedgerInv(t)
    ensures LedgerInv(t.(orders := t.orders + [o])) && TablesGrow(t, t.(orders := t.orders + [o]))
  {
    var u := t.(orders := t.orders + [o]);
    forall key ensures History(u.orders, u.fills, key) == History(t.orders, t.fills, key) {
      HistoryMoreOrders(t.orders, o, t.fills, key);
    }
    hide History, Move, MoveAll, Seen;
  }

  lemma {:induction false} HistoryMoreOrders(orders: seq<Order>, o: Order, fills: seq<FillRow>, key: PositionKey)
    requires RowsGenuine(orders, fills)
    ensures History(orders + [o], fills, key) == History(orders, fills, key)
  {
    if fills != [] {
      HistoryMoreOrders(orders, o, fills[..|fills| - 1], key);
    }
  }

  /** What ingest reports as applied is in the table. */
  lemma {:induction false} AppliedIsOnRecord(t: Tables, e: FillEvent)
    requires !Fails(t, e)
    ensures var outcome := OutcomeOf(t, e);
      outcome.Ok? && (outcome.value.Applied? && Executes(e) ==>
        var after := Ingest(t, e);
        && outcome.value.order < |after.orders| && after.orders[outcome.value.order].account.Some?
        && Seen(after.fills, after.orders[outcome.value.order].account.value, e.execId))
  {
    var found := Resolve(t.orders, e);
    if found.Some? && Executes(e) {
      SeenAfter(t, e, t.orders[found.value].account.value, e.execId);
    }
    hide Seen, NextStatus, NextFilled, Apply, Resolve;
  }

  lemma {:induction false} CommittedKeeps(g: Group, id: nat, e: FillEvent)
    requires GroupInv(g) && id < g.delivered && Event(g, id) == Some(e) && !Fails(g.tables, e)
    ensures GroupInv(Committed(g, id, e)) && Later(g, Committed(g, id, e)) && Settled(Committed(g, id, e), id)
  {
    var h := Committed(g, id, e);
    IngestKeepsInv(g.tables, e);
    IngestGrows(g.tables, e);
    AppliedIsOnRecord(g.tables, e);
    assert OnRecord(h, h.done[|g.done|]);
    hide Decode, OnRecord, RightlyDead, LedgerInv, TablesGrow, Ingest, OutcomeOf, Fails;
    TablesKeep(g, h.tables);
    var mid := g.(tables := h.tables);
    DoneKeeps(mid, h.done[|g.done|]);
  }

  lemma {:induction false} DoneKeeps(g: Group, d: Done)
    requires GroupInv(g) && OnRecord(g.(done := g.done + [d]), d)
    ensures var h := g.(done := g.done + [d]);
      GroupInv(h) && Later(g, h) && Settled(h, d.id)
  {
    var h := g.(done := g.done + [d]);
    hide Decode, OnRecord, RightlyDead, LedgerInv, Settled, Seen;
    assert Later(g, h);
    forall j | 0 <= j < |h.done| ensures OnRecord(h, h.done[j]) {
      if j < |g.done| {
        OnRecordLater(g, h, g.done[j]);
      }
    }
    forall j | 0 <= j < |h.dead| ensures RightlyDead(h, h.dead[j]) {
      RightlyDeadLater(g, h, g.dead[j]);
    }
    SettledLaterAll(g, h);
    NowDone(g, d);
  }

  lemma {:induction false} NowDone(g: Group, d: Done)
    ensures Settled(g.(done := g.done + [d]), d.id)
  {
    assert (g.done + [d])[|g.done|] == d;
  }

  lemma {:induction false} NowDead(g: Group, d: Dead)
    ensures Settled(g.(dead := g.dead + [d]), d.id)
  {
    assert (g.dead + [d])[|g.dead|] == d;
  }

  lemma {:induction false} BuriedKeeps(g: Group, d: Dead)
    requires GroupInv(g) && RightlyDead(g, d)
    ensures var h := g.(dead := g.dead + [d]);
      GroupInv(h) && Later(g, h) && Settled(h, d.id)
  {
    var h := g.(dead := g.dead + [d]);
    hide Decode, OnRecord, RightlyDead, LedgerInv, Settled, Seen;
    assert Later(g, h);
    forall j | 0 <= j < |h.done| ensures OnRecord(h, h.done[j]) {
      OnRecordLater(g, h, g.done[j]);
    }
    forall j | 0 <= j < |h.dead| ensures RightlyDead(h, h.dead[j]) {
      RightlyDeadLater(g, h, if j < |g.dead| then g.dead[j] else d);
    }
    SettledLaterAll(g, h);
    NowDead(g, d);
  }

  lemma {:induction false} FailedKeeps(g: Group, id: nat, counter: Reply)
    requires GroupInv(g) && id < g.delivered && Event(g, id).Some?
    ensures var h := Failed(g, id, counter);
      && GroupInv(h) && Later(g, h)
      && (AttemptNo(g, id, counter) >= MAX_DELIVERIES ==> RightlyDead(h, Dead(id, MaxRetries, AttemptNo(g, id, counter))))
  {
    var h := Failed(g, id, counter);
    hide Decode, OnRecord, LedgerInv, Settled, Seen, TablesGrow;
    assert TablesGrow(g.tables, h.tables) by { SameTablesGrow(g.tables); }
    assert Later(g, h);
    HistoryLater(g, h);
    SettledLaterAll(g, h);
  }

  lemma {:induction false} SameTablesGrow(t: Tables)
    ensures TablesGrow(t, t)
  {}

  lemma {:induction false} AckedKeeps(g: Group, id: nat)
    requires GroupInv(g) && Settled(g, id)
    ensures GroupInv(Acked(g, id)) && Later(g, Acked(g, id))
  {
    var h := Acked(g, id);
    SameTablesGrow(g.tables);
    hide Decode, OnRecord, RightlyDead, LedgerInv, Settled, TablesGrow;
    assert Later(g, h);
    HistoryLater(g, h);
    SettledLaterAll(g, h);
    forall j | 0 <= j < |h.pending| ensures h.pending[j] < h.delivered {
      assert h.pending[j] in h.pending;
    }
  }

  lemma {:induction false} ClearedKeeps(g: Group, id: nat)
    requires GroupInv(g)
    ensures GroupInv(Cleared(g, id)) && Later(g, Cleared(g, id))
  {
    var h := Cleared(g, id);
    SameTablesGrow(g.tables);
    hide Decode, OnRecord, RightlyDead, LedgerInv, Settled, TablesGrow;
    assert Later(g, h);
    HistoryLater(g, h);
    SettledLaterAll(g, h);
  }
}
