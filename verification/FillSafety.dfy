/** Safety of the fill stream over every run, with crashes, interleaved workers, failing stores and
    foreign entries (`orders/fills.py`). */
module FillSafety {
  import opened Prelude
  import opened Positions
  import opened Ledger
  import opened LedgerOrders
  import opened LedgerDb
  import opened FillWire
  import opened FillStream

  ghost predicate WorkersInv(g: Group, workers: map<nat, Worker>) {
    forall k :: k in workers ==> WorkerInv(g, workers[k])
  }

  lemma {:induction false} WorkersLater(g: Group, h: Group, workers: map<nat, Worker>)
    requires Later(g, h) && WorkersInv(g, workers)
    ensures WorkersInv(h, workers)
  {
    forall k | k in workers ensures WorkerInv(h, workers[k]) {
      WorkerLater(g, h, workers[k]);
    }
  }

  lemma {:induction false} WorkerNext(g: Group, a: Worker)
    requires WorkerInv(g, a)
    ensures WorkerInv(g, Next(a.todo))
  {
    hide Settled, RightlyDead;
  }

  lemma {:induction false} WorkerAt(w: World, k: nat)
    requires Inv(w)
    ensures WorkerInv(w.g, At(w, k)) && WorkersInv(w.g, w.workers)
  {}

  /** The new state and the moved worker are sound, hence so is the new world. */
  lemma {:induction false} Assemble(w: World, h: Group, k: nat, a: Worker)
    requires Inv(w) && Later(w.g, h) && GroupInv(h) && WorkerInv(h, a)
    ensures Inv(World(h, w.workers[k := a]))
  {
    WorkersLater(w.g, h, w.workers);
    hide GroupInv, Later, WorkerInv;
  }

  lemma {:induction false} AssembleShared(w: World, h: Group)
    requires Inv(w) && Later(w.g, h) && GroupInv(h)
    ensures Inv(World(h, w.workers))
  {
    WorkersLater(w.g, h, w.workers);
    hide GroupInv, Later, WorkerInv;
  }

  lemma {:induction false} SameLater(g: Group)
    requires GroupInv(g)
    ensures Later(g, g)
  {
    SameTablesGrow(g.tables);
    hide TablesGrow;
  }

  lemma {:induction false} TryKeeps(w: World, k: nat, raises: bool, counter: Reply)
    requires Inv(w)
    ensures Inv(Do(w, Try(k, raises, counter)))
  {
    var g, a := w.g, At(w, k);
    WorkerAt(w, k);
    if a.stage == Reading && a.todo != [] && a.todo[0] < |g.entries| {
      var id := a.todo[0];
      SameLater(g);
      if Event(g, id).None? {
        PoisonIsRight(g, id);
        hide Inv, GroupInv, Later, RightlyDead, Decode;
        Assemble(w, g, k, Worker(a.todo, Burying(Poison, 0)));
      } else if !raises && !Fails(g.tables, Event(g, id).value) {
        CommittedKeeps(g, id, Event(g, id).value);
        var h := Committed(g, id, Event(g, id).value);
        LaterDelivered(g, h, a.todo);
        hide Inv, GroupInv, Later, Settled, Decode, Committed, Fails;
        Assemble(w, h, k, Worker(a.todo, Acking(true)));
      } else {
        FailedKeeps(g, id, counter);
        var h, n := Failed(g, id, counter), AttemptNo(g, id, counter);
        LaterDelivered(g, h, a.todo);
        hide Inv, GroupInv, Later, Settled, Decode, Failed, Fails, RightlyDead, AttemptNo;
        Assemble(w, h, k, if n >= MAX_DELIVERIES then Worker(a.todo, Burying(MaxRetries, n)) else Next(a.todo));
      }
    }
  }

  lemma {:induction false} PoisonIsRight(g: Group, id: nat)
    requires GroupInv(g) && id < g.delivered && Event(g, id).None?
    ensures RightlyDead(g, Dead(id, Poison, 0))
  {}

  lemma {:induction false} LaterDelivered(g: Group, h: Group, ids: seq<nat>)
    requires Later(g, h) && forall j :: 0 <= j < |ids| ==> ids[j] < g.delivered
    ensures forall j :: 0 <= j < |ids| ==> ids[j] < h.delivered
  {}

  lemma {:induction false} BuryKeeps(w: World, k: nat, letter: Reply)
    requires Inv(w)
    ensures Inv(Do(w, Bury(k, letter)))
  {
    var g, a := w.g, At(w, k);
    WorkerAt(w, k);
    SameLater(g);
    if a.stage.Burying? && a.todo != [] {
      if !letter.Refused? {
        var d := Dead(a.todo[0], a.stage.reason, a.stage.attempts);
        BuriedKeeps(g, d);
        var h := Buried(g, d.id, d.reason, d.attempts);
        LaterDelivered(g, h, a.todo);
        WorkerLater(g, h, a);
        WorkerNext(h, a);
        hide Inv, GroupInv, Later, Settled, RightlyDead, Buried;
        Assemble(w, h, k, if letter.Answered? then Worker(a.todo, Acking(a.stage.reason == MaxRetries)) else Next(a.todo));
      } else {
        WorkerNext(g, a);
        hide Inv, GroupInv, Later, Settled, RightlyDead, WorkerInv;
        Assemble(w, g, k, Next(a.todo));
      }
    }
  }

  lemma {:induction false} AckKeeps(w: World, k: nat)
    requires Inv(w)
    ensures Inv(Do(w, Ack(k)))
  {
    var g, a := w.g, At(w, k);
    WorkerAt(w, k);
    if a.stage.Acking? && a.todo != [] {
      var h := Acked(g, a.todo[0]);
      AckedKeeps(g, a.todo[0]);
      WorkerLater(g, h, a);
      WorkerNext(h, a);
      hide Inv, GroupInv, Later, Settled, Acked;
      Assemble(w, h, k, if a.stage.clear then Worker(a.todo, Clearing) else Next(a.todo));
    }
  }

  lemma {:induction false} ClearKeeps(w: World, k: nat)
    requires Inv(w)
    ensures Inv(Do(w, Clear(k)))
  {
    var g, a := w.g, At(w, k);
    WorkerAt(w, k);
    if a.stage.Clearing? && a.todo != [] {
      var h := Cleared(g, a.todo[0]);
      ClearedKeeps(g, a.todo[0]);
      WorkerLater(g, h, a);
      WorkerNext(h, a);
      hide Inv, GroupInv, Later, Settled, Cleared;
      Assemble(w, h, k, Next(a.todo));
    }
  }

  lemma {:induction false} ReadKeeps(w: World, s: Step)
    requires Inv(w) && (s.ReadPending? || s.ReadNew?)
    ensures Inv(Do(w, s))
  {
    var g := w.g;
    if At(w, s.k) == IDLE {
      if s.ReadPending? {
        SameLater(g);
        Assemble(w, g, s.k, Worker(g.pending[..Least(s.count, |g.pending|)], Reading));
      } else {
        DeliveredKeeps(g, s.count);
        hide GroupInv, Later, HandedOut, NewBatch;
        Assemble(w, HandedOut(g, s.count), s.k, Worker(NewBatch(g, s.count), Reading));
      }
    }
  }

  lemma {:induction false} SharedKeeps(w: World, s: Step)
    requires Inv(w) && (s.Publish? || s.Inject? || s.Elsewhere? || s.PlaceRow?)
    ensures Inv(Do(w, s))
  {
    var g, t := w.g, w.g.tables;
    match s
    case Publish(e) =>
      PublishedIsNeverPoison(e);
      AppendKeeps(g, Json(Encode(e)), true);
      hide GroupInv, Later, Decode, Encode;
      AssembleShared(w, Do(w, s).g);
    case Inject(raw) =>
      AppendKeeps(g, raw, false);
      hide GroupInv, Later, Decode;
      AssembleShared(w, Do(w, s).g);
    case Elsewhere(e) =>
      IngestKeepsInv(t, e);
      IngestGrows(t, e);
      TablesKeep(g, Ingest(t, e));
      hide GroupInv, Later, Ingest;
      AssembleShared(w, Do(w, s).g);
    case PlaceRow(o) =>
      RowKeepsInv(t, o);
      TablesKeep(g, t.(orders := t.orders + [o]));
      hide GroupInv, Later;
      AssembleShared(w, Do(w, s).g);
  }

  lemma {:induction false} CrashKeeps(w: World, k: nat)
    requires Inv(w)
    ensures Inv(Do(w, Crash(k)))
  {}

  lemma {:induction false} StepKeeps(w: World, s: Step)
    requires Inv(w)
    ensures Inv(Do(w, s))
  {
    hide *;
    match s
    case Publish(_) => SharedKeeps(w, s);
    case Inject(_) => SharedKeeps(w, s);
    case Elsewhere(_) => SharedKeeps(w, s);
    case PlaceRow(_) => SharedKeeps(w, s);
    case ReadPending(_, _) => ReadKeeps(w, s);
    case ReadNew(_, _) => ReadKeeps(w, s);
    case Try(k, raises, counter) => TryKeeps(w, k, raises, counter);
    case Bury(k, letter) => BuryKeeps(w, k, letter);
    case Ack(k) => AckKeeps(w, k);
    case Clear(k) => ClearKeeps(w, k);
    case Crash(k) => CrashKeeps(w, k);
  }

  lemma {:induction false} StartsSound(orders: seq<Order>)
    ensures Inv(Start(orders))
  {}

  lemma {:induction false} RunKeepsInv(orders: seq<Order>, steps: seq<Step>)
    ensures Inv(DoAll(Start(orders), steps))
  {
    hide Inv, Do, Start;
    if steps == [] {
      StartsSound(orders);
    } else {
      RunKeepsInv(orders, steps[..|steps| - 1]);
      StepKeeps(DoAll(Start(orders), steps[..|steps| - 1]), steps[|steps| - 1]);
    }
  }

  // ----- the promises -----

  /** Once delivered and no longer pending, an entry was ingested or dead-lettered, in every run: nothing is
      acknowledged and lost, whatever crashes between ingest and acknowledgement. */
  lemma {:induction false} AcknowledgedIsSettled(orders: seq<Order>, steps: seq<Step>, id: nat)
    ensures var g := DoAll(Start(orders), steps).g;
      id < g.delivered && id !in g.pending ==> IsDone(g.done, id) || IsDead(g.dead, id)
  {
    hide Start, DoAll, IsDone, IsDead, HistoryInv, WorkerInv;
    RunKeepsInv(orders, steps);
  }

  /** An ingest that reported its event as applied has left the execution in the fill table for good, and
      no redelivery enters it twice: account and execution id are a key there, and each position is what
      the recorded executions, each once, make of it. */
  lemma {:induction false} ExecutionsRecordedOnce(orders: seq<Order>, steps: seq<Step>, j: nat)
    ensures var g := DoAll(Start(orders), steps).g;
      && KeysUnique(g.tables.fills) && PositionsFollow(g.tables)
      && (j < |g.done| ==> OnRecord(g, g.done[j]))
  {
    hide Start, DoAll, OnRecord, RightlyDead, WorkerInv, StreamInv;
    RunKeepsInv(orders, steps);
  }

  /** What the publisher wrote is never dead-lettered as poison; and an entry is given up as hopeless only
      after at least five ingests of it really failed. */
  lemma {:induction false} DeadForAReason(orders: seq<Order>, steps: seq<Step>, j: nat)
    ensures var g := DoAll(Start(orders), steps).g;
      j < |g.dead| ==>
        var d := g.dead[j];
        && (d.reason == Poison ==> d.id !in g.own)
        && (d.reason == MaxRetries ==> Count(g.failures, d.id) >= 5)
  {
    hide Start, DoAll, OnRecord, WorkerInv, Decode, LedgerInv, Settled;
    RunKeepsInv(orders, steps);
    var g := DoAll(Start(orders), steps).g;
    if j < |g.dead| {
      assert RightlyDead(g, g.dead[j]);
    }
  }
}
