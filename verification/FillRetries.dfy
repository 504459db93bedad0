/** How often ingest can fail on one stream entry, over every run (`orders/fills.py`). */
module FillRetries {
  import opened Prelude
  import opened Ledger
  import opened LedgerDb
  import opened FillWire
  import opened FillStream
  import opened FillSafety

  /** Worker `k` has given the entry up as hopeless and not acknowledged it yet. */
  ghost predicate Condemns(w: World, k: nat, id: nat) {
    var a := At(w, k);
    && a.todo != [] && a.todo[0] == id
    && ((a.stage.Burying? && a.stage.reason == MaxRetries) || (a.stage == Acking(true) && IsDead(w.g.dead, id)))
  }

  ghost predicate Condemned(w: World, id: nat) {
    exists k :: Condemns(w, k, id)
  }

  /** The step is an ingest of the entry that fails. */
  predicate FailsOn(w: World, s: Step, id: nat) {
    && s.Try? && At(w, s.k).stage == Reading && At(w, s.k).todo != [] && At(w, s.k).todo[0] == id
    && id < |w.g.entries| && Event(w.g, id).Some? && (s.raises || Fails(w.g.tables, Event(w.g, id).value))
  }

  /** A crash, or a dead-letter stream whose answer does not come, sends a condemned entry round again. */
  ghost predicate Loses(w: World, s: Step, id: nat) {
    && (s.Crash? || (s.Bury? && !s.letter.Answered? && At(w, s.k).stage.Burying?))
    && Condemns(w, s.k, id)
  }

  predicate GoesUncounted(w: World, s: Step, id: nat) {
    FailsOn(w, s, id) && !s.counter.Answered?
  }

  /** A worker fails on what another one has condemned or acknowledged meanwhile. */
  ghost predicate Overlaps(w: World, s: Step, id: nat) {
    FailsOn(w, s, id) && (id !in w.g.pending || Condemned(w, id))
  }

  ghost predicate Excuse(w: World, s: Step, id: nat) {
    Loses(w, s, id) || GoesUncounted(w, s, id) || Overlaps(w, s, id)
  }

  ghost function Excuses(w: World, steps: seq<Step>, id: nat): nat {
    if steps == [] then 0
    else
      var front := steps[..|steps| - 1];
      Excuses(w, front, id) + if Excuse(DoAll(w, front), steps[|steps| - 1], id) then 1 else 0
  }

  // ----- what every run keeps -----

  predicate Open(g: Group, id: nat) {
    id in g.pending || id >= g.delivered
  }

  /** The failures of an entry, given the number `x` of excuses so far. */
  ghost predicate Accounted(w: World, id: nat, x: nat) {
    var failures := Count(w.g.failures, id);
    && failures <= MAX_DELIVERIES + x
    && (Open(w.g, id) ==> failures <= Count(w.g.attempts, id) + x)
    && (Open(w.g, id) && !Condemned(w, id) ==> failures < MAX_DELIVERIES + x)
  }

  /** A counter is cleared only after its entry was acknowledged. */
  ghost predicate ClearsAcked(w: World) {
    forall k :: k in w.workers && w.workers[k].stage.Clearing? ==>
      w.workers[k].todo != [] && !Open(w.g, w.workers[k].todo[0])
  }

  /** Nothing that counts for the entry has changed, and who condemned it still does. */
  ghost predicate Quiet(w: World, v: World, id: nat) {
    && Count(v.g.failures, id) == Count(w.g.failures, id)
    && (Open(v.g, id) ==> Open(w.g, id) && Count(v.g.attempts, id) == Count(w.g.attempts, id))
    && (Open(v.g, id) && Condemned(w, id) ==> Condemned(v, id))
  }

  lemma {:induction false} QuietKeeps(w: World, v: World, id: nat, x: nat)
    requires Accounted(w, id, x) && Quiet(w, v, id)
    ensures Accounted(v, id, x)
  {
    hide Open, Condemned;
  }

  /** Worker `k` moved; the entry is condemned as before unless it was condemned by `k`. */
  lemma {:induction false} OthersCondemn(w: World, v: World, k: nat, id: nat)
    requires forall j :: j != k ==> At(v, j) == At(w, j)
    requires w.g.dead <= v.g.dead
    requires Condemns(w, k, id) ==> Condemns(v, k, id)
    ensures Condemned(w, id) ==> Condemned(v, id)
  {
    if Condemned(w, id) {
      var j :| Condemns(w, j, id);
      DeadStays(w.g.dead, v.g.dead, id);
      assert Condemns(v, j, id);
    }
  }

  lemma {:induction false} DeadStays(before: seq<Dead>, after: seq<Dead>, id: nat)
    requires before <= after
    ensures IsDead(before, id) ==> IsDead(after, id)
  {
    if IsDead(before, id) {
      var j :| 0 <= j < |before| && before[j].id == id;
      assert after[j] == before[j];
    }
  }

  // ----- step by step -----

  /** No step but a failing ingest or a loss touches what counts for the entry. */
  lemma {:induction false} SharedIsQuiet(w: World, s: Step, id: nat)
    requires s.Publish? || s.Inject? || s.Elsewhere? || s.PlaceRow?
    ensures Quiet(w, Do(w, s), id)
  {
    hide Encode, Ingest;
    OthersCondemn(w, Do(w, s), 0, id);
  }

  lemma {:induction false} ReadIsQuiet(w: World, s: Step, id: nat)
    requires s.ReadPending? || s.ReadNew?
    ensures Quiet(w, Do(w, s), id)
  {
    OthersCondemn(w, Do(w, s), s.k, id);
  }

  lemma {:induction false} TryIsQuiet(w: World, s: Step, id: nat)
    requires s.Try? && !FailsOn(w, s, id)
    ensures Quiet(w, Do(w, s), id)
  {
    hide Decode, Fails, Ingest, OutcomeOf;
    OthersCondemn(w, Do(w, s), s.k, id);
  }

  lemma {:induction false} BuryIsQuiet(w: World, s: Step, id: nat)
    requires s.Bury? && !Loses(w, s, id)
    ensures Quiet(w, Do(w, s), id)
  {
    var a := At(w, s.k);
    if a.stage.Burying? && a.todo != [] && !s.letter.Refused? {
      assert Do(w, s).g.dead[|w.g.dead|].id == a.todo[0];
    }
    OthersCondemn(w, Do(w, s), s.k, id);
  }

  lemma {:induction false} AckIsQuiet(w: World, s: Step, id: nat)
    requires s.Ack? && Inv(w)
    ensures Quiet(w, Do(w, s), id)
  {
    WorkerAt(w, s.k);
    hide Inv, Settled, RightlyDead;
    if At(w, s.k).stage.Acking? && At(w, s.k).todo != [] && At(w, s.k).todo[0] != id {
      OthersCondemn(w, Do(w, s), s.k, id);
    }
  }

  lemma {:induction false} ClearIsQuiet(w: World, s: Step, id: nat)
    requires s.Clear? && ClearsAcked(w)
    ensures Quiet(w, Do(w, s), id)
  {
    OthersCondemn(w, Do(w, s), s.k, id);
  }

  lemma {:induction false} CrashIsQuiet(w: World, s: Step, id: nat)
    requires s.Crash? && !Loses(w, s, id)
    ensures Quiet(w, Do(w, s), id)
  {
    OthersCondemn(w, Do(w, s), s.k, id);
  }

  lemma {:induction false} StepIsQuiet(w: World, s: Step, id: nat)
    requires Inv(w) && ClearsAcked(w) && !FailsOn(w, s, id) && !Loses(w, s, id)
    ensures Quiet(w, Do(w, s), id)
  {
    hide *;
    match s
    case Try(_, _, _) => TryIsQuiet(w, s, id);
    case Bury(_, _) => BuryIsQuiet(w, s, id);
    case Ack(_) => AckIsQuiet(w, s, id);
    case Clear(_) => ClearIsQuiet(w, s, id);
    case Crash(_) => CrashIsQuiet(w, s, id);
    case ReadPending(_, _) => ReadIsQuiet(w, s, id);
    case ReadNew(_, _) => ReadIsQuiet(w, s, id);
    case _ => SharedIsQuiet(w, s, id);
  }

  /** A lost entry may fail once more. */
  lemma {:induction false} LossCosts(w: World, s: Step, id: nat, x: nat)
    requires Accounted(w, id, x) && Loses(w, s, id)
    ensures Accounted(Do(w, s), id, x + 1)
  {}

  /** A failing ingest: counted and condemned with the fifth, or excused. */
  lemma {:induction false} FailureCosts(w: World, s: Step, id: nat, x: nat)
    requires Accounted(w, id, x) && FailsOn(w, s, id)
    ensures Accounted(Do(w, s), id, if GoesUncounted(w, s, id) || Overlaps(w, s, id) then x + 1 else x)
  {
    hide Decode, Fails;
    var v := Do(w, s);
    assert v.g == Failed(w.g, id, s.counter);
    assert Count(v.g.failures, id) == Count(w.g.failures, id) + 1;
    assert !s.counter.Refused? ==> Count(v.g.attempts, id) == Count(w.g.attempts, id) + 1;
    if s.counter.Answered? && AttemptNo(w.g, id, Answered) >= MAX_DELIVERIES {
      assert Condemns(v, s.k, id);
    }
    OthersCondemn(w, v, s.k, id);
    hide Condemned, Do, Failed;
  }

  lemma {:induction false} StepAccounted(w: World, s: Step, id: nat, x: nat)
    requires Inv(w) && ClearsAcked(w) && Accounted(w, id, x)
    ensures Accounted(Do(w, s), id, x + if Excuse(w, s, id) then 1 else 0)
  {
    assert Excuse(w, s, id) <==> Loses(w, s, id) || GoesUncounted(w, s, id) || Overlaps(w, s, id);
    assert Loses(w, s, id) ==> !FailsOn(w, s, id);
    assert GoesUncounted(w, s, id) || Overlaps(w, s, id) ==> FailsOn(w, s, id);
    hide *;
    if Loses(w, s, id) {
      LossCosts(w, s, id, x);
    } else if FailsOn(w, s, id) {
      FailureCosts(w, s, id, x);
    } else {
      StepIsQuiet(w, s, id);
      QuietKeeps(w, Do(w, s), id, x);
    }
  }

  /** What was acknowledged never comes back. */
  lemma {:induction false} NeverReopens(w: World, s: Step, id: nat)
    requires Open(Do(w, s).g, id)
    ensures Open(w.g, id)
  {
    hide Decode, Encode, Fails, Ingest, OutcomeOf;
  }

  lemma {:induction false} StepClearsAcked(w: World, s: Step)
    requires Inv(w) && ClearsAcked(w)
    ensures ClearsAcked(Do(w, s))
  {
    var v := Do(w, s);
    forall k | k in v.workers && v.workers[k].stage.Clearing?
      ensures v.workers[k].todo != [] && !Open(v.g, v.workers[k].todo[0])
    {
      StepClears(w, s, k);
      if !(s == Ack(k) && At(w, k).stage.Acking?) && Open(v.g, v.workers[k].todo[0]) {
        NeverReopens(w, s, v.workers[k].todo[0]);
      }
    }
  }

  lemma {:induction false} StepClears(w: World, s: Step, k: nat)
    requires Inv(w) && k in Do(w, s).workers && Do(w, s).workers[k].stage.Clearing?
    ensures if s == Ack(k) && At(w, k).stage.Acking? then Do(w, s).workers[k].todo != [] && !Open(Do(w, s).g, Do(w, s).workers[k].todo[0])
            else k in w.workers && w.workers[k] == Do(w, s).workers[k]
  {
    WorkerAt(w, k);
    hide Inv, Decode, Encode, Fails, Ingest, OutcomeOf, Settled, RightlyDead;
  }

  lemma {:induction false} RunAccounted(orders: seq<Order>, steps: seq<Step>, id: nat)
    ensures var w := DoAll(Start(orders), steps);
      ClearsAcked(w) && Accounted(w, id, Excuses(Start(orders), steps, id))
  {
    hide Do, Inv, Accounted, ClearsAcked, Excuse;
    if steps == [] {
      StartAccounted(orders, id);
    } else {
      var front := steps[..|steps| - 1];
      RunAccounted(orders, front, id);
      RunKeepsInv(orders, front);
      StepAccounted(DoAll(Start(orders), front), steps[|steps| - 1], id, Excuses(Start(orders), front, id));
      StepClearsAcked(DoAll(Start(orders), front), steps[|steps| - 1]);
    }
  }

  lemma {:induction false} StartAccounted(orders: seq<Order>, id: nat)
    ensures ClearsAcked(Start(orders)) && Accounted(Start(orders), id, 0)
  {}

  /** In every run, with any number of workers, crashes anywhere and stores that fail at will: an entry fails
      at most five times, and fewer while it is pending and nobody has condemned it, not counting once for
      each time it was lost after it had been condemned, failed without being counted, or failed at a
      second worker. */
  lemma {:induction false} RetriesBounded(orders: seq<Order>, steps: seq<Step>, id: nat)
    ensures var w, x := DoAll(Start(orders), steps), Excuses(Start(orders), steps, id);
      var failures := Count(w.g.failures, id);
      && failures <= 5 + x
      && (id in w.g.pending ==> Count(w.g.attempts, id) <= failures <= Count(w.g.attempts, id) + x)
      && (id in w.g.pending && !Condemned(w, id) ==> failures < 5 + x)
  {
    RunAccounted(orders, steps, id);
    RunKeepsInv(orders, steps);
    CountersHonest(DoAll(Start(orders), steps), id);
    hide Inv, Condemned, DoAll, Excuses, Start;
  }

  lemma {:induction false} CountersHonest(w: World, id: nat)
    requires Inv(w)
    ensures Count(w.g.attempts, id) <= Count(w.g.failures, id)
  {}

  // ----- one worker, stores up -----

  /** Only worker `k` consumes, and counter and dead-letter stream answer it. */
  predicate Served(s: Step, k: nat) {
    match s
    case ReadPending(j, _) => j == k
    case ReadNew(j, _) => j == k
    case Try(j, _, counter) => j == k && counter.Answered?
    case Bury(j, letter) => j == k && letter.Answered?
    case Ack(j) => j == k
    case Clear(j) => j == k
    case Crash(j) => j == k
    case _ => true
  }

  ghost predicate Alone(w: World, k: nat) {
    var a := At(w, k);
    && (forall j :: j in w.workers ==> j == k)
    && Ascending(w.g.pending) && Ascending(a.todo)
    && (a.todo == [] ==> !a.stage.Clearing?)
    && (forall j :: (if a.stage.Clearing? then 1 else 0) <= j < |a.todo| ==> a.todo[j] in w.g.pending)
  }

  lemma {:induction false} ReadAlone(w: World, s: Step, k: nat)
    requires Inv(w) && Alone(w, k) && Served(s, k) && (s.ReadPending? || s.ReadNew?)
    ensures Alone(Do(w, s), k)
  {
    hide LedgerInv, OnRecord, RightlyDead, Settled, WorkerInv;
    assert forall j :: 0 <= j < |w.g.pending| ==> w.g.pending[j] < w.g.delivered;
    hide Inv;
    if s.ReadNew? && At(w, k) == IDLE {
      var added, pending := NewBatch(w.g, s.count), Do(w, s).g.pending;
      assert pending == w.g.pending + added;
      forall j | 0 <= j < |added| ensures added[j] in pending {
        assert pending[|w.g.pending| + j] == added[j];
      }
    }
  }

  lemma {:induction false} RestStays(pending: seq<nat>, todo: seq<nat>)
    requires Ascending(pending) && Ascending(todo) && todo != [] && forall j :: 0 <= j < |todo| ==> todo[j] in pending
    ensures Ascending(Without(pending, todo[0])) && Ascending(todo[1..])
    ensures forall j :: 1 <= j < |todo| ==> todo[j] in Without(pending, todo[0])
  {
    WithoutAscending(pending, todo[0]);
  }

  lemma {:induction false} AckAlone(w: World, k: nat)
    requires Alone(w, k)
    ensures Alone(Do(w, Ack(k)), k)
  {
    var a := At(w, k);
    if a.stage.Acking? && a.todo != [] {
      RestStays(w.g.pending, a.todo);
    }
    hide Ascending, Without;
  }

  lemma {:induction false} TryAlone(w: World, s: Step, k: nat)
    requires Alone(w, k) && Served(s, k) && s.Try?
    ensures Alone(Do(w, s), k)
  {
    hide Decode, Fails, Ingest, OutcomeOf;
  }

  lemma {:induction false} BuryAlone(w: World, s: Step, k: nat)
    requires Alone(w, k) && Served(s, k) && (s.Bury? || s.Clear? || s.Crash?)
    ensures Alone(Do(w, s), k)
  {}

  lemma {:induction false} SharedAlone(w: World, s: Step, k: nat)
    requires Alone(w, k) && (s.Publish? || s.Inject? || s.Elsewhere? || s.PlaceRow?)
    ensures Alone(Do(w, s), k)
  {
    hide Encode, Ingest, Ascending;
  }

  lemma {:induction false} StepAlone(w: World, s: Step, k: nat)
    requires Inv(w) && Alone(w, k) && Served(s, k)
    ensures Alone(Do(w, s), k)
  {
    assert s.Ack? ==> s == Ack(k);
    hide *;
    match s
    case ReadPending(_, _) => ReadAlone(w, s, k);
    case ReadNew(_, _) => ReadAlone(w, s, k);
    case Try(_, _, _) => TryAlone(w, s, k);
    case Bury(_, _) => BuryAlone(w, s, k);
    case Ack(_) => AckAlone(w, k);
    case Clear(_) => BuryAlone(w, s, k);
    case Crash(_) => BuryAlone(w, s, k);
    case _ => SharedAlone(w, s, k);
  }

  ghost predicate AllServed(steps: seq<Step>, k: nat) {
    forall j :: 0 <= j < |steps| ==> Served(steps[j], k)
  }

  lemma {:induction false} RunAlone(orders: seq<Order>, steps: seq<Step>, k: nat)
    requires AllServed(steps, k)
    ensures Alone(DoAll(Start(orders), steps), k)
  {
    if steps != [] {
      var front := steps[..|steps| - 1];
      hide Do, Inv, Alone;
      RunAlone(orders, front, k);
      RunKeepsInv(orders, front);
      StepAlone(DoAll(Start(orders), front), steps[|steps| - 1], k);
    }
  }

  /** How often the worker crashed between condemning the entry and acknowledging it. */
  ghost function LateCrashes(w: World, steps: seq<Step>, k: nat, id: nat): nat {
    if steps == [] then 0
    else
      var front, s := steps[..|steps| - 1], steps[|steps| - 1];
      LateCrashes(w, front, k, id) + if s == Crash(k) && Condemns(DoAll(w, front), k, id) then 1 else 0
  }

  lemma {:induction false} OnlyLateCrashesExcuse(w: World, s: Step, k: nat, id: nat)
    requires Alone(w, k) && Served(s, k)
    ensures Excuse(w, s, id) <==> s == Crash(k) && Condemns(w, k, id)
  {
    hide Decode, Fails, Ascending, IsDead;
  }

  lemma {:induction false} OnlyItCondemns(w: World, k: nat, id: nat)
    requires Alone(w, k)
    ensures Condemned(w, id) <==> Condemns(w, k, id)
  {
    hide Ascending, IsDead;
  }

  lemma {:induction false} ExcusesAreLateCrashes(orders: seq<Order>, steps: seq<Step>, k: nat, id: nat)
    requires AllServed(steps, k)
    ensures Excuses(Start(orders), steps, id) == LateCrashes(Start(orders), steps, k, id)
  {
    if steps != [] {
      var front := steps[..|steps| - 1];
      ExcusesAreLateCrashes(orders, front, k, id);
      RunAlone(orders, front, k);
      hide DoAll, Alone, Excuse, Condemns;
      OnlyLateCrashesExcuse(DoAll(Start(orders), front), steps[|steps| - 1], k, id);
    }
  }

  /** With one worker, counter and dead-letter stream up, and the worker crashing whenever it likes: an
      entry fails at most five times and one more for each crash between condemning and acknowledging it;
      while it is pending and not in that gap it has failed fewer times, and without such a crash its
      counter is exact. */
  lemma {:induction false} SettlesWithinFive(orders: seq<Order>, steps: seq<Step>, k: nat, id: nat)
    requires AllServed(steps, k)
    ensures var w, crashes := DoAll(Start(orders), steps), LateCrashes(Start(orders), steps, k, id);
      var failures := Count(w.g.failures, id);
      && failures <= 5 + crashes
      && (id in w.g.pending && !Condemns(w, k, id) ==> failures < 5 + crashes)
      && (id in w.g.pending && crashes == 0 ==> Count(w.g.attempts, id) == failures)
  {
    hide *;
    RetriesBounded(orders, steps, id);
    ExcusesAreLateCrashes(orders, steps, k, id);
    RunAlone(orders, steps, k);
    OnlyItCondemns(DoAll(Start(orders), steps), k, id);
  }

  // ----- and no fewer -----

  /** One entry, pending, that failed `n` times, and an idle worker. */
  ghost predicate Waiting(w: World, e: FillEvent, n: nat) {
    && w.g.entries == [Json(Encode(e))] && w.g.delivered == 1 && w.g.pending == [0]
    && Count(w.g.attempts, 0) == Count(w.g.failures, 0) == n && At(w, 0) == IDLE
  }

  lemma {:induction false} Round(w: World, e: FillEvent, n: nat)
    requires Waiting(w, e, n)
    ensures var v := Do(Do(w, ReadPending(0, 1)), Try(0, true, Answered));
      && Count(v.g.failures, 0) == n + 1
      && (Condemns(v, 0, 0) <==> n + 1 >= MAX_DELIVERIES)
      && !Condemns(w, 0, 0) && !Condemns(Do(w, ReadPending(0, 1)), 0, 0)
      && Waiting(Do(v, Crash(0)), e, n + 1)
  {
    PublishedIsNeverPoison(e);
    hide Encode, Decode, Fails;
  }

  lemma {:induction false} FirstDelivery(orders: seq<Order>, e: FillEvent)
    ensures var w := Do(Do(Start(orders), Publish(e)), ReadNew(0, 1));
      Waiting(Do(w, Crash(0)), e, 0) && !Condemns(w, 0, 0)
  {
    hide Encode;
    assert NewBatch(Do(Start(orders), Publish(e)).g, 1) == [0];
  }

  lemma {:induction false} OneMoreStep(w: World, steps: seq<Step>, s: Step, k: nat, id: nat)
    ensures DoAll(w, steps + [s]) == Do(DoAll(w, steps), s)
    ensures LateCrashes(w, steps + [s], k, id)
         == LateCrashes(w, steps, k, id) + if s == Crash(k) && Condemns(DoAll(w, steps), k, id) then 1 else 0
    ensures Served(s, k) && AllServed(steps, k) ==> AllServed(steps + [s], k)
  {
    assert (steps + [s])[..|steps|] == steps;
    hide Do, Condemns;
  }

  /** The worker fails on the one entry `n` times, crashing each time it can. */
  lemma {:induction false} FailingRun(orders: seq<Order>, e: FillEvent, n: nat) returns (steps: seq<Step>)
    ensures AllServed(steps, 0) && Waiting(DoAll(Start(orders), steps), e, n)
    ensures LateCrashes(Start(orders), steps, 0, 0) == if n < MAX_DELIVERIES then 0 else n + 1 - MAX_DELIVERIES
  {
    hide Waiting, Condemns, Do;
    var w := Start(orders);
    if n == 0 {
      steps := [];
      OneMoreStep(w, steps, Publish(e), 0, 0);
      OneMoreStep(w, steps + [Publish(e)], ReadNew(0, 1), 0, 0);
      OneMoreStep(w, steps + [Publish(e)] + [ReadNew(0, 1)], Crash(0), 0, 0);
      steps := steps + [Publish(e)] + [ReadNew(0, 1)] + [Crash(0)];
      FirstDelivery(orders, e);
    } else {
      steps := FailingRun(orders, e, n - 1);
      Round(DoAll(w, steps), e, n - 1);
      hide DoAll, LateCrashes, AllServed;
      OneMoreStep(w, steps, ReadPending(0, 1), 0, 0);
      OneMoreStep(w, steps + [ReadPending(0, 1)], Try(0, true, Answered), 0, 0);
      OneMoreStep(w, steps + [ReadPending(0, 1)] + [Try(0, true, Answered)], Crash(0), 0, 0);
      steps := steps + [ReadPending(0, 1)] + [Try(0, true, Answered)] + [Crash(0)];
    }
  }

  /** Every such crash can cost one more failure: the bound is reached for every number of them. */
  lemma {:induction false} BoundIsReached(orders: seq<Order>, e: FillEvent, crashes: nat) returns (steps: seq<Step>)
    ensures AllServed(steps, 0) && LateCrashes(Start(orders), steps, 0, 0) == crashes
    ensures Count(DoAll(Start(orders), steps).g.failures, 0) == 5 + crashes
  {
    var w := Start(orders);
    var n: nat := MAX_DELIVERIES - 1 + crashes;
    assert n + 1 == MAX_DELIVERIES + crashes;
    assert Served(ReadPending(0, 1), 0) && Served(Try(0, true, Answered), 0);
    hide Waiting, Condemns, Do, DoAll, LateCrashes, AllServed, Served;
    steps := FailingRun(orders, e, n);
    Round(DoAll(w, steps), e, n);
    OneMoreStep(w, steps, ReadPending(0, 1), 0, 0);
    OneMoreStep(w, steps + [ReadPending(0, 1)], Try(0, true, Answered), 0, 0);
    steps := steps + [ReadPending(0, 1)] + [Try(0, true, Answered)];
  }
}
