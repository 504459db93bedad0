/** The consumer as it runs (`orders/fills.py`): one entry at a time, then one drain of the stream, each
    shown to be a run of the protocol's steps, and what a drain reports. */
module FillIngest {
  import opened Prelude
  import opened Positions
  import opened Ledger
  import opened LedgerDb
  import opened FillWire
  import opened FillStream
  import opened FillSafety
  import opened FillRetries

  /** What happens around one attempt: whether the database raises, and whether the attempt counter and the
      dead-letter stream answer. */
  datatype Weather = Weather(raises: bool, counter: Reply, letter: Reply)

  /** One entry, and whether it was settled. */
  function Process(g: Group, id: nat, w: Weather): (Group, bool)
    requires id < |g.entries|
  {
    match Event(g, id)
    case None =>
      var h := Posted(g, id, Poison, 0, w.letter);
      if w.letter.Answered? then (Acked(h, id), true) else (h, false)
    case Some(e) =>
      if !w.raises && !Fails(g.tables, e) then (Cleared(Acked(Committed(g, id, e), id), id), true)
      else
        var h, n := Failed(g, id, w.counter), AttemptNo(g, id, w.counter);
        if n < MAX_DELIVERIES then (h, false)
        else
          var posted := Posted(h, id, MaxRetries, n, w.letter);
          if w.letter.Answered? then (Cleared(Acked(posted, id), id), true) else (posted, false)
  }

  /** The entries of a batch in turn, with the weather of attempt `from`, `from + 1`, ...; and how many were
      settled. */
  function ProcessAll(g: Group, ids: seq<nat>, weather: nat -> Weather, from: nat): (r: (Group, nat))
    requires forall j :: 0 <= j < |ids| ==> ids[j] < |g.entries|
    ensures r.0.entries == g.entries && r.0.delivered == g.delivered
  {
    if ids == [] then (g, 0)
    else
      var k := |ids| - 1;
      var before := ProcessAll(g, ids[..k], weather, from);
      var after := Process(before.0, ids[k], weather(from + k));
      (after.0, before.1 + if after.1 then 1 else 0)
  }

  function Replayed(g: Group, count: nat): seq<nat> {
    g.pending[..Least(count, |g.pending|)]
  }

  ghost predicate InRange(g: Group) {
    g.delivered <= |g.entries| && forall j :: 0 <= j < |g.pending| ==> g.pending[j] < g.delivered
  }

  /** First the pending entries again, then new ones. */
  function Drain(g: Group, count: nat, weather: nat -> Weather): (Group, nat)
    requires InRange(g)
  {
    var ids := Replayed(g, count);
    var (mid, settled) := ProcessAll(g, ids, weather, 0);
    var added := NewBatch(mid, count);
    var (after, more) := ProcessAll(HandedOut(mid, count), added, weather, |ids|);
    (after, settled + more)
  }

  // ----- a drain is a run of the protocol -----

  /** The steps worker `k` takes on the first entry of its batch. */
  function ProcessSteps(g: Group, id: nat, w: Weather, k: nat): seq<Step>
    requires id < |g.entries|
  {
    var attempt := Try(k, w.raises, w.counter);
    match Event(g, id)
    case None => if w.letter.Answered? then [attempt, Bury(k, w.letter), Ack(k)] else [attempt, Bury(k, w.letter)]
    case Some(e) =>
      if !w.raises && !Fails(g.tables, e) then [attempt, Ack(k), Clear(k)]
      else if AttemptNo(g, id, w.counter) < MAX_DELIVERIES then [attempt]
      else if w.letter.Answered? then [attempt, Bury(k, w.letter), Ack(k), Clear(k)]
      else [attempt, Bury(k, w.letter)]
  }

  lemma {:induction false} DoAllSnoc(w: World, steps: seq<Step>, s: Step)
    ensures DoAll(w, steps + [s]) == Do(DoAll(w, steps), s)
  {
    assert (steps + [s])[..|steps|] == steps;
    hide Do;
  }

  lemma {:induction false} DoAllConcat(w: World, steps: seq<Step>, more: seq<Step>)
    ensures DoAll(w, steps + more) == DoAll(DoAll(w, steps), more)
    decreases |more|
  {
    hide Do;
    if more == [] {
      assert steps + more == steps;
    } else {
      var front, last := more[..|more| - 1], more[|more| - 1];
      DoAllConcat(w, steps, front);
      assert steps + more == (steps + front) + [last];
      DoAllSnoc(w, steps + front, last);
    }
  }

  lemma {:induction false} DoFew(w: World, a: Step, b: Step, c: Step, d: Step)
    ensures DoAll(w, [a]) == Do(w, a)
    ensures DoAll(w, [a, b]) == Do(Do(w, a), b)
    ensures DoAll(w, [a, b, c]) == Do(Do(Do(w, a), b), c)
    ensures DoAll(w, [a, b, c, d]) == Do(Do(Do(Do(w, a), b), c), d)
  {
    hide Do;
    DoAllSnoc(w, [], a);
    DoAllSnoc(w, [a], b);
    DoAllSnoc(w, [a, b], c);
    DoAllSnoc(w, [a, b, c], d);
    assert [] + [a] == [a] && [a] + [b] == [a, b] && [a, b] + [c] == [a, b, c] && [a, b, c] + [d] == [a, b, c, d];
  }

  /** Counter and dead-letter stream answer at every attempt. */
  ghost predicate Up(weather: nat -> Weather) {
    forall n :: weather(n).counter.Answered? && weather(n).letter.Answered?
  }

  /** Worker `k` alone consumes, with the stores up, and does not crash. */
  ghost predicate Undisturbed(steps: seq<Step>, k: nat) {
    AllServed(steps, k) && forall j :: 0 <= j < |steps| ==> !steps[j].Crash?
  }

  lemma {:induction false} UndisturbedConcat(steps: seq<Step>, more: seq<Step>, k: nat)
    ensures Undisturbed(steps, k) && Undisturbed(more, k) ==> Undisturbed(steps + more, k)
  {
    hide Served;
  }

  lemma {:induction false} ProcessUndisturbed(g: Group, id: nat, weather: nat -> Weather, n: nat, k: nat)
    requires id < |g.entries|
    ensures Up(weather) ==> Undisturbed(ProcessSteps(g, id, weather(n), k), k)
  {
    hide Decode, Fails, AttemptNo;
  }

  ghost predicate Holds(w: World, g: Group, workers: map<nat, Worker>, k: nat, a: Worker) {
    w == World(g, workers[k := a])
  }

  /** Processing an entry is what an undisturbed worker does to it in the protocol. */
  lemma {:induction false} ProcessIsSteps(w: World, workers: map<nat, Worker>, k: nat, id: nat, rest: seq<nat>, weather: Weather)
    requires id < |w.g.entries| && Holds(w, w.g, workers, k, Worker([id] + rest, Reading))
    ensures Holds(DoAll(w, ProcessSteps(w.g, id, weather, k)), Process(w.g, id, weather).0, workers, k, Worker(rest, Reading))
  {
    var g, todo := w.g, [id] + rest;
    var attempt := Try(k, weather.raises, weather.counter);
    assert todo[1..] == rest && Next(todo) == Worker(rest, Reading);
    hide Committed, Failed, Posted, Acked, Cleared, Fails, Decode, AttemptNo;
    DoFew(w, attempt, Bury(k, weather.letter), Ack(k), Clear(k));
    DoFew(w, attempt, Ack(k), Clear(k), Clear(k));
    hide DoAll;
    if Event(g, id).None? {
      TriedPoison(w, workers, k, todo, weather);
    } else if !weather.raises && !Fails(g.tables, Event(g, id).value) {
      TriedWell(w, workers, k, todo, weather);
    } else {
      TriedBadly(w, workers, k, todo, weather);
    }
  }

  lemma {:induction false} TriedPoison(w: World, workers: map<nat, Worker>, k: nat, todo: seq<nat>, weather: Weather)
    requires todo != [] && todo[0] < |w.g.entries| && Holds(w, w.g, workers, k, Worker(todo, Reading)) && Event(w.g, todo[0]).None?
    ensures var w1 := Do(w, Try(k, weather.raises, weather.counter));
      var w2, h := Do(w1, Bury(k, weather.letter)), Posted(w.g, todo[0], Poison, 0, weather.letter);
      if weather.letter.Answered? then Holds(Do(w2, Ack(k)), Acked(h, todo[0]), workers, k, Next(todo))
      else Holds(w2, h, workers, k, Next(todo))
  {
    hide Decode, Acked, Posted, Next;
  }

  lemma {:induction false} TriedWell(w: World, workers: map<nat, Worker>, k: nat, todo: seq<nat>, weather: Weather)
    requires todo != [] && todo[0] < |w.g.entries| && Holds(w, w.g, workers, k, Worker(todo, Reading)) && Event(w.g, todo[0]).Some?
    requires !weather.raises && !Fails(w.g.tables, Event(w.g, todo[0]).value)
    ensures Holds(Do(Do(Do(w, Try(k, weather.raises, weather.counter)), Ack(k)), Clear(k)),
                  Cleared(Acked(Committed(w.g, todo[0], Event(w.g, todo[0]).value), todo[0]), todo[0]), workers, k, Next(todo))
  {
    hide Decode, Acked, Cleared, Committed, Fails, Next;
  }

  lemma {:induction false} TriedBadly(w: World, workers: map<nat, Worker>, k: nat, todo: seq<nat>, weather: Weather)
    requires todo != [] && todo[0] < |w.g.entries| && Holds(w, w.g, workers, k, Worker(todo, Reading)) && Event(w.g, todo[0]).Some?
    requires weather.raises || Fails(w.g.tables, Event(w.g, todo[0]).value)
    ensures var w1 := Do(w, Try(k, weather.raises, weather.counter));
      var h, n := Failed(w.g, todo[0], weather.counter), AttemptNo(w.g, todo[0], weather.counter);
      if n < MAX_DELIVERIES then Holds(w1, h, workers, k, Next(todo))
      else
        var w2, posted := Do(w1, Bury(k, weather.letter)), Posted(h, todo[0], MaxRetries, n, weather.letter);
        if weather.letter.Answered? then Holds(Do(Do(w2, Ack(k)), Clear(k)), Cleared(Acked(posted, todo[0]), todo[0]), workers, k, Next(todo))
        else Holds(w2, posted, workers, k, Next(todo))
  {
    hide Decode, Acked, Cleared, Posted, Failed, AttemptNo, Fails, Next;
  }

  lemma {:induction false} ProcessKeepsEntries(g: Group, id: nat, w: Weather)
    requires id < |g.entries|
    ensures Process(g, id, w).0.entries == g.entries && Process(g, id, w).0.delivered == g.delivered
  {
    hide Decode, Fails, Ingest;
  }

  lemma {:induction false} NoSteps(w: World, weather: nat -> Weather, from: nat, k: nat)
    ensures Undisturbed([], k) && DoAll(w, []) == w && ProcessAll(w.g, [], weather, from) == (w.g, 0)
  {}

  lemma {:induction false} LastOfBatch(g: Group, ids: seq<nat>, weather: nat -> Weather, from: nat)
    requires ids != [] && forall j :: 0 <= j < |ids| ==> ids[j] < |g.entries|
    ensures var n := |ids| - 1;
      ProcessAll(g, ids, weather, from).0 == Process(ProcessAll(g, ids[..n], weather, from).0, ids[n], weather(from + n)).0
  {
    hide Process;
  }

  lemma {:induction false} HoldsGroup(w: World, g: Group, workers: map<nat, Worker>, k: nat, a: Worker)
    requires Holds(w, g, workers, k, a)
    ensures w.g == g && Holds(w, w.g, workers, k, a)
  {}

  /** So is a batch. */
  lemma {:induction false} BatchIsSteps(w: World, workers: map<nat, Worker>, k: nat, ids: seq<nat>, rest: seq<nat>, weather: nat -> Weather, from: nat)
    returns (steps: seq<Step>)
    requires forall j :: 0 <= j < |ids| ==> ids[j] < |w.g.entries|
    requires Holds(w, w.g, workers, k, Worker(ids + rest, Reading))
    ensures Holds(DoAll(w, steps), ProcessAll(w.g, ids, weather, from).0, workers, k, Worker(rest, Reading))
    ensures Up(weather) ==> Undisturbed(steps, k)
    decreases |ids|
  {
    hide *;
    if ids == [] {
      steps := [];
      assert ids + rest == rest;
      NoSteps(w, weather, from, k);
    } else {
      var n := |ids| - 1;
      var id := ids[n];
      assert ids + rest == ids[..n] + ([id] + rest);
      var front := BatchIsSteps(w, workers, k, ids[..n], [id] + rest, weather, from);
      var mid := DoAll(w, front);
      LastOfBatch(w.g, ids, weather, from);
      HoldsGroup(mid, ProcessAll(w.g, ids[..n], weather, from).0, workers, k, Worker([id] + rest, Reading));
      ProcessIsSteps(mid, workers, k, id, rest, weather(from + n));
      steps := front + ProcessSteps(mid.g, id, weather(from + n), k);
      DoAllConcat(w, front, ProcessSteps(mid.g, id, weather(from + n), k));
      ProcessUndisturbed(mid.g, id, weather, from + n, k);
      UndisturbedConcat(front, ProcessSteps(mid.g, id, weather(from + n), k), k);
    }
  }

  lemma {:induction false} DrainUndisturbed(first: seq<Step>, second: seq<Step>, k: nat, count: nat)
    ensures Undisturbed(first, k) && Undisturbed(second, k) ==>
      Undisturbed(([ReadPending(k, count)] + first) + [ReadNew(k, count)] + second, k)
  {
    assert Undisturbed([ReadPending(k, count)], k) && Undisturbed([ReadNew(k, count)], k);
    hide Undisturbed;
    UndisturbedConcat([ReadPending(k, count)], first, k);
    UndisturbedConcat([ReadPending(k, count)] + first, [ReadNew(k, count)], k);
    UndisturbedConcat(([ReadPending(k, count)] + first) + [ReadNew(k, count)], second, k);
  }

  lemma {:induction false} ReadsHold(w: World, mid: World, workers: map<nat, Worker>, k: nat, count: nat)
    requires At(w, k) == IDLE
    ensures Holds(Do(w, ReadPending(k, count)), w.g, w.workers, k, Worker(Replayed(w.g, count) + [], Reading))
    ensures Holds(mid, mid.g, workers, k, IDLE) ==>
      Holds(Do(mid, ReadNew(k, count)), HandedOut(mid.g, count), workers, k, Worker(NewBatch(mid.g, count) + [], Reading))
  {
    hide HandedOut, NewBatch;
    assert Replayed(w.g, count) + [] == Replayed(w.g, count);
    assert NewBatch(mid.g, count) + [] == NewBatch(mid.g, count);
  }

  lemma {:induction false} DoTwoBatches(w: World, a: Step, first: seq<Step>, b: Step, second: seq<Step>)
    ensures DoAll(w, ([a] + first) + [b] + second) == DoAll(Do(DoAll(Do(w, a), first), b), second)
  {
    hide Do;
    DoAllSnoc(w, [], a);
    assert [] + [a] == [a];
    DoAllConcat(w, [a], first);
    DoAllSnoc(w, [a] + first, b);
    DoAllConcat(w, ([a] + first) + [b], second);
  }

  lemma {:induction false} DrainParts(g: Group, count: nat, weather: nat -> Weather)
    requires InRange(g)
    ensures forall j :: 0 <= j < |Replayed(g, count)| ==> Replayed(g, count)[j] < |g.entries|
    ensures var mid := ProcessAll(g, Replayed(g, count), weather, 0).0;
      && (forall j :: 0 <= j < |NewBatch(mid, count)| ==> NewBatch(mid, count)[j] < |HandedOut(mid, count).entries|)
      && Drain(g, count, weather).0 == ProcessAll(HandedOut(mid, count), NewBatch(mid, count), weather, |Replayed(g, count)|).0
  {
    hide Process;
  }

  /** And a whole drain: what it leaves is what a run of the protocol leaves, so all that every run keeps
      is kept by every drain; with the stores up it is a run that `SettlesWithinFive` speaks of, without
      any crash. */
  lemma {:induction false} DrainIsSteps(w: World, k: nat, count: nat, weather: nat -> Weather) returns (steps: seq<Step>)
    requires InRange(w.g) && At(w, k) == IDLE
    ensures Holds(DoAll(w, steps), Drain(w.g, count, weather).0, w.workers, k, IDLE)
    ensures Up(weather) ==> Undisturbed(steps, k)
  {
    assert IDLE == Worker([], Reading);
    hide *;
    var ids, read := Replayed(w.g, count), Do(w, ReadPending(k, count));
    DrainParts(w.g, count, weather);
    ReadsHold(w, w, w.workers, k, count);
    HoldsGroup(read, w.g, w.workers, k, Worker(ids + [], Reading));
    var first := BatchIsSteps(read, w.workers, k, ids, [], weather, 0);
    var mid := DoAll(read, first);
    HoldsGroup(mid, ProcessAll(w.g, ids, weather, 0).0, w.workers, k, IDLE);
    ReadsHold(w, mid, w.workers, k, count);
    var more := Do(mid, ReadNew(k, count));
    HoldsGroup(more, HandedOut(mid.g, count), w.workers, k, Worker(NewBatch(mid.g, count) + [], Reading));
    var second := BatchIsSteps(more, w.workers, k, NewBatch(mid.g, count), [], weather, |ids|);
    steps := ([ReadPending(k, count)] + first) + [ReadNew(k, count)] + second;
    DoTwoBatches(w, ReadPending(k, count), first, ReadNew(k, count), second);
    DrainUndisturbed(first, second, k, count);
  }

  // ----- what a drain reports -----

  /** Every entry is pending at most once, oldest first. */
  ghost predicate Tidy(g: Group) {
    InRange(g) && Ascending(g.pending)
  }

  ghost predicate LeftPending(g: Group, h: Group, id: nat) {
    Tidy(h) && h.pending == Without(g.pending, id) && |h.pending| + 1 == |g.pending|
  }

  lemma {:induction false} WithoutIsTidy(g: Group, h: Group, id: nat)
    requires Tidy(g) && id in g.pending
    requires h.entries == g.entries && h.delivered == g.delivered && h.pending == Without(g.pending, id)
    ensures LeftPending(g, h, id)
  {
    WithoutAscending(g.pending, id);
    forall j | 0 <= j < |h.pending| ensures h.pending[j] < g.delivered {
      assert h.pending[j] in g.pending;
    }
    hide Ascending;
  }

  /** An entry is reported as settled exactly if it left the pending list. */
  lemma {:induction false} ProcessTidy(g: Group, id: nat, w: Weather)
    requires Tidy(g) && id in g.pending
    ensures id < |g.entries|
    ensures var r := Process(g, id, w);
      if r.1 then LeftPending(g, r.0, id) else Tidy(r.0) && r.0.pending == g.pending
  {
    hide Decode, Fails, Ingest, OutcomeOf, LeftPending, Without, Ascending;
    if Process(g, id, w).1 {
      WithoutIsTidy(g, Process(g, id, w).0, id);
    }
  }

  lemma {:induction false} NoBatch(g: Group, ids: seq<nat>, weather: nat -> Weather, from: nat)
    ensures ProcessAll(g, ids[..0], weather, from) == (g, 0)
  {}

  lemma {:induction false} NextOfBatch(g: Group, ids: seq<nat>, i: nat, weather: nat -> Weather, from: nat)
    requires i < |ids| && forall j :: 0 <= j < |ids| ==> ids[j] < |g.entries|
    ensures var before := ProcessAll(g, ids[..i], weather, from);
      var after := Process(before.0, ids[i], weather(from + i));
      && ProcessAll(g, ids[..i + 1], weather, from) == (after.0, before.1 + if after.1 then 1 else 0)
      && after.0.entries == g.entries
  {
    hide Process;
    assert ids[..i + 1][..i] == ids[..i] && ids[..i + 1][i] == ids[i] && |ids[..i + 1]| == i + 1;
    ProcessKeepsEntries(ProcessAll(g, ids[..i], weather, from).0, ids[i], weather(from + i));
  }

  ghost predicate Kept(before: seq<nat>, ids: seq<nat>, after: seq<nat>) {
    forall x :: x in before && x !in ids ==> x in after
  }

  lemma {:induction false} KeptStep(before: seq<nat>, ids: seq<nat>, mid: seq<nat>, after: seq<nat>)
    requires ids != [] && Kept(before, ids[..|ids| - 1], mid)
    requires after == mid || after == Without(mid, ids[|ids| - 1])
    ensures Kept(before, ids, after)
  {
    assert ids == ids[..|ids| - 1] + [ids[|ids| - 1]];
  }

  lemma {:induction false} LastKept(before: seq<nat>, ids: seq<nat>, mid: seq<nat>)
    requires ids != [] && Ascending(ids) && ids[|ids| - 1] in before && Kept(before, ids[..|ids| - 1], mid)
    ensures ids[|ids| - 1] in mid
  {}

  lemma {:induction false} BatchTidy(g: Group, ids: seq<nat>, weather: nat -> Weather, from: nat)
    requires Tidy(g) && Ascending(ids) && forall j :: 0 <= j < |ids| ==> ids[j] in g.pending
    ensures forall j :: 0 <= j < |ids| ==> ids[j] < |g.entries|
    ensures var r := ProcessAll(g, ids, weather, from);
      Tidy(r.0) && |r.0.pending| + r.1 == |g.pending| && Kept(g.pending, ids, r.0.pending)
  {
    hide *;
    PendingInRange(g);
    if ids == [] {
      NothingKept(g, weather, from);
    } else {
      var k := |ids| - 1;
      AscendingFront(ids);
      BatchTidy(g, ids[..k], weather, from);
      var mid := ProcessAll(g, ids[..k], weather, from).0;
      LastKept(g.pending, ids, mid.pending);
      ProcessTidy(mid, ids[k], weather(from + k));
      NextOfBatch(g, ids, k, weather, from);
      assert ids[..k + 1] == ids;
      LeftMeans(mid, Process(mid, ids[k], weather(from + k)).0, ids[k]);
      KeptStep(g.pending, ids, mid.pending, ProcessAll(g, ids, weather, from).0.pending);
    }
  }

  lemma {:induction false} NothingKept(g: Group, weather: nat -> Weather, from: nat)
    ensures ProcessAll(g, [], weather, from) == (g, 0) && Kept(g.pending, [], g.pending)
  {}

  lemma {:induction false} LeftMeans(g: Group, h: Group, id: nat)
    ensures LeftPending(g, h, id) ==> Tidy(h) && h.pending == Without(g.pending, id) && |h.pending| + 1 == |g.pending|
  {}

  lemma {:induction false} PendingInRange(g: Group)
    requires Tidy(g)
    ensures forall id :: id in g.pending ==> id < |g.entries|
  {}

  lemma {:induction false} AscendingFront(ids: seq<nat>)
    requires ids != [] && Ascending(ids)
    ensures Ascending(ids[..|ids| - 1])
  {}

  lemma {:induction false} HandedOutTidy(g: Group, count: nat)
    requires Tidy(g)
    ensures Tidy(HandedOut(g, count))
    ensures Ascending(NewBatch(g, count)) && forall j :: 0 <= j < |NewBatch(g, count)| ==> NewBatch(g, count)[j] in HandedOut(g, count).pending
  {
    var h, added := HandedOut(g, count), NewBatch(g, count);
    forall id: nat | id in h.pending || id >= h.delivered ensures id in g.pending || id >= g.delivered {
      if id !in g.pending && id in h.pending {
        var j :| 0 <= j < |h.pending| && h.pending[j] == id;
        assert h.pending[j] == added[j - |g.pending|];
      }
    }
  }

  lemma {:induction false} StepTidy(w: World, s: Step)
    requires Tidy(w.g)
    ensures Tidy(Do(w, s).g)
  {
    match s
    case ReadNew(_, count) =>
      HandedOutTidy(w.g, count);
    case Ack(k) =>
      var a := At(w, k);
      if a.todo != [] {
        WithoutAscending(w.g.pending, a.todo[0]);
        forall j | 0 <= j < |Acked(w.g, a.todo[0]).pending| ensures Acked(w.g, a.todo[0]).pending[j] in w.g.pending {
          assert Acked(w.g, a.todo[0]).pending[j] in Acked(w.g, a.todo[0]).pending;
        }
      }
    case _ => hide Decode, Encode, Fails, Ingest, OutcomeOf;
  }

  lemma {:induction false} RunIsTidy(orders: seq<Order>, steps: seq<Step>)
    ensures Tidy(DoAll(Start(orders), steps).g)
  {
    hide Do;
    if steps != [] {
      RunIsTidy(orders, steps[..|steps| - 1]);
      StepTidy(DoAll(Start(orders), steps[..|steps| - 1]), steps[|steps| - 1]);
    }
  }

  /** After any run of the protocol, a drain reports exactly how many entries left the pending list,
      whatever its stores do. */
  lemma {:induction false} DrainCounts(g: Group, count: nat, weather: nat -> Weather)
    requires Tidy(g)
    ensures var r := Drain(g, count, weather);
      Tidy(r.0) && |r.0.pending| + r.1 == |g.pending| + Least(count, Available(g))
  {
    var ids := Replayed(g, count);
    BatchTidy(g, ids, weather, 0);
    var mid := ProcessAll(g, ids, weather, 0).0;
    HandedOutTidy(mid, count);
    hide Tidy, Process, ProcessAll, Ascending;
    BatchTidy(HandedOut(mid, count), NewBatch(mid, count), weather, |ids|);
  }

  // ----- the consumer as an object -----

  lemma {:induction false} OutcomeErr(t: Tables, e: FillEvent)
    ensures OutcomeOf(t, e).Err? <==> Fails(t, e)
    ensures Fails(t, e) ==> Ingest(t, e) == t
  {
    hide Resolve, NextStatus, Creates, Apply;
  }

  class Ingestor {
    const service: OrderService
    var entries: seq<Raw>
    var delivered: nat
    var pending: seq<nat>
    var attempts: map<nat, nat>
    var dead: seq<Dead>
    ghost var own: set<nat>
    ghost var done: seq<Done>
    ghost var failures: map<nat, nat>

    constructor (service: OrderService)
      ensures this.service == service
      ensures State() == Group([], 0, [], map[], [], service.State(), {}, [], map[])
    {
      this.service := service;
      entries, delivered, pending, attempts, dead := [], 0, [], map[], [];
      own, done, failures := {}, [], map[];
    }

    ghost function State(): Group
      reads this, service
    {
      Group(entries, delivered, pending, attempts, dead, service.State(), own, done, failures)
    }

    /** The stream branch of `publish_fill`. */
    method PublishFill(e: FillEvent)
      modifies this`entries, this`own
      ensures State() == Do(World(old(State()), map[]), Publish(e)).g
    {
      own := own + {|entries|};
      entries := entries + [Json(Encode(e))];
    }

    method DeadLetter(id: nat, reason: Reason, count: nat, letter: Reply) returns (ok: bool)
      modifies this`dead
      ensures ok == letter.Answered? && State() == Posted(old(State()), id, reason, count, letter)
    {
      ok := letter.Answered?;
      if !letter.Refused? {
        dead := dead + [Dead(id, reason, count)];
      }
    }

    /** The attempt counter after a failed ingest, as far as the store goes along. */
    method CountFailure(id: nat, counter: Reply) returns (n: nat)
      modifies this`attempts, this`failures
      ensures State() == Failed(old(State()), id, counter) && n == AttemptNo(old(State()), id, counter)
    {
      n := 1;
      if !counter.Refused? {
        var count := (if id in attempts then attempts[id] else 0) + 1;
        attempts := attempts[id := count];
        n := if counter.Answered? then count else 1;
      }
      failures := failures[id := Count(failures, id) + 1];
    }

    method ProcessMessage(id: nat, w: Weather) returns (settled: bool)
      requires id < |entries|
      modifies this, service
      ensures (State(), settled) == Process(old(State()), id, w)
    {
      hide Decode, Without, Failed, AttemptNo, Posted;
      var parsed := Decode(entries[id]);
      if parsed.None? {
        settled := DeadLetter(id, Poison, 0, w.letter);
        if settled {
          pending := Without(pending, id);
        }
        return;
      }
      var e := parsed.value;
      var raised := w.raises;
      if !raised {
        OutcomeErr(service.State(), e);
        hide OutcomeOf, Fails, Ingest;
        var outcome := service.IngestFillEvent(e);
        raised := outcome.Err?;
        if !raised {
          done := done + [Done(id, outcome.value)];
        }
      }
      if raised {
        var n := CountFailure(id, w.counter);
        if n < MAX_DELIVERIES {
          return false;
        }
        settled := DeadLetter(id, MaxRetries, n, w.letter);
        if settled {
          pending := Without(pending, id);
          attempts := attempts - {id};
        }
        return;
      }
      pending := Without(pending, id);
      attempts := attempts - {id};
      settled := true;
    }

    method ProcessBatch(ids: seq<nat>, weather: nat -> Weather, from: nat) returns (processed: nat)
      requires forall j :: 0 <= j < |ids| ==> ids[j] < |entries|
      modifies this, service
      ensures (State(), processed) == ProcessAll(old(State()), ids, weather, from)
    {
      ghost var g := State();
      NoBatch(g, ids, weather, from);
      hide Process, ProcessAll;
      processed := 0;
      var i := 0;
      while i < |ids|
        invariant 0 <= i <= |ids| && entries == g.entries
        invariant (State(), processed) == ProcessAll(g, ids[..i], weather, from)
      {
        NextOfBatch(g, ids, i, weather, from);
        var settled := ProcessMessage(ids[i], weather(from + i));
        if settled {
          processed := processed + 1;
        }
        i := i + 1;
      }
      assert ids[..|ids|] == ids;
    }

    method DrainStream(count: nat, weather: nat -> Weather) returns (processed: nat)
      requires InRange(State())
      modifies this, service
      ensures (State(), processed) == Drain(old(State()), count, weather)
    {
      hide Process, ProcessAll;
      ghost var g := State();
      var replay := pending[..Least(count, |pending|)];
      processed := ProcessBatch(replay, weather, 0);
      var size := Least(count, if delivered < |entries| then |entries| - delivered else 0);
      ghost var mid := State();
      var next := delivered;
      var added := seq(size, j => next + j);
      assert added == NewBatch(mid, count);
      pending := pending + added;
      delivered := delivered + size;
      var more := ProcessBatch(added, weather, |replay|);
      processed := processed + more;
    }
  }
}
