/** One feature flag over three layers (`admin_portal/flags.py`): how old an override can be when it is
    used, over every interleaving; the database is up. */
module FlagStaleness {
  import opened Prelude

  const LOCAL_CACHE_TTL := 30
  const REDIS_TTL := 60

  /** The database override: on, off, or none. */
  type Override = Option<bool>

  /** A cached override. `asOf` is when the database said so; the source does not keep it. */
  datatype Entry = Entry(value: Override, expires: int, asOf: int)

  /** What a thread of process `p` has read or written and not yet passed on, since time `since`. */
  datatype Op =
    | GotRedis(p: nat, value: Override, asOf: int, since: int)
    | GotDb(p: nat, value: Override, asOf: int, since: int)
    | WroteRedis(p: nat, value: Override, asOf: int, since: int)
    | Flipped(p: nat, value: Override, asOf: int, since: int)
    | FlippedRedis(p: nat, value: Override, asOf: int, since: int)

  /** `past` records what the database said, and when, after every step. */
  datatype State = State(
    time: int, db: Override, redis: Option<Entry>, locals: map<nat, Entry>, ops: map<nat, Op>, past: seq<(int, Override)>)

  /** `t` is a thread, `p` its process. A read from Redis or from the database starts a resolve, a flip
      starts with its database write. */
  datatype Step =
    | Tick(dt: nat)
    | ReadRedis(t: nat, p: nat)
    | ReadDb(t: nat, p: nat)
    | WriteRedis(t: nat, ok: bool)
    | WriteLocal(t: nat)
    | Flip(t: nat, p: nat, enabled: bool)
    | FlipRedis(t: nat, ok: bool)
    | Bust(t: nat)
    | LoseRedis
    | Crash(t: nat)
    | Restart(p: nat)

  predicate LiveLocal(s: State, p: nat) {
    p in s.locals && s.locals[p].expires > s.time
  }

  predicate LiveRedis(s: State) {
    s.redis.Some? && s.redis.value.expires > s.time
  }

  /** The override this process would use now without asking anyone. */
  function LocalHit(s: State, p: nat): Option<Override> {
    if LiveLocal(s, p) then Some(s.locals[p].value) else None
  }

  /** Nobody takes longer than `delay` from reading to having written. */
  ghost predicate Prompt(s: State, dt: nat, delay: nat) {
    forall t :: t in s.ops ==> s.time + dt - s.ops[t].since <= delay
  }

  /** The move itself, without the record. A step that is not enabled changes nothing. */
  ghost function Moved(s: State, step: Step, delay: nat): State {
    match step
    case Tick(dt) => if Prompt(s, dt, delay) then s.(time := s.time + dt) else s
    case ReadRedis(t, p) =>
      if t !in s.ops && !LiveLocal(s, p) && LiveRedis(s) then
        s.(ops := s.ops[t := GotRedis(p, s.redis.value.value, s.redis.value.asOf, s.time)])
      else s
    case ReadDb(t, p) => if t !in s.ops && !LiveLocal(s, p) then s.(ops := s.ops[t := GotDb(p, s.db, s.time, s.time)]) else s
    case WriteRedis(t, ok) =>
      if t in s.ops && s.ops[t].GotDb? then
        var o := s.ops[t];
        s.(redis := if ok then Some(Entry(o.value, s.time + REDIS_TTL, o.asOf)) else s.redis,
           ops := s.ops[t := WroteRedis(o.p, o.value, o.asOf, o.since)])
      else s
    case WriteLocal(t) =>
      if t in s.ops && (s.ops[t].GotRedis? || s.ops[t].WroteRedis?) then
        var o := s.ops[t];
        s.(locals := s.locals[o.p := Entry(o.value, s.time + LOCAL_CACHE_TTL, o.asOf)], ops := s.ops - {t})
      else s
    case Flip(t, p, enabled) =>
      if t !in s.ops then s.(db := Some(enabled), ops := s.ops[t := Flipped(p, Some(enabled), s.time, s.time)]) else s
    case FlipRedis(t, ok) =>
      if t in s.ops && s.ops[t].Flipped? then
        var o := s.ops[t];
        s.(redis := if ok then Some(Entry(o.value, s.time + REDIS_TTL, o.asOf)) else s.redis,
           ops := s.ops[t := FlippedRedis(o.p, o.value, o.asOf, o.since)])
      else s
    case Bust(t) =>
      if t in s.ops && s.ops[t].FlippedRedis? then s.(locals := s.locals - {s.ops[t].p}, ops := s.ops - {t}) else s
    case LoseRedis => s.(redis := None)
    case Crash(t) => s.(ops := s.ops - {t})
    case Restart(p) => s.(locals := s.locals - {p})
  }

  ghost function Do(s: State, step: Step, delay: nat): State {
    var next := Moved(s, step, delay);
    next.(past := s.past + [(next.time, next.db)])
  }

  ghost function DoAll(s: State, steps: seq<Step>, delay: nat): State {
    if steps == [] then s else Do(DoAll(s, steps[..|steps| - 1], delay), steps[|steps| - 1], delay)
  }

  function Start(time: int, db: Override): State {
    State(time, db, None, map[], map[], [(time, db)])
  }

  // ----- what every run keeps -----

  /** The database said `value` at time `when`. */
  ghost predicate Held(past: seq<(int, Override)>, value: Override, when: int) {
    exists k :: 0 <= k < |past| && past[k] == (when, value)
  }

  ghost predicate EntryOk(s: State, e: Entry, age: nat) {
    Held(s.past, e.value, e.asOf) && e.expires - age <= e.asOf
  }

  ghost predicate OpOk(s: State, o: Op, delay: nat) {
    && Held(s.past, o.value, o.asOf)
    && o.since <= s.time <= o.since + delay
    && (if o.GotRedis? then o.since - REDIS_TTL - delay < o.asOf else o.asOf == o.since)
  }

  ghost predicate Inv(s: State, delay: nat) {
    && Held(s.past, s.db, s.time)
    && (s.redis.Some? ==> EntryOk(s, s.redis.value, REDIS_TTL + delay))
    && (forall p :: p in s.locals ==> EntryOk(s, s.locals[p], LOCAL_CACHE_TTL + REDIS_TTL + 2 * delay - 1))
    && (forall t :: t in s.ops ==> OpOk(s, s.ops[t], delay))
  }

  lemma {:induction false} HeldLater(past: seq<(int, Override)>, more: (int, Override))
    ensures forall value, when :: Held(past, value, when) ==> Held(past + [more], value, when)
    ensures Held(past + [more], more.1, more.0)
  {
    var longer := past + [more];
    assert longer[|past|] == more;
    forall value, when | Held(past, value, when) ensures Held(longer, value, when) {
      var k :| 0 <= k < |past| && past[k] == (when, value);
      assert longer[k] == past[k];
    }
  }

  lemma {:induction false} StepKeeps(s: State, step: Step, delay: nat)
    requires Inv(s, delay)
    ensures Inv(Do(s, step, delay), delay)
  {
    var next := Moved(s, step, delay);
    HeldLater(s.past, (next.time, next.db));
    hide Held;
  }

  lemma {:induction false} RunKeepsInv(time: int, db: Override, steps: seq<Step>, delay: nat)
    ensures Inv(DoAll(Start(time, db), steps, delay), delay)
  {
    if steps == [] {
      assert Start(time, db).past[0] == (time, db);
    } else {
      hide Inv, Do;
      RunKeepsInv(time, db, steps[..|steps| - 1], delay);
      StepKeeps(DoAll(Start(time, db), steps[..|steps| - 1], delay), steps[|steps| - 1], delay);
    }
  }

  /** The override used was the database's at some instant not long before `now`. */
  ghost predicate FreshWithin(s: State, value: Override, age: nat) {
    exists when :: Held(s.past, value, when) && s.time - age <= when
  }

  /** Bounded staleness: whatever override a process takes from its local cache, or a resolve in progress is
      about to return, was the database's override no longer ago than both cache lifetimes together and one
      read-to-write delay for each of the two resolves that can pass it on, less the second in which each cache
      entry expires. */
  lemma {:induction false} BoundedStaleness(time: int, db: Override, steps: seq<Step>, delay: nat, p: nat, t: nat)
    ensures var s := DoAll(Start(time, db), steps, delay);
      && (LocalHit(s, p).Some? ==> FreshWithin(s, LocalHit(s, p).value, 88 + 2 * delay))
      && (t in s.ops ==> FreshWithin(s, s.ops[t].value, 59 + 2 * delay))
  {
    RunKeepsInv(time, db, steps, delay);
    var s := DoAll(Start(time, db), steps, delay);
    hide DoAll, Held;
    if LocalHit(s, p).Some? {
      assert Held(s.past, s.locals[p].value, s.locals[p].asOf);
    }
    if t in s.ops {
      assert Held(s.past, s.ops[t].value, s.ops[t].asOf);
    }
  }

  // ----- and no less -----

  lemma {:induction false} DoAllSnoc(s: State, steps: seq<Step>, step: Step, delay: nat)
    ensures DoAll(s, steps + [step], delay) == Do(DoAll(s, steps, delay), step, delay)
  {
    assert (steps + [step])[..|steps|] == steps;
    hide Do;
  }

  /** The database last said `None` at time zero. */
  ghost predicate DroppedAtZero(s: State) {
    s.db == Some(true) && forall k :: 0 <= k < |s.past| && s.past[k].1 == None ==> s.past[k].0 == 0
  }

  /** A resolve reads no override, a flip commits, and only then does the resolve write Redis and its local
      cache, as late as it may. */
  lemma {:induction false} LateWriter(delay: nat) returns (steps: seq<Step>)
    ensures var s := DoAll(Start(0, None), steps, delay);
      && DroppedAtZero(s) && s.time == delay && s.ops == map[] && 3 !in s.locals
      && s.redis == Some(Entry(None, delay + REDIS_TTL, 0))
  {
    var s0 := Start(0, None);
    steps := [];
    DoAllSnoc(s0, steps, ReadDb(1, 1), delay);
    steps := steps + [ReadDb(1, 1)];
    var a := DoAll(s0, steps, delay);
    assert a.ops == map[1 := GotDb(1, None, 0, 0)] && a.time == 0 && a.locals == map[] && a.past == [(0, None), (0, None)];
    hide DoAll;
    DoAllSnoc(s0, steps, Flip(2, 2, true), delay);
    steps := steps + [Flip(2, 2, true)];
    var b := DoAll(s0, steps, delay);
    assert b.ops == map[1 := GotDb(1, None, 0, 0), 2 := Flipped(2, Some(true), 0, 0)] && DroppedAtZero(b);
    hide DroppedAtZero;
    LateWriterEnds(b, delay);
    DoAllSnoc(s0, steps, FlipRedis(2, false), delay);
    steps := steps + [FlipRedis(2, false)];
    DoAllSnoc(s0, steps, Bust(2), delay);
    steps := steps + [Bust(2)];
    DoAllSnoc(s0, steps, Tick(delay), delay);
    steps := steps + [Tick(delay)];
    DoAllSnoc(s0, steps, WriteRedis(1, true), delay);
    steps := steps + [WriteRedis(1, true)];
    DoAllSnoc(s0, steps, WriteLocal(1), delay);
    steps := steps + [WriteLocal(1)];
    hide Do;
  }

  lemma {:induction false} DroppedStays(s: State, step: Step, delay: nat)
    requires DroppedAtZero(s) && !step.Flip?
    ensures DroppedAtZero(Do(s, step, delay))
  {}

  lemma {:induction false} LateWriterEnds(b: State, delay: nat)
    requires DroppedAtZero(b) && b.time == 0 && b.locals == map[]
    requires b.ops == map[1 := GotDb(1, None, 0, 0), 2 := Flipped(2, Some(true), 0, 0)]
    ensures var c := Do(Do(b, FlipRedis(2, false), delay), Bust(2), delay);
      var s := Do(Do(Do(c, Tick(delay), delay), WriteRedis(1, true), delay), WriteLocal(1), delay);
      && DroppedAtZero(s) && s.time == delay && s.ops == map[] && 3 !in s.locals
      && s.redis == Some(Entry(None, delay + REDIS_TTL, 0))
  {
    var b1 := Do(b, FlipRedis(2, false), delay);
    var c := Do(b1, Bust(2), delay);
    DroppedStays(b, FlipRedis(2, false), delay);
    DroppedStays(b1, Bust(2), delay);
    assert c.ops == map[1 := GotDb(1, None, 0, 0)] && c.locals == map[];
    var d := Do(c, Tick(delay), delay);
    DroppedStays(c, Tick(delay), delay);
    assert d.time == delay && d.ops == c.ops && d.locals == map[];
    var e := Do(d, WriteRedis(1, true), delay);
    DroppedStays(d, WriteRedis(1, true), delay);
    DroppedStays(e, WriteLocal(1), delay);
    hide DroppedAtZero;
  }

  lemma {:induction false} LateReader(s: State, delay: nat)
    requires DroppedAtZero(s) && s.time == delay && s.ops == map[] && 3 !in s.locals
    requires s.redis == Some(Entry(None, delay + REDIS_TTL, 0))
    ensures var a := Do(Do(s, Tick(59), delay), ReadRedis(3, 3), delay);
      var end := Do(Do(Do(a, Tick(delay), delay), WriteLocal(3), delay), Tick(29), delay);
      DroppedAtZero(end) && end.time == 2 * delay + 88 && LocalHit(end, 3) == Some(None)
  {
    var s1 := Do(s, Tick(59), delay);
    var a := Do(s1, ReadRedis(3, 3), delay);
    var b := Do(a, Tick(delay), delay);
    var c := Do(b, WriteLocal(3), delay);
    DroppedStays(s, Tick(59), delay);
    DroppedStays(s1, ReadRedis(3, 3), delay);
    DroppedStays(a, Tick(delay), delay);
    DroppedStays(b, WriteLocal(3), delay);
    DroppedStays(c, Tick(29), delay);
    hide DroppedAtZero;
    assert s1.time == delay + 59 && s1.ops == map[];
    assert a.ops == map[3 := GotRedis(3, None, 0, delay + 59)] && a.time == delay + 59;
    assert b.time == 2 * delay + 59 && b.ops == a.ops;
    assert c.ops == map[] && c.locals[3] == Entry(None, 2 * delay + 89, 0);
  }

  /** The bound is exact, and both delays are needed: whatever the delay, there is a run at whose end a process
      still uses an override that the database dropped eighty-eight seconds and two delays before. */
  lemma {:induction false} BothDelaysCount(delay: nat) returns (steps: seq<Step>)
    ensures var s := DoAll(Start(0, None), steps, delay);
      LocalHit(s, 3) == Some(None) && !FreshWithin(s, None, 2 * delay + 87)
  {
    var s0 := Start(0, None);
    steps := LateWriter(delay);
    LateReader(DoAll(s0, steps, delay), delay);
    hide DoAll;
    DoAllSnoc(s0, steps, Tick(59), delay);
    steps := steps + [Tick(59)];
    DoAllSnoc(s0, steps, ReadRedis(3, 3), delay);
    steps := steps + [ReadRedis(3, 3)];
    DoAllSnoc(s0, steps, Tick(delay), delay);
    steps := steps + [Tick(delay)];
    DoAllSnoc(s0, steps, WriteLocal(3), delay);
    steps := steps + [WriteLocal(3)];
    DoAllSnoc(s0, steps, Tick(29), delay);
    steps := steps + [Tick(29)];
    hide Do;
  }
}
