/** Feature flags in one process (`admin_portal/flags.py`), with every way the stores can fail, and its
    calls as runs of `FlagStaleness`. `Weather` says which stores answer during a call. */
module Flags {
  import opened Prelude
  import opened FlagStaleness

  datatype Registered = Registered(isMutable: bool, fallback: bool)

  datatype LocalEntry = LocalEntry(value: Override, expires: int)

  /** Redis distinguishes a stored "no override" from a missing key. */
  datatype RedisEntry = RedisEntry(value: Override, expires: int)

  datatype Database = Healthy | NotMigrated | Broken

  /** How the stores behave during one call. */
  datatype Weather = Weather(redisReads: bool, redisWrites: bool, database: Database)

  datatype Layers = Layers(local: map<string, LocalEntry>, redis: map<string, RedisEntry>, rows: map<string, bool>)

  datatype FlagError = UnknownFlag | FlagImmutable | DatabaseDown

  function Row(l: Layers, name: string): Override {
    if name in l.rows then Some(l.rows[name]) else None
  }

  predicate LocalLive(l: Layers, name: string, now: int) {
    name in l.local && l.local[name].expires > now
  }

  predicate RedisLive(l: Layers, name: string, now: int) {
    name in l.redis && l.redis[name].expires > now
  }

  function CachedLocally(l: Layers, name: string, value: Override, now: int): Layers {
    l.(local := l.local[name := LocalEntry(value, now + LOCAL_CACHE_TTL)])
  }

  /** Local cache, then Redis, then the database; the override and what the caches hold afterwards. */
  function Resolve(l: Layers, name: string, w: Weather, now: int): (Override, Layers) {
    if LocalLive(l, name, now) then (l.local[name].value, l)
    else if w.redisReads && RedisLive(l, name, now) then
      (l.redis[name].value, CachedLocally(l, name, l.redis[name].value, now))
    else
      match w.database
      case NotMigrated => (None, l)
      case Broken => (None, CachedLocally(l, name, None, now))
      case Healthy =>
        var override := Row(l, name);
        var stored := if w.redisWrites then l.(redis := l.redis[name := RedisEntry(override, now + REDIS_TTL)]) else l;
        (override, CachedLocally(stored, name, override, now))
  }

  function Default(registry: map<string, Registered>, settings: map<string, bool>, name: string): bool {
    if name in settings then settings[name] else if name in registry then registry[name].fallback else false
  }

  predicate EnvOnly(registry: map<string, Registered>, name: string) {
    name in registry && !registry[name].isMutable
  }

  /** The effective value and the layers after reading it. */
  function Read(registry: map<string, Registered>, settings: map<string, bool>, l: Layers, name: string, w: Weather, now: int): (bool, Layers) {
    if EnvOnly(registry, name) then (Default(registry, settings, name), l)
    else
      var (override, after) := Resolve(l, name, w, now);
      (if override.Some? then override.value else Default(registry, settings, name), after)
  }

  function Stored(l: Layers, name: string, enabled: bool, w: Weather, now: int): Layers {
    var rows := l.rows[name := enabled];
    var redis := if w.redisWrites then l.redis[name := RedisEntry(Some(enabled), now + REDIS_TTL)] else l.redis;
    Layers(l.local - {name}, redis, rows)
  }

  // ----- calls as runs of the interleaving machine -----

  /** The layers as process `p` sees them hold, for this flag, what the machine's state holds. */
  ghost predicate Shows(s: State, p: nat, l: Layers, name: string) {
    && s.db == Row(l, name)
    && (p in s.locals <==> name in l.local)
    && (name in l.local ==> SameEntry(s.locals[p], l.local[name].value, l.local[name].expires))
    && (s.redis.Some? <==> name in l.redis)
    && (name in l.redis ==> SameEntry(s.redis.value, l.redis[name].value, l.redis[name].expires))
  }

  predicate SameEntry(e: Entry, value: Override, expires: int) {
    e.value == value && e.expires == expires
  }

  /** Nothing changed for anybody but process `p`. */
  ghost predicate OthersKept(s: State, s': State, p: nat) {
    && s'.time == s.time && s'.ops == s.ops
    && forall q :: q != p ==> (q in s'.locals <==> q in s.locals) && (q in s.locals ==> s'.locals[q] == s.locals[q])
  }

  /** The steps of one resolve by thread `t`, nobody coming in between. */
  function ResolveSteps(l: Layers, name: string, w: Weather, now: int, t: nat, p: nat): seq<Step> {
    if LocalLive(l, name, now) then []
    else if w.redisReads && RedisLive(l, name, now) then [ReadRedis(t, p), WriteLocal(t)]
    else [ReadDb(t, p), WriteRedis(t, w.redisWrites), WriteLocal(t)]
  }

  lemma {:induction false} DoFew(s: State, a: Step, b: Step, c: Step, delay: nat)
    ensures DoAll(s, [], delay) == s
    ensures DoAll(s, [a, b], delay) == Do(Do(s, a, delay), b, delay)
    ensures DoAll(s, [a, b, c], delay) == Do(Do(Do(s, a, delay), b, delay), c, delay)
  {
    hide Do;
    DoAllSnoc(s, [], a, delay);
    DoAllSnoc(s, [a], b, delay);
    DoAllSnoc(s, [a, b], c, delay);
    assert [] + [a] == [a] && [a] + [b] == [a, b] && [a, b] + [c] == [a, b, c];
  }

  lemma {:induction false} RedisServes(s: State, p: nat, t: nat, l: Layers, name: string, delay: nat)
    requires Shows(s, p, l, name) && t !in s.ops && !LocalLive(l, name, s.time) && RedisLive(l, name, s.time)
    ensures var s' := Do(Do(s, ReadRedis(t, p), delay), WriteLocal(t), delay);
      && Shows(s', p, CachedLocally(l, name, l.redis[name].value, s.time), name) && OthersKept(s, s', p)
      && LocalHit(s', p) == Some(l.redis[name].value)
  {
    var s1 := Do(s, ReadRedis(t, p), delay);
    assert s1.ops == s.ops[t := GotRedis(p, s.redis.value.value, s.redis.value.asOf, s.time)];
    assert s1.ops - {t} == s.ops;
  }

  lemma {:induction false} DatabaseServes(s: State, p: nat, t: nat, l: Layers, name: string, ok: bool, delay: nat)
    requires Shows(s, p, l, name) && t !in s.ops && !LocalLive(l, name, s.time)
    ensures var s' := Do(Do(Do(s, ReadDb(t, p), delay), WriteRedis(t, ok), delay), WriteLocal(t), delay);
      var stored := if ok then l.(redis := l.redis[name := RedisEntry(Row(l, name), s.time + REDIS_TTL)]) else l;
      && Shows(s', p, CachedLocally(stored, name, Row(l, name), s.time), name) && OthersKept(s, s', p)
      && LocalHit(s', p) == Some(Row(l, name))
  {
    var s1 := Do(s, ReadDb(t, p), delay);
    assert s1.ops == s.ops[t := GotDb(p, s.db, s.time, s.time)];
    var s2 := Do(s1, WriteRedis(t, ok), delay);
    assert s2.ops == s.ops[t := WroteRedis(p, s.db, s.time, s.time)];
    assert s2.ops - {t} == s.ops;
  }

  lemma {:induction false} LocalServes(s: State, p: nat, l: Layers, name: string)
    requires Shows(s, p, l, name) && LocalLive(l, name, s.time)
    ensures OthersKept(s, s, p) && LocalHit(s, p) == Some(l.local[name].value)
  {}

  /** A resolve with the database up is a run of the machine; afterwards the process holds the override it
      returns in its local cache. */
  lemma {:induction false} ResolveIsSteps(s: State, p: nat, t: nat, l: Layers, name: string, w: Weather, delay: nat)
    requires Shows(s, p, l, name) && t !in s.ops && w.database == Healthy
    ensures var s' := DoAll(s, ResolveSteps(l, name, w, s.time, t, p), delay);
      && Shows(s', p, Resolve(l, name, w, s.time).1, name) && OthersKept(s, s', p)
      && LocalHit(s', p) == Some(Resolve(l, name, w, s.time).0)
  {
    hide Do, Shows, OthersKept, LocalHit, CachedLocally;
    DoFew(s, ReadRedis(t, p), WriteLocal(t), Tick(0), delay);
    DoFew(s, ReadDb(t, p), WriteRedis(t, w.redisWrites), WriteLocal(t), delay);
    hide DoAll;
    if LocalLive(l, name, s.time) {
      LocalServes(s, p, l, name);
    } else if w.redisReads && RedisLive(l, name, s.time) {
      RedisServes(s, p, t, l, name, delay);
    } else {
      DatabaseServes(s, p, t, l, name, w.redisWrites, delay);
    }
  }

  /** So is the writing part of a flip. */
  lemma {:induction false} FlipIsSteps(s: State, p: nat, t: nat, l: Layers, name: string, enabled: bool, w: Weather, delay: nat)
    requires Shows(s, p, l, name) && t !in s.ops
    ensures var s' := DoAll(s, [Flip(t, p, enabled), FlipRedis(t, w.redisWrites), Bust(t)], delay);
      Shows(s', p, Stored(l, name, enabled, w, s.time), name) && OthersKept(s, s', p)
  {
    DoFew(s, Flip(t, p, enabled), FlipRedis(t, w.redisWrites), Bust(t), delay);
    hide DoAll;
    var s1 := Do(s, Flip(t, p, enabled), delay);
    assert s1.ops == s.ops[t := Flipped(p, Some(enabled), s.time, s.time)];
    var s2 := Do(s1, FlipRedis(t, w.redisWrites), delay);
    assert s2.ops == s.ops[t := FlippedRedis(p, Some(enabled), s.time, s.time)];
    assert s2.ops - {t} == s.ops;
  }

  /** `is_enabled` or `set_flag`, of any flag. */
  datatype Call = Asks(flag: string, w: Weather) | Sets(flag: string, enabled: bool, w: Weather)

  /** The layers after a call, the database being up. */
  function After(registry: map<string, Registered>, settings: map<string, bool>, l: Layers, c: Call, now: int): Layers {
    match c
    case Asks(flag, w) => Read(registry, settings, l, flag, w, now).1
    case Sets(flag, enabled, w) =>
      if flag in registry && registry[flag].isMutable then Stored(Read(registry, settings, l, flag, w, now).1, flag, enabled, w, now) else l
  }

  /** What a call does to one flag: its resolve, its flip, or nothing. */
  function CallSteps(registry: map<string, Registered>, l: Layers, c: Call, now: int, name: string, t: nat, p: nat): seq<Step> {
    if c.flag != name || EnvOnly(registry, name) then []
    else
      match c
      case Asks(_, w) => ResolveSteps(l, name, w, now, t, p)
      case Sets(_, enabled, w) =>
        if name !in registry then [] else ResolveSteps(l, name, w, now, t, p) + [Flip(t, p, enabled), FlipRedis(t, w.redisWrites), Bust(t)]
  }

  lemma {:induction false} DoAllConcat(s: State, steps: seq<Step>, more: seq<Step>, delay: nat)
    ensures DoAll(s, steps + more, delay) == DoAll(DoAll(s, steps, delay), more, delay)
    decreases |more|
  {
    hide Do;
    if more == [] {
      assert steps + more == steps;
    } else {
      var front, last := more[..|more| - 1], more[|more| - 1];
      DoAllConcat(s, steps, front, delay);
      assert steps + more == (steps + front) + [last];
      DoAllSnoc(s, steps + front, last, delay);
    }
  }

  lemma {:induction false} OtherFlagUntouched(registry: map<string, Registered>, settings: map<string, bool>, s: State, p: nat, l: Layers,
                                              c: Call, now: int, name: string)
    requires Shows(s, p, l, name) && (c.flag != name || EnvOnly(registry, name) || (c.Sets? && name !in registry))
    ensures Shows(s, p, After(registry, settings, l, c, now), name)
  {}

  /** Every call with the database up is, for every flag, a run of the machine: what the caches and the
      database hold afterwards is what that run leaves. */
  lemma {:induction false} CallIsSteps(registry: map<string, Registered>, settings: map<string, bool>, s: State, p: nat, t: nat, l: Layers,
                                       c: Call, name: string, delay: nat)
    requires Shows(s, p, l, name) && t !in s.ops && c.w.database == Healthy
    ensures var s' := DoAll(s, CallSteps(registry, l, c, s.time, name, t, p), delay);
      Shows(s', p, After(registry, settings, l, c, s.time), name) && OthersKept(s, s', p)
  {
    if c.flag != name || EnvOnly(registry, name) || (c.Sets? && name !in registry) {
      OtherFlagUntouched(registry, settings, s, p, l, c, s.time, name);
      assert DoAll(s, [], delay) == s;
    } else {
      ResolveIsSteps(s, p, t, l, name, c.w, delay);
      if c.Sets? {
        hide Shows, DoAll, Resolve, Stored, ResolveSteps;
        var mid := DoAll(s, ResolveSteps(l, name, c.w, s.time, t, p), delay);
        FlipIsSteps(mid, p, t, Resolve(l, name, c.w, s.time).1, name, c.enabled, c.w, delay);
        DoAllConcat(s, ResolveSteps(l, name, c.w, s.time, t, p), [Flip(t, p, c.enabled), FlipRedis(t, c.w.redisWrites), Bust(t)], delay);
      }
    }
  }

  /** Bounded staleness of the answer itself: after any interleaving of processes, flips and failing Redis
      writes, what `is_enabled` says of a mutable flag follows from an override that the database held no
      longer ago than both cache lifetimes and two read-to-write delays. */
  lemma {:induction false} AnswerIsFresh(registry: map<string, Registered>, settings: map<string, bool>, time: int, db: Override, steps: seq<Step>,
                                         delay: nat, p: nat, t: nat, l: Layers, name: string, w: Weather) returns (override: Override)
    requires var s := DoAll(Start(time, db), steps, delay);
      Shows(s, p, l, name) && t !in s.ops
    requires !EnvOnly(registry, name) && w.database == Healthy
    ensures var s := DoAll(Start(time, db), steps, delay);
      && Read(registry, settings, l, name, w, s.time).0 == (
           if override.Some? then override.value
           else if name in settings then settings[name]
           else if name in registry then registry[name].fallback else false)
      && FreshWithin(DoAll(s, ResolveSteps(l, name, w, s.time, t, p), delay), override, 88 + 2 * delay)
  {
    var s := DoAll(Start(time, db), steps, delay);
    override := Resolve(l, name, w, s.time).0;
    ResolveIsSteps(s, p, t, l, name, w, delay);
    hide Shows, DoAll, Resolve, FreshWithin, ResolveSteps;
    var more := ResolveSteps(l, name, w, s.time, t, p);
    DoAllConcat(Start(time, db), steps, more, delay);
    BoundedStaleness(time, db, steps + more, delay, p, t);
  }

  class FlagStore {
    const registry: map<string, Registered>
    const settings: map<string, bool>
    var local: map<string, LocalEntry>
    var redis: map<string, RedisEntry>
    var rows: map<string, bool>

    constructor (registry: map<string, Registered>, settings: map<string, bool>)
      ensures this.registry == registry && this.settings == settings && State() == Layers(map[], map[], map[])
    {
      this.registry, this.settings := registry, settings;
      local, redis, rows := map[], map[], map[];
    }

    ghost function State(): Layers
      reads this
    {
      Layers(local, redis, rows)
    }

    method CacheLocal(name: string, value: Override, now: int)
      modifies this`local
      ensures State() == CachedLocally(old(State()), name, value, now)
    {
      local := local[name := LocalEntry(value, now + LOCAL_CACHE_TTL)];
    }

    method ResolveOverride(name: string, w: Weather, now: int) returns (override: Override)
      modifies this`local, this`redis
      ensures (override, State()) == Resolve(old(State()), name, w, now)
    {
      if name in local && local[name].expires > now {
        return local[name].value;
      }
      if w.redisReads && name in redis && redis[name].expires > now {
        override := redis[name].value;
        CacheLocal(name, override, now);
        return;
      }
      if w.database == NotMigrated {
        return None;
      }
      if w.database == Broken {
        CacheLocal(name, None, now);
        return None;
      }
      override := if name in rows then Some(rows[name]) else None;
      if w.redisWrites {
        redis := redis[name := RedisEntry(override, now + REDIS_TTL)];
      }
      CacheLocal(name, override, now);
    }

    method IsEnabled(name: string, w: Weather, now: int) returns (enabled: bool)
      modifies this`local, this`redis
      ensures (enabled, State()) == Read(registry, settings, old(State()), name, w, now)
    {
      if name in registry && !registry[name].isMutable {
        return Default(registry, settings, name);
      }
      var override := ResolveOverride(name, w, now);
      if override.Some? {
        return override.value;
      }
      enabled := Default(registry, settings, name);
    }

    /** The flip itself needs the database; what it replaces is read first, for the audit row. */
    method SetFlag(name: string, enabled: bool, w: Weather, now: int) returns (result: Result<bool, FlagError>)
      modifies this`local, this`redis, this`rows
      ensures name !in registry ==> result == Err(UnknownFlag) && State() == old(State())
      ensures name in registry && !registry[name].isMutable ==> result == Err(FlagImmutable) && State() == old(State())
      ensures name in registry && registry[name].isMutable && w.database != Healthy ==>
        result == Err(DatabaseDown) && State() == Read(registry, settings, old(State()), name, w, now).1
      ensures name in registry && registry[name].isMutable && w.database == Healthy ==>
        result == Ok(enabled) && State() == Stored(Read(registry, settings, old(State()), name, w, now).1, name, enabled, w, now)
    {
      if name !in registry {
        return Err(UnknownFlag);
      }
      if !registry[name].isMutable {
        return Err(FlagImmutable);
      }
      var _ := IsEnabled(name, w, now);
      if w.database != Healthy {
        return Err(DatabaseDown);
      }
      rows := rows[name := enabled];
      if w.redisWrites {
        redis := redis[name := RedisEntry(Some(enabled), now + REDIS_TTL)];
      }
      local := local - {name};
      result := Ok(enabled);
    }
  }
}
