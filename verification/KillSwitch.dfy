/** The kill switch (`risk/killswitch.py`): active halt rows, who they block, and the two-poll daily-loss
    breaker. A transaction is one step; users, strategies and days are numbers. */
module KillSwitch {
  import opened Prelude

  datatype Level = L0 | L1 | L2 | L3

  /** `day` is the trading day on which the row was created; the row's id is its place in the table. */
  datatype Halt = Halt(user: Option<nat>, strategy: Option<nat>, level: Level, auto: bool, day: nat, active: bool)

  // ----- reading -----

  datatype Block = PLATFORM_HALTED | USER_HALTED | STRATEGY_HALTED

  predicate OnPlatform(h: Halt) {
    h.active && h.user.None? && h.level == L3
  }

  predicate OnUser(h: Halt, user: nat) {
    h.active && h.user == Some(user) && h.strategy.None?
  }

  predicate OnStrategy(h: Halt, user: nat, strategy: Option<nat>) {
    h.active && strategy.Some? && h.user == Some(user) && h.strategy == strategy
  }

  /** The halt stops this user's orders, for this strategy if one is named. */
  predicate Covers(h: Halt, user: nat, strategy: Option<nat>) {
    OnPlatform(h) || OnUser(h, user) || OnStrategy(h, user, strategy)
  }

  /** Platform first, then user, then strategy. */
  function BlockReason(halts: seq<Halt>, user: nat, strategy: Option<nat>): Option<Block> {
    if exists k :: 0 <= k < |halts| && OnPlatform(halts[k]) then Some(PLATFORM_HALTED)
    else if exists k :: 0 <= k < |halts| && OnUser(halts[k], user) then Some(USER_HALTED)
    else if exists k :: 0 <= k < |halts| && OnStrategy(halts[k], user, strategy) then Some(STRATEGY_HALTED)
    else None
  }

  /** Orders are blocked exactly when some active halt covers them. */
  lemma {:induction false} BlockedIffCovered(halts: seq<Halt>, user: nat, strategy: Option<nat>)
    ensures BlockReason(halts, user, strategy).Some? <==> exists k :: 0 <= k < |halts| && Covers(halts[k], user, strategy)
  {
    if k :| 0 <= k < |halts| && Covers(halts[k], user, strategy) {
      assert OnPlatform(halts[k]) || OnUser(halts[k], user) || OnStrategy(halts[k], user, strategy);
    }
    if k :| 0 <= k < |halts| && OnPlatform(halts[k]) {
      assert Covers(halts[k], user, strategy);
    }
    if k :| 0 <= k < |halts| && OnUser(halts[k], user) {
      assert Covers(halts[k], user, strategy);
    }
    if k :| 0 <= k < |halts| && OnStrategy(halts[k], user, strategy) {
      assert Covers(halts[k], user, strategy);
    }
  }

  // ----- triggering -----

  /** Which halts a trigger of this level, user and strategy would reuse. */
  predicate InScope(h: Halt, level: Level, user: Option<nat>, strategy: Option<nat>) {
    && h.active && h.level == level
    && match level
       case L3 => h.user.None?
       case L0 => h.user == user && h.strategy == strategy
       case _ => h.user == user && h.strategy.None?
  }

  function FirstInScope(halts: seq<Halt>, level: Level, user: Option<nat>, strategy: Option<nat>): (found: Option<nat>)
    ensures found.Some? ==> found.value < |halts| && InScope(halts[found.value], level, user, strategy)
    ensures found.None? ==> forall k :: 0 <= k < |halts| ==> !InScope(halts[k], level, user, strategy)
  {
    if halts == [] then None
    else
      var k := |halts| - 1;
      var found := FirstInScope(halts[..k], level, user, strategy);
      if found.Some? then found else if InScope(halts[k], level, user, strategy) then Some(k) else None
  }

  function NewHalt(level: Level, user: Option<nat>, strategy: Option<nat>, auto: bool, day: nat): Halt {
    Halt(if level == L3 then None else user, if level == L0 then strategy else None, level, auto, day, true)
  }

  function Triggered(halts: seq<Halt>, level: Level, user: Option<nat>, strategy: Option<nat>, auto: bool, day: nat): seq<Halt> {
    if FirstInScope(halts, level, user, strategy).Some? then halts
    else halts + [NewHalt(level, user, strategy, auto, day)]
  }

  // ----- releasing -----

  /** An automatic daily-loss halt is locked on the day it was created. */
  predicate Locked(h: Halt, today: nat) {
    h.auto && h.level == L2 && h.day == today
  }

  predicate Releasable(halts: seq<Halt>, id: nat, today: nat) {
    id < |halts| && halts[id].active && !Locked(halts[id], today)
  }

  function Released(halts: seq<Halt>, id: nat, today: nat): seq<Halt> {
    if Releasable(halts, id, today) then halts[id := halts[id].(active := false)] else halts
  }

  /** The sweep over automatic daily-loss halts. */
  function Swept(halts: seq<Halt>, today: nat, n: nat): (after: seq<Halt>)
    requires n <= |halts|
    ensures |after| == |halts|
    ensures forall k :: 0 <= k < |halts| ==>
      after[k] == if k < n && halts[k].level == L2 && halts[k].auto && Releasable(halts, k, today) then halts[k].(active := false) else halts[k]
  {
    if n == 0 then halts
    else
      var before := Swept(halts, today, n - 1);
      if halts[n - 1].level == L2 && halts[n - 1].auto then Released(before, n - 1, today) else before
  }

  // ----- the daily-loss breaker -----

  const CACHE_SECONDS := 3600

  datatype Thresholds = Thresholds(usd: real, pct: real)

  const DEFAULT_THRESHOLDS := Thresholds(1000.0, 5.0)

  /** A zero threshold means no limit on that axis. */
  predicate Breaches(limits: Thresholds, pnl: real, equity: real) {
    || (limits.usd > 0.0 && pnl <= -Abs(limits.usd))
    || (limits.pct > 0.0 && equity > 0.0 && pnl / equity * 100.0 <= -Abs(limits.pct))
  }

  datatype Verdict = Unreadable | Fine | Breach

  /** What a poll reads; without a profile the default thresholds apply. */
  function Judge(profile: Option<Thresholds>, reading: Option<(real, real)>): Verdict {
    if reading.None? then Unreadable
    else if Breaches(if profile.Some? then profile.value else DEFAULT_THRESHOLDS, reading.value.0, reading.value.1) then Breach
    else Fine
  }

  datatype Key = Key(user: nat, day: nat)

  datatype Counter = Counter(n: nat, expires: int)

  /** One poll that got as far as reading the account; the model keeps the log, the source does not. */
  datatype Poll = Poll(key: Key, time: int, verdict: Verdict)

  datatype State = State(halts: seq<Halt>, counters: map<Key, Counter>, time: int, day: nat, polls: seq<Poll>)

  predicate Live(s: State, key: Key) {
    key in s.counters && s.time < s.counters[key].expires
  }

  /** The count after one more breach: an expired or missing counter starts again. */
  function Bumped(s: State, key: Key): Counter {
    if Live(s, key) then s.counters[key].(n := s.counters[key].n + 1) else Counter(1, s.time + CACHE_SECONDS)
  }

  predicate Tripped(h: Halt, user: nat) {
    h.active && h.user == Some(user) && h.level == L2 && h.auto
  }

  predicate AlreadyTripped(halts: seq<Halt>, user: nat) {
    exists k :: 0 <= k < |halts| && Tripped(halts[k], user)
  }

  /** One poll of one user, and whether it tripped the breaker. */
  function Checked(s: State, user: nat, verdict: Verdict, required: nat): (State, bool) {
    var key := Key(user, s.day);
    if AlreadyTripped(s.halts, user) then (s, false)
    else
      var logged := s.(polls := s.polls + [Poll(key, s.time, verdict)]);
      match verdict
      case Unreadable => (logged, false)
      case Fine => (logged.(counters := s.counters - {key}), false)
      case Breach =>
        var c := Bumped(s, key);
        var counted := logged.(counters := s.counters[key := c]);
        if c.n < required then (counted, false)
        else (counted.(halts := Triggered(s.halts, L2, Some(user), None, true, s.day)), true)
  }

  // ----- whole runs -----

  /** `Forget` is the cache losing a counter. */
  datatype Step =
    | Trigger(level: Level, user: Option<nat>, strategy: Option<nat>, auto: bool)
    | Release(id: nat)
    | Sweep
    | Check(who: nat, verdict: Verdict, required: nat)
    | Tick(seconds: nat, days: nat)
    | Forget(key: Key)

  function Do(s: State, step: Step): State {
    match step
    case Trigger(level, user, strategy, auto) => s.(halts := Triggered(s.halts, level, user, strategy, auto, s.day))
    case Release(id) => s.(halts := Released(s.halts, id, s.day))
    case Sweep => s.(halts := Swept(s.halts, s.day, |s.halts|))
    case Check(who, verdict, required) => Checked(s, who, verdict, required).0
    case Tick(seconds, days) => s.(time := s.time + seconds, day := s.day + days)
    case Forget(key) => s.(counters := s.counters - {key})
  }

  function DoAll(s: State, steps: seq<Step>): State {
    if steps == [] then s else Do(DoAll(s, steps[..|steps| - 1]), steps[|steps| - 1])
  }

  // ----- at most one active halt per scope -----

  /** Two active halts that one trigger would reuse. */
  predicate SameScope(a: Halt, b: Halt) {
    && a.active && b.active && a.level == b.level
    && (a.level == L3 || (a.user == b.user && (a.level == L0 ==> a.strategy == b.strategy)))
  }

  ghost predicate WellScoped(h: Halt) {
    (h.level == L3 ==> h.user.None?) && (h.level != L0 ==> h.strategy.None?)
  }

  ghost predicate OnePerScope(halts: seq<Halt>) {
    && (forall k :: 0 <= k < |halts| ==> WellScoped(halts[k]))
    && (forall j, k :: 0 <= j < k < |halts| ==> !SameScope(halts[j], halts[k]))
  }

  lemma {:induction false} TriggerKeepsOne(halts: seq<Halt>, level: Level, user: Option<nat>, strategy: Option<nat>, auto: bool, day: nat)
    requires OnePerScope(halts)
    ensures OnePerScope(Triggered(halts, level, user, strategy, auto, day))
  {
    if FirstInScope(halts, level, user, strategy).None? {
      var h := NewHalt(level, user, strategy, auto, day);
      forall k | 0 <= k < |halts| ensures !SameScope(halts[k], h) {
        assert !InScope(halts[k], level, user, strategy);
      }
    }
  }

  /** `after` is `before` with some halts released. */
  ghost predicate OnlyReleases(before: seq<Halt>, after: seq<Halt>) {
    |after| == |before| && forall k :: 0 <= k < |before| ==> after[k] == before[k] || after[k] == before[k].(active := false)
  }

  lemma {:induction false} ReleasesKeepOne(before: seq<Halt>, after: seq<Halt>)
    requires OnePerScope(before) && OnlyReleases(before, after)
    ensures OnePerScope(after)
  {
    forall j, k | 0 <= j < k < |after| ensures !SameScope(after[j], after[k]) {
      assert !SameScope(before[j], before[k]);
    }
  }

  lemma {:induction false} StepKeepsOne(s: State, step: Step)
    requires OnePerScope(s.halts)
    ensures OnePerScope(Do(s, step).halts)
  {
    hide OnePerScope, FirstInScope, Breaches;
    match step
    case Trigger(level, user, strategy, auto) => TriggerKeepsOne(s.halts, level, user, strategy, auto, s.day);
    case Release(id) => ReleasesKeepOne(s.halts, Released(s.halts, id, s.day));
    case Sweep => ReleasesKeepOne(s.halts, Swept(s.halts, s.day, |s.halts|));
    case Check(who, _, _) => TriggerKeepsOne(s.halts, L2, Some(who), None, true, s.day);
    case _ =>
  }

  /** In every run of whole transactions at most one active halt exists per scope; `KillSwitchRace` says
      when triggers that overlap keep it so. */
  lemma {:induction false} OneActivePerScope(s: State, steps: seq<Step>)
    requires OnePerScope(s.halts)
    ensures OnePerScope(DoAll(s, steps).halts)
  {
    hide Do, OnePerScope;
    if steps != [] {
      OneActivePerScope(s, steps[..|steps| - 1]);
      StepKeepsOne(DoAll(s, steps[..|steps| - 1]), steps[|steps| - 1]);
    }
  }

  // ----- the daily-loss halt holds until the day changes -----

  lemma {:induction false} LockedHaltStays(s: State, step: Step, k: nat)
    requires k < |s.halts| && s.halts[k].active && Locked(s.halts[k], s.day) && Do(s, step).day == s.day
    ensures k < |Do(s, step).halts| && Do(s, step).halts[k] == s.halts[k]
  {
    hide FirstInScope, Breaches, Bumped, AlreadyTripped;
  }

  lemma {:induction false} DayOnlyGrows(s: State, steps: seq<Step>)
    ensures DoAll(s, steps).day >= s.day
  {
    if steps != [] {
      DayOnlyGrows(s, steps[..|steps| - 1]);
      hide Swept, Released, Triggered, Bumped, Breaches, AlreadyTripped;
    }
  }

  /** An automatic daily-loss halt created today blocks every strategy of its user, whatever is triggered,
      released, swept or polled, for as long as the trading day lasts. */
  lemma {:induction false} DailyLossHaltHoldsAllDay(s: State, steps: seq<Step>, k: nat, user: nat, strategy: Option<nat>)
    requires k < |s.halts| && Tripped(s.halts[k], user) && s.halts[k].strategy.None? && s.halts[k].day == s.day
    requires DoAll(s, steps).day == s.day
    ensures var after := DoAll(s, steps);
      && k < |after.halts| && after.halts[k] == s.halts[k]
      && BlockReason(after.halts, user, strategy).Some?
  {
    var after := DoAll(s, steps);
    if steps != [] {
      var front := steps[..|steps| - 1];
      DayOnlyGrows(s, front);
      StepDayGrows(DoAll(s, front), steps[|steps| - 1]);
      DailyLossHaltHoldsAllDay(s, front, k, user, strategy);
      LockedHaltStays(DoAll(s, front), steps[|steps| - 1], k);
    }
    hide Do;
    assert Covers(after.halts[k], user, strategy);
    BlockedIffCovered(after.halts, user, strategy);
  }

  lemma {:induction false} StepDayGrows(s: State, step: Step)
    ensures Do(s, step).day >= s.day
  {
    hide Swept, Released, Triggered, Bumped, Breaches, AlreadyTripped;
  }

  /** A halt that is locked today. */
  ghost predicate LockedToday(halts: seq<Halt>, user: nat, day: nat) {
    exists k :: 0 <= k < |halts| && Tripped(halts[k], user) && halts[k].strategy.None? && halts[k].day == day
  }

  /** When an automatic daily-loss trigger leaves the user locked for the rest of the day: exactly when there
      was no active daily-loss halt to reuse, or the one reused was itself automatic and made today. */
  lemma {:induction false} TriggerLocksIff(halts: seq<Halt>, user: nat, day: nat)
    requires OnePerScope(halts)
    ensures var found := FirstInScope(halts, L2, Some(user), None);
      LockedToday(Triggered(halts, L2, Some(user), None, true, day), user, day) <==>
        (found.None? || Locked(halts[found.value], day))
  {
    var found := FirstInScope(halts, L2, Some(user), None);
    var after := Triggered(halts, L2, Some(user), None, true, day);
    if found.None? {
      assert Tripped(after[|halts|], user) && after[|halts|].strategy.None? && after[|halts|].day == day;
    } else {
      assert Locked(halts[found.value], day) ==> Tripped(halts[found.value], user) && halts[found.value].strategy.None?;
      if k :| 0 <= k < |halts| && Tripped(halts[k], user) && halts[k].strategy.None? && halts[k].day == day {
        if k < found.value {
          assert SameScope(halts[k], halts[found.value]);
        } else if found.value < k {
          assert SameScope(halts[found.value], halts[k]);
        }
      }
    }
  }

  // ----- a trip follows breaches in a row -----

  /** Breaching polls of the user on that day, not before `since`, after the last readable poll that did not
      breach. */
  function Streak(polls: seq<Poll>, key: Key, since: int): nat {
    if polls == [] then 0
    else
      var earlier, p := Streak(polls[..|polls| - 1], key, since), polls[|polls| - 1];
      if p.key != key then earlier
      else
        match p.verdict
        case Fine => 0
        case Breach => earlier + if p.time >= since then 1 else 0
        case Unreadable => earlier
  }

  lemma {:induction false} StreakSnoc(polls: seq<Poll>, p: Poll, key: Key, since: int)
    ensures Streak(polls + [p], key, since) ==
      if p.key != key || p.verdict == Unreadable then Streak(polls, key, since)
      else if p.verdict == Fine then 0
      else Streak(polls, key, since) + if p.time >= since then 1 else 0
  {
    assert (polls + [p])[..|polls|] == polls;
  }

  lemma {:induction false} StreakLonger(polls: seq<Poll>, key: Key, since: int, earlier: int)
    requires earlier <= since
    ensures Streak(polls, key, since) <= Streak(polls, key, earlier)
  {
    if polls != [] {
      StreakLonger(polls[..|polls| - 1], key, since, earlier);
    }
  }

  /** A counter never claims more breaches in a row than there were while it has been kept. */
  ghost predicate CountersHonest(s: State) {
    forall key :: key in s.counters ==>
      && s.counters[key].expires <= s.time + CACHE_SECONDS
      && s.counters[key].n <= Streak(s.polls, key, s.counters[key].expires - CACHE_SECONDS)
  }

  lemma {:induction false} BumpHonest(s: State, user: nat, verdict: Verdict)
    requires CountersHonest(s)
    ensures var key := Key(user, s.day);
      var polls := s.polls + [Poll(key, s.time, verdict)];
      && (verdict == Breach ==>
            var c := Bumped(s, key);
            && c.expires <= s.time + CACHE_SECONDS && c.expires > s.time
            && c.n <= Streak(polls, key, c.expires - CACHE_SECONDS)
            && CountersHonest(s.(polls := polls, counters := s.counters[key := c])))
      && (verdict == Fine ==> CountersHonest(s.(polls := polls, counters := s.counters - {key})))
      && (verdict == Unreadable ==> CountersHonest(s.(polls := polls)))
  {
    var key := Key(user, s.day);
    forall k, since ensures Streak(s.polls + [Poll(key, s.time, verdict)], k, since) ==
      if key != k || verdict == Unreadable then Streak(s.polls, k, since)
      else if verdict == Fine then 0
      else Streak(s.polls, k, since) + if s.time >= since then 1 else 0
    {
      StreakSnoc(s.polls, Poll(key, s.time, verdict), k, since);
    }
    hide Streak;
  }

  lemma {:induction false} StepHonest(s: State, step: Step)
    requires CountersHonest(s)
    ensures CountersHonest(Do(s, step))
  {
    hide Streak, Swept, Released, Triggered, AlreadyTripped, Bumped;
    match step
    case Check(who, verdict, _) =>
      BumpHonest(s, who, verdict);
      hide CountersHonest;
      TriggeredKeepsCounters(s, who);
    case _ =>
  }

  lemma {:induction false} TriggeredKeepsCounters(s: State, who: nat)
    ensures forall t: State, halts :: CountersHonest(t) ==> CountersHonest(t.(halts := halts))
  {
    hide Streak;
  }

  lemma {:induction false} RunHonest(s: State, steps: seq<Step>)
    requires CountersHonest(s)
    ensures CountersHonest(DoAll(s, steps))
  {
    hide Do, CountersHonest;
    if steps != [] {
      RunHonest(s, steps[..|steps| - 1]);
      StepHonest(DoAll(s, steps[..|steps| - 1]), steps[|steps| - 1]);
    }
  }

  /** In every run a poll trips the breaker only as the last of `required` breaching polls of that user on
      that day, all within the last hour, with no readable poll between them that did not breach. */
  lemma {:induction false} TripNeedsBreachesInARow(s: State, steps: seq<Step>, who: nat, verdict: Verdict, required: nat)
    requires CountersHonest(s)
    requires Checked(DoAll(s, steps), who, verdict, required).1
    ensures var now := DoAll(s, steps);
      var after := Checked(now, who, verdict, required).0;
      verdict == Breach && Streak(after.polls, Key(who, now.day), now.time - 3600) >= required
  {
    hide *;
    RunHonest(s, steps);
    TripNow(DoAll(s, steps), who, verdict, required);
  }

  lemma {:induction false} TripNow(now: State, who: nat, verdict: Verdict, required: nat)
    requires CountersHonest(now) && Checked(now, who, verdict, required).1
    ensures var after := Checked(now, who, verdict, required).0;
      verdict == Breach && Streak(after.polls, Key(who, now.day), now.time - 3600) >= required
  {
    hide CountersHonest, Streak, Triggered, AlreadyTripped, Bumped;
    var key := Key(who, now.day);
    BumpHonest(now, who, verdict);
    StreakLonger(now.polls + [Poll(key, now.time, verdict)], key, Bumped(now, key).expires - CACHE_SECONDS, now.time - CACHE_SECONDS);
  }

  /** And two breaching polls on one day within the hour do trip it. */
  lemma {:induction false} TwoBreachesTrip(s: State, who: nat, seconds: nat)
    requires !AlreadyTripped(s.halts, who) && !Live(s, Key(who, s.day)) && seconds < 3600
    ensures var first := Checked(s, who, Breach, 2);
      var second := Checked(Do(first.0, Tick(seconds, 0)), who, Breach, 2);
      !first.1 && second.1 && AlreadyTripped(second.0.halts, who) ==
        (FirstInScope(s.halts, L2, Some(who), None).None?)
  {
    var found := FirstInScope(s.halts, L2, Some(who), None);
    var after := Triggered(s.halts, L2, Some(who), None, true, s.day);
    if found.None? {
      assert Tripped(after[|s.halts|], who);
    }
    hide FirstInScope;
  }

  // ----- the engine -----

  function UsableEquity(readings: seq<Option<(real, real)>>): real {
    if readings == [] then 0.0
    else UsableEquity(readings[..|readings| - 1]) + if Usable(readings[|readings| - 1]) then readings[|readings| - 1].value.0 else 0.0
  }

  function UsablePnl(readings: seq<Option<(real, real)>>): real {
    if readings == [] then 0.0
    else
      var r := readings[|readings| - 1];
      UsablePnl(readings[..|readings| - 1]) + if Usable(r) then r.value.0 - r.value.1 else 0.0
  }

  /** A broker answered with a positive equity. */
  predicate Usable(reading: Option<(real, real)>) {
    reading.Some? && reading.value.0 > 0.0
  }

  class Engine {
    var halts: seq<Halt>
    var counters: map<Key, Counter>
    var time: int
    var day: nat
    ghost var polls: seq<Poll>

    constructor ()
      ensures Now() == State([], map[], 0, 0, [])
    {
      halts, counters, time, day := [], map[], 0, 0;
      polls := [];
    }

    ghost function Now(): State
      reads this
    {
      State(halts, counters, time, day, polls)
    }

    method IsBlocked(user: nat, strategy: Option<nat>) returns (reason: Option<Block>)
      ensures reason == BlockReason(halts, user, strategy)
      ensures reason.Some? <==> exists k :: 0 <= k < |halts| && Covers(halts[k], user, strategy)
    {
      BlockedIffCovered(halts, user, strategy);
      if exists k :: 0 <= k < |halts| && OnPlatform(halts[k]) {
        return Some(PLATFORM_HALTED);
      }
      if exists k :: 0 <= k < |halts| && OnUser(halts[k], user) {
        return Some(USER_HALTED);
      }
      if strategy.Some? && exists k :: 0 <= k < |halts| && OnStrategy(halts[k], user, strategy) {
        return Some(STRATEGY_HALTED);
      }
      reason := None;
    }

    /** Creates or reuses the active halt of the scope. */
    method TriggerHalt(level: Level, user: Option<nat>, strategy: Option<nat>, auto: bool) returns (id: nat)
      modifies this`halts
      ensures halts == Triggered(old(halts), level, user, strategy, auto, day)
      ensures id < |halts| && InScope(halts[id], level, if level == L3 then None else user, if level == L0 then strategy else None)
    {
      var existing := FirstInScope(halts, level, user, strategy);
      if existing.Some? {
        return existing.value;
      }
      id := |halts|;
      halts := halts + [Halt(if level == L3 then None else user, if level == L0 then strategy else None, level, auto, day, true)];
    }

    method ReleaseHalt(id: nat) returns (ok: bool)
      modifies this`halts
      ensures ok == Releasable(old(halts), id, day) && halts == Released(old(halts), id, day)
    {
      if id >= |halts| || !halts[id].active {
        return false;
      }
      var halt := halts[id];
      if halt.auto && halt.level == L2 && halt.day == day {
        return false;
      }
      halts := halts[id := halt.(active := false)];
      ok := true;
    }

    /** Sums equity and day change over the accounts that report a usable equity. */
    method UserDailyPnl(readings: seq<Option<(real, real)>>) returns (snapshot: Option<(real, real)>)
      ensures snapshot.Some? <==> exists k :: 0 <= k < |readings| && readings[k].Some? && readings[k].value.0 > 0.0
      ensures snapshot.Some? ==> snapshot.value == (UsablePnl(readings), UsableEquity(readings)) && snapshot.value.1 > 0.0
    {
      var pnl, equity, readOk := 0.0, 0.0, false;
      var i := 0;
      while i < |readings|
        invariant 0 <= i <= |readings|
        invariant pnl == UsablePnl(readings[..i]) && equity == UsableEquity(readings[..i])
        invariant readOk <==> exists k :: 0 <= k < i && Usable(readings[k])
        invariant equity >= 0.0 && (readOk ==> equity > 0.0)
      {
        assert readings[..i + 1][..i] == readings[..i];
        if Usable(readings[i]) {
          readOk := true;
          equity := equity + readings[i].value.0;
          pnl := pnl + (readings[i].value.0 - readings[i].value.1);
        }
        i := i + 1;
      }
      assert readings[..|readings|] == readings;
      if !readOk || equity <= 0.0 {
        return None;
      }
      snapshot := Some((pnl, equity));
    }

    method CheckDailyLoss(user: nat, profile: Option<Thresholds>, snapshot: Option<(real, real)>, required: nat) returns (tripped: bool)
      modifies this
      ensures (Now(), tripped) == Checked(old(Now()), user, Judge(profile, snapshot), required)
    {
      if exists k :: 0 <= k < |halts| && Tripped(halts[k], user) {
        return false;
      }
      var key := Key(user, day);
      var verdict := Judge(profile, snapshot);
      hide Judge;
      polls := polls + [Poll(key, time, verdict)];
      if verdict == Unreadable {
        return false;
      }
      if verdict == Fine {
        counters := counters - {key};
        return false;
      }
      var n := 1;
      if key in counters && time < counters[key].expires {
        n := counters[key].n + 1;
        counters := counters[key := Counter(n, counters[key].expires)];
      } else {
        counters := counters[key := Counter(1, time + CACHE_SECONDS)];
      }
      if n < required {
        return false;
      }
      var _ := TriggerHalt(L2, Some(user), None, true);
      tripped := true;
    }

    method ReleaseExpiredL2Halts() returns (released: nat)
      modifies this`halts
      ensures halts == Swept(old(halts), day, |old(halts)|)
      ensures released == ActiveCount(old(halts)) - ActiveCount(halts)
    {
      released := 0;
      ghost var before := halts;
      var i := 0;
      while i < |halts|
        invariant 0 <= i <= |halts| == |before|
        invariant halts == Swept(before, day, i)
        invariant released == ActiveCount(before) - ActiveCount(halts)
      {
        if halts[i].level == L2 && halts[i].auto && halts[i].active {
          ghost var former := halts;
          var ok := ReleaseHalt(i);
          if ok {
            ActiveCountRelease(former, i);
            released := released + 1;
          }
        }
        i := i + 1;
      }
    }
  }

  function ActiveCount(halts: seq<Halt>): int {
    if halts == [] then 0 else ActiveCount(halts[..|halts| - 1]) + if halts[|halts| - 1].active then 1 else 0
  }

  lemma {:induction false} ActiveCountRelease(halts: seq<Halt>, i: nat)
    requires i < |halts| && halts[i].active
    ensures ActiveCount(halts[i := halts[i].(active := false)]) == ActiveCount(halts) - 1
  {
    var after, k := halts[i := halts[i].(active := false)], |halts| - 1;
    if i < k {
      assert after[..k] == halts[..k][i := halts[i].(active := false)];
      ActiveCountRelease(halts[..k], i);
    } else {
      assert after[..k] == halts[..k];
    }
  }
}
