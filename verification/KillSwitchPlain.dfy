/** The kill switch in plain terms (`risk/killswitch.py`): which loss counts, and whom a halt stops. */
module KillSwitchPlain {
  import opened Prelude
  import opened KillSwitch

  // ----- which loss counts -----

  /** A loss of at least the dollar limit, or of at least the percentage of a positive equity; a limit of zero
      does not apply, and without a profile the limits are a thousand dollars and five per cent. */
  predicate LossReached(profile: Option<Thresholds>, pnl: real, equity: real) {
    var usd := if profile.Some? then profile.value.usd else 1000.0;
    var pct := if profile.Some? then profile.value.pct else 5.0;
    || (usd > 0.0 && -pnl >= usd)
    || (pct > 0.0 && equity > 0.0 && -pnl * 100.0 >= pct * equity)
  }

  lemma {:induction false} PercentMeans(pnl: real, equity: real, pct: real)
    requires equity > 0.0
    ensures pnl / equity * 100.0 <= -pct <==> -pnl * 100.0 >= pct * equity
  {
    var share := pnl / equity;
    DivCancel(pnl, equity);
    assert (share * 100.0) * equity == pnl * 100.0;
    assert (-pct) * equity == -(pct * equity);
    if share * 100.0 <= -pct {
      MulMono(share * 100.0, -pct, equity);
    } else {
      MulStrict(-pct, share * 100.0, equity);
    }
  }

  /** The verdict of a poll: unreadable without a reading, a breach exactly when the loss is reached. */
  lemma {:induction false} VerdictMeans(profile: Option<Thresholds>, reading: Option<(real, real)>)
    ensures Judge(profile, reading) == if reading.None? then Unreadable
                                       else if LossReached(profile, reading.value.0, reading.value.1) then Breach else Fine
  {
    if reading.Some? && reading.value.1 > 0.0 {
      PercentMeans(reading.value.0, reading.value.1, if profile.Some? then profile.value.pct else 5.0);
    }
  }

  /** A larger loss on the same equity is a breach whenever the smaller one is. */
  lemma {:induction false} LargerLossBreaches(profile: Option<Thresholds>, pnl: real, worse: real, equity: real)
    requires worse <= pnl && Judge(profile, Some((pnl, equity))) == Breach
    ensures Judge(profile, Some((worse, equity))) == Breach
  {
    VerdictMeans(profile, Some((pnl, equity)));
    VerdictMeans(profile, Some((worse, equity)));
    hide Judge;
  }

  ghost predicate Watched(s: State, user: nat) {
    !exists k :: 0 <= k < |s.halts| && s.halts[k].active && s.halts[k].user == Some(user) && s.halts[k].level == L2 && s.halts[k].auto
  }

  lemma {:induction false} WatchedIff(s: State, user: nat)
    ensures Watched(s, user) <==> !AlreadyTripped(s.halts, user)
  {
    if AlreadyTripped(s.halts, user) {
      var k :| 0 <= k < |s.halts| && Tripped(s.halts[k], user);
      assert s.halts[k].active && s.halts[k].user == Some(user) && s.halts[k].level == L2 && s.halts[k].auto;
    }
    if k :| 0 <= k < |s.halts| && s.halts[k].active && s.halts[k].user == Some(user) && s.halts[k].level == L2 && s.halts[k].auto {
      assert Tripped(s.halts[k], user);
    }
  }

  /** Breaching polls of this user and day that the counter remembers; it forgets an hour after the first. */
  function Remembered(s: State, user: nat): nat {
    var key := Key(user, s.day);
    if key in s.counters && s.time < s.counters[key].expires then s.counters[key].n else 0
  }

  predicate Forgotten(s: State, user: nat) {
    Key(user, s.day) in s.counters ==> s.counters[Key(user, s.day)].expires <= s.time
  }

  /** One poll, in numbers: nothing happens to a user already halted for the day's loss or without a reading; a
      loss that is not reached makes the count start again; a loss that is reached adds one, and trips at the
      required number. */
  lemma {:induction false} PollMeans(s: State, user: nat, profile: Option<Thresholds>, reading: Option<(real, real)>, required: nat)
    ensures var (after, tripped) := Checked(s, user, Judge(profile, reading), required);
      if !Watched(s, user) then after == s && !tripped
      else if reading.None? then !tripped && after.halts == s.halts && Remembered(after, user) == Remembered(s, user)
      else if !LossReached(profile, reading.value.0, reading.value.1) then !tripped && after.halts == s.halts && Remembered(after, user) == 0
      else
        && Remembered(after, user) == Remembered(s, user) + 1
        && (tripped <==> Remembered(s, user) + 1 >= required)
        && (!tripped ==> after.halts == s.halts)
        && (tripped ==> after.halts == Triggered(s.halts, L2, Some(user), None, true, s.day))
  {
    WatchedIff(s, user);
    VerdictMeans(profile, reading);
    hide Judge, LossReached, Triggered, AlreadyTripped, Watched;
  }

  // ----- whom a halt stops -----

  /** A platform halt stops everyone, one without strategy its user, one with a strategy that strategy of its
      user. */
  predicate Stops(h: Halt, user: nat, strategy: Option<nat>) {
    && h.active
    && ((h.level == L3 && h.user == None)
        || (h.user == Some(user) && h.strategy == None)
        || (h.user == Some(user) && h.strategy != None && h.strategy == strategy))
  }

  lemma {:induction false} BlockedIffStopped(halts: seq<Halt>, user: nat, strategy: Option<nat>)
    ensures BlockReason(halts, user, strategy).Some? <==> exists k :: 0 <= k < |halts| && Stops(halts[k], user, strategy)
  {
    BlockedIffCovered(halts, user, strategy);
    forall h: Halt ensures Covers(h, user, strategy) <==> Stops(h, user, strategy) {}
    hide BlockReason, Covers, Stops;
    if k :| 0 <= k < |halts| && Covers(halts[k], user, strategy) {
      assert Stops(halts[k], user, strategy);
    }
    if k :| 0 <= k < |halts| && Stops(halts[k], user, strategy) {
      assert Covers(halts[k], user, strategy);
    }
  }

  /** The reach of a trigger: everyone, one user, or one strategy of a user. */
  predicate Reaches(level: Level, target: Option<nat>, targetStrategy: Option<nat>, user: nat, strategy: Option<nat>) {
    match level
    case L3 => true
    case L0 => target == Some(user) && (targetStrategy == None || targetStrategy == strategy)
    case _ => target == Some(user)
  }

  lemma {:induction false} NewHaltStops(level: Level, target: Option<nat>, targetStrategy: Option<nat>, auto: bool, day: nat, user: nat, strategy: Option<nat>)
    ensures Stops(NewHalt(level, target, targetStrategy, auto, day), user, strategy) <==> Reaches(level, target, targetStrategy, user, strategy)
  {}

  lemma {:induction false} ReusedHaltStops(h: Halt, level: Level, target: Option<nat>, targetStrategy: Option<nat>, user: nat, strategy: Option<nat>)
    requires InScope(h, level, target, targetStrategy)
    ensures Reaches(level, target, targetStrategy, user, strategy) ==> Stops(h, user, strategy)
  {}

  /** A trigger stops exactly those in its reach, besides those who were stopped before. */
  lemma {:induction false} TriggerStops(halts: seq<Halt>, level: Level, target: Option<nat>, targetStrategy: Option<nat>, auto: bool, day: nat,
                                        user: nat, strategy: Option<nat>)
    ensures var after := Triggered(halts, level, target, targetStrategy, auto, day);
      BlockReason(after, user, strategy).Some? <==>
        BlockReason(halts, user, strategy).Some? || Reaches(level, target, targetStrategy, user, strategy)
  {
    var after := Triggered(halts, level, target, targetStrategy, auto, day);
    BlockedIffStopped(halts, user, strategy);
    BlockedIffStopped(after, user, strategy);
    NewHaltStops(level, target, targetStrategy, auto, day, user, strategy);
    var found := FirstInScope(halts, level, target, targetStrategy);
    if found.Some? {
      ReusedHaltStops(halts[found.value], level, target, targetStrategy, user, strategy);
    } else {
      assert after[|halts|] == NewHalt(level, target, targetStrategy, auto, day);
      assert forall k :: 0 <= k < |halts| ==> after[k] == halts[k];
    }
    hide BlockReason, Stops, Reaches, NewHalt, FirstInScope, InScope;
  }

  /** Two polls on one day within the hour that both reach the loss trip the breaker, and every strategy of the
      user is stopped. */
  lemma {:induction false} TwoLossesStopTheUser(s: State, user: nat, first: Option<Thresholds>, second: Option<Thresholds>,
                                                a: (real, real), b: (real, real), seconds: nat, strategy: Option<nat>)
    requires Watched(s, user) && Forgotten(s, user) && seconds < 3600
    requires LossReached(first, a.0, a.1) && LossReached(second, b.0, b.1)
    ensures var one := Checked(s, user, Judge(first, Some(a)), 2);
      var two := Checked(Do(one.0, Tick(seconds, 0)), user, Judge(second, Some(b)), 2);
      !one.1 && two.1 && BlockReason(two.0.halts, user, strategy).Some?
  {
    var one := Checked(s, user, Judge(first, Some(a)), 2);
    PollMeans(s, user, first, Some(a), 2);
    var later := Do(one.0, Tick(seconds, 0));
    assert later.halts == s.halts && Watched(later, user);
    assert Remembered(s, user) == 0;
    StillRemembered(s, user, first, a, seconds);
    PollMeans(later, user, second, Some(b), 2);
    TriggerStops(later.halts, L2, Some(user), None, true, later.day, user, strategy);
    hide Checked, Judge, LossReached, Watched, BlockReason, Triggered, Remembered;
  }

  lemma {:induction false} StillRemembered(s: State, user: nat, profile: Option<Thresholds>, a: (real, real), seconds: nat)
    requires Watched(s, user) && Forgotten(s, user) && seconds < 3600 && LossReached(profile, a.0, a.1)
    ensures Remembered(Do(Checked(s, user, Judge(profile, Some(a)), 2).0, Tick(seconds, 0)), user) == 1
  {
    WatchedIff(s, user);
    VerdictMeans(profile, Some(a));
    hide Judge, LossReached, AlreadyTripped, Triggered;
  }
}
