/** Halt triggers as the transactions they are (`risk/killswitch.py`): one looks for the active halt of its
    scope, and only later writes its own. */
module KillSwitchRace {
  import opened Prelude
  import opened KillSwitch

  /** A transaction that looked when the table had `since` rows and found no active halt of its scope. */
  datatype Pending = Pending(level: Level, user: Option<nat>, strategy: Option<nat>, auto: bool, since: nat)

  datatype World = World(s: State, pending: map<nat, Pending>)

  /** `t` is a transaction. `Whole` is any other change; a poll that trips goes on to look for itself. */
  datatype Move =
    | Look(t: nat, level: Level, user: Option<nat>, strategy: Option<nat>, auto: bool)
    | Write(t: nat)
    | Abort(t: nat)
    | Whole(step: Step)

  /** Everything but creating a halt. */
  function Rest(s: State, step: Step): State {
    match step
    case Trigger(_, _, _, _) => s
    case Check(who, verdict, required) => Checked(s, who, verdict, required).0.(halts := s.halts)
    case _ => Do(s, step)
  }

  function Wanted(p: Pending, day: nat): Halt {
    NewHalt(p.level, p.user, p.strategy, p.auto, day)
  }

  /** A look that finds a halt reuses it and is done. */
  function Make(w: World, m: Move): World {
    match m
    case Look(t, level, user, strategy, auto) =>
      if t !in w.pending && FirstInScope(w.s.halts, level, user, strategy).None? then
        w.(pending := w.pending[t := Pending(level, user, strategy, auto, |w.s.halts|)])
      else w
    case Write(t) =>
      if t in w.pending then
        World(w.s.(halts := w.s.halts + [Wanted(w.pending[t], w.s.day)]), w.pending - {t})
      else w
    case Abort(t) => w.(pending := w.pending - {t})
    case Whole(step) => w.(s := Rest(w.s, step))
  }

  function MakeAll(w: World, moves: seq<Move>): World {
    if moves == [] then w else Make(MakeAll(w, moves[..|moves| - 1]), moves[|moves| - 1])
  }

  /** A write that comes after another halt of its scope was committed behind its look, and is active
      still. */
  ghost predicate Stale(w: World, m: Move) {
    && m.Write? && m.t in w.pending
    && exists k :: w.pending[m.t].since <= k < |w.s.halts| && Rivals(w.s.halts[k], w.pending[m.t])
  }

  predicate Rivals(h: Halt, p: Pending) {
    InScope(h, p.level, p.user, p.strategy)
  }

  // ----- what every run keeps -----

  ghost predicate AllWellScoped(halts: seq<Halt>) {
    forall k :: 0 <= k < |halts| ==> WellScoped(halts[k])
  }

  /** What a transaction did not find when it looked, it would not find there now. */
  ghost predicate LookedWell(w: World, p: Pending) {
    p.since <= |w.s.halts| && forall k :: 0 <= k < p.since ==> !Rivals(w.s.halts[k], p)
  }

  ghost predicate Sound(w: World) {
    AllWellScoped(w.s.halts) && forall t :: t in w.pending ==> LookedWell(w, w.pending[t])
  }

  lemma {:induction false} ReleasesAreSound(w: World, v: World)
    requires Sound(w) && v.pending == w.pending && OnlyReleases(w.s.halts, v.s.halts)
    ensures Sound(v)
  {
    forall t | t in v.pending ensures LookedWell(v, v.pending[t]) {
      assert LookedWell(w, w.pending[t]);
    }
  }

  lemma {:induction false} RestOnlyReleases(s: State, step: Step)
    ensures OnlyReleases(s.halts, Rest(s, step).halts)
  {
    hide Bumped, AlreadyTripped, FirstInScope;
  }

  lemma {:induction false} MoveIsSound(w: World, m: Move)
    requires Sound(w)
    ensures Sound(Make(w, m))
  {
    match m
    case Whole(step) =>
      RestOnlyReleases(w.s, step);
      hide OnlyReleases, Rest, Sound;
      ReleasesAreSound(w, Make(w, m));
    case Write(t) =>
      if t in w.pending {
        forall u | u in Make(w, m).pending ensures LookedWell(Make(w, m), w.pending[u]) {
          assert LookedWell(w, w.pending[u]);
        }
      }
    case Look(_, _, _, _, _) =>
      forall u | u in w.pending ensures LookedWell(Make(w, m), w.pending[u]) {
        assert LookedWell(w, w.pending[u]);
      }
    case Abort(_) =>
      forall u | u in Make(w, m).pending ensures LookedWell(Make(w, m), w.pending[u]) {
        assert LookedWell(w, w.pending[u]);
      }
  }

  /** The halts a transaction would have reused are those in the way of what it writes. */
  lemma {:induction false} RivalsShareScope(h: Halt, p: Pending, day: nat)
    requires WellScoped(h)
    ensures Rivals(h, p) <==> SameScope(h, Wanted(p, day))
  {}

  lemma {:induction false} WriteKeepsOneIff(w: World, m: Move)
    requires Sound(w) && OnePerScope(w.s.halts) && m.Write?
    ensures OnePerScope(Make(w, m).s.halts) <==> !Stale(w, m)
  {
    if m.t in w.pending {
      var p, halts := w.pending[m.t], w.s.halts;
      var h := Wanted(p, w.s.day);
      assert LookedWell(w, p);
      forall k | 0 <= k < |halts| ensures Rivals(halts[k], p) <==> SameScope(halts[k], h) {
        RivalsShareScope(halts[k], p, w.s.day);
      }
      hide SameScope, Rivals;
      var after := Make(w, m).s.halts;
      assert after == halts + [h];
      if Stale(w, m) {
        var k :| p.since <= k < |halts| && Rivals(halts[k], p);
        assert SameScope(after[k], after[|halts|]);
      }
    }
  }

  lemma {:induction false} MoveKeepsOneIff(w: World, m: Move)
    requires Sound(w) && OnePerScope(w.s.halts)
    ensures OnePerScope(Make(w, m).s.halts) <==> !Stale(w, m)
  {
    match m
    case Write(_) => WriteKeepsOneIff(w, m);
    case Whole(step) =>
      RestOnlyReleases(w.s, step);
      hide OnlyReleases, Rest, OnePerScope;
      ReleasesKeepOne(w.s.halts, Rest(w.s, step).halts);
    case _ =>
  }

  ghost predicate AlwaysOne(w: World, moves: seq<Move>) {
    forall n :: 0 <= n <= |moves| ==> OnePerScope(MakeAll(w, moves[..n]).s.halts)
  }

  ghost predicate NeverStale(w: World, moves: seq<Move>) {
    forall n :: 0 <= n < |moves| ==> !Stale(MakeAll(w, moves[..n]), moves[n])
  }

  lemma {:induction false} AlwaysOneFront(w: World, moves: seq<Move>)
    requires moves != []
    ensures var front := moves[..|moves| - 1];
      AlwaysOne(w, moves) <==> AlwaysOne(w, front) && OnePerScope(MakeAll(w, moves).s.halts)
  {
    hide OnePerScope, MakeAll;
    var front := moves[..|moves| - 1];
    assert moves[..|moves|] == moves;
    forall n | 0 <= n <= |front| ensures front[..n] == moves[..n] {}
    if AlwaysOne(w, moves) {
      forall n | 0 <= n <= |front| ensures OnePerScope(MakeAll(w, front[..n]).s.halts) {
        assert OnePerScope(MakeAll(w, moves[..n]).s.halts);
      }
    } else {
      var n :| 0 <= n <= |moves| && !OnePerScope(MakeAll(w, moves[..n]).s.halts);
      if n <= |front| {
        assert !OnePerScope(MakeAll(w, front[..n]).s.halts);
      }
    }
  }

  lemma {:induction false} NeverStaleFront(w: World, moves: seq<Move>)
    requires moves != []
    ensures var k := |moves| - 1;
      NeverStale(w, moves) <==> NeverStale(w, moves[..k]) && !Stale(MakeAll(w, moves[..k]), moves[k])
  {
    hide Stale, MakeAll;
    var k := |moves| - 1;
    var front := moves[..k];
    forall n | 0 <= n < k ensures front[..n] == moves[..n] && front[n] == moves[n] {}
    if NeverStale(w, moves) {
      forall n | 0 <= n < k ensures !Stale(MakeAll(w, front[..n]), front[n]) {
        assert !Stale(MakeAll(w, moves[..n]), moves[n]);
      }
    } else {
      var n :| 0 <= n < |moves| && Stale(MakeAll(w, moves[..n]), moves[n]);
      if n < k {
        assert Stale(MakeAll(w, front[..n]), front[n]);
      }
    }
  }

  lemma {:induction false} RunIsSound(w: World, moves: seq<Move>)
    requires Sound(w)
    ensures Sound(MakeAll(w, moves))
  {
    hide Make, Sound;
    if moves != [] {
      RunIsSound(w, moves[..|moves| - 1]);
      MoveIsSound(MakeAll(w, moves[..|moves| - 1]), moves[|moves| - 1]);
    }
  }

  lemma {:induction false} StartIsSound(s: State)
    requires OnePerScope(s.halts)
    ensures Sound(World(s, map[]))
  {}

  /** Exactly when the code keeps one active halt per scope: throughout a run there is never more than one
      if and only if no transaction that found none writes after another halt of its scope was committed
      behind its look. */
  lemma {:induction false} OnePerScopeIffNeverStale(s: State, moves: seq<Move>)
    requires OnePerScope(s.halts)
    ensures AlwaysOne(World(s, map[]), moves) <==> NeverStale(World(s, map[]), moves)
  {
    var w := World(s, map[]);
    if moves == [] {
      assert forall n :: 0 <= n <= |moves| ==> moves[..n] == [];
    } else {
      hide OnePerScope, Make, MakeAll, Sound, Stale, AlwaysOne, NeverStale;
      var front := moves[..|moves| - 1];
      OnePerScopeIffNeverStale(s, front);
      AlwaysOneFront(w, moves);
      NeverStaleFront(w, moves);
      if AlwaysOne(w, front) {
        LastOne(w, front);
        StartIsSound(s);
        RunIsSound(w, front);
        MoveKeepsOneIff(MakeAll(w, front), moves[|moves| - 1]);
        LastMove(w, moves);
      }
    }
  }

  lemma {:induction false} LastOne(w: World, moves: seq<Move>)
    requires AlwaysOne(w, moves)
    ensures OnePerScope(MakeAll(w, moves).s.halts)
  {
    assert moves[..|moves|] == moves;
    hide OnePerScope, MakeAll;
  }

  lemma {:induction false} LastMove(w: World, moves: seq<Move>)
    requires moves != []
    ensures MakeAll(w, moves) == Make(MakeAll(w, moves[..|moves| - 1]), moves[|moves| - 1])
  {}

  // ----- one after the other, and at once -----

  /** A transaction that writes right after it looked is the whole trigger of `KillSwitch`. */
  lemma {:induction false} UndisturbedIsTrigger(w: World, t: nat, level: Level, user: Option<nat>, strategy: Option<nat>, auto: bool)
    requires t !in w.pending
    ensures Make(Make(w, Look(t, level, user, strategy, auto)), Write(t)) == World(Do(w.s, Trigger(level, user, strategy, auto)), w.pending)
  {
    hide FirstInScope;
    if FirstInScope(w.s.halts, level, user, strategy).None? {
      assert w.pending[t := Pending(level, user, strategy, auto, |w.s.halts|)] - {t} == w.pending;
    }
  }

  /** The row lock covers only rows that exist: two triggers of a free scope that both look before either
      writes leave two active halts, the second write being stale; and releasing one of them leaves the
      user blocked. */
  lemma {:induction false} RacingTriggersDuplicate(s: State, user: nat)
    requires FirstInScope(s.halts, L1, Some(user), None).None?
    ensures var w := World(s, map[]);
      var moves := [Look(1, L1, Some(user), None, false), Look(2, L1, Some(user), None, false), Write(1), Write(2)];
      var after := MakeAll(w, moves).s;
      && !NeverStale(w, moves)
      && after.halts == s.halts + [NewHalt(L1, Some(user), None, false, s.day), NewHalt(L1, Some(user), None, false, s.day)]
      && !OnePerScope(after.halts)
      && BlockReason(Released(after.halts, |s.halts|, s.day), user, None).Some?
  {
    var w := World(s, map[]);
    var a, b := Look(1, L1, Some(user), None, false), Look(2, L1, Some(user), None, false);
    var h := NewHalt(L1, Some(user), None, false, s.day);
    var p := Pending(L1, Some(user), None, false, |s.halts|);
    var moves := [a, b, Write(1), Write(2)];
    var w1, w2, w3 := Make(w, a), Make(Make(w, a), b), Make(Make(Make(w, a), b), Write(1));
    assert w1.pending == map[1 := p] && w1.s == s;
    assert w2.pending == map[1 := p, 2 := p] && w2.s == s;
    assert w3.pending == map[2 := p] && w3.s.halts == s.halts + [h];
    FourMoves(w, a, b, Write(1), Write(2));
    var both := s.halts + [h, h];
    assert s.halts + [h] + [h] == both;
    assert Make(w3, Write(2)).s.halts == both;
    assert Rivals(w3.s.halts[|s.halts|], p);
    assert Stale(w3, Write(2));
    assert moves[..3] == [a, b, Write(1)] && moves[3] == Write(2);
    assert both[|s.halts|] == h && both[|s.halts| + 1] == h && SameScope(both[|s.halts|], both[|s.halts| + 1]);
    hide Make, MakeAll, Stale;
    StillBlocked(s.halts, user, s.day);
  }

  lemma {:induction false} OneMoreMove(w: World, moves: seq<Move>, m: Move)
    ensures MakeAll(w, moves + [m]) == Make(MakeAll(w, moves), m)
  {
    assert (moves + [m])[..|moves|] == moves;
    hide Make;
  }

  lemma {:induction false} FourMoves(w: World, a: Move, b: Move, c: Move, d: Move)
    ensures MakeAll(w, [a, b, c]) == Make(Make(Make(w, a), b), c)
    ensures MakeAll(w, [a, b, c, d]) == Make(Make(Make(Make(w, a), b), c), d)
  {
    hide Make;
    OneMoreMove(w, [], a);
    OneMoreMove(w, [a], b);
    OneMoreMove(w, [a, b], c);
    OneMoreMove(w, [a, b, c], d);
    assert [] + [a] == [a] && [a] + [b] == [a, b] && [a, b] + [c] == [a, b, c] && [a, b, c] + [d] == [a, b, c, d];
  }

  lemma {:induction false} StillBlocked(halts: seq<Halt>, user: nat, day: nat)
    ensures var h := NewHalt(L1, Some(user), None, false, day);
      BlockReason(Released(halts + [h, h], |halts|, day), user, None).Some?
  {
    var h := NewHalt(L1, Some(user), None, false, day);
    var both := halts + [h, h];
    var after := Released(both, |halts|, day);
    assert after[|halts| + 1] == h && Covers(h, user, None);
    BlockedIffCovered(after, user, None);
  }

  // ----- the daily-loss halt holds through overlapping transactions too -----

  lemma {:induction false} MoveDayGrows(w: World, m: Move)
    ensures Make(w, m).s.day >= w.s.day
  {
    if m.Whole? {
      StepDayGrows(w.s, m.step);
    }
    hide Checked, Swept, Released, Triggered, FirstInScope;
  }

  lemma {:induction false} DaysOnlyGrow(w: World, moves: seq<Move>)
    ensures MakeAll(w, moves).s.day >= w.s.day
  {
    hide Make;
    if moves != [] {
      DaysOnlyGrow(w, moves[..|moves| - 1]);
      MoveDayGrows(MakeAll(w, moves[..|moves| - 1]), moves[|moves| - 1]);
    }
  }

  lemma {:induction false} MoveKeepsLocked(w: World, m: Move, k: nat)
    requires k < |w.s.halts| && w.s.halts[k].active && Locked(w.s.halts[k], w.s.day) && Make(w, m).s.day == w.s.day
    ensures k < |Make(w, m).s.halts| && Make(w, m).s.halts[k] == w.s.halts[k]
  {
    if m.Whole? && !m.step.Check? && !m.step.Trigger? {
      LockedHaltStays(w.s, m.step, k);
    }
    hide Checked, Swept, Released, FirstInScope;
  }

  /** An automatic daily-loss halt made today blocks every strategy of its user, however triggers, releases,
      sweeps and polls overlap, for as long as the trading day lasts. */
  lemma {:induction false} DailyLossHaltHoldsThroughout(w: World, moves: seq<Move>, k: nat, user: nat, strategy: Option<nat>)
    requires k < |w.s.halts| && Tripped(w.s.halts[k], user) && w.s.halts[k].strategy.None? && w.s.halts[k].day == w.s.day
    requires MakeAll(w, moves).s.day == w.s.day
    ensures var after := MakeAll(w, moves).s;
      && k < |after.halts| && after.halts[k] == w.s.halts[k]
      && BlockReason(after.halts, user, strategy).Some?
  {
    var after := MakeAll(w, moves).s;
    if moves != [] {
      var front := moves[..|moves| - 1];
      DaysOnlyGrow(w, front);
      MoveDayGrows(MakeAll(w, front), moves[|moves| - 1]);
      DailyLossHaltHoldsThroughout(w, front, k, user, strategy);
      MoveKeepsLocked(MakeAll(w, front), moves[|moves| - 1], k);
    }
    hide Make;
    assert Covers(after.halts[k], user, strategy);
    BlockedIffCovered(after.halts, user, strategy);
  }
}
