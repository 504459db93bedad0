/** Writers and verifier of the audit log (`audit/services.py`, `audit/verifier.py`) as concurrent steps
    under a lock that lasts to commit. */
module AuditEmit {
  import opened Prelude
  import opened AuditChain

  // ----- the verifier's walk -----

  function Walk(rows: seq<Row>, startId: nat, start: Hash): (v: Verdict)
    ensures Judges(rows, startId, start, v)
  {
    if rows == [] then Verdict(0, startId, start, None)
    else
      var k := |rows| - 1;
      var v := Walk(rows[..k], startId, start);
      WalkStep(rows, startId, start, v);
      if !v.Ok() then v
      else if rows[k].prevHash != v.lastHash then v.(failed := Some((rows[k].id, LinkageBreak)))
      else if !Hashed(rows[k]) then v.(failed := Some((rows[k].id, HashMismatch)))
      else Verdict(v.checked + 1, rows[k].id, rows[k].selfHash, None)
  }

  lemma {:induction false} WalkStep(rows: seq<Row>, startId: nat, start: Hash, v: Verdict)
    requires rows != [] && Judges(rows[..|rows| - 1], startId, start, v)
    ensures !v.Ok() ==> Judges(rows, startId, start, v)
    ensures v.Ok() ==>
      var k := |rows| - 1;
      && (rows[k].prevHash != v.lastHash ==> Judges(rows, startId, start, v.(failed := Some((rows[k].id, LinkageBreak)))))
      && (rows[k].prevHash == v.lastHash && !Hashed(rows[k]) ==>
            Judges(rows, startId, start, v.(failed := Some((rows[k].id, HashMismatch)))))
      && (rows[k].prevHash == v.lastHash && Hashed(rows[k]) ==>
            Judges(rows, startId, start, Verdict(v.checked + 1, rows[k].id, rows[k].selfHash, None)))
  {
    var k := |rows| - 1;
    var front := rows[..k];
    assert front[..v.checked] == rows[..v.checked];
    if v.Ok() {
      assert rows == front + [rows[k]] && rows[..k + 1] == rows && front[..k] == front;
      ChainedSnoc(start, front, rows[k]);
    }
    hide Chained, Hashed;
  }

  // ----- the protocol -----

  /** Rows inserted and not yet committed, and the head read for the row being written. */
  datatype Txn = Txn(own: seq<Row>, head: Option<Hash>)

  const IDLE := Txn([], None)

  datatype Cursor = Cursor(lastId: nat, lastHash: Hash)

  const NO_CURSOR := Cursor(0, Stored(""))

  datatype World = World(log: seq<Row>, nextId: nat, holder: Option<nat>, txns: map<nat, Txn>, cursor: Cursor)

  /** `ok` is whether the insert itself goes through; the linkage trigger decides besides. */
  datatype Step =
    | Lock(t: nat)
    | ReadHead(t: nat)
    | Insert(t: nat, fields: Fields, ok: bool)
    | Commit(t: nat)
    | Abort(t: nat)
    | Verify(triggersUp: bool)

  function At(w: World, t: nat): Txn {
    if t in w.txns then w.txns[t] else IDLE
  }

  /** What transaction `t` sees: the committed rows and its own. */
  function Visible(w: World, t: nat): seq<Row> {
    w.log + At(w, t).own
  }

  function HeadOf(rows: seq<Row>): Hash {
    OrGenesis(HeadAfter(Genesis, rows))
  }

  /** The insert trigger: the new row must point at the head it finds. */
  predicate TriggerAccepts(rows: seq<Row>, row: Row) {
    row.prevHash == HeadAfter(Genesis, rows)
  }

  function NewRow(id: nat, head: Hash, fields: Fields): Row {
    Row(id, fields, head, SelfHash(head, fields))
  }

  function Release(w: World, t: nat): Option<nat> {
    if w.holder == Some(t) then None else w.holder
  }

  function Advanced(log: seq<Row>, c: Cursor, triggersUp: bool): Cursor {
    var v := Walk(Later(log, c.lastId), c.lastId, OrGenesis(c.lastHash));
    if v.Ok() && triggersUp then Cursor(v.lastId, v.lastHash) else c
  }

  /** A step that is not enabled changes nothing. A failed insert rolls back to the emitter's savepoint, which
      gives the lock back if this transaction had not written a row before. */
  function Do(w: World, s: Step): World {
    match s
    case Lock(t) => if w.holder.None? then w.(holder := Some(t)) else w
    case ReadHead(t) =>
      if w.holder == Some(t) then w.(txns := w.txns[t := At(w, t).(head := Some(HeadOf(Visible(w, t))))]) else w
    case Insert(t, fields, ok) =>
      var a := At(w, t);
      if a.head.None? then w
      else
        var row := NewRow(w.nextId, a.head.value, fields);
        if ok && TriggerAccepts(Visible(w, t), row) then
          w.(nextId := w.nextId + 1, txns := w.txns[t := Txn(a.own + [row], None)])
        else
          w.(nextId := w.nextId + 1, txns := w.txns[t := Txn(a.own, None)], holder := if a.own == [] then Release(w, t) else w.holder)
    case Commit(t) => w.(log := Visible(w, t), txns := w.txns[t := IDLE], holder := Release(w, t))
    case Abort(t) => w.(txns := w.txns[t := IDLE], holder := Release(w, t))
    case Verify(triggersUp) => w.(cursor := Advanced(w.log, w.cursor, triggersUp))
  }

  function DoAll(w: World, steps: seq<Step>): World {
    if steps == [] then w else Do(DoAll(w, steps[..|steps| - 1]), steps[|steps| - 1])
  }

  const START := World([], 1, None, map[], NO_CURSOR)

  /** One linear chain from genesis, numbered below `nextId`. */
  ghost predicate Sound(rows: seq<Row>, nextId: nat) {
    && Chained(Genesis, rows) && Numbered(rows)
    && forall k :: 0 <= k < |rows| ==> rows[k].id < nextId
  }

  /** The cursor names the last of the first `n` rows, and its hash. */
  ghost predicate Names(log: seq<Row>, c: Cursor, n: nat) {
    n <= |log| && c.lastId == LastId(log[..n]) && OrGenesis(c.lastHash) == HeadAfter(Genesis, log[..n])
  }

  ghost predicate CursorInv(log: seq<Row>, c: Cursor) {
    exists n: nat :: Names(log, c, n)
  }

  ghost predicate Inv(w: World) {
    && w.nextId > 0
    && Sound(w.log, w.nextId)
    && CursorInv(w.log, w.cursor)
    && (forall t :: t in w.txns && w.txns[t] != IDLE ==> w.holder == Some(t))
    && (w.holder.Some? ==>
          var t := w.holder.value;
          && Sound(Visible(w, t), w.nextId)
          && (At(w, t).head.Some? ==> At(w, t).head.value == HeadAfter(Genesis, Visible(w, t))))
  }

  lemma {:induction false} HeadIsNode(rows: seq<Row>)
    requires Chained(Genesis, rows)
    ensures HeadOf(rows) == HeadAfter(Genesis, rows)
  {
    if rows != [] {
      assert Hashed(rows[|rows| - 1]);
    }
  }

  lemma {:induction false} SoundSnoc(rows: seq<Row>, nextId: nat, fields: Fields)
    requires Sound(rows, nextId) && nextId > 0
    ensures Sound(rows + [NewRow(nextId, HeadAfter(Genesis, rows), fields)], nextId + 1)
  {
    ChainedSnoc(Genesis, rows, NewRow(nextId, HeadAfter(Genesis, rows), fields));
    hide Chained;
  }

  lemma {:induction false} NamesLonger(log: seq<Row>, more: seq<Row>, c: Cursor)
    requires CursorInv(log, c)
    ensures CursorInv(log + more, c)
  {
    var n: nat :| Names(log, c, n);
    assert (log + more)[..n] == log[..n];
    assert Names(log + more, c, n);
  }

  lemma {:induction false} InsertKeeps(w: World, t: nat, fields: Fields, ok: bool)
    requires Inv(w)
    ensures Inv(Do(w, Insert(t, fields, ok)))
  {
    var a := At(w, t);
    if a.head.Some? {
      assert w.holder == Some(t) && a.head.value == HeadAfter(Genesis, Visible(w, t));
      var row := NewRow(w.nextId, a.head.value, fields);
      SoundSnoc(Visible(w, t), w.nextId, fields);
      assert w.log + (a.own + [row]) == Visible(w, t) + [row];
      hide Chained, Numbered, CursorInv, NewRow, HeadAfter;
      SoundNext(w.log, w.nextId);
      SoundNext(Visible(w, t), w.nextId);
      hide Sound;
    }
  }

  lemma {:induction false} SoundNext(rows: seq<Row>, nextId: nat)
    requires Sound(rows, nextId)
    ensures Sound(rows, nextId + 1)
  {
    hide Chained, Numbered;
  }

  lemma {:induction false} LockKeeps(w: World, t: nat)
    requires Inv(w)
    ensures Inv(Do(w, Lock(t)))
  {
    if w.holder.None? {
      assert At(w, t) == IDLE && Visible(w, t) == w.log;
    }
    hide Sound, CursorInv, HeadAfter;
  }

  lemma {:induction false} HeadKeeps(w: World, t: nat)
    requires Inv(w)
    ensures Inv(Do(w, ReadHead(t)))
  {
    if w.holder == Some(t) {
      assert Sound(Visible(w, t), w.nextId);
      HeadIsNode(Visible(w, t));
    }
    hide Sound, CursorInv, HeadAfter, HeadOf;
  }

  lemma {:induction false} EndKeeps(w: World, s: Step)
    requires Inv(w) && (s.Commit? || s.Abort?)
    ensures Inv(Do(w, s))
  {
    var t, after := s.t, Do(w, s);
    if w.holder != Some(t) {
      assert At(w, t) == IDLE && Visible(w, t) == w.log;
    }
    NamesLonger(w.log, At(w, t).own, w.cursor);
    if after.holder.Some? {
      assert At(after, after.holder.value) == At(w, after.holder.value);
    }
    hide Chained, Numbered, CursorInv;
  }

  /** On an untampered log the walk from a cursor approves, and ends at the last row. */
  lemma {:induction false} WalkApproves(log: seq<Row>, c: Cursor, nextId: nat)
    requires Sound(log, nextId) && CursorInv(log, c)
    ensures var v := Walk(Later(log, c.lastId), c.lastId, OrGenesis(c.lastHash));
      v.Ok() && Names(log, Cursor(v.lastId, v.lastHash), |log|)
  {
    var n: nat :| Names(log, c, n);
    var done, rest := log[..n], log[n..];
    assert log == done + rest && LastId(done) == c.lastId && OrGenesis(c.lastHash) == HeadAfter(Genesis, done);
    hide *;
    SoundSplit(done, rest, nextId);
    LaterRows(done, rest);
    WalkEnds(done, rest, Walk(rest, c.lastId, OrGenesis(c.lastHash)));
  }

  lemma {:induction false} SoundSplit(done: seq<Row>, rest: seq<Row>, nextId: nat)
    requires Sound(done + rest, nextId)
    ensures Numbered(done + rest) && Chained(Genesis, done + rest) && Chained(Genesis, done) && Chained(HeadAfter(Genesis, done), rest)
  {
    ChainedPrefix(Genesis, done + rest, |done|);
    assert (done + rest)[..|done|] == done;
    ChainedConcat(Genesis, done, rest);
    hide Chained;
  }

  lemma {:induction false} WalkEnds(done: seq<Row>, rest: seq<Row>, v: Verdict)
    requires Chained(Genesis, done + rest) && Chained(HeadAfter(Genesis, done), rest)
    requires Judges(rest, LastId(done), HeadAfter(Genesis, done), v)
    ensures v.Ok() && Names(done + rest, Cursor(v.lastId, v.lastHash), |done + rest|)
  {
    ApprovesExactlyChains(rest, LastId(done), HeadAfter(Genesis, done), v);
    HeadConcat(Genesis, done, rest);
    HeadIsNode(done + rest);
    var rows := done + rest;
    assert rest[..|rest|] == rest && rows[..|rows|] == rows;
    hide Chained;
  }

  lemma {:induction false} VerifyKeeps(w: World, triggersUp: bool)
    requires Inv(w)
    ensures Inv(Do(w, Verify(triggersUp)))
  {
    WalkApproves(w.log, w.cursor, w.nextId);
    hide Chained, Numbered, Later, Walk, Names;
  }

  lemma {:induction false} StepKeeps(w: World, s: Step)
    requires Inv(w)
    ensures Inv(Do(w, s))
  {
    hide *;
    match s
    case Lock(t) => LockKeeps(w, t);
    case ReadHead(t) => HeadKeeps(w, t);
    case Insert(t, fields, ok) => InsertKeeps(w, t, fields, ok);
    case Commit(_) => EndKeeps(w, s);
    case Abort(_) => EndKeeps(w, s);
    case Verify(triggersUp) => VerifyKeeps(w, triggersUp);
  }

  lemma {:induction false} StartSound()
    ensures Inv(START)
  {
    assert Names([], NO_CURSOR, 0);
  }

  /** Under every interleaving of emitters, with failed inserts rolled back and verifier runs in between,
      the committed log is one linear chain from genesis, numbered in commit order. */
  lemma {:induction false} LogStaysLinear(steps: seq<Step>)
    ensures Inv(DoAll(START, steps))
  {
    hide Inv, Do;
    if steps == [] {
      StartSound();
    } else {
      LogStaysLinear(steps[..|steps| - 1]);
      StepKeeps(DoAll(START, steps[..|steps| - 1]), steps[|steps| - 1]);
    }
  }

  /** The lock makes the linkage trigger a backstop that never fires: the head an emitter read is still the
      head when it inserts. */
  lemma {:induction false} TriggerNeverRejects(steps: seq<Step>, t: nat, fields: Fields)
    ensures var w := DoAll(START, steps);
      At(w, t).head.Some? ==> TriggerAccepts(Visible(w, t), NewRow(w.nextId, At(w, t).head.value, fields))
  {
    LogStaysLinear(steps);
    hide DoAll, Sound, CursorInv;
  }

  /** In every untampered run the cursor names a row of the chain and its hash, and the walk resumed from it
      reaches the same verdict as the walk over the whole log: approval, ending at the last row. */
  lemma {:induction false} ResumeEqualsFullWalk(steps: seq<Step>)
    ensures var w := DoAll(START, steps);
      var resumed := Walk(Later(w.log, w.cursor.lastId), w.cursor.lastId, OrGenesis(w.cursor.lastHash));
      var full := Walk(Later(w.log, 0), 0, Genesis);
      && CursorInv(w.log, w.cursor)
      && resumed.Ok() && full.Ok() && resumed.lastId == full.lastId && resumed.lastHash == full.lastHash
  {
    LogStaysLinear(steps);
    var w := DoAll(START, steps);
    assert Names(w.log, NO_CURSOR, 0);
    WalkApproves(w.log, w.cursor, w.nextId);
    WalkApproves(w.log, NO_CURSOR, w.nextId);
    var resumed := Walk(Later(w.log, w.cursor.lastId), w.cursor.lastId, OrGenesis(w.cursor.lastHash));
    var full := Walk(Later(w.log, 0), 0, Genesis);
    hide DoAll, Sound, Walk, Later;
    NodeOrGenesis(w.log, resumed, full);
  }

  lemma {:induction false} NodeOrGenesis(log: seq<Row>, a: Verdict, b: Verdict)
    requires Names(log, Cursor(a.lastId, a.lastHash), |log|) && Names(log, Cursor(b.lastId, b.lastHash), |log|)
    ensures a.lastId == b.lastId && OrGenesis(a.lastHash) == OrGenesis(b.lastHash)
  {}
}
