/** The audit writer and the nightly verifier as they run one after the other (`audit/services.py`,
    `audit/verifier.py`). */
module AuditVerifier {
  import opened Prelude
  import opened AuditChain
  import opened AuditEmit

  /** Walks forward from `startId`, recomputing linkage and hashes. */
  method VerifyChain(rows: seq<Row>, startId: nat, startPrevHash: Hash) returns (v: Verdict)
    ensures v == Walk(Later(rows, startId), startId, OrGenesis(startPrevHash))
    ensures Judges(Later(rows, startId), startId, OrGenesis(startPrevHash), v)
    ensures v.Ok() <==> Chained(OrGenesis(startPrevHash), Later(rows, startId))
  {
    hide Judges, Chained, Later;
    var todo := Later(rows, startId);
    var prevHash, lastId, checked := OrGenesis(startPrevHash), startId, 0;
    ghost var start := prevHash;
    while checked < |todo|
      invariant 0 <= checked <= |todo|
      invariant Walk(todo[..checked], startId, start) == Verdict(checked, lastId, prevHash, None)
    {
      var row := todo[checked];
      assert todo[..checked + 1][..checked] == todo[..checked];
      if row.prevHash != prevHash {
        v := Verdict(checked, lastId, prevHash, Some((row.id, LinkageBreak)));
        FaultIsFinal(todo, startId, start, checked + 1);
        VerdictJudged(todo, startId, start, v);
        return;
      }
      if SelfHash(prevHash, row.fields) != row.selfHash {
        v := Verdict(checked, lastId, prevHash, Some((row.id, HashMismatch)));
        FaultIsFinal(todo, startId, start, checked + 1);
        VerdictJudged(todo, startId, start, v);
        return;
      }
      prevHash, lastId, checked := row.selfHash, row.id, checked + 1;
    }
    assert todo[..|todo|] == todo;
    v := Verdict(checked, lastId, prevHash, None);
    VerdictJudged(todo, startId, start, v);
  }

  lemma {:induction false} VerdictJudged(rows: seq<Row>, startId: nat, start: Hash, v: Verdict)
    requires v == Walk(rows, startId, start)
    ensures Judges(rows, startId, start, v) && (v.Ok() <==> Chained(start, rows))
  {
    hide Chained, Walk;
    ApprovesExactlyChains(rows, startId, start, v);
  }

  /** Rows after the first fault do not matter. */
  lemma {:induction false} FaultIsFinal(rows: seq<Row>, startId: nat, start: Hash, n: nat)
    requires n <= |rows| && !Walk(rows[..n], startId, start).Ok()
    ensures Walk(rows, startId, start) == Walk(rows[..n], startId, start)
  {
    if n == |rows| {
      assert rows[..n] == rows;
    } else {
      var front := rows[..|rows| - 1];
      assert front[..n] == rows[..n];
      FaultIsFinal(front, startId, start, n);
    }
  }

  /** One emitted row, in a transaction of its own, or none when the insert fails. */
  function Emitted(rows: seq<Row>, nextId: nat, fields: Fields, ok: bool): Option<Row> {
    var row := NewRow(nextId, HeadOf(rows), fields);
    if ok && TriggerAccepts(rows, row) then Some(row) else None
  }

  function WithRow(rows: seq<Row>, row: Option<Row>): seq<Row> {
    if row.Some? then rows + [row.value] else rows
  }

  class AuditLog {
    var rows: seq<Row>
    var nextId: nat

    constructor ()
      ensures rows == [] && nextId == 1
    {
      rows, nextId := [], 1;
    }

    method Emit(fields: Fields, ok: bool) returns (row: Option<Row>)
      modifies this
      ensures row == Emitted(old(rows), old(nextId), fields, ok)
      ensures rows == WithRow(old(rows), row) && nextId == old(nextId) + 1
      ensures row.Some? ==> row.value.fields == fields && row.value.id == old(nextId)
      ensures row.Some? ==> row.value.prevHash == (if old(rows) == [] then Genesis else old(rows)[|old(rows)| - 1].selfHash)
      ensures Sound(old(rows), old(nextId)) && old(nextId) > 0 ==> Sound(rows, nextId) && (ok ==> row.Some?)
    {
      var head := if rows == [] then Genesis else OrGenesis(rows[|rows| - 1].selfHash);
      var candidate := NewRow(nextId, head, fields);
      EmitKeepsSound(rows, nextId, fields, ok);
      nextId := nextId + 1;
      if !ok || candidate.prevHash != (if rows == [] then Genesis else rows[|rows| - 1].selfHash) {
        return None;
      }
      rows := rows + [candidate];
      row := Some(candidate);
    }
  }

  lemma {:induction false} EmitKeepsSound(rows: seq<Row>, nextId: nat, fields: Fields, ok: bool)
    ensures Sound(rows, nextId) && nextId > 0 ==>
      Sound(WithRow(rows, Emitted(rows, nextId, fields, ok)), nextId + 1) && (ok ==> Emitted(rows, nextId, fields, ok).Some?)
  {
    if Sound(rows, nextId) && nextId > 0 {
      HeadIsNode(rows);
      SoundSnoc(rows, nextId, fields);
    }
    hide Chained;
  }

  /** An emit that nobody disturbs is a run of the protocol. */
  lemma {:induction false} EmitIsSteps(w: World, t: nat, fields: Fields, ok: bool)
    requires w.holder.None? && At(w, t) == IDLE
    ensures var after := DoAll(w, [Lock(t), ReadHead(t), Insert(t, fields, ok), Commit(t)]);
      && after.log == WithRow(w.log, Emitted(w.log, w.nextId, fields, ok))
      && after.nextId == w.nextId + 1 && after.holder.None? && At(after, t) == IDLE && after.cursor == w.cursor
  {
    var a := Do(w, Lock(t));
    var b := Do(a, ReadHead(t));
    var c := Do(b, Insert(t, fields, ok));
    var steps := [Lock(t), ReadHead(t), Insert(t, fields, ok), Commit(t)];
    assert DoAll(w, []) == w;
    assert steps[..3][..2][..1][..0] == [] && steps[..1] == [Lock(t)] && steps[..3][..2] == steps[..2] && steps[..2][..1] == steps[..1];
    assert Visible(a, t) == w.log && Visible(b, t) == w.log;
    hide Do;
    assert DoAll(w, steps[..1]) == a;
    assert DoAll(w, steps[..2]) == b;
    assert DoAll(w, steps[..3]) == c;
    assert DoAll(w, steps) == Do(c, Commit(t));
  }

  class Verifier {
    const log: AuditLog
    var cursor: Cursor

    constructor (log: AuditLog)
      ensures this.log == log && cursor == NO_CURSOR
    {
      this.log, cursor := log, NO_CURSOR;
    }

    /** The cursor advances only on success; either way one report row is emitted. */
    method RunVerifier(triggersUp: bool, report: Fields, ok: bool) returns (v: Verdict)
      modifies this, log
      ensures v == Walk(Later(old(log.rows), old(cursor.lastId)), old(cursor.lastId), OrGenesis(old(cursor.lastHash)))
      ensures cursor == Advanced(old(log.rows), old(cursor), triggersUp)
      ensures log.rows == WithRow(old(log.rows), Emitted(old(log.rows), old(log.nextId), report, ok))
    {
      v := VerifyChain(log.rows, cursor.lastId, cursor.lastHash);
      if v.Ok() && triggersUp {
        cursor := Cursor(v.lastId, v.lastHash);
      }
      var _ := log.Emit(report, ok);
    }
  }
}
