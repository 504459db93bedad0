/** The audit hash chain (`audit/hashing.py`, `audit/verifier.py`), with the hash as a free constructor:
    what verifies, and what that proves. */
module AuditChain {
  import opened Prelude

  /** The columns of a row that enter its hash; the two diffs are texts in normal form. */
  datatype Fields = Fields(
    occurredAt: string, userId: Option<string>, actorId: Option<string>, eventType: string, entityType: string,
    entityId: string, before: Option<string>, after: Option<string>, ip: Option<string>, ua: string)

  /** Different inputs have different hashes, and none is its own ancestor. Genesis is sixty-four zeros;
      `Stored` is any other text that a hash column may hold. */
  datatype Hash = Genesis | Node(prev: Hash, payload: Fields) | Stored(text: string)

  datatype Row = Row(id: nat, fields: Fields, prevHash: Hash, selfHash: Hash)

  /** What is hashed: an empty address counts as none. */
  function Canonical(f: Fields): Fields {
    f.(ip := if f.ip == Some("") then None else f.ip)
  }

  function SelfHash(prev: Hash, f: Fields): Hash {
    Node(prev, Canonical(f))
  }

  /** A missing or empty stored hash stands for genesis. */
  function OrGenesis(h: Hash): Hash {
    if h == Stored("") then Genesis else h
  }

  function HeadAfter(start: Hash, rows: seq<Row>): Hash {
    if rows == [] then start else rows[|rows| - 1].selfHash
  }

  /** Row `k` continues the chain and carries its own hash. */
  predicate Linked(start: Hash, rows: seq<Row>, k: nat)
    requires k < |rows|
  {
    rows[k].prevHash == HeadAfter(start, rows[..k])
  }

  predicate Hashed(row: Row) {
    row.selfHash == SelfHash(row.prevHash, row.fields)
  }

  ghost predicate Chained(start: Hash, rows: seq<Row>) {
    forall k :: 0 <= k < |rows| ==> Linked(start, rows, k) && Hashed(rows[k])
  }

  ghost predicate Numbered(rows: seq<Row>) {
    && (forall j, k :: 0 <= j < k < |rows| ==> rows[j].id < rows[k].id)
    && (forall k :: 0 <= k < |rows| ==> rows[k].id > 0)
  }

  // ----- the walk -----

  datatype Fault = LinkageBreak | HashMismatch

  datatype Verdict = Verdict(checked: nat, lastId: nat, lastHash: Hash, failed: Option<(nat, Fault)>)
  {
    predicate Ok() {
      failed.None?
    }
  }

  function Later(rows: seq<Row>, startId: nat): (later: seq<Row>)
    ensures forall r :: r in later ==> r in rows && r.id > startId
  {
    if rows == [] then []
    else
      var k := |rows| - 1;
      Later(rows[..k], startId) + if rows[k].id > startId then [rows[k]] else []
  }

  /** The verdict says exactly how far the rows form a chain and what is wrong with the next one. */
  ghost predicate Judges(rows: seq<Row>, startId: nat, start: Hash, v: Verdict) {
    && v.checked <= |rows| && Chained(start, rows[..v.checked])
    && v.lastHash == HeadAfter(start, rows[..v.checked])
    && v.lastId == (if v.checked == 0 then startId else rows[v.checked - 1].id)
    && match v.failed
       case None => v.checked == |rows|
       case Some((id, fault)) =>
         && v.checked < |rows| && id == rows[v.checked].id
         && (fault == LinkageBreak <==> !Linked(start, rows, v.checked))
         && (fault == HashMismatch ==> !Hashed(rows[v.checked]))
  }

  lemma {:induction false} ChainedSnoc(start: Hash, rows: seq<Row>, row: Row)
    ensures Chained(start, rows + [row]) <==> Chained(start, rows) && row.prevHash == HeadAfter(start, rows) && Hashed(row)
  {
    var longer := rows + [row];
    assert longer[..|rows|] == rows;
    forall k | 0 <= k < |rows| ensures longer[k] == rows[k] && longer[..k] == rows[..k] {}
    if Chained(start, longer) {
      assert Linked(start, longer, |rows|);
      forall k | 0 <= k < |rows| ensures Linked(start, rows, k) && Hashed(rows[k]) {
        assert Linked(start, longer, k) && Hashed(longer[k]);
      }
    }
  }

  lemma {:induction false} ChainedPrefix(start: Hash, rows: seq<Row>, k: nat)
    requires Chained(start, rows) && k <= |rows|
    ensures Chained(start, rows[..k])
  {
    var front := rows[..k];
    forall j | 0 <= j < k ensures Linked(start, front, j) && Hashed(front[j]) {
      assert front[..j] == rows[..j];
      assert Linked(start, rows, j) && Hashed(rows[j]);
    }
  }

  /** A verdict is right: it approves exactly the chains. */
  lemma {:induction false} ApprovesExactlyChains(rows: seq<Row>, startId: nat, start: Hash, v: Verdict)
    requires Judges(rows, startId, start, v)
    ensures v.Ok() <==> Chained(start, rows)
  {
    assert rows[..|rows|] == rows;
    if !v.Ok() {
      assert !(Linked(start, rows, v.checked) && Hashed(rows[v.checked]));
    }
  }

  /** A verdict is unique. */
  lemma {:induction false} VerdictUnique(rows: seq<Row>, startId: nat, start: Hash, v: Verdict, w: Verdict)
    requires Judges(rows, startId, start, v) && Judges(rows, startId, start, w)
    ensures v == w
  {
    if v.checked < w.checked {
      StopsAtFault(rows, startId, start, v, w.checked);
    } else if w.checked < v.checked {
      StopsAtFault(rows, startId, start, w, v.checked);
    }
  }

  lemma {:induction false} StopsAtFault(rows: seq<Row>, startId: nat, start: Hash, v: Verdict, further: nat)
    requires Judges(rows, startId, start, v) && v.checked < further <= |rows|
    ensures !Chained(start, rows[..further])
  {
    var front, k := rows[..further], v.checked;
    assert front[..k] == rows[..k] && front[k] == rows[k];
    assert Linked(start, front, k) <==> Linked(start, rows, k);
  }

  // ----- tamper evidence -----

  predicate NoAddress(ip: Option<string>) {
    ip == None || ip == Some("")
  }

  /** The same in every column; only a missing and an empty address are not told apart. */
  predicate SameColumns(a: Fields, b: Fields) {
    && a.occurredAt == b.occurredAt && a.userId == b.userId && a.actorId == b.actorId
    && a.eventType == b.eventType && a.entityType == b.entityType && a.entityId == b.entityId
    && a.before == b.before && a.after == b.after && a.ua == b.ua
    && (a.ip == b.ip || (NoAddress(a.ip) && NoAddress(b.ip)))
  }

  predicate SameContent(a: Row, b: Row) {
    SameColumns(a.fields, b.fields) && a.prevHash == b.prevHash && a.selfHash == b.selfHash
  }

  /** Two rows that carry their own hash have the same hash exactly if they follow the same row and agree in
      every column. */
  lemma {:induction false} SameHashIffSameColumns(a: Row, b: Row)
    requires Hashed(a) && Hashed(b)
    ensures a.selfHash == b.selfHash <==> a.prevHash == b.prevHash && SameColumns(a.fields, b.fields)
  {}

  /** A row edited in any column, its own hash left alone, no longer carries that hash. */
  lemma {:induction false} EditShows(row: Row, fields: Fields)
    requires Hashed(row)
    ensures Hashed(row.(fields := fields)) <==> SameColumns(row.fields, fields)
  {}

  ghost predicate SameContents(a: seq<Row>, b: seq<Row>) {
    |a| == |b| && forall k :: 0 <= k < |a| ==> SameContent(a[k], b[k])
  }

  /** So verification of a chain in which one row was edited, hashes left alone, stops at that row with a hash
      mismatch. */
  lemma {:induction false} EditIsFound(rows: seq<Row>, k: nat, fields: Fields, startId: nat, start: Hash, v: Verdict)
    requires Chained(start, rows) && k < |rows| && !SameColumns(rows[k].fields, fields)
    requires Judges(rows[k := rows[k].(fields := fields)], startId, start, v)
    ensures v.checked == k && v.failed == Some((rows[k].id, HashMismatch))
  {
    var edited := rows[k := rows[k].(fields := fields)];
    assert Hashed(rows[k]) && Linked(start, rows, k);
    EditShows(rows[k], fields);
    assert edited[..k] == rows[..k];
    ChainedPrefix(start, rows, k);
    assert !Hashed(edited[k]) && Linked(start, edited, k);
    hide Chained, Hashed, Linked, SameColumns;
    var found := Verdict(k, if k == 0 then startId else edited[k - 1].id, HeadAfter(start, edited[..k]), Some((rows[k].id, HashMismatch)));
    assert Judges(edited, startId, start, found);
    VerdictUnique(edited, startId, start, v, found);
  }

  function Depth(h: Hash): nat {
    match h
    case Node(prev, _) => Depth(prev) + 1
    case _ => 0
  }

  lemma {:induction false} ChainDepth(rows: seq<Row>)
    requires Chained(Genesis, rows)
    ensures Depth(HeadAfter(Genesis, rows)) == |rows|
  {
    if rows != [] {
      var k := |rows| - 1;
      assert rows == rows[..k] + [rows[k]];
      ChainedSnoc(Genesis, rows[..k], rows[k]);
      ChainDepth(rows[..k]);
    }
  }

  /** Two tables that both verify from genesis and end in the same hash have the same hashed content, row by
      row. So whatever is edited, inserted, removed or moved before the head either breaks verification or
      changes the head. */
  lemma {:induction false} SameHeadSameHistory(a: seq<Row>, b: seq<Row>)
    requires Chained(Genesis, a) && Chained(Genesis, b)
    requires HeadAfter(Genesis, a) == HeadAfter(Genesis, b)
    ensures SameContents(a, b)
  {
    ChainDepth(a);
    ChainDepth(b);
    if a != [] {
      var k := |a| - 1;
      assert a == a[..k] + [a[k]] && b == b[..k] + [b[k]];
      ChainedSnoc(Genesis, a[..k], a[k]);
      ChainedSnoc(Genesis, b[..k], b[k]);
      SameHashIffSameColumns(a[k], b[k]);
      hide Chained, Canonical, Depth, SameColumns;
      SameHeadSameHistory(a[..k], b[..k]);
    }
  }

  lemma {:induction false} SameContentsChained(a: seq<Row>, b: seq<Row>)
    requires Chained(Genesis, a) && SameContents(a, b)
    ensures Chained(Genesis, b) && HeadAfter(Genesis, a) == HeadAfter(Genesis, b)
  {
    forall k | 0 <= k < |b| ensures Linked(Genesis, b, k) && Hashed(b[k]) {
      assert Linked(Genesis, a, k) && Hashed(a[k]) && SameContent(a[k], b[k]);
      EditShows(a[k], b[k].fields);
      assert k > 0 ==> SameContent(a[k - 1], b[k - 1]);
    }
    assert |a| > 0 ==> SameContent(a[|a| - 1], b[|b| - 1]);
  }

  /** Exactly: against a verified table whose head is known, another table verifies with that head if and
      only if its hashed content is the same. */
  lemma {:induction false} TamperEvident(original: seq<Row>, found: seq<Row>)
    requires Chained(Genesis, original)
    ensures Chained(Genesis, found) && HeadAfter(Genesis, found) == HeadAfter(Genesis, original) <==> SameContents(original, found)
  {
    if SameContents(original, found) {
      SameContentsChained(original, found);
    }
    if Chained(Genesis, found) && HeadAfter(Genesis, found) == HeadAfter(Genesis, original) {
      SameHeadSameHistory(original, found);
    }
  }

  /** Without the head to compare, cutting off the tail is not noticed: every prefix verifies. */
  lemma {:induction false} TruncationVerifies(rows: seq<Row>, k: nat, startId: nat, v: Verdict)
    requires Chained(Genesis, rows) && k <= |rows| && Judges(rows[..k], startId, Genesis, v)
    ensures v.Ok()
    ensures k < |rows| ==> v.lastHash != HeadAfter(Genesis, rows)
  {
    ChainedPrefix(Genesis, rows, k);
    ApprovesExactlyChains(rows[..k], startId, Genesis, v);
    assert rows[..k][..k] == rows[..k];
    ChainDepth(rows[..k]);
    ChainDepth(rows);
  }

  // ----- resuming -----

  lemma {:induction false} ChainedConcat(start: Hash, a: seq<Row>, b: seq<Row>)
    requires Chained(start, a)
    ensures Chained(start, a + b) <==> Chained(HeadAfter(start, a), b)
    decreases |b|
  {
    if b == [] {
      assert a + b == a;
    } else {
      var k := |b| - 1;
      assert a + b == (a + b[..k]) + [b[k]] && b == b[..k] + [b[k]];
      ChainedConcat(start, a, b[..k]);
      ChainedSnoc(start, a + b[..k], b[k]);
      ChainedSnoc(HeadAfter(start, a), b[..k], b[k]);
      HeadConcat(start, a, b[..k]);
    }
  }

  lemma {:induction false} HeadConcat(start: Hash, a: seq<Row>, b: seq<Row>)
    ensures HeadAfter(start, a + b) == HeadAfter(HeadAfter(start, a), b)
  {
    if b == [] {
      assert a + b == a;
    }
  }

  /** The id a walk resumes after. */
  function LastId(done: seq<Row>): nat {
    if done == [] then 0 else done[|done| - 1].id
  }

  lemma {:induction false} NoneLater(rows: seq<Row>, startId: nat)
    requires forall k :: 0 <= k < |rows| ==> rows[k].id <= startId
    ensures Later(rows, startId) == []
  {
    if rows != [] {
      NoneLater(rows[..|rows| - 1], startId);
    }
  }

  lemma {:induction false} LaterSnoc(rows: seq<Row>, row: Row, startId: nat)
    ensures Later(rows + [row], startId) == Later(rows, startId) + if row.id > startId then [row] else []
  {
    assert (rows + [row])[..|rows|] == rows;
  }

  lemma {:induction false} LaterSplit(done: seq<Row>, rest: seq<Row>, startId: nat)
    requires forall k :: 0 <= k < |done| ==> done[k].id <= startId
    requires forall k :: 0 <= k < |rest| ==> rest[k].id > startId
    ensures Later(done + rest, startId) == rest
    decreases |rest|
  {
    hide Later;
    if rest == [] {
      assert done + rest == done;
      NoneLater(done, startId);
    } else {
      var front, last := rest[..|rest| - 1], rest[|rest| - 1];
      LaterSplit(done, front, startId);
      LaterSnoc(done + front, last, startId);
      assert done + rest == (done + front) + [last] && rest == front + [last];
    }
  }

  lemma {:induction false} LaterRows(done: seq<Row>, rest: seq<Row>)
    requires Numbered(done + rest)
    ensures Later(done + rest, LastId(done)) == rest && Later(done + rest, 0) == done + rest
  {
    var rows, n := done + rest, |done|;
    forall k | 0 <= k < |rows| ensures if k < n then rows[k].id <= LastId(done) else rows[k].id > LastId(done) {
      if n > 0 && k != n - 1 {
        assert rows[n - 1] == done[n - 1];
        assert if k < n - 1 then rows[k].id < rows[n - 1].id else rows[n - 1].id < rows[k].id;
      }
    }
    forall k | 0 <= k < n ensures done[k].id <= LastId(done) {
      assert rows[k] == done[k];
    }
    forall k | 0 <= k < |rest| ensures rest[k].id > LastId(done) {
      assert rows[n + k] == rest[k];
    }
    LaterSplit(done, rest, LastId(done));
    LaterSplit([], rows, 0);
    assert [] + rows == rows;
  }

  /** Verified rows in front shift a verdict, and nothing else. */
  lemma {:induction false} JudgesBehind(done: seq<Row>, rest: seq<Row>, v: Verdict)
    requires Chained(Genesis, done) && Judges(rest, LastId(done), HeadAfter(Genesis, done), v)
    ensures Judges(done + rest, 0, Genesis, v.(checked := |done| + v.checked))
  {
    hide Chained, HeadAfter, Hashed;
    var rows, n, k := done + rest, |done|, v.checked;
    assert rows[..n + k] == done + rest[..k];
    ChainedConcat(Genesis, done, rest[..k]);
    HeadConcat(Genesis, done, rest[..k]);
    if k < |rest| {
      assert rows[n + k] == rest[k];
      assert Linked(Genesis, rows, n + k) <==> Linked(HeadAfter(Genesis, done), rest, k);
    }
  }

  /** A walk resumed after verified rows judges like the full walk: same outcome, same last row, same
      failure; it has only checked fewer rows. */
  lemma {:induction false} ResumedLikeFull(done: seq<Row>, rest: seq<Row>, full: Verdict, resumed: Verdict)
    requires Numbered(done + rest) && Chained(Genesis, done)
    requires Judges(Later(done + rest, 0), 0, Genesis, full)
    requires Judges(Later(done + rest, LastId(done)), LastId(done), HeadAfter(Genesis, done), resumed)
    ensures full == resumed.(checked := |done| + resumed.checked)
  {
    LaterRows(done, rest);
    hide Judges, Chained, Numbered, Later, LastId;
    JudgesBehind(done, rest, resumed);
    VerdictUnique(done + rest, 0, Genesis, full, resumed.(checked := |done| + resumed.checked));
  }

  /** And it says nothing about the rows before the cursor: the full walk approves exactly if the resumed
      one does and they were a chain up to the cursor's hash. */
  lemma {:induction false} ResumedTrustsThePast(done: seq<Row>, rest: seq<Row>, cursorHash: Hash)
    requires done != [] && cursorHash == done[|done| - 1].selfHash
    ensures Chained(Genesis, done + rest) <==> Chained(Genesis, done) && Chained(cursorHash, rest)
  {
    if Chained(Genesis, done + rest) {
      ChainedPrefix(Genesis, done + rest, |done|);
      assert (done + rest)[..|done|] == done;
    }
    if Chained(Genesis, done) {
      ChainedConcat(Genesis, done, rest);
    }
  }
}
