/**
 The findings table: supersede-then-insert, status moves, the partial unique
 index over active rows and the trigger that restamps every updated row.
 A row's id is its position in the table; rows are never deleted.
 */
module Ledger {
  import opened Models

  datatype Row = Row(
    server: ServerId,
    artifactRef: string,
    finding: Finding,
    status: Status,
    reason: Option<string>,
    changedAt: Time,
    updatedAt: Time)

  /** A scan: one call of the upsert inside one transaction, whose now() is `at`. */
  datatype Batch = Batch(server: ServerId, artifactRef: string, at: Time, findings: seq<Finding>)

  datatype Key = Key(server: ServerId, detector: string, artifactRef: string, evidenceKey: string)

  datatype Outcome = Ok(rows: seq<Row>) | IndexViolation

  // ----- the partial unique index -----

  /** The index entry of a row: only active rows have one, and SQL never equates two nulls. */
  function IndexEntry(r: Row): Option<Key> {
    if r.status.Active? && r.finding.evidence.key.Text?
    then Some(Key(r.server, r.finding.detector, r.artifactRef, r.finding.evidence.key.s))
    else None
  }

  predicate IndexOk(rows: seq<Row>) {
    forall i, j :: 0 <= i < j < |rows| && IndexEntry(rows[i]).Some? ==> IndexEntry(rows[i]) != IndexEntry(rows[j])
  }

  predicate Collides(rows: seq<Row>, r: Row) {
    IndexEntry(r).Some? && exists i :: 0 <= i < |rows| && IndexEntry(rows[i]) == IndexEntry(r)
  }

  /** An active row with the other's server, detector, artifact and text key. */
  predicate SameIndexEntry(r: Row, other: Row) {
    && r.status == Active && r.server == other.server && r.artifactRef == other.artifactRef
    && r.finding.detector == other.finding.detector
    && r.finding.evidence.key.Text? && r.finding.evidence.key == other.finding.evidence.key
  }

  /** What making a row active runs into: another active row with the same index entry. */
  lemma {:induction false} CollidesIff(rows: seq<Row>, id: nat)
    requires id < |rows|
    ensures Collides(rows[..id] + rows[id + 1..], rows[id].(status := Active)) <==>
            exists i :: 0 <= i < |rows| && i != id && SameIndexEntry(rows[i], rows[id])
  {
    var rest, r := rows[..id] + rows[id + 1..], rows[id].(status := Active);
    if i :| 0 <= i < |rows| && i != id && SameIndexEntry(rows[i], rows[id]) {
      SameEntryIff(rows[i], rows[id]);
      assert rest[if i < id then i else i - 1] == rows[i];
    }
    if k :| 0 <= k < |rest| && IndexEntry(r).Some? && IndexEntry(rest[k]) == IndexEntry(r) {
      SameEntryIff(rest[k], rows[id]);
      assert rows[if k < id then k else k + 1] == rest[k];
    }
  }

  lemma {:induction false} SameEntryIff(other: Row, r: Row)
    ensures SameIndexEntry(other, r) <==>
            IndexEntry(r.(status := Active)).Some? && IndexEntry(other) == IndexEntry(r.(status := Active))
  {
  }

  // ----- upsert -----

  /** The WHERE clause of the supersede statement. */
  predicate Matches(r: Row, b: Batch, f: Finding) {
    && r.server == b.server
    && r.finding.detector == f.detector
    && r.artifactRef == b.artifactRef
    && KeyText(r.finding.evidence) == EvidenceKey(f.evidence)
    && r.status.Active?
  }

  function Supersede(r: Row, at: Time): Row {
    r.(status := Superseded, changedAt := at, updatedAt := at)
  }

  function SupersedeMatching(rows: seq<Row>, b: Batch, f: Finding): (out: seq<Row>)
    ensures |out| == |rows|
    ensures forall i :: 0 <= i < |rows| ==> out[i] == if Matches(rows[i], b, f) then Supersede(rows[i], b.at) else rows[i]
  {
    seq(|rows|, i requires 0 <= i < |rows| => if Matches(rows[i], b, f) then Supersede(rows[i], b.at) else rows[i])
  }

  function NewRow(b: Batch, f: Finding): Row {
    Row(b.server, b.artifactRef, StoredFinding(f), Active, None, b.at, b.at)
  }

  function UpsertOne(rows: seq<Row>, b: Batch, f: Finding): Outcome {
    var left := SupersedeMatching(rows, b, f);
    if Collides(left, NewRow(b, f)) then IndexViolation else Ok(left + [NewRow(b, f)])
  }

  /** The loop over the batch, stopping at the first rejected insert. */
  function UpsertFrom(rows: seq<Row>, b: Batch, i: nat): Outcome
    requires i <= |b.findings|
    decreases |b.findings| - i
  {
    if i == |b.findings| then Ok(rows)
    else match UpsertOne(rows, b, b.findings[i])
      case IndexViolation => IndexViolation
      case Ok(next) => UpsertFrom(next, b, i + 1)
  }

  function Upsert(rows: seq<Row>, b: Batch): Outcome {
    UpsertFrom(rows, b, 0)
  }

  // ----- what a batch does, said without its loop -----

  /** Some finding of the batch, from position `from` on, supersedes the row. */
  predicate MatchedFrom(r: Row, b: Batch, from: nat) {
    exists j :: from <= j < |b.findings| && Matches(r, b, b.findings[j])
  }

  function Settled(r: Row, b: Batch, from: nat): Row {
    if MatchedFrom(r, b, from) then Supersede(r, b.at) else r
  }

  /** Every old row, superseded if the rest of the batch names its key. */
  function SettledRows(rows: seq<Row>, b: Batch, from: nat): (out: seq<Row>)
    ensures |out| == |rows|
    ensures forall k :: 0 <= k < |rows| ==> out[k] == Settled(rows[k], b, from)
  {
    seq(|rows|, k requires 0 <= k < |rows| => Settled(rows[k], b, from))
  }

  /** One new row per finding, superseded if a later finding of the batch names its key. */
  function BatchRows(b: Batch, from: nat): (out: seq<Row>)
    requires from <= |b.findings|
    ensures |out| == |b.findings| - from
    ensures forall k :: 0 <= k < |out| ==> out[k] == Settled(NewRow(b, b.findings[from + k]), b, from + k + 1)
  {
    seq(|b.findings| - from, k requires 0 <= k < |b.findings| - from => Settled(NewRow(b, b.findings[from + k]), b, from + k + 1))
  }

  lemma {:induction false} SettledInTwoSteps(r: Row, b: Batch, i: nat)
    requires i < |b.findings|
    ensures Settled(r, b, i) ==
            Settled(if Matches(r, b, b.findings[i]) then Supersede(r, b.at) else r, b, i + 1)
  {
    assert MatchedFrom(r, b, i) <==> Matches(r, b, b.findings[i]) || MatchedFrom(r, b, i + 1);
  }

  lemma {:induction false} UpsertFromSettles(rows: seq<Row>, b: Batch, i: nat)
    requires i <= |b.findings|
    requires UpsertFrom(rows, b, i).Ok?
    ensures UpsertFrom(rows, b, i).rows == SettledRows(rows, b, i) + BatchRows(b, i)
    decreases |b.findings| - i
  {
    if i < |b.findings| {
      var f := b.findings[i];
      var next := UpsertOne(rows, b, f).rows;
      UpsertFromSettles(next, b, i + 1);
      assert |next| == |rows| + 1 && next[|rows|] == NewRow(b, f);
      forall k | 0 <= k < |rows|
        ensures Settled(next[k], b, i + 1) == Settled(rows[k], b, i)
      {
        SettledInTwoSteps(rows[k], b, i);
      }
      assert SettledRows(next, b, i + 1) == SettledRows(rows, b, i) + [Settled(NewRow(b, f), b, i + 1)];
      assert BatchRows(b, i) == [Settled(NewRow(b, f), b, i + 1)] + BatchRows(b, i + 1);
    }
  }

  /** A committed scan: every old row is unchanged unless some finding of the batch
      matched it, every finding gets one row, and that row is superseded exactly when
      a later finding of the batch matches it. */
  lemma {:induction false} UpsertSettles(rows: seq<Row>, b: Batch)
    requires Upsert(rows, b).Ok?
    ensures Upsert(rows, b).rows == SettledRows(rows, b, 0) + BatchRows(b, 0)
  {
    UpsertFromSettles(rows, b, 0);
  }

  /** A row holds what the finding says, entry by entry; its key is the finding's own entry, or the
      matching key if the finding has none. */
  ghost predicate Holds(r: Row, f: Finding) {
    var e, stored := f.evidence, r.finding.evidence;
    && r.finding.detector == f.detector && r.finding.severity == f.severity && r.finding.confidence == f.confidence
    && stored.file == e.file && stored.line == e.line && stored.toolName == e.toolName && stored.llmCall == e.llmCall
    && match e.key
       case Missing => stored.key == Text(e.file + ":" + e.line + ":" + e.toolName)
       case Null => stored.key == Null
       case Text(s) => stored.key == Text(s)
  }

  /** The row inserted for finding i holds it, under the batch's server and artifact and with the
      batch's stamp; it is active, or superseded by a later finding of the batch. */
  lemma {:induction false} UpsertInserts(rows: seq<Row>, b: Batch, i: nat)
    requires Upsert(rows, b).Ok? && i < |b.findings|
    ensures |rows| + i < |Upsert(rows, b).rows|
    ensures var r := Upsert(rows, b).rows[|rows| + i];
            && r.server == b.server && r.artifactRef == b.artifactRef && Holds(r, b.findings[i])
            && (r.status == Active || r.status == Superseded) && r.reason == None
            && r.changedAt == b.at && r.updatedAt == b.at
  {
    UpsertSettles(rows, b);
    assert Upsert(rows, b).rows[|rows| + i] == BatchRows(b, 0)[i];
  }

  /** An old row is superseded and restamped if it was active and some finding of the batch has its
      server, detector, artifact and key; it is untouched otherwise. */
  lemma {:induction false} UpsertRetires(rows: seq<Row>, b: Batch, k: nat)
    requires Upsert(rows, b).Ok? && k < |rows|
    ensures k < |Upsert(rows, b).rows|
    ensures var r, after := rows[k], Upsert(rows, b).rows[k];
            after == if r.status == Active && r.server == b.server && r.artifactRef == b.artifactRef
                        && exists j :: 0 <= j < |b.findings| && b.findings[j].detector == r.finding.detector
                                       && EvidenceKey(b.findings[j].evidence) == KeyText(r.finding.evidence)
                     then r.(status := Superseded, changedAt := b.at, updatedAt := b.at)
                     else r
  {
    UpsertSettles(rows, b);
    var r := rows[k];
    assert Upsert(rows, b).rows[k] == Settled(r, b, 0);
    assert forall j :: 0 <= j < |b.findings| ==>
        (Matches(r, b, b.findings[j]) <==>
           r.status == Active && r.server == b.server && r.artifactRef == b.artifactRef
           && b.findings[j].detector == r.finding.detector && EvidenceKey(b.findings[j].evidence) == KeyText(r.finding.evidence));
  }

  /** The row of finding i ends active exactly when no later finding of the batch has its
      detector and is matched under its stored key; row count grows by the batch length. */
  lemma {:induction false} LastOfItsKeyStaysActive(rows: seq<Row>, b: Batch, i: nat)
    requires Upsert(rows, b).Ok? && i < |b.findings|
    ensures |Upsert(rows, b).rows| == |rows| + |b.findings|
    ensures Upsert(rows, b).rows[|rows| + i].status.Active? <==>
            forall j :: i < j < |b.findings| && b.findings[j].detector == b.findings[i].detector ==>
              EvidenceKey(b.findings[j].evidence) != KeyText(StoredEvidence(b.findings[i].evidence))
  {
    UpsertSettles(rows, b);
    assert Upsert(rows, b).rows[|rows| + i] == BatchRows(b, 0)[i];
  }

  // ----- the index is never broken -----

  /** A single upsert is rejected exactly when the finding carries an empty key and an active
      row of that server, detector and artifact already stores an empty key. */
  lemma {:induction false} UpsertOneFailsIff(rows: seq<Row>, b: Batch, f: Finding)
    requires IndexOk(rows)
    ensures UpsertOne(rows, b, f).IndexViolation? <==>
            f.evidence.key == Text("") && Collides(rows, NewRow(b, f))
    ensures UpsertOne(rows, b, f).Ok? ==> IndexOk(UpsertOne(rows, b, f).rows)
  {
    var left := SupersedeMatching(rows, b, f);
    var n := NewRow(b, f);
    StoredUnderMatchingKey(f);
    assert IndexOk(left) by {
      assert forall i :: 0 <= i < |rows| ==> IndexEntry(left[i]).None? || left[i] == rows[i];
    }
    assert f.evidence.key == Text("") ==>
        forall i :: 0 <= i < |rows| && IndexEntry(rows[i]) == IndexEntry(n) ==> left[i] == rows[i];
  }

  lemma {:induction false} UpsertFromKeepsIndex(rows: seq<Row>, b: Batch, i: nat)
    requires IndexOk(rows) && i <= |b.findings|
    ensures UpsertFrom(rows, b, i).Ok? ==> IndexOk(UpsertFrom(rows, b, i).rows)
    ensures (forall k :: i <= k < |b.findings| ==> b.findings[k].evidence.key != Text("")) ==> UpsertFrom(rows, b, i).Ok?
    decreases |b.findings| - i
  {
    if i < |b.findings| {
      UpsertOneFailsIff(rows, b, b.findings[i]);
      if UpsertOne(rows, b, b.findings[i]).Ok? {
        UpsertFromKeepsIndex(UpsertOne(rows, b, b.findings[i]).rows, b, i + 1);
      }
    }
  }

  /** An active row with an empty key is never superseded, so a later finding with an
      empty key and the same detector is rejected. */
  lemma {:induction false} EmptyKeyBlocks(rows: seq<Row>, b: Batch, i: nat, k: nat)
    requires IndexOk(rows) && i <= k < |b.findings|
    requires b.findings[k].evidence.key == Text("") && Collides(rows, NewRow(b, b.findings[k]))
    ensures UpsertFrom(rows, b, i).IndexViolation?
    decreases |b.findings| - i
  {
    var f := b.findings[i];
    UpsertOneFailsIff(rows, b, f);
    if i < k && UpsertOne(rows, b, f).Ok? {
      var next := UpsertOne(rows, b, f).rows;
      var n := NewRow(b, b.findings[k]);
      var m :| 0 <= m < |rows| && IndexEntry(rows[m]) == IndexEntry(n);
      assert next[m] == rows[m];
      EmptyKeyBlocks(next, b, i + 1, k);
    }
  }

  /** The findings of a batch, written again into a table that already holds one of them
      under an empty key. */
  lemma {:induction false} RewritingAnEmptyKeyFails(rows: seq<Row>, b: Batch, again: Batch, k: nat)
    requires IndexOk(rows) && Upsert(rows, b).Ok? && k < |b.findings|
    requires b.findings[k].evidence.key == Text("")
    requires again == b.(at := again.at)
    ensures Upsert(Upsert(rows, b).rows, again).IndexViolation?
  {
    UpsertFromKeepsIndex(rows, b, 0);
    UpsertSettles(rows, b);
    var once := Upsert(rows, b).rows;
    var r := once[|rows| + k];
    assert r == BatchRows(b, 0)[k];
    assert !MatchedFrom(NewRow(b, b.findings[k]), b, k + 1);
    assert IndexEntry(r) == IndexEntry(NewRow(again, again.findings[k]));
    EmptyKeyBlocks(once, again, 0, k);
  }

  /** A batch commits from every table the index allows exactly when none of its
      findings carries an empty key. */
  lemma {:induction false} CommitsFromEveryTableIff(b: Batch)
    ensures (forall rows :: IndexOk(rows) ==> Upsert(rows, b).Ok?) <==>
            (forall k :: 0 <= k < |b.findings| ==> b.findings[k].evidence.key != Text(""))
  {
    if forall k :: 0 <= k < |b.findings| ==> b.findings[k].evidence.key != Text("") {
      forall rows | IndexOk(rows) ensures Upsert(rows, b).Ok? {
        UpsertFromKeepsIndex(rows, b, 0);
      }
    } else {
      var k :| 0 <= k < |b.findings| && b.findings[k].evidence.key == Text("");
      var rows := [NewRow(b, b.findings[k])];
      assert IndexOk(rows);
      assert IndexEntry(rows[0]) == IndexEntry(NewRow(b, b.findings[k]));
      EmptyKeyBlocks(rows, b, 0, k);
    }
  }

  // ----- status moves -----

  datatype Op =
    | Scan(batch: Batch)
    | Suppress(at: Time, id: nat, reason: string)
    | Confirm(at: Time, id: nat)
    | MarkFp(at: Time, id: nat, reason: string)
    | Reactivate(at: Time, id: nat)

  /** UPDATE ... WHERE id = :id, with the trigger's restamp; an unknown id changes nothing. */
  function Move(rows: seq<Row>, id: nat, status: Status, reason: Option<string>, at: Time): seq<Row> {
    if id < |rows|
    then rows[id := rows[id].(status := status, reason := reason, changedAt := at, updatedAt := at)]
    else rows
  }

  function Perform(rows: seq<Row>, op: Op): Outcome {
    match op
    case Scan(b) => Upsert(rows, b)
    case Suppress(at, id, reason) => Ok(Move(rows, id, Suppressed, Some(reason), at))
    case Confirm(at, id) => Ok(Move(rows, id, Confirmed, if id < |rows| then rows[id].reason else None, at))
    case MarkFp(at, id, reason) => Ok(Move(rows, id, FalsePositive, Some(reason), at))
    case Reactivate(at, id) =>
      if id < |rows| && Collides(rows[..id] + rows[id + 1..], rows[id].(status := Active)) then IndexViolation
      else Ok(Move(rows, id, Active, None, at))
  }

  /** A rejected statement rolls its transaction back. */
  function Commit(rows: seq<Row>, op: Op): seq<Row> {
    match Perform(rows, op)
    case Ok(next) => next
    case IndexViolation => rows
  }

  function RunOps(rows: seq<Row>, ops: seq<Op>): seq<Row>
    decreases |ops|
  {
    if ops == [] then rows else RunOps(Commit(rows, ops[0]), ops[1..])
  }

  /** The row given a new status has no index entry, or one that no other row has. */
  lemma {:induction false} IndexAfterUpdate(rows: seq<Row>, id: nat, r: Row)
    requires IndexOk(rows) && id < |rows|
    requires IndexEntry(r).None? || !Collides(rows[..id] + rows[id + 1..], r)
    ensures IndexOk(rows[id := r])
  {
    var rest := rows[..id] + rows[id + 1..];
    forall i | 0 <= i < |rows| && i != id && IndexEntry(r).Some? ensures IndexEntry(rows[i]) != IndexEntry(r) {
      assert rows[i] == rest[if i < id then i else i - 1];
    }
  }

  lemma {:induction false} LeavingKeepsIndex(rows: seq<Row>, id: nat, status: Status, reason: Option<string>, at: Time)
    requires IndexOk(rows) && !status.Active?
    ensures IndexOk(Move(rows, id, status, reason, at))
  {
    if id < |rows| {
      IndexAfterUpdate(rows, id, Move(rows, id, status, reason, at)[id]);
    }
  }

  lemma {:induction false} ReactivateKeepsIndex(rows: seq<Row>, at: Time, id: nat)
    requires IndexOk(rows)
    ensures IndexOk(Commit(rows, Reactivate(at, id)))
  {
    if id < |rows| && Perform(rows, Reactivate(at, id)).Ok? {
      var r := Move(rows, id, Active, None, at)[id];
      assert IndexEntry(r) == IndexEntry(rows[id].(status := Active));
      IndexAfterUpdate(rows, id, r);
    }
  }

  lemma {:induction false} CommitKeepsIndex(rows: seq<Row>, op: Op)
    requires IndexOk(rows)
    ensures IndexOk(Commit(rows, op))
  {
    match op
    case Scan(b) => UpsertFromKeepsIndex(rows, b, 0);
    case Suppress(at, id, reason) => LeavingKeepsIndex(rows, id, Suppressed, Some(reason), at);
    case Confirm(at, id) => LeavingKeepsIndex(rows, id, Confirmed, if id < |rows| then rows[id].reason else None, at);
    case MarkFp(at, id, reason) => LeavingKeepsIndex(rows, id, FalsePositive, Some(reason), at);
    case Reactivate(at, id) => ReactivateKeepsIndex(rows, at, id);
  }

  /** Over every run of scans and status moves, the table satisfies its unique index. */
  lemma {:induction false} IndexHoldsOverRuns(rows: seq<Row>, ops: seq<Op>)
    requires IndexOk(rows)
    ensures IndexOk(RunOps(rows, ops))
    decreases |ops|
  {
    if ops != [] {
      CommitKeepsIndex(rows, ops[0]);
      IndexHoldsOverRuns(Commit(rows, ops[0]), ops[1..]);
    }
  }

  // ----- one active row per matching key -----

  function RowKey(r: Row): Key {
    Key(r.server, r.finding.detector, r.artifactRef, KeyText(r.finding.evidence))
  }

  /** The documented invariant: at most one active row per (server, detector, artifact, key). */
  predicate OneActivePerKey(rows: seq<Row>) {
    forall i, j :: 0 <= i < j < |rows| && rows[i].status.Active? && rows[j].status.Active? ==> RowKey(rows[i]) != RowKey(rows[j])
  }

  predicate Keyed(rows: seq<Row>) {
    forall i :: 0 <= i < |rows| ==> rows[i].finding.evidence.key.Text?
  }

  predicate WellKeyedBatch(b: Batch) {
    forall k :: 0 <= k < |b.findings| ==> WellKeyed(b.findings[k])
  }

  lemma {:induction false} WellKeyedUpsertFrom(rows: seq<Row>, b: Batch, i: nat)
    requires OneActivePerKey(rows) && WellKeyedBatch(b) && i <= |b.findings|
    ensures UpsertFrom(rows, b, i).Ok? && OneActivePerKey(UpsertFrom(rows, b, i).rows)
    ensures Keyed(rows) ==> Keyed(UpsertFrom(rows, b, i).rows)
    decreases |b.findings| - i
  {
    if i < |b.findings| {
      var f := b.findings[i];
      UpsertOneFailsIff(rows, b, f);
      var next := UpsertOne(rows, b, f).rows;
      StoredUnderMatchingKey(f);
      assert forall k :: 0 <= k < |rows| && next[k].status.Active? ==> next[k] == rows[k] && !Matches(rows[k], b, f);
      WellKeyedUpsertFrom(next, b, i + 1);
    }
  }

  /** A batch commits and keeps one active row per key, from every table that has it,
      exactly when every finding of the batch has no key entry or a non-empty key. */
  lemma {:induction false} KeepsOneActivePerKeyIff(b: Batch)
    ensures (forall rows :: OneActivePerKey(rows) ==> Upsert(rows, b).Ok? && OneActivePerKey(Upsert(rows, b).rows))
            <==> WellKeyedBatch(b)
  {
    if WellKeyedBatch(b) {
      forall rows | OneActivePerKey(rows)
        ensures Upsert(rows, b).Ok? && OneActivePerKey(Upsert(rows, b).rows)
      {
        WellKeyedUpsertFrom(rows, b, 0);
      }
    } else {
      var k :| 0 <= k < |b.findings| && !WellKeyed(b.findings[k]);
      var rows := [NewRow(b, b.findings[k])];
      assert OneActivePerKey(rows);
      BadKeyBreaks(b, k);
    }
  }

  lemma {:induction false} BadKeyBreaks(b: Batch, k: nat)
    requires k < |b.findings| && !WellKeyed(b.findings[k])
    ensures var rows := [NewRow(b, b.findings[k])];
            !(Upsert(rows, b).Ok? && OneActivePerKey(Upsert(rows, b).rows))
  {
    var r := NewRow(b, b.findings[k]);
    var rows := [r];
    if Upsert(rows, b).Ok? {
      UpsertSettles(rows, b);
      assert !MatchedFrom(r, b, 0);
      assert Upsert(rows, b).rows[0] == r && Upsert(rows, b).rows[1 + k] == BatchRows(b, 0)[k] == r;
    }
  }

  lemma {:induction false} ReactivateKeepsOneActive(rows: seq<Row>, at: Time, id: nat)
    requires OneActivePerKey(rows) && Keyed(rows)
    ensures OneActivePerKey(Commit(rows, Reactivate(at, id)))
  {
    if id < |rows| && Perform(rows, Reactivate(at, id)).Ok? {
      var r := rows[id].(status := Active);
      var rest := rows[..id] + rows[id + 1..];
      forall i | 0 <= i < |rows| && i != id && rows[i].status.Active?
        ensures RowKey(rows[i]) != RowKey(r)
      {
        assert rows[i] == rest[if i < id then i else i - 1];
        assert IndexEntry(rows[i]) == Some(RowKey(rows[i])) && IndexEntry(r) == Some(RowKey(r));
      }
    }
  }

  /** Over every run of well-keyed scans and status moves, guarded reactivation included,
      at most one active row exists per key. */
  lemma {:induction false} OneActiveOverRuns(rows: seq<Row>, ops: seq<Op>)
    requires OneActivePerKey(rows) && Keyed(rows)
    requires forall k :: 0 <= k < |ops| && ops[k].Scan? ==> WellKeyedBatch(ops[k].batch)
    ensures OneActivePerKey(RunOps(rows, ops))
    decreases |ops|
  {
    if ops != [] {
      var next := Commit(rows, ops[0]);
      match ops[0] {
        case Scan(b) => WellKeyedUpsertFrom(rows, b, 0);
        case Reactivate(at, id) => ReactivateKeepsOneActive(rows, at, id);
        case _ =>
      }
      OneActiveOverRuns(next, ops[1..]);
    }
  }
}
