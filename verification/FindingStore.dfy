/**
 The findings table as the code updates it: statement by statement, inside a
 transaction that is rolled back when the unique index rejects a row.
 */
module FindingStore {
  import opened Models
  import opened Ledger

  class FindingTable {
    var rows: seq<Row>

    constructor ()
      ensures rows == []
    {
      rows := [];
    }

    /** Supersedes and inserts finding by finding; returns the new ids in input order,
        or None after a rollback. */
    method Upsert(b: Batch) returns (ids: Option<seq<nat>>)
      modifies this
      ensures rows == Commit(old(rows), Scan(b))
      ensures ids.Some? <==> Ledger.Upsert(old(rows), b).Ok?
      ensures ids.None? ==> rows == old(rows)
      ensures ids.Some? ==> |ids.value| == |b.findings|
      ensures ids.Some? ==> forall i :: 0 <= i < |b.findings| ==>
                && ids.value[i] == |old(rows)| + i < |rows|
                && rows[ids.value[i]].server == b.server
                && rows[ids.value[i]].artifactRef == b.artifactRef
                && Holds(rows[ids.value[i]], b.findings[i])
    {
      var saved := rows;
      var inserted: seq<nat> := [];
      for i := 0 to |b.findings|
        invariant UpsertFrom(rows, b, i) == Ledger.Upsert(saved, b)
        invariant saved == old(rows)
        invariant |inserted| == i && |rows| == |saved| + i
        invariant forall j :: 0 <= j < i ==> inserted[j] == |saved| + j
      {
        var f := b.findings[i];
        rows := SupersedeMatching(rows, b, f);
        if Collides(rows, NewRow(b, f)) {
          rows := saved;
          return None;
        }
        rows := rows + [NewRow(b, f)];
        inserted := inserted + [|rows| - 1];
      }
      forall i | 0 <= i < |b.findings|
        ensures rows[inserted[i]].server == b.server && rows[inserted[i]].artifactRef == b.artifactRef
        ensures Holds(rows[inserted[i]], b.findings[i])
      {
        UpsertInserts(saved, b, i);
      }
      return Some(inserted);
    }

    method Suppress(at: Time, id: nat, reason: string)
      modifies this
      ensures rows == Commit(old(rows), Op.Suppress(at, id, reason))
      ensures |rows| == |old(rows)| && forall i :: 0 <= i < |rows| && i != id ==> rows[i] == old(rows)[i]
      ensures id < |rows| ==> rows[id] == old(rows)[id].(status := Suppressed, reason := Some(reason), changedAt := at, updatedAt := at)
    {
      if id < |rows| {
        rows := rows[id := rows[id].(status := Suppressed, changedAt := at, reason := Some(reason), updatedAt := at)];
      }
    }

    method Confirm(at: Time, id: nat)
      modifies this
      ensures rows == Commit(old(rows), Op.Confirm(at, id))
      ensures |rows| == |old(rows)| && forall i :: 0 <= i < |rows| && i != id ==> rows[i] == old(rows)[i]
      ensures id < |rows| ==> rows[id] == old(rows)[id].(status := Confirmed, changedAt := at, updatedAt := at)
    {
      if id < |rows| {
        rows := rows[id := rows[id].(status := Confirmed, changedAt := at, updatedAt := at)];
      }
    }

    method MarkFp(at: Time, id: nat, reason: string)
      modifies this
      ensures rows == Commit(old(rows), Op.MarkFp(at, id, reason))
      ensures |rows| == |old(rows)| && forall i :: 0 <= i < |rows| && i != id ==> rows[i] == old(rows)[i]
      ensures id < |rows| ==> rows[id] == old(rows)[id].(status := FalsePositive, reason := Some(reason), changedAt := at, updatedAt := at)
    {
      if id < |rows| {
        rows := rows[id := rows[id].(status := FalsePositive, changedAt := at, reason := Some(reason), updatedAt := at)];
      }
    }

    /** Fails, changing nothing, when another active row holds the row's index entry. */
    method Reactivate(at: Time, id: nat) returns (ok: bool)
      modifies this
      ensures rows == Commit(old(rows), Op.Reactivate(at, id))
      ensures |rows| == |old(rows)| && forall i :: 0 <= i < |rows| && i != id ==> rows[i] == old(rows)[i]
      ensures id < |rows| && ok ==> rows[id] == old(rows)[id].(status := Active, reason := None, changedAt := at, updatedAt := at)
      ensures !ok ==> rows == old(rows)
      ensures ok <==> Perform(old(rows), Op.Reactivate(at, id)).Ok?
      ensures ok <==> !(id < |old(rows)| && exists i :: 0 <= i < |old(rows)| && i != id && SameIndexEntry(old(rows)[i], old(rows)[id]))
    {
      if id < |rows| {
        CollidesIff(rows, id);
        var r := rows[id].(status := Active, changedAt := at, reason := None, updatedAt := at);
        if Collides(rows[..id] + rows[id + 1..], rows[id].(status := Active)) {
          return false;
        }
        rows := rows[id := r];
      }
      return true;
    }
  }
}
