/**
 What a scan means for the active contents of the ledger: a last-wins map override,
 and idempotent when the same batch is scanned again.
 */
module Rescan {
  import opened Models
  import opened Ledger

  // ----- last-wins map override -----

  /** m holds exactly the active findings, by key. */
  ghost predicate Represents(rows: seq<Row>, m: map<Key, Finding>) {
    && (forall i :: 0 <= i < |rows| && rows[i].status.Active? ==>
          RowKey(rows[i]) in m && m[RowKey(rows[i])] == rows[i].finding)
    && (forall k :: k in m ==> exists i :: 0 <= i < |rows| && rows[i].status.Active? && RowKey(rows[i]) == k)
  }

  /** The active findings by key. */
  function ActiveMap(rows: seq<Row>): (m: map<Key, Finding>)
    requires OneActivePerKey(rows)
    ensures Represents(rows, m)
  {
    map i | 0 <= i < |rows| && rows[i].status.Active? :: RowKey(rows[i]) := rows[i].finding
  }

  /** The findings of a batch from position i on, by key, a later one overriding an earlier one. */
  function LastWins(b: Batch, i: nat): map<Key, Finding>
    requires i <= |b.findings|
    decreases |b.findings| - i
  {
    if i == |b.findings| then map[]
    else map[RowKey(NewRow(b, b.findings[i])) := StoredFinding(b.findings[i])] + LastWins(b, i + 1)
  }

  /** `next` is `rows` with the active row of n's key, if any, retired and n appended. */
  ghost predicate Replaces(rows: seq<Row>, next: seq<Row>, n: Row) {
    && |next| == |rows| + 1 && next[|rows|] == n && n.status.Active?
    && forall i :: 0 <= i < |rows| ==>
         if rows[i].status.Active? && RowKey(rows[i]) == RowKey(n) then !next[i].status.Active? else next[i] == rows[i]
  }

  lemma {:induction false} ReplacingOverrides(rows: seq<Row>, next: seq<Row>, n: Row, m: map<Key, Finding>)
    requires Replaces(rows, next, n) && Represents(rows, m)
    ensures Represents(next, m[RowKey(n) := n.finding])
  {
    var now := m[RowKey(n) := n.finding];
    assert RowKey(next[|rows|]) == RowKey(n);
    forall k | k in now
      ensures exists i :: 0 <= i < |next| && next[i].status.Active? && RowKey(next[i]) == k
    {
      if k != RowKey(n) {
        var i :| 0 <= i < |rows| && rows[i].status.Active? && RowKey(rows[i]) == k;
        assert next[i] == rows[i];
      }
    }
  }

  lemma {:induction false} RepresentedOnce(rows: seq<Row>, m: map<Key, Finding>, m': map<Key, Finding>)
    requires Represents(rows, m) && Represents(rows, m')
    ensures m == m'
  {
    assert forall k :: k in m ==> k in m' && m[k] == m'[k];
    assert forall k :: k in m' ==> k in m;
  }

  lemma {:induction false} OverrideAssociates<K, V>(m: map<K, V>, k: K, v: V, rest: map<K, V>)
    ensures m[k := v] + rest == m + (map[k := v] + rest)
  {
  }

  lemma {:induction false} UpsertOneReplaces(rows: seq<Row>, b: Batch, f: Finding)
    requires OneActivePerKey(rows) && WellKeyed(f)
    ensures UpsertOne(rows, b, f).Ok? && Replaces(rows, UpsertOne(rows, b, f).rows, NewRow(b, f))
  {
    UpsertOneFailsIff(rows, b, f);
    StoredUnderMatchingKey(f);
  }

  lemma {:induction false} UpsertFromOverrides(rows: seq<Row>, b: Batch, i: nat, m: map<Key, Finding>)
    requires OneActivePerKey(rows) && WellKeyedBatch(b) && i <= |b.findings|
    requires Represents(rows, m)
    ensures UpsertFrom(rows, b, i).Ok? && Represents(UpsertFrom(rows, b, i).rows, m + LastWins(b, i))
    decreases |b.findings| - i
  {
    if i < |b.findings| {
      var n := NewRow(b, b.findings[i]);
      UpsertOneReplaces(rows, b, b.findings[i]);
      var next := UpsertOne(rows, b, b.findings[i]).rows;
      ReplacingOverrides(rows, next, n, m);
      UpsertFromOverrides(next, b, i + 1, m[RowKey(n) := n.finding]);
      OverrideAssociates(m, RowKey(n), n.finding, LastWins(b, i + 1));
      assert UpsertFrom(rows, b, i) == UpsertFrom(next, b, i + 1);
    } else {
      assert m + LastWins(b, i) == m;
    }
  }

  /** A well-keyed scan overrides the map of active findings with its own, last one winning. */
  lemma {:induction false} UpsertIsMapOverride(rows: seq<Row>, b: Batch)
    requires OneActivePerKey(rows) && WellKeyedBatch(b)
    ensures var out := Upsert(rows, b);
            && out.Ok? && OneActivePerKey(out.rows)
            && ActiveMap(out.rows) == ActiveMap(rows) + LastWins(b, 0)
  {
    WellKeyedUpsertFrom(rows, b, 0);
    UpsertFromOverrides(rows, b, 0, ActiveMap(rows));
    var out := Upsert(rows, b).rows;
    RepresentedOnce(out, ActiveMap(out), ActiveMap(rows) + LastWins(b, 0));
  }

  // ----- scanning the same batch again -----

  /** An active finding, apart from its row id and times. */
  datatype Content = Content(server: ServerId, artifactRef: string, finding: Finding)

  function ActiveContents(rows: seq<Row>): seq<Content> {
    if rows == [] then []
    else
      var r := rows[|rows| - 1];
      ActiveContents(rows[..|rows| - 1])
      + if r.status.Active? then [Content(r.server, r.artifactRef, r.finding)] else []
  }

  lemma {:induction false} ContentsOfConcat(a: seq<Row>, b: seq<Row>)
    ensures ActiveContents(a + b) == ActiveContents(a) + ActiveContents(b)
    decreases |b|
  {
    if b == [] {
      assert a + b == a;
    } else {
      var init := b[..|b| - 1];
      ContentsOfConcat(a, init);
      assert (a + b)[..|a + b| - 1] == a + init && (a + b)[|a + b| - 1] == b[|b| - 1];
      assert (ActiveContents(a) + ActiveContents(init)) + (ActiveContents(b)[|ActiveContents(init)|..])
          == ActiveContents(a) + ActiveContents(b);
    }
  }

  /** Same active rows up to ids and times, position by position. */
  ghost predicate SameActive(a: seq<Row>, b: seq<Row>) {
    && |a| == |b|
    && forall i :: 0 <= i < |a| ==>
         && a[i].status.Active? == b[i].status.Active?
         && a[i].server == b[i].server && a[i].artifactRef == b[i].artifactRef && a[i].finding == b[i].finding
  }

  lemma {:induction false} SameActiveSameContents(a: seq<Row>, b: seq<Row>)
    requires SameActive(a, b)
    ensures ActiveContents(a) == ActiveContents(b)
    decreases |a|
  {
    if a != [] {
      SameActiveSameContents(a[..|a| - 1], b[..|b| - 1]);
    }
  }

  lemma {:induction false} NoneActive(a: seq<Row>)
    ensures ActiveContents(a) == [] <==> forall i :: 0 <= i < |a| ==> !a[i].status.Active?
    decreases |a|
  {
    if a != [] {
      NoneActive(a[..|a| - 1]);
    }
  }

  /** A second pass of the batch leaves the rows its first pass left alone. */
  lemma {:induction false} SettlingTwice(rows: seq<Row>, b: Batch, again: Batch)
    requires again == b.(at := again.at)
    ensures SameActive(SettledRows(SettledRows(rows, b, 0), again, 0), SettledRows(rows, b, 0))
  {
    forall r ensures Settled(Settled(r, b, 0), again, 0) == Settled(r, b, 0) {
      assert MatchedFrom(Settled(r, b, 0), again, 0) ==> MatchedFrom(r, b, 0);
    }
  }

  lemma {:induction false} BatchRowsAgain(b: Batch, again: Batch)
    requires again == b.(at := again.at)
    ensures SameActive(BatchRows(b, 0), BatchRows(again, 0))
  {
    forall k | 0 <= k < |b.findings|
      ensures BatchRows(b, 0)[k].status == BatchRows(again, 0)[k].status
    {
      assert MatchedFrom(NewRow(b, b.findings[k]), b, k + 1) <==> MatchedFrom(NewRow(again, b.findings[k]), again, k + 1);
    }
  }

  /** After a batch has been scanned twice, the active contents are those of the first scan,
      with whatever the second scan failed to supersede of the first one's rows in between. */
  lemma {:induction false} ContentsAfterRescan(rows: seq<Row>, b: Batch, again: Batch)
    requires again == b.(at := again.at)
    requires Upsert(rows, b).Ok? && Upsert(Upsert(rows, b).rows, again).Ok?
    ensures var once := Upsert(rows, b).rows;
            var twice := Upsert(once, again).rows;
            && ActiveContents(once) == ActiveContents(SettledRows(rows, b, 0)) + ActiveContents(BatchRows(b, 0))
            && ActiveContents(twice) == ActiveContents(SettledRows(rows, b, 0))
                                        + ActiveContents(SettledRows(BatchRows(b, 0), again, 0))
                                        + ActiveContents(BatchRows(b, 0))
  {
    var kept, added := SettledRows(rows, b, 0), BatchRows(b, 0);
    UpsertSettles(rows, b);
    UpsertSettles(kept + added, again);
    var keptAgain, addedAgain := SettledRows(kept, again, 0), SettledRows(added, again, 0);
    assert SettledRows(kept + added, again, 0) == keptAgain + addedAgain;
    ContentsOfConcat(kept, added);
    ContentsOfConcat(keptAgain, addedAgain);
    ContentsOfConcat(keptAgain + addedAgain, BatchRows(again, 0));
    SettlingTwice(rows, b, again);
    BatchRowsAgain(b, again);
    SameActiveSameContents(keptAgain, kept);
    SameActiveSameContents(added, BatchRows(again, 0));
  }

  /** A second pass of a well-keyed batch supersedes every row its first pass added. */
  lemma {:induction false} SecondPassSupersedes(b: Batch, again: Batch)
    requires WellKeyedBatch(b) && again == b.(at := again.at)
    ensures ActiveContents(SettledRows(BatchRows(b, 0), again, 0)) == []
  {
    var added := BatchRows(b, 0);
    var addedAgain := SettledRows(added, again, 0);
    forall k | 0 <= k < |added| ensures !addedAgain[k].status.Active? {
      StoredUnderMatchingKey(b.findings[k]);
      assert added[k].status.Active? ==> Matches(added[k], again, again.findings[k]);
    }
    NoneActive(addedAgain);
  }

  /** Scanning twice commits and leaves the active contents of scanning once. */
  predicate RescanIsIdempotent(rows: seq<Row>, b: Batch, again: Batch) {
    && Upsert(rows, b).Ok?
    && Upsert(Upsert(rows, b).rows, again).Ok?
    && ActiveContents(Upsert(Upsert(rows, b).rows, again).rows) == ActiveContents(Upsert(rows, b).rows)
  }

  lemma {:induction false} WellKeyedRescan(rows: seq<Row>, b: Batch, again: Batch)
    requires IndexOk(rows) && WellKeyedBatch(b) && again == b.(at := again.at)
    ensures RescanIsIdempotent(rows, b, again)
  {
    UpsertFromKeepsIndex(rows, b, 0);
    UpsertFromKeepsIndex(Upsert(rows, b).rows, again, 0);
    ContentsAfterRescan(rows, b, again);
    SecondPassSupersedes(b, again);
  }

  /** Each scan of the batch, repeated or not, adds one row per finding to the history. */
  lemma {:induction false} HistoryGrows(rows: seq<Row>, b: Batch)
    requires Upsert(rows, b).Ok?
    ensures |Upsert(rows, b).rows| == |rows| + |b.findings|
  {
    UpsertSettles(rows, b);
  }

  /** From any table the index allows and the first scan commits to, re-scanning is idempotent exactly
      for well-keyed batches: a null key piles up one more active row per scan, an empty one makes the
      second scan fail. */
  lemma {:induction false} RescanIdempotentIff(rows: seq<Row>, b: Batch, again: Batch)
    requires IndexOk(rows) && Upsert(rows, b).Ok? && again == b.(at := again.at)
    ensures RescanIsIdempotent(rows, b, again) <==> WellKeyedBatch(b)
  {
    if WellKeyedBatch(b) {
      WellKeyedRescan(rows, b, again);
    } else {
      var k :| 0 <= k < |b.findings| && !WellKeyed(b.findings[k]);
      BadKeyRescan(rows, b, again, k);
    }
  }

  lemma {:induction false} BadKeyRescan(rows: seq<Row>, b: Batch, again: Batch, k: nat)
    requires IndexOk(rows) && Upsert(rows, b).Ok? && again == b.(at := again.at)
    requires k < |b.findings| && !WellKeyed(b.findings[k])
    ensures !RescanIsIdempotent(rows, b, again)
  {
    if b.findings[k].evidence.key == Text("") {
      RewritingAnEmptyKeyFails(rows, b, again, k);
    } else if Upsert(Upsert(rows, b).rows, again).Ok? {
      ContentsAfterRescan(rows, b, again);
      var added := BatchRows(b, 0);
      assert added[k] == NewRow(b, b.findings[k]);
      assert SettledRows(added, again, 0)[k].status.Active?;
      NoneActive(SettledRows(added, again, 0));
    }
  }
}
