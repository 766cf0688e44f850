/**
 Linking audited LLM calls to the findings they led to: one guarded update per finding, against
 what the loop amounts to, and the agreement it keeps with the findings table over whole runs.
 */
module Linking {
  import opened Models
  import opened Ledger

  /** A row of llm_calls; rows start unlinked. Ids are primary keys. */
  datatype Call = Call(id: string, findingId: Option<nat>)

  ghost predicate UniqueIds(calls: seq<Call>) {
    forall i, j :: 0 <= i < j < |calls| ==> calls[i].id != calls[j].id
  }

  /** UPDATE ... SET finding_id = :fid WHERE id = :cid AND finding_id IS NULL */
  function LinkOne(calls: seq<Call>, id: string, findingId: nat): (out: seq<Call>)
    ensures |out| == |calls|
    ensures forall i :: 0 <= i < |calls| ==>
              out[i] == if calls[i].id == id && calls[i].findingId.None? then calls[i].(findingId := Some(findingId)) else calls[i]
  {
    seq(|calls|, i requires 0 <= i < |calls| =>
      if calls[i].id == id && calls[i].findingId.None? then calls[i].(findingId := Some(findingId)) else calls[i])
  }

  /** The position of the first of the first n findings that names the call, or n. */
  function FirstNaming(findings: seq<Finding>, n: nat, id: string): (k: nat)
    requires n <= |findings|
    ensures k <= n
    ensures k < n ==> findings[k].evidence.llmCall == id
    ensures forall m :: 0 <= m < k ==> findings[m].evidence.llmCall != id
  {
    if n == 0 then 0
    else
      var k := FirstNaming(findings, n - 1, id);
      if k < n - 1 || findings[n - 1].evidence.llmCall == id then k else n
  }

  /** What linking makes of one call: if it is unlinked and named, it points to the id of the first
      finding naming it. Findings without an id, and the empty call id, are skipped. */
  function Linked(c: Call, ids: seq<nat>, findings: seq<Finding>, n: nat): Call
    requires n <= |ids| && n <= |findings|
  {
    var k := FirstNaming(findings, n, c.id);
    if c.findingId.None? && c.id != "" && k < n then c.(findingId := Some(ids[k])) else c
  }

  function LinkedCalls(calls: seq<Call>, ids: seq<nat>, findings: seq<Finding>, n: nat): (out: seq<Call>)
    requires n <= |ids| && n <= |findings|
    ensures |out| == |calls|
    ensures forall i :: 0 <= i < |calls| ==> out[i] == Linked(calls[i], ids, findings, n)
  {
    seq(|calls|, i requires 0 <= i < |calls| => Linked(calls[i], ids, findings, n))
  }

  /** One more finding. */
  lemma {:induction false} LinkedExtends(c: Call, ids: seq<nat>, findings: seq<Finding>, n: nat)
    requires n < |ids| && n < |findings|
    ensures Linked(c, ids, findings, n + 1) ==
            var before := Linked(c, ids, findings, n);
            if findings[n].evidence.llmCall != "" && before.id == findings[n].evidence.llmCall && before.findingId.None?
            then before.(findingId := Some(ids[n])) else before
  {
  }

  class CallTable {
    var calls: seq<Call>

    constructor ()
      ensures calls == []
    {
      calls := [];
    }

    /** Each call keeps its link, or gets that of the first finding naming it. */
    method Link(ids: seq<nat>, findings: seq<Finding>)
      modifies this
      ensures var n := if |ids| < |findings| then |ids| else |findings|;
              calls == LinkedCalls(old(calls), ids, findings, n)
    {
      var n := if |ids| < |findings| then |ids| else |findings|;
      assert calls == LinkedCalls(calls, ids, findings, 0);
      for k := 0 to n
        invariant calls == LinkedCalls(old(calls), ids, findings, k)
      {
        var id := findings[k].evidence.llmCall;
        forall i | 0 <= i < |calls|
          ensures LinkedCalls(old(calls), ids, findings, k + 1)[i] == if id == "" then calls[i] else LinkOne(calls, id, ids[k])[i]
        {
          LinkedExtends(old(calls)[i], ids, findings, k);
        }
        if id != "" {
          calls := LinkOne(calls, id, ids[k]);
        }
      }
    }

    /** An audited call, under a fresh id. */
    method Insert(id: string)
      requires forall i :: 0 <= i < |calls| ==> calls[i].id != id
      modifies this
      ensures calls == old(calls) + [Call(id, None)]
      ensures UniqueIds(old(calls)) ==> UniqueIds(calls)
    {
      calls := calls + [Call(id, None)];
    }
  }

  /** Linking again, with the same findings under any ids, changes nothing. */
  lemma {:induction false} RelinkIsNoOp(calls: seq<Call>, ids: seq<nat>, again: seq<nat>, findings: seq<Finding>)
    requires |ids| == |again| == |findings|
    ensures LinkedCalls(LinkedCalls(calls, ids, findings, |findings|), again, findings, |findings|)
         == LinkedCalls(calls, ids, findings, |findings|)
  {
  }

  /** A linked call never changes, whatever is linked later. */
  lemma {:induction false} LinksAreFinal(calls: seq<Call>, ids: seq<nat>, findings: seq<Finding>, n: nat, i: nat)
    requires n <= |ids| && n <= |findings| && i < |calls| && calls[i].findingId.Some?
    ensures LinkedCalls(calls, ids, findings, n)[i] == calls[i]
  {
  }

  // ----- agreement with the findings table -----

  /** Every link leads to a row whose finding names the call. */
  ghost predicate LinksAgree(rows: seq<Row>, calls: seq<Call>) {
    forall i :: 0 <= i < |calls| && calls[i].findingId.Some? ==>
      calls[i].findingId.value < |rows| && rows[calls[i].findingId.value].finding.evidence.llmCall == calls[i].id
  }

  function IdsFrom(base: nat, n: nat): (ids: seq<nat>)
    ensures |ids| == n && forall i :: 0 <= i < n ==> ids[i] == base + i
  {
    seq(n, i => base + i)
  }

  /** One orchestrator run, saved and linked in one transaction; a status move; an audited call. */
  datatype Event = Save(batch: Batch) | Change(op: Op) | Audit(id: string)

  datatype Db = Db(rows: seq<Row>, calls: seq<Call>)

  function Apply(db: Db, e: Event): Db {
    match e
    case Save(b) =>
      if Upsert(db.rows, b).Ok?
      then Db(Upsert(db.rows, b).rows, LinkedCalls(db.calls, IdsFrom(|db.rows|, |b.findings|), b.findings, |b.findings|))
      else db
    case Change(op) => db.(rows := Commit(db.rows, op))
    case Audit(id) => if exists i :: 0 <= i < |db.calls| && db.calls[i].id == id then db else db.(calls := db.calls + [Call(id, None)])
  }

  function ApplyAll(db: Db, es: seq<Event>): Db
    decreases |es|
  {
    if es == [] then db else ApplyAll(Apply(db, es[0]), es[1..])
  }

  /** No scan and no move rewrites what a row found. */
  lemma {:induction false} FindingsAreKept(rows: seq<Row>, op: Op, i: nat)
    requires i < |rows|
    ensures i < |Commit(rows, op)| && Commit(rows, op)[i].finding == rows[i].finding
  {
    if op.Scan? && Upsert(rows, op.batch).Ok? {
      UpsertSettles(rows, op.batch);
    }
  }

  /** The row inserted for finding k has the id that linking uses for it. */
  lemma {:induction false} InsertedRow(rows: seq<Row>, b: Batch, k: nat)
    requires Upsert(rows, b).Ok? && k < |b.findings|
    ensures |rows| + k < |Upsert(rows, b).rows| && Upsert(rows, b).rows[|rows| + k].finding.evidence.llmCall == b.findings[k].evidence.llmCall
  {
    UpsertSettles(rows, b);
    assert Upsert(rows, b).rows[|rows| + k] == BatchRows(b, 0)[k];
  }

  lemma {:induction false} ApplyKeepsAgreement(db: Db, e: Event)
    requires LinksAgree(db.rows, db.calls)
    ensures LinksAgree(Apply(db, e).rows, Apply(db, e).calls)
  {
    match e
    case Save(b) =>
      if Upsert(db.rows, b).Ok? {
        forall i | 0 <= i < |db.calls| && Apply(db, e).calls[i].findingId.Some?
          ensures var c := Apply(db, e).calls[i];
                  c.findingId.value < |Apply(db, e).rows| && Apply(db, e).rows[c.findingId.value].finding.evidence.llmCall == c.id
        {
          if db.calls[i].findingId.Some? {
            FindingsAreKept(db.rows, Scan(b), db.calls[i].findingId.value);
          } else {
            InsertedRow(db.rows, b, FirstNaming(b.findings, |b.findings|, db.calls[i].id));
          }
        }
      }
    case Change(op) =>
      forall i | 0 <= i < |db.calls| && db.calls[i].findingId.Some?
        ensures var k := db.calls[i].findingId.value; k < |Apply(db, e).rows| && Apply(db, e).rows[k].finding.evidence.llmCall == db.calls[i].id
      {
        FindingsAreKept(db.rows, op, db.calls[i].findingId.value);
      }
    case Audit(id) =>
  }

  /** Over every run of saves, moves and audited calls, a link leads to a row that names the call. */
  lemma {:induction false} LinksAgreeOverRuns(db: Db, es: seq<Event>)
    requires LinksAgree(db.rows, db.calls)
    ensures LinksAgree(ApplyAll(db, es).rows, ApplyAll(db, es).calls)
    decreases |es|
  {
    if es != [] {
      ApplyKeepsAgreement(db, es[0]);
      LinksAgreeOverRuns(Apply(db, es[0]), es[1..]);
    }
  }

  /** Call ids stay unique over every run, whatever ids are audited. */
  lemma {:induction false} IdsStayUniqueOverRuns(db: Db, es: seq<Event>)
    requires UniqueIds(db.calls)
    ensures UniqueIds(ApplyAll(db, es).calls)
    decreases |es|
  {
    if es != [] {
      IdsStayUniqueOverRuns(Apply(db, es[0]), es[1..]);
    }
  }

  /** Once linked, over every run: the same row, for good. */
  lemma {:induction false} LinksAreFinalOverRuns(db: Db, es: seq<Event>, i: nat)
    requires i < |db.calls| && db.calls[i].findingId.Some?
    ensures i < |ApplyAll(db, es).calls| && ApplyAll(db, es).calls[i] == db.calls[i]
    decreases |es|
  {
    if es != [] {
      LinksAreFinalOverRuns(Apply(db, es[0]), es[1..], i);
    }
  }

  /** A committed save leaves a call unlinked exactly when it was unlinked and no finding of the
      batch names it; a newly linked call points to the row of the first finding naming it. */
  lemma {:induction false} SaveLinksWhatItNames(db: Db, b: Batch, i: nat)
    requires Upsert(db.rows, b).Ok? && i < |db.calls| && db.calls[i].id != ""
    ensures var c, k := Apply(db, Save(b)).calls[i], FirstNaming(b.findings, |b.findings|, db.calls[i].id);
            && (c.findingId.None? <==> db.calls[i].findingId.None? && forall m :: 0 <= m < |b.findings| ==> b.findings[m].evidence.llmCall != c.id)
            && (db.calls[i].findingId.None? && c.findingId.Some? ==>
                  k < |b.findings| && c.findingId == Some(|db.rows| + k) && |db.rows| + k < |Apply(db, Save(b)).rows|
                  && Apply(db, Save(b)).rows[|db.rows| + k] == BatchRows(b, 0)[k])
  {
    UpsertSettles(db.rows, b);
  }
}
