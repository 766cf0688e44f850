/**
 One semantic run: rule detectors one after the other, LLM detectors gathered in whatever order
 they complete, a failing detector dropped; then the findings are saved and the calls linked.
 */
module Orchestrator {
  import opened Models
  import opened Ledger
  import opened FindingStore
  import opened Linking

  /** What running a detector comes to. */
  datatype Result = Hits(findings: seq<Finding>) | Raised

  datatype Detector = Detector(isLlm: bool, result: Result)

  function Output(d: Detector): seq<Finding> {
    if d.result.Hits? then d.result.findings else []
  }

  function OfKind(ds: seq<Detector>, llm: bool): seq<Detector> {
    if ds == [] then []
    else OfKind(ds[..|ds| - 1], llm) + if ds[|ds| - 1].isLlm == llm then [ds[|ds| - 1]] else []
  }

  /** The outputs in order; those that raised add nothing. */
  function Concat(ds: seq<Detector>): seq<Finding> {
    if ds == [] then [] else Concat(ds[..|ds| - 1]) + Output(ds[|ds| - 1])
  }

  lemma {:induction false} ConcatExtends(ds: seq<Detector>, n: nat)
    requires n < |ds|
    ensures Concat(ds[..n + 1]) == Concat(ds[..n]) + Output(ds[n])
  {
    assert ds[..n + 1][..n] == ds[..n];
  }

  /** What the detectors of one kind found, in list order. */
  function Found(ds: seq<Detector>, llm: bool): seq<Finding> {
    if ds == [] then []
    else Found(ds[..|ds| - 1], llm) + if ds[|ds| - 1].isLlm == llm then Output(ds[|ds| - 1]) else []
  }

  lemma {:induction false} FoundExtends(ds: seq<Detector>, n: nat, llm: bool)
    requires n < |ds|
    ensures Found(ds[..n + 1], llm) == Found(ds[..n], llm) + if ds[n].isLlm == llm then Output(ds[n]) else []
  {
    assert ds[..n + 1][..n] == ds[..n];
  }

  lemma {:induction false} FoundByKind(ds: seq<Detector>, llm: bool)
    ensures Concat(OfKind(ds, llm)) == Found(ds, llm)
  {
    if ds != [] {
      var front, d := OfKind(ds[..|ds| - 1], llm), ds[|ds| - 1];
      FoundByKind(ds[..|ds| - 1], llm);
      if d.isLlm == llm {
        assert (front + [d])[..|front|] == front;
      } else {
        assert OfKind(ds, llm) == front + [] == front;
        assert Found(ds, llm) == Found(ds[..|ds| - 1], llm) + [];
      }
    }
  }

  // ----- gathering -----

  /** Each of the n tasks completes once. */
  ghost predicate CompletionOrder(order: seq<nat>, n: nat) {
    && |order| == n
    && (forall k :: 0 <= k < n ==> order[k] < n)
    && (forall i :: 0 <= i < n ==> i in order)
  }

  /** asyncio.gather: a completing task fills the slot of its position. */
  method Gather(tasks: seq<Detector>, order: seq<nat>) returns (results: seq<Result>)
    requires CompletionOrder(order, |tasks|)
    ensures |results| == |tasks| && forall i :: 0 <= i < |tasks| ==> results[i] == tasks[i].result
  {
    var slots := new Result[|tasks|](_ => Raised);
    for k := 0 to |order|
      invariant forall m :: 0 <= m < k ==> slots[order[m]] == tasks[order[m]].result
    {
      slots[order[k]] := tasks[order[k]].result;
    }
    forall i | 0 <= i < |tasks| ensures slots[i] == tasks[i].result {
      assert i in order;
    }
    return slots[..];
  }

  method RunRules(rules: seq<Detector>) returns (results: seq<Finding>)
    ensures results == Concat(rules)
  {
    results := [];
    for k := 0 to |rules|
      invariant results == Concat(rules[..k])
    {
      ConcatExtends(rules, k);
      match rules[k].result {
        case Hits(findings) => results := results + findings;
        case Raised =>
      }
    }
    assert rules[..|rules|] == rules;
  }

  method RunLlms(llms: seq<Detector>, order: seq<nat>) returns (results: seq<Finding>)
    requires CompletionOrder(order, |llms|)
    ensures results == Concat(llms)
  {
    results := [];
    if llms != [] {
      var gathered := Gather(llms, order);
      for k := 0 to |llms|
        invariant results == Concat(llms[..k])
      {
        ConcatExtends(llms, k);
        match gathered[k] {
          case Hits(findings) => results := results + findings;
          case Raised =>
        }
      }
      assert llms[..|llms|] == llms;
    }
  }

  /** The result does not depend on the completion order. */
  method RunDetectors(ds: seq<Detector>, order: seq<nat>) returns (results: seq<Finding>)
    requires CompletionOrder(order, |OfKind(ds, true)|)
    ensures results == Found(ds, false) + Found(ds, true)
  {
    FoundByKind(ds, false);
    FoundByKind(ds, true);
    var fromRules := RunRules(OfKind(ds, false));
    var fromLlms := RunLlms(OfKind(ds, true), order);
    return fromRules + fromLlms;
  }

  // ----- where each detector's findings are -----

  /** Detector i runs before detector j: rules first, then list order. */
  predicate RunsBefore(ds: seq<Detector>, i: nat, j: nat)
    requires i < |ds| && j < |ds|
  {
    (!ds[i].isLlm && ds[j].isLlm) || (ds[i].isLlm == ds[j].isLlm && i < j)
  }

  /** How many findings the first n detectors that run before detector j contribute. */
  function Before(ds: seq<Detector>, n: nat, j: nat): nat
    requires n <= |ds| && j < |ds|
  {
    if n == 0 then 0 else Before(ds, n - 1, j) + if RunsBefore(ds, n - 1, j) then |Output(ds[n - 1])| else 0
  }

  /** The block stands at this place. */
  predicate BlockAt(all: seq<Finding>, at: nat, block: seq<Finding>) {
    at + |block| <= |all| && all[at..at + |block|] == block
  }

  lemma {:induction false} BlockInConcat(front: seq<Finding>, back: seq<Finding>, at: nat, block: seq<Finding>)
    ensures BlockAt(front, at, block) ==> BlockAt(front + back, at, block)
    ensures BlockAt(back, at, block) ==> BlockAt(front + back, |front| + at, block)
  {
    if BlockAt(front, at, block) {
      assert (front + back)[at..at + |block|] == front[at..at + |block|];
    }
    if BlockAt(back, at, block) {
      assert (front + back)[|front| + at..|front| + at + |block|] == back[at..at + |block|];
    }
  }

  /** Within one kind, the findings of detector j follow those of the earlier ones. */
  lemma {:induction false} BlockOfKind(ds: seq<Detector>, j: nat, n: nat)
    requires j < n <= |ds|
    ensures BlockAt(Found(ds[..n], ds[j].isLlm), |Found(ds[..j], ds[j].isLlm)|, Output(ds[j]))
  {
    var kind, last := ds[j].isLlm, ds[n - 1];
    FoundExtends(ds, n - 1, kind);
    if j < n - 1 {
      BlockOfKind(ds, j, n - 1);
      BlockInConcat(Found(ds[..n - 1], kind), if last.isLlm == kind then Output(last) else [], |Found(ds[..j], kind)|, Output(ds[j]));
    } else {
      BlockInConcat(Found(ds[..j], kind), Output(last), 0, Output(last));
    }
  }

  /** The findings before detector j, counted by kind. */
  lemma {:induction false} BeforeByKinds(ds: seq<Detector>, n: nat, j: nat)
    requires n <= |ds| && j < |ds|
    ensures Before(ds, n, j) ==
            |Found(ds[..if n < j then n else j], ds[j].isLlm)| + if ds[j].isLlm then |Found(ds[..n], false)| else 0
  {
    if n > 0 {
      BeforeByKinds(ds, n - 1, j);
      FoundExtends(ds, n - 1, false);
      FoundExtends(ds, n - 1, true);
    }
  }

  lemma {:induction false} PlaceInKind(ds: seq<Detector>, j: nat) returns (at: nat)
    requires j < |ds|
    ensures BlockAt(Found(ds, ds[j].isLlm), at, Output(ds[j]))
    ensures Before(ds, |ds|, j) == at + if ds[j].isLlm then |Found(ds, false)| else 0
  {
    assert ds[..|ds|] == ds;
    at := |Found(ds[..j], ds[j].isLlm)|;
    BlockOfKind(ds, j, |ds|);
    BeforeByKinds(ds, |ds|, j);
  }

  /** Wherever a detector that does not raise stands in the list, its findings are in the result, in their
      order, right behind those of the detectors that run before it. */
  lemma {:induction false} EveryOutputInPlace(ds: seq<Detector>, j: nat)
    requires j < |ds| && ds[j].result.Hits?
    ensures BlockAt(Found(ds, false) + Found(ds, true), Before(ds, |ds|, j), ds[j].result.findings)
  {
    var at := PlaceInKind(ds, j);
    BlockInConcat(Found(ds, false), Found(ds, true), at, Output(ds[j]));
  }

  function TotalHits(ds: seq<Detector>): nat {
    if ds == [] then 0
    else TotalHits(ds[..|ds| - 1]) + match ds[|ds| - 1].result case Hits(findings) => |findings| case Raised => 0
  }

  /** And nothing else is: a detector that raises adds nothing. */
  lemma {:induction false} NothingElse(ds: seq<Detector>)
    ensures |Found(ds, false) + Found(ds, true)| == TotalHits(ds)
  {
    if ds != [] {
      NothingElse(ds[..|ds| - 1]);
      assert ds[..|ds|] == ds;
      FoundExtends(ds, |ds| - 1, false);
      FoundExtends(ds, |ds| - 1, true);
    }
  }

  // ----- a whole run -----

  class SemanticAnalysis {
    const findings: FindingTable
    const calls: CallTable

    constructor (findings: FindingTable, calls: CallTable)
      ensures this.findings == findings && this.calls == calls
    {
      this.findings, this.calls := findings, calls;
    }

    /** Detect, save, link; a rejected save rolls back, links nothing and raises. */
    method Run(server: ServerId, artifactRef: string, at: Time, ds: seq<Detector>, order: seq<nat>, persist: bool)
      returns (results: Option<seq<Finding>>)
      requires CompletionOrder(order, |OfKind(ds, true)|)
      modifies findings, calls
      ensures var b := Batch(server, artifactRef, at, Found(ds, false) + Found(ds, true));
              && results == (if persist && Upsert(old(findings.rows), b).IndexViolation? then None else Some(b.findings))
              && Db(findings.rows, calls.calls) ==
                   if persist then Apply(Db(old(findings.rows), old(calls.calls)), Save(b))
                   else Db(old(findings.rows), old(calls.calls))
    {
      var hits := RunDetectors(ds, order);
      if persist {
        var base := |findings.rows|;
        var ids := findings.Upsert(Batch(server, artifactRef, at, hits));
        if ids.None? {
          return None;
        }
        assert ids.value == IdsFrom(base, |hits|);
        calls.Link(ids.value, hits);
      }
      return Some(hits);
    }
  }
}
