/**
 The ingestor, aggregator and router as the code runs them: loops over rows that update
 tables in place, inside a transaction that a failure rolls back. Each method is tied
 to the state machine of module Pipeline.
 */
module Ingestor {
  import opened Models
  import opened Scoring
  import opened Digest
  import opened Triage
  import opened Pipeline
  import opened FindingStore

  /** The tables a tick writes. */
  class RiskTables {
    var risks: map<ServerId, ServerRisk>
    ghost var popRead: map<ServerId, real>
    var history: seq<HistoryRow>
    var queue: seq<TriageRow>

    constructor ()
      ensures Contents() == INITIAL.store
    {
      risks, popRead, history, queue := map[], map[], [], [];
    }

    ghost function Contents(): Store
      reads this
    {
      Store(risks, popRead, history, queue)
    }

    method Rollback(risks: map<ServerId, ServerRisk>, ghost popRead: map<ServerId, real>, history: seq<HistoryRow>, queue: seq<TriageRow>)
      modifies this
      ensures Contents() == Store(risks, popRead, history, queue)
    {
      this.risks, this.popRead, this.history, this.queue := risks, popRead, history, queue;
    }
  }

  class CrossValidator {
    const rules: seq<BoostRule>

    /** An empty list of rules means the default ones. */
    constructor (rules: seq<BoostRule>)
      ensures this.rules == if rules == [] then DefaultRules() else rules
    {
      this.rules := if rules == [] then DefaultRules() else rules;
    }

    method TotalBoost(hits: seq<Hit>) returns (boost: real, triggered: seq<string>)
      ensures boost == Boost(rules, hits) && triggered == TriggeredNames(rules, hits)
    {
      boost, triggered := 0.0, [];
      for i := 0 to |rules|
        invariant boost + Boost(rules[i..], hits) == Boost(rules, hits)
        invariant triggered + TriggeredNames(rules[i..], hits) == TriggeredNames(rules, hits)
      {
        assert rules[i..][0] == rules[i] && rules[i..][1..] == rules[i + 1..];
        if Triggered(rules[i], hits) {
          boost := boost + rules[i].boost;
          triggered := triggered + [rules[i].name];
        }
      }
    }
  }

  /** The configuration that takes effect: an ingestor without rules of its own uses the default ones. */
  function Effective(cfg: Config): (r: Config)
    ensures r.rules != [] && r.weights == cfg.weights && r.skew == cfg.skew
    ensures cfg.rules != [] ==> r == cfg
    ensures cfg.rules == [] ==> r.rules == DefaultRules()
  {
    if cfg.rules == [] then cfg.(rules := DefaultRules()) else cfg
  }

  class Aggregator {
    const weights: Weights
    const cv: CrossValidator

    constructor (cfg: Config)
      ensures Uses(Effective(cfg))
    {
      this.weights := cfg.weights;
      this.cv := new CrossValidator(cfg.rules);
    }

    ghost predicate Uses(cfg: Config) {
      weights == cfg.weights && cv.rules == cfg.rules
    }

    method BaseScore(hits: seq<Hit>) returns (base: real)
      ensures base == Base(weights, hits)
    {
      base := 0.0;
      for i := 0 to |hits|
        invariant base + Base(weights, hits[i..]) == Base(weights, hits)
      {
        assert hits[i..][0] == hits[i] && hits[i..][1..] == hits[i + 1..];
        base := base + Contribution(weights, hits[i]);
      }
    }

    /** Scores one server and writes its risk row and, if asked, its history row. */
    method Aggregate(ghost cfg: Config, ghost w: World, findings: FindingTable, tables: RiskTables,
                     popularity: map<ServerId, real>, server: ServerId, at: Time, writeHistory: bool)
      returns (agg: Triage.Aggregate)
      requires Uses(cfg) && w.rows == findings.rows && w.popularity == popularity
      modifies tables
      ensures agg == AggregateOf(cfg, server, ActiveHits(w.rows, server), Popularity(popularity, server))
      ensures var full := AggregateServer(cfg, w, old(tables.Contents()), server, at);
              tables.Contents() == if writeHistory then full else full.(history := old(tables.history))
    {
      var hits := ActiveHits(findings.rows, server);
      var base := BaseScore(hits);
      var boost, triggered := cv.TotalBoost(hits);
      var pop := Popularity(popularity, server);
      var score := Scale(base, boost, pop);
      var digest := TopFive(weights, hits);
      var priority := ServerPriority(hits);
      tables.risks := tables.risks[server := ServerRisk(score, priority, weights.version, at)];
      tables.popRead := tables.popRead[server := pop];
      if writeHistory {
        tables.history := tables.history + [HistoryRow(server, at, score, priority, |hits|, digest, weights.version)];
      }
      agg := Triage.Aggregate(server, score, base, boost, triggered, pop, |hits|, weights.version, digest);
    }
  }

  /** Resolved, and not within the 24 hours (in microseconds) before `wall`. */
  predicate Quiet(row: TriageRow, wall: Time) {
    row.status == Resolved && (row.resolvedAt == None || row.resolvedAt.value < wall - 86_400_000_000)
  }

  class TriageRouter {
    constructor () {}

    /** True exactly when a row is enqueued. */
    method Route(tables: RiskTables, agg: Triage.Aggregate, at: Time, wall: Time) returns (created: bool)
      modifies tables`queue
      ensures tables.queue == Triage.Route(old(tables.queue), agg, at, wall)
      ensures created <==>
              var p := RoutePriority(agg.top, agg.score);
              && agg.score >= 1.0 && agg.count != 0 && (p == P0 || p == P1)
              && (forall i :: 0 <= i < |old(tables.queue)| && old(tables.queue)[i].server == agg.server && old(tables.queue)[i].priority == p ==>
                    Quiet(old(tables.queue)[i], wall))
      ensures created ==>
              tables.queue == old(tables.queue) + [TriageRow(agg.server, RoutePriority(agg.top, agg.score), at, Pending, None)]
      ensures !created ==> tables.queue == old(tables.queue)
    {
      if agg.score < 1.0 || agg.count == 0 {
        return false;
      }
      var priority := RoutePriority(agg.top, agg.score);
      if priority != P0 && priority != P1 {
        return false;
      }
      if AlreadyOpen(tables.queue, agg.server, priority) {
        return false;
      }
      if RecentResolution(tables.queue, agg.server, priority, wall) {
        return false;
      }
      tables.queue := tables.queue + [TriageRow(agg.server, priority, at, Pending, None)];
      return true;
    }
  }

  /** Where a tick goes wrong, if it does: before its k-th server, or at the commit. */
  datatype Fault = NoFault | InBody(k: nat) | AtCommit

  class Ingestor {
    const aggregator: Aggregator
    const router: TriageRouter
    ghost const cfg: Config
    var lastSeen: Time

    constructor (cfg: Config)
      ensures this.cfg == Effective(cfg) && aggregator.Uses(this.cfg) && lastSeen == EPOCH
    {
      this.aggregator := new Aggregator(cfg);
      this.router := new TriageRouter();
      this.cfg := Effective(cfg);
      this.lastSeen := EPOCH;
    }

    /** The servers to process, in the order the query returned them, and the next cursor. */
    method PollDirty(groups: seq<Group>) returns (servers: seq<ServerId>, cursor: Time)
      ensures |servers| == |groups| && forall g :: 0 <= g < |groups| ==> servers[g] == groups[g].server
      ensures cursor == NewCursor(lastSeen, groups)
    {
      servers, cursor := [], lastSeen;
      for i := 0 to |groups|
        invariant |servers| == i && forall g :: 0 <= g < i ==> servers[g] == groups[g].server
        invariant cursor == NewCursor(lastSeen, groups[..i])
      {
        assert groups[..i + 1][..i] == groups[..i];
        servers := servers + [groups[i].server];
        if groups[i].lastChange > cursor {
          cursor := groups[i].lastChange;
        }
      }
      assert groups[..|groups|] == groups;
    }

    method ProcessOne(ghost w: World, findings: FindingTable, tables: RiskTables, popularity: map<ServerId, real>,
                      server: ServerId, at: Time, wall: Time)
      requires aggregator.Uses(cfg) && w.rows == findings.rows && w.popularity == popularity
      modifies tables
      ensures tables.Contents() == Pipeline.ProcessServer(cfg, w, old(tables.Contents()), server, at, wall)
    {
      var agg := aggregator.Aggregate(cfg, w, findings, tables, popularity, server, at, true);
      var _ := router.Route(tables, agg, at, wall);
    }

    /** The loop of a tick over the dirty servers, up to the fault if it strikes there. */
    method ProcessDirty(ghost w: World, findings: FindingTable, tables: RiskTables, popularity: map<ServerId, real>,
                        groups: seq<Group>, servers: seq<ServerId>, at: Time, fault: Fault)
      returns (raised: bool)
      requires aggregator.Uses(cfg) && w.rows == findings.rows && w.popularity == popularity
      requires |servers| == |groups| && forall g :: 0 <= g < |groups| ==> servers[g] == groups[g].server
      modifies tables
      ensures raised <==> fault.InBody? && fault.k < |groups|
      ensures !raised ==> tables.Contents() == ProcessAll(cfg, w, old(tables.Contents()), groups, at)
    {
      for i := 0 to |servers|
        invariant tables.Contents() == ProcessAll(cfg, w, old(tables.Contents()), groups[..i], at)
        invariant fault.InBody? ==> i <= fault.k
      {
        if fault == InBody(i) {
          return true;
        }
        assert groups[..i + 1][..i] == groups[..i];
        ProcessOne(w, findings, tables, popularity, servers[i], at, groups[i].wall);
      }
      assert groups[..|groups|] == groups;
      return false;
    }

    ghost function View(findings: FindingTable, tables: RiskTables, popularity: map<ServerId, real>, now: Time): World
      reads this, findings, tables
    {
      World(findings.rows, tables.Contents(), popularity, now, lastSeen)
    }

    /** One tick: the step of the state machine that the fault calls for. The cursor moves before
        the commit, so a failed commit rolls the tables back but not the cursor. */
    method Tick(findings: FindingTable, tables: RiskTables, popularity: map<ServerId, real>,
                groups: seq<Group>, now: Time, at: Time, fault: Fault)
      returns (processed: Option<nat>)
      requires aggregator.Uses(cfg)
      modifies this, tables
      ensures View(findings, tables, popularity, at) == Next(cfg, old(View(findings, tables, popularity, now)), Outcome(fault, at, groups))
      ensures processed == if fault == AtCommit || (fault.InBody? && fault.k < |groups|) then None else Some(|groups|)
    {
      ghost var w := View(findings, tables, popularity, now);
      OutcomeNext(cfg, w, fault, at, groups);
      var risks, history, queue := tables.risks, tables.history, tables.queue;
      ghost var popRead := tables.popRead;
      var servers, cursor := PollDirty(groups);
      var raised := ProcessDirty(w, findings, tables, popularity, groups, servers, at, fault);
      if !raised {
        lastSeen := cursor;
      }
      if raised || fault == AtCommit {
        tables.Rollback(risks, popRead, history, queue);
        assert View(findings, tables, popularity, at) == w.(now := at, cursor := if raised then w.cursor else cursor);
        return None;
      }
      assert View(findings, tables, popularity, at) == w.(store := ProcessAll(cfg, w, w.store, groups, at), now := at, cursor := cursor);
      return Some(|servers|);
    }
  }

  lemma {:induction false} OutcomeNext(cfg: Config, w: World, fault: Fault, at: Time, groups: seq<Group>)
    ensures Next(cfg, w, Outcome(fault, at, groups)) ==
            if fault.InBody? && fault.k < |groups| then w.(now := at)
            else if fault == AtCommit then w.(now := at, cursor := NewCursor(w.cursor, groups))
            else w.(store := ProcessAll(cfg, w, w.store, groups, at), now := at, cursor := NewCursor(w.cursor, groups))
  {
  }

  /** The step of the state machine that a tick with this fault amounts to. */
  function Outcome(fault: Fault, at: Time, groups: seq<Group>): Step {
    match fault
    case NoFault => Step.Tick(at, groups)
    case InBody(k) => if k < |groups| then TickFails(at) else Step.Tick(at, groups)
    case AtCommit => TickCommitFails(at, groups)
  }
}
