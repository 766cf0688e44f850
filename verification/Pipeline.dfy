/**
 The risk pipeline as one state machine: scans and status moves write the findings
 table, the ingestor's ticks poll it by a cursor over update stamps, re-aggregate
 every dirty server and route it to triage.
 */
module Pipeline {
  import opened Models
  import opened Ledger
  import opened Scoring
  import opened Digest
  import opened Triage

  /** `rules` are those in effect; `skew` bounds how far the router's clock runs ahead of a
      transaction's now(). */
  datatype Config = Config(weights: Weights, rules: seq<BoostRule>, skew: nat)

  datatype ServerRisk = ServerRisk(score: real, priority: Priority, version: string, updatedAt: Time)

  datatype HistoryRow = HistoryRow(
    server: ServerId, scoredAt: Time, score: real, priority: Priority, count: nat, digest: seq<Hit>, version: string)

  /** The tables a tick writes. `popRead` is a history variable: the popularity the last
      aggregation of each server read. */
  datatype Store = Store(
    risks: map<ServerId, ServerRisk>,
    popRead: map<ServerId, real>,
    history: seq<HistoryRow>,
    queue: seq<TriageRow>)

  datatype World = World(
    rows: seq<Row>,
    store: Store,
    popularity: map<ServerId, real>,
    now: Time,
    cursor: Time)

  const EPOCH: Time := 0

  const INITIAL := World([], Store(map[], map[], [], []), map[], EPOCH, EPOCH)

  // ----- aggregation -----

  /** SELECT ... WHERE server_id = :sid AND status = 'active'. */
  function ActiveHits(rows: seq<Row>, server: ServerId): seq<Hit> {
    if rows == [] then []
    else
      var n := |rows| - 1;
      ActiveHits(rows[..n], server)
      + if rows[n].server == server && rows[n].status.Active?
        then [Hit(n, rows[n].finding.detector, rows[n].finding.severity, rows[n].finding.confidence)] else []
  }

  /** The finding of an active row of the server. */
  ghost predicate IsHitOf(rows: seq<Row>, server: ServerId, h: Hit) {
    h.id < |rows| &&
    var r := rows[h.id];
    && r.server == server && r.status == Active
    && h.detector == r.finding.detector && h.severity == r.finding.severity && h.confidence == r.finding.confidence
  }

  /** The server's active rows only, in the order of their ids, each with what was found. */
  lemma {:induction false} HitsAreActiveRows(rows: seq<Row>, server: ServerId)
    ensures forall k :: 0 <= k < |ActiveHits(rows, server)| ==> IsHitOf(rows, server, ActiveHits(rows, server)[k])
    ensures forall j, k :: 0 <= j < k < |ActiveHits(rows, server)| ==> ActiveHits(rows, server)[j].id < ActiveHits(rows, server)[k].id
  {
    if rows != [] {
      var front := ActiveHits(rows[..|rows| - 1], server);
      HitsAreActiveRows(rows[..|rows| - 1], server);
      assert forall k :: 0 <= k < |front| ==> IsHitOf(rows[..|rows| - 1], server, front[k]);
    }
  }

  /** And each of them. */
  lemma {:induction false} ActiveRowIsHit(rows: seq<Row>, server: ServerId, i: nat) returns (k: nat)
    requires i < |rows| && rows[i].server == server && rows[i].status == Active
    ensures k < |ActiveHits(rows, server)| && ActiveHits(rows, server)[k].id == i
  {
    if i < |rows| - 1 {
      k := ActiveRowIsHit(rows[..|rows| - 1], server, i);
    } else {
      k := |ActiveHits(rows[..i], server)|;
    }
  }

  /** The stored popularity clamped to [0, 1]; 0 when there is none. */
  function Popularity(pop: map<ServerId, real>, server: ServerId): (p: real)
    ensures 0.0 <= p <= 1.0
    ensures server !in pop ==> p == 0.0
    ensures server in pop && 0.0 <= pop[server] <= 1.0 ==> p == pop[server]
    ensures server in pop && pop[server] < 0.0 ==> p == 0.0
    ensures server in pop && pop[server] > 1.0 ==> p == 1.0
  {
    if server !in pop || pop[server] < 0.0 then 0.0
    else if pop[server] > 1.0 then 1.0 else pop[server]
  }

  function AggregateOf(cfg: Config, server: ServerId, hits: seq<Hit>, pop: real): Aggregate {
    Aggregate(server, Score(cfg.weights, cfg.rules, hits, pop), Base(cfg.weights, hits), Boost(cfg.rules, hits),
              TriggeredNames(cfg.rules, hits), pop, |hits|, cfg.weights.version, TopFive(cfg.weights, hits))
  }

  /** Writes the server's risk and appends a history row. */
  function WriteRisk(store: Store, agg: Aggregate, priority: Priority, at: Time): Store {
    store.(
      risks := store.risks[agg.server := ServerRisk(agg.score, priority, agg.version, at)],
      popRead := store.popRead[agg.server := agg.popularity],
      history := store.history + [HistoryRow(agg.server, at, agg.score, priority, agg.count, agg.top, agg.version)])
  }

  function AggregateServer(cfg: Config, w: World, store: Store, server: ServerId, at: Time): Store {
    var hits := ActiveHits(w.rows, server);
    WriteRisk(store, AggregateOf(cfg, server, hits, Popularity(w.popularity, server)), ServerPriority(hits), at)
  }

  /** The aggregate, field by field. */
  lemma {:induction false} AggregateIs(cfg: Config, server: ServerId, hits: seq<Hit>, pop: real)
    ensures var agg := AggregateOf(cfg, server, hits, pop);
            && agg.score == Score(cfg.weights, cfg.rules, hits, pop) && agg.base == Base(cfg.weights, hits) && agg.boost == Boost(cfg.rules, hits)
            && agg.boostRules == TriggeredNames(cfg.rules, hits) && agg.popularity == pop
            && agg.server == server && agg.count == |hits| && agg.version == cfg.weights.version
            && agg.top == TopFive(cfg.weights, hits)
  {
  }

  /** Scoring a server replaces its risk row and appends one history row: the score, the server's own
      priority, the number of its active findings and the digest, under the weights' version. */
  lemma {:induction false} AggregationWrites(cfg: Config, w: World, store: Store, server: ServerId, at: Time)
    ensures var hits := ActiveHits(w.rows, server);
            var score := Score(cfg.weights, cfg.rules, hits, Popularity(w.popularity, server));
            var s' := AggregateServer(cfg, w, store, server, at);
            && s'.risks == store.risks[server := ServerRisk(score, ServerPriority(hits), cfg.weights.version, at)]
            && s'.popRead == store.popRead[server := Popularity(w.popularity, server)]
            && s'.history == store.history + [HistoryRow(server, at, score, ServerPriority(hits), |hits|, TopFive(cfg.weights, hits), cfg.weights.version)]
            && s'.queue == store.queue
  {
  }

  function ProcessServer(cfg: Config, w: World, store: Store, server: ServerId, at: Time, wall: Time): Store {
    var agg := AggregateOf(cfg, server, ActiveHits(w.rows, server), Popularity(w.popularity, server));
    var scored := AggregateServer(cfg, w, store, server, at);
    scored.(queue := Route(scored.queue, agg, at, wall))
  }

  // ----- polling -----

  /** One row of the GROUP BY: a server and its latest stamp beyond the cursor. `wall` is what
      the router's clock will read when the server is processed. */
  datatype Group = Group(server: ServerId, lastChange: Time, wall: Time)

  /** The rows the poll query may return, in any order. */
  ghost predicate PollReturns(rows: seq<Row>, cursor: Time, groups: seq<Group>) {
    && (forall g, h :: 0 <= g < h < |groups| ==> groups[g].server != groups[h].server)
    && (forall g :: 0 <= g < |groups| ==>
          && (exists i :: 0 <= i < |rows| && rows[i].server == groups[g].server && rows[i].updatedAt == groups[g].lastChange)
          && groups[g].lastChange > cursor
          && (forall i :: 0 <= i < |rows| && rows[i].server == groups[g].server ==> rows[i].updatedAt <= groups[g].lastChange))
    && (forall i :: 0 <= i < |rows| && rows[i].updatedAt > cursor ==>
          exists g :: 0 <= g < |groups| && groups[g].server == rows[i].server)
  }

  function NewCursor(cursor: Time, groups: seq<Group>): Time {
    if groups == [] then cursor
    else
      var c := NewCursor(cursor, groups[..|groups| - 1]);
      if groups[|groups| - 1].lastChange > c then groups[|groups| - 1].lastChange else c
  }

  function ProcessAll(cfg: Config, w: World, store: Store, groups: seq<Group>, at: Time): Store {
    if groups == [] then store
    else
      var n := |groups| - 1;
      ProcessServer(cfg, w, ProcessAll(cfg, w, store, groups[..n], at), groups[n].server, at, groups[n].wall)
  }

  // ----- steps -----

  datatype Step =
    | Write(op: Op)                                      // a scan or status move, in its own transaction
    | LateWrite(op: Op)                                  // one whose transaction began before what was polled last
    | AggregateOnce(at: Time, server: ServerId)          // the one-off command
    | Tick(at: Time, groups: seq<Group>)                 // a tick that commits
    | TickFails(at: Time)                                // an exception inside the tick: rolled back
    | TickCommitFails(at: Time, groups: seq<Group>)      // the commit itself fails
    | Restart                                            // a new ingestor, polling from the epoch
    | ClaimRow(at: Time, k: nat)
    | ResolveRow(at: Time, k: nat, stamp: Option<Time>)
    | SetPopularity(server: ServerId, pop: real)

  function OpTime(op: Op): Time {
    match op
    case Scan(b) => b.at
    case Suppress(at, _, _) => at
    case Confirm(at, _) => at
    case MarkFp(at, _, _) => at
    case Reactivate(at, _) => at
  }

  /** The history table's primary key (server, scored_at). */
  predicate HistoryFree(store: Store, server: ServerId, at: Time) {
    forall i :: 0 <= i < |store.history| ==> !(store.history[i].server == server && store.history[i].scoredAt == at)
  }

  ghost predicate Enabled(cfg: Config, w: World, s: Step) {
    match s
    case Write(op) => w.cursor < OpTime(op)
    case LateWrite(op) => EPOCH < OpTime(op) <= w.cursor
    case AggregateOnce(at, server) => w.now <= at && HistoryFree(w.store, server, at)
    case Tick(at, groups) =>
      && w.now <= at
      && PollReturns(w.rows, w.cursor, groups)
      && forall g :: 0 <= g < |groups| ==> HistoryFree(w.store, groups[g].server, at) && groups[g].wall <= at + cfg.skew
    case TickFails(at) => w.now <= at
    case TickCommitFails(at, groups) => w.now <= at && PollReturns(w.rows, w.cursor, groups)
    case Restart => true
    case ClaimRow(at, _) => w.now <= at
    case ResolveRow(at, _, _) => w.now <= at
    case SetPopularity(_, _) => true
  }

  function Next(cfg: Config, w: World, s: Step): World {
    match s
    case Write(op) => w.(rows := Commit(w.rows, op), now := if OpTime(op) < w.now then w.now else OpTime(op))
    case LateWrite(op) => w.(rows := Commit(w.rows, op))
    case AggregateOnce(at, server) => w.(store := AggregateServer(cfg, w, w.store, server, at), now := at)
    case Tick(at, groups) =>
      w.(store := ProcessAll(cfg, w, w.store, groups, at), now := at, cursor := NewCursor(w.cursor, groups))
    case TickFails(at) => w.(now := at)
    case TickCommitFails(at, groups) => w.(now := at, cursor := NewCursor(w.cursor, groups))
    case Restart => w.(cursor := EPOCH)
    case ClaimRow(at, k) => w.(store := w.store.(queue := Claim(w.store.queue, k)), now := at)
    case ResolveRow(at, k, stamp) => w.(store := w.store.(queue := Resolve(w.store.queue, k, stamp)), now := at)
    case SetPopularity(server, pop) => w.(popularity := w.popularity[server := pop])
  }

  ghost predicate Legal(cfg: Config, w: World, steps: seq<Step>)
    decreases |steps|
  {
    steps != [] ==> Enabled(cfg, w, steps[0]) && Legal(cfg, Next(cfg, w, steps[0]), steps[1..])
  }

  function Run(cfg: Config, w: World, steps: seq<Step>): World
    decreases |steps|
  {
    if steps == [] then w else Run(cfg, Next(cfg, w, steps[0]), steps[1..])
  }

  // ----- invariants -----

  ghost predicate ClockOk(w: World) {
    && EPOCH <= w.cursor <= w.now
    && forall i :: 0 <= i < |w.rows| ==> EPOCH < w.rows[i].updatedAt <= w.now
  }

  /** The server has findings, and every stamp of theirs is at or below the cursor. */
  ghost predicate Seen(rows: seq<Row>, cursor: Time, server: ServerId) {
    && (exists i :: 0 <= i < |rows| && rows[i].server == server)
    && (forall i :: 0 <= i < |rows| && rows[i].server == server ==> rows[i].updatedAt <= cursor)
  }

  /** The stored score and priority are those of the server's current active findings. */
  ghost predicate UpToDate(cfg: Config, rows: seq<Row>, store: Store, server: ServerId) {
    && server in store.risks && server in store.popRead
    && var hits := ActiveHits(rows, server);
       && store.risks[server].score == Score(cfg.weights, cfg.rules, hits, store.popRead[server])
       && store.risks[server].priority == ServerPriority(hits)
       && store.risks[server].version == cfg.weights.version
  }

  ghost predicate NoLostUpdate(cfg: Config, w: World) {
    forall server :: Seen(w.rows, w.cursor, server) ==> UpToDate(cfg, w.rows, w.store, server)
  }

  /** The same, but for the servers at risk. */
  ghost predicate NoLostUpdateBut(cfg: Config, w: World, risk: set<ServerId>) {
    forall server :: server !in risk && Seen(w.rows, w.cursor, server) ==> UpToDate(cfg, w.rows, w.store, server)
  }

  function Servers(groups: seq<Group>): set<ServerId> {
    set g | 0 <= g < |groups| :: groups[g].server
  }

  /** The server whose rows an operation changes, if it changes any. */
  function Target(rows: seq<Row>, op: Op): Option<ServerId> {
    if Perform(rows, op).IndexViolation? then None
    else match op
      case Scan(b) => if b.findings == [] then None else Some(b.server)
      case Suppress(_, id, _) => Owner(rows, id)
      case Confirm(_, id) => Owner(rows, id)
      case MarkFp(_, id, _) => Owner(rows, id)
      case Reactivate(_, id) => Owner(rows, id)
  }

  function Owner(rows: seq<Row>, id: nat): Option<ServerId> {
    if id < |rows| then Some(rows[id].server) else None
  }

  /** A late write puts its server at risk, a failed commit those it polled; aggregating a server
      takes it out, and so does a restart for all. */
  function RiskAfter(w: World, risk: set<ServerId>, s: Step): set<ServerId> {
    match s
    case LateWrite(op) => if Target(w.rows, op).Some? then risk + {Target(w.rows, op).value} else risk
    case TickCommitFails(_, groups) => risk + Servers(groups)
    case Tick(_, groups) => risk - Servers(groups)
    case AggregateOnce(_, server) => risk - {server}
    case Restart => {}
    case _ => risk
  }

  function AtRisk(cfg: Config, w: World, risk: set<ServerId>, steps: seq<Step>): set<ServerId>
    decreases |steps|
  {
    if steps == [] then risk else AtRisk(cfg, Next(cfg, w, steps[0]), RiskAfter(w, risk, steps[0]), steps[1..])
  }

  /** A late write to the server, or a failed commit of a tick that polled it. */
  ghost predicate Endangers(w: World, s: Step, server: ServerId) {
    match s
    case LateWrite(op) => Target(w.rows, op) == Some(server)
    case TickCommitFails(_, groups) => exists g :: 0 <= g < |groups| && groups[g].server == server
    case _ => false
  }

  /** The server is aggregated, or the ingestor starts again. */
  ghost predicate Clears(s: Step, server: ServerId) {
    match s
    case Tick(_, groups) => exists g :: 0 <= g < |groups| && groups[g].server == server
    case AggregateOnce(_, other) => other == server
    case Restart => true
    case _ => false
  }

  ghost predicate NeverCleared(steps: seq<Step>, server: ServerId) {
    forall k :: 0 <= k < |steps| ==> !Clears(steps[k], server)
  }

  /** Step k endangers the server, and no later one clears it. */
  ghost predicate EndangeredAt(cfg: Config, w: World, steps: seq<Step>, k: nat, server: ServerId) {
    k < |steps| && Endangers(Run(cfg, w, steps[..k]), steps[k], server) && NeverCleared(steps[k + 1..], server)
  }

  /** A server is at risk after a run if and only if some step endangered it that no later one cleared, or
      it was at risk before and no step did. */
  lemma {:induction false} AtRiskIff(cfg: Config, w: World, risk: set<ServerId>, steps: seq<Step>, server: ServerId)
    ensures server in AtRisk(cfg, w, risk, steps) <==>
            (server in risk && NeverCleared(steps, server)) || exists k: nat :: EndangeredAt(cfg, w, steps, k, server)
    decreases |steps|
  {
    if steps != [] {
      var s, rest, w1 := steps[0], steps[1..], Next(cfg, w, steps[0]);
      AtRiskIff(cfg, w1, RiskAfter(w, risk, s), rest, server);
      RiskAfterIff(w, risk, s, server);
      assert NeverCleared(steps, server) <==> !Clears(s, server) && NeverCleared(rest, server) by {
        assert steps == [s] + rest;
      }
      assert EndangeredAt(cfg, w, steps, 0, server) <==> Endangers(w, s, server) && NeverCleared(rest, server) by {
        assert steps[..0] == [];
      }
      forall k: nat ensures EndangeredAt(cfg, w, steps, k + 1, server) <==> EndangeredAt(cfg, w1, rest, k, server) {
        EndangeredLater(cfg, w, steps, k, server);
      }
      forall k: nat | k > 0 ensures EndangeredAt(cfg, w, steps, k, server) <==> EndangeredAt(cfg, w1, rest, k - 1, server) {
        EndangeredLater(cfg, w, steps, k - 1, server);
      }
    }
  }

  lemma {:induction false} RiskAfterIff(w: World, risk: set<ServerId>, s: Step, server: ServerId)
    ensures server in RiskAfter(w, risk, s) <==> (server in risk && !Clears(s, server)) || Endangers(w, s, server)
  {
  }

  lemma {:induction false} EndangeredLater(cfg: Config, w: World, steps: seq<Step>, k: nat, server: ServerId)
    requires steps != []
    ensures EndangeredAt(cfg, w, steps, k + 1, server) <==> EndangeredAt(cfg, Next(cfg, w, steps[0]), steps[1..], k, server)
  {
    if k + 1 < |steps| {
      assert steps[..k + 1][0] == steps[0] && steps[..k + 1][1..] == steps[1..][..k];
      assert steps[k + 2..] == steps[1..][k + 1..];
    }
  }

  // ----- what a write leaves alone -----

  /** Rows of `server` are the same in both tables; rows beyond the first are not its own. */
  ghost predicate SameFor(server: ServerId, rows: seq<Row>, rows': seq<Row>) {
    && |rows| <= |rows'|
    && (forall i :: 0 <= i < |rows| ==> rows'[i].server == rows[i].server)
    && (forall i :: 0 <= i < |rows| && rows[i].server == server ==> rows'[i] == rows[i])
    && (forall i :: |rows| <= i < |rows'| ==> rows'[i].server != server)
  }

  lemma {:induction false} SameHits(server: ServerId, rows: seq<Row>, rows': seq<Row>)
    requires SameFor(server, rows, rows')
    ensures ActiveHits(rows', server) == ActiveHits(rows, server)
    decreases |rows'|
  {
    if rows' != [] {
      var n := |rows'| - 1;
      SameHits(server, if |rows| == |rows'| then rows[..n] else rows, rows'[..n]);
    }
  }

  ghost predicate HasStamp(rows: seq<Row>, server: ServerId, at: Time) {
    exists i :: 0 <= i < |rows| && rows[i].server == server && rows[i].updatedAt == at
  }

  /** A write stamps a row of its target with its own time and leaves every other server's rows alone. */
  lemma {:induction false} WriteStamps(rows: seq<Row>, op: Op, server: ServerId)
    ensures if Target(rows, op) == Some(server)
            then HasStamp(Commit(rows, op), server, OpTime(op))
            else SameFor(server, rows, Commit(rows, op))
  {
    match op
    case Scan(b) => ScanStamps(rows, b, server);
    case Suppress(at, id, reason) => MoveStamps(rows, id, Suppressed, Some(reason), at, server);
    case Confirm(at, id) => MoveStamps(rows, id, Confirmed, if id < |rows| then rows[id].reason else None, at, server);
    case MarkFp(at, id, reason) => MoveStamps(rows, id, FalsePositive, Some(reason), at, server);
    case Reactivate(at, id) => MoveStamps(rows, id, Active, None, at, server);
  }

  lemma {:induction false} ScanStamps(rows: seq<Row>, b: Batch, server: ServerId)
    ensures if Target(rows, Scan(b)) == Some(server)
            then HasStamp(Commit(rows, Scan(b)), server, b.at)
            else SameFor(server, rows, Commit(rows, Scan(b)))
  {
    if Upsert(rows, b).Ok? {
      UpsertSettles(rows, b);
      var settled, added := SettledRows(rows, b, 0), BatchRows(b, 0);
      if b.server == server && b.findings != [] {
        assert (settled + added)[|rows|] == added[0];
      } else {
        OthersSettle(rows, b, server);
        SameForAppended(server, rows, settled, added);
      }
    }
  }

  lemma {:induction false} OthersSettle(rows: seq<Row>, b: Batch, server: ServerId)
    requires b.server != server || b.findings == []
    ensures SameFor(server, rows, SettledRows(rows, b, 0))
    ensures forall i :: 0 <= i < |b.findings| ==> BatchRows(b, 0)[i].server != server
  {
    assert forall i :: 0 <= i < |rows| && rows[i].server == server ==> !MatchedFrom(rows[i], b, 0);
  }

  lemma {:induction false} SameForAppended(server: ServerId, rows: seq<Row>, rows': seq<Row>, added: seq<Row>)
    requires SameFor(server, rows, rows') && |rows| == |rows'|
    requires forall i :: 0 <= i < |added| ==> added[i].server != server
    ensures SameFor(server, rows, rows' + added)
  {
  }

  lemma {:induction false} MoveStamps(rows: seq<Row>, id: nat, status: Status, reason: Option<string>, at: Time, server: ServerId)
    ensures var rows' := Move(rows, id, status, reason, at);
            if Owner(rows, id) == Some(server) then HasStamp(rows', server, at) else SameFor(server, rows, rows')
    ensures SameFor(server, rows, rows)
  {
    if id < |rows| {
      assert Move(rows, id, status, reason, at)[id].updatedAt == at;
    }
  }

  lemma {:induction false} WriteKeepsStamps(rows: seq<Row>, op: Op)
    ensures StampedOrKept(rows, Commit(rows, op), OpTime(op))
  {
    if op.Scan? && Upsert(rows, op.batch).Ok? {
      ScanKeepsStamps(rows, op.batch);
    }
  }

  /** Every row is an old one, unchanged, or stamped with the given time. */
  ghost predicate StampedOrKept(rows: seq<Row>, rows': seq<Row>, at: Time) {
    && |rows| <= |rows'|
    && forall i :: 0 <= i < |rows'| ==> rows'[i].updatedAt == at || (i < |rows| && rows'[i] == rows[i])
  }

  lemma {:induction false} ScanKeepsStamps(rows: seq<Row>, b: Batch)
    requires Upsert(rows, b).Ok?
    ensures StampedOrKept(rows, Upsert(rows, b).rows, b.at)
  {
    UpsertSettles(rows, b);
    assert forall i :: 0 <= i < |b.findings| ==> BatchRows(b, 0)[i].updatedAt == b.at;
  }

  // ----- what a tick does -----

  lemma {:induction false} CursorCovers(cursor: Time, groups: seq<Group>)
    ensures NewCursor(cursor, groups) >= cursor
    ensures forall g :: 0 <= g < |groups| ==> NewCursor(cursor, groups) >= groups[g].lastChange
    ensures NewCursor(cursor, groups) == cursor || exists g :: 0 <= g < |groups| && NewCursor(cursor, groups) == groups[g].lastChange
  {
    if groups != [] {
      CursorCovers(cursor, groups[..|groups| - 1]);
    }
  }

  /** The store says the same of the server. */
  ghost predicate SameRisk(store: Store, store': Store, server: ServerId) {
    && (server in store'.risks <==> server in store.risks)
    && (server in store'.popRead <==> server in store.popRead)
    && (server in store.risks ==> store'.risks[server] == store.risks[server])
    && (server in store.popRead ==> store'.popRead[server] == store.popRead[server])
  }

  lemma {:induction false} AggregatedIsUpToDate(cfg: Config, w: World, store: Store, server: ServerId, at: Time, other: ServerId)
    ensures var store' := AggregateServer(cfg, w, store, server, at);
            if other == server
            then UpToDate(cfg, w.rows, store', server) && store'.popRead[server] == Popularity(w.popularity, server)
            else SameRisk(store, store', other)
  {
  }

  lemma {:induction false} ProcessedIsUpToDate(cfg: Config, w: World, store: Store, server: ServerId, at: Time, wall: Time, other: ServerId)
    ensures var store' := ProcessServer(cfg, w, store, server, at, wall);
            if other == server then UpToDate(cfg, w.rows, store', server) else SameRisk(store, store', other)
  {
    AggregatedIsUpToDate(cfg, w, store, server, at, other);
    var scored := AggregateServer(cfg, w, store, server, at);
    var store' := ProcessServer(cfg, w, store, server, at, wall);
    assert store' == scored.(queue := store'.queue);
  }

  ghost predicate Polled(groups: seq<Group>, server: ServerId) {
    exists g :: 0 <= g < |groups| && groups[g].server == server
  }

  /** Up to date, or else as in the store before. */
  ghost predicate Scored(cfg: Config, rows: seq<Row>, store: Store, store': Store, server: ServerId, polled: bool) {
    if polled then UpToDate(cfg, rows, store', server) else SameRisk(store, store', server)
  }

  lemma {:induction false} ScoredThenKept(cfg: Config, rows: seq<Row>, store: Store, mid: Store, store': Store, server: ServerId, polled: bool)
    requires Scored(cfg, rows, store, mid, server, polled) && SameRisk(mid, store', server)
    ensures Scored(cfg, rows, store, store', server, polled)
  {
    KeptUpToDate(cfg, rows, mid, store', server);
  }

  lemma {:induction false} LastProcessed(cfg: Config, w: World, store: Store, groups: seq<Group>, at: Time, server: ServerId)
    requires groups != []
    ensures var init, store' := groups[..|groups| - 1], ProcessAll(cfg, w, store, groups, at);
            if groups[|groups| - 1].server == server then UpToDate(cfg, w.rows, store', server)
            else SameRisk(ProcessAll(cfg, w, store, init, at), store', server)
  {
    var last := groups[|groups| - 1];
    ProcessedIsUpToDate(cfg, w, ProcessAll(cfg, w, store, groups[..|groups| - 1], at), last.server, at, last.wall, server);
  }

  lemma {:induction false} PolledInTwoParts(groups: seq<Group>, server: ServerId)
    requires groups != []
    ensures Polled(groups, server) <==> groups[|groups| - 1].server == server || Polled(groups[..|groups| - 1], server)
  {
    assert groups == groups[..|groups| - 1] + [groups[|groups| - 1]];
  }

  /** Every polled server is up to date after processing; every other keeps what it had. */
  lemma {:induction false} ProcessAllScores(cfg: Config, w: World, store: Store, groups: seq<Group>, at: Time, server: ServerId)
    ensures Scored(cfg, w.rows, store, ProcessAll(cfg, w, store, groups, at), server, Polled(groups, server))
  {
    if groups != [] {
      var init, last := groups[..|groups| - 1], groups[|groups| - 1].server;
      ProcessAllScores(cfg, w, store, init, at, server);
      LastProcessed(cfg, w, store, groups, at, server);
      PolledInTwoParts(groups, server);
      if last != server {
        ScoredThenKept(cfg, w.rows, store, ProcessAll(cfg, w, store, init, at), ProcessAll(cfg, w, store, groups, at),
                       server, Polled(init, server));
      }
    }
  }

  lemma {:induction false} KeptUpToDate(cfg: Config, rows: seq<Row>, store: Store, store': Store, server: ServerId)
    requires SameRisk(store, store', server)
    ensures UpToDate(cfg, rows, store', server) <==> UpToDate(cfg, rows, store, server)
  {
  }

  // ----- no lost update -----

  lemma {:induction false} PollKeepsClock(w: World, groups: seq<Group>, at: Time)
    requires ClockOk(w) && w.now <= at && PollReturns(w.rows, w.cursor, groups)
    ensures w.cursor <= NewCursor(w.cursor, groups) <= at
  {
    CursorCovers(w.cursor, groups);
  }

  lemma {:induction false} StepKeepsClock(cfg: Config, w: World, s: Step)
    requires ClockOk(w) && Enabled(cfg, w, s)
    ensures ClockOk(Next(cfg, w, s))
    ensures s.Restart? || w.cursor <= Next(cfg, w, s).cursor
  {
    match s
    case Write(op) => WriteKeepsStamps(w.rows, op);
    case LateWrite(op) => WriteKeepsStamps(w.rows, op);
    case Tick(at, groups) => PollKeepsClock(w, groups, at);
    case TickCommitFails(at, groups) => PollKeepsClock(w, groups, at);
    case _ => assert Next(cfg, w, s).rows == w.rows && w.now <= Next(cfg, w, s).now;
  }

  lemma {:induction false} UnpolledWasSeen(rows: seq<Row>, cursor: Time, cursor': Time, groups: seq<Group>, server: ServerId)
    requires PollReturns(rows, cursor, groups) && !Polled(groups, server) && Seen(rows, cursor', server)
    ensures Seen(rows, cursor, server)
  {
  }

  lemma {:induction false} PolledServers(groups: seq<Group>, server: ServerId)
    ensures Polled(groups, server) <==> server in Servers(groups)
  {
  }

  lemma {:induction false} WriteKeepsUpdates(cfg: Config, w: World, op: Op, server: ServerId)
    requires Target(w.rows, op) != Some(server)
    requires Seen(w.rows, w.cursor, server) ==> UpToDate(cfg, w.rows, w.store, server)
    ensures Seen(Commit(w.rows, op), w.cursor, server) ==> UpToDate(cfg, Commit(w.rows, op), w.store, server)
  {
    var rows' := Commit(w.rows, op);
    WriteStamps(w.rows, op, server);
    SameHits(server, w.rows, rows');
    if Seen(rows', w.cursor, server) {
      assert Seen(w.rows, w.cursor, server) by {
        assert forall i :: 0 <= i < |w.rows| && w.rows[i].server == server ==> rows'[i] == w.rows[i];
      }
    }
  }

  /** Of a polled server, and of any that was up to date when last seen. */
  lemma {:induction false} TickKeepsUpdates(cfg: Config, w: World, s: Step, server: ServerId)
    requires s.Tick? && Enabled(cfg, w, s)
    requires Polled(s.groups, server) || UpToDate(cfg, w.rows, w.store, server)
    ensures UpToDate(cfg, w.rows, Next(cfg, w, s).store, server)
  {
    ProcessAllScores(cfg, w, w.store, s.groups, s.at, server);
    if !Polled(s.groups, server) {
      KeptUpToDate(cfg, w.rows, w.store, Next(cfg, w, s).store, server);
    }
  }

  /** Every step, failed commits and late writes included, keeps the stored risk of every server
      current that is not at risk. */
  lemma {:induction false} StepKeepsUpdates(cfg: Config, w: World, risk: set<ServerId>, s: Step)
    requires ClockOk(w) && NoLostUpdateBut(cfg, w, risk) && Enabled(cfg, w, s)
    ensures NoLostUpdateBut(cfg, Next(cfg, w, s), RiskAfter(w, risk, s))
  {
    var w' := Next(cfg, w, s);
    forall server | server !in RiskAfter(w, risk, s) && Seen(w'.rows, w'.cursor, server)
      ensures UpToDate(cfg, w'.rows, w'.store, server)
    {
      match s
      case Write(op) =>
        WriteStamps(w.rows, op, server);
        WriteKeepsUpdates(cfg, w, op, server);
      case LateWrite(op) => WriteKeepsUpdates(cfg, w, op, server);
      case Tick(_, groups) =>
        PolledServers(groups, server);
        if !Polled(groups, server) {
          UnpolledWasSeen(w.rows, w.cursor, w'.cursor, groups, server);
        }
        TickKeepsUpdates(cfg, w, s, server);
      case TickCommitFails(_, groups) =>
        PolledServers(groups, server);
        UnpolledWasSeen(w.rows, w.cursor, w'.cursor, groups, server);
      case AggregateOnce(at, other) =>
        AggregatedIsUpToDate(cfg, w, w.store, other, at, server);
        if server != other {
          KeptUpToDate(cfg, w.rows, w.store, w'.store, server);
        }
      case Restart => RestartForgets(w);
      case _ => KeptUpToDate(cfg, w.rows, w.store, w'.store, server);
    }
  }

  lemma {:induction false} RestartForgets(w: World)
    requires ClockOk(w)
    ensures forall server :: !Seen(w.rows, EPOCH, server)
  {
  }

  lemma {:induction false} UpdatesOverRuns(cfg: Config, w: World, risk: set<ServerId>, steps: seq<Step>)
    requires ClockOk(w) && NoLostUpdateBut(cfg, w, risk) && Legal(cfg, w, steps)
    ensures ClockOk(Run(cfg, w, steps))
    ensures NoLostUpdateBut(cfg, Run(cfg, w, steps), AtRisk(cfg, w, risk, steps))
    decreases |steps|
  {
    if steps != [] {
      StepKeepsClock(cfg, w, steps[0]);
      StepKeepsUpdates(cfg, w, risk, steps[0]);
      UpdatesOverRuns(cfg, Next(cfg, w, steps[0]), RiskAfter(w, risk, steps[0]), steps[1..]);
    }
  }

  /** In every run, any server whose stamps are all at or below the cursor has the stored score and
      priority of its current active findings, unless it is at risk: written to late, or polled by a
      tick whose commit failed, since it was last aggregated or the ingestor last started. */
  lemma {:induction false} NoLostUpdateOverRuns(cfg: Config, steps: seq<Step>)
    requires Legal(cfg, INITIAL, steps)
    ensures ClockOk(Run(cfg, INITIAL, steps))
    ensures NoLostUpdateBut(cfg, Run(cfg, INITIAL, steps), AtRisk(cfg, INITIAL, {}, steps))
  {
    UpdatesOverRuns(cfg, INITIAL, {}, steps);
  }

  /** No late write and no failed commit of a non-empty tick since the ingestor last started. */
  predicate Trusted(steps: seq<Step>, before: bool)
    decreases |steps|
  {
    if steps == [] then before
    else match steps[0]
      case Restart => Trusted(steps[1..], true)
      case LateWrite(_) => Trusted(steps[1..], false)
      case TickCommitFails(_, groups) => Trusted(steps[1..], before && groups == [])
      case _ => Trusted(steps[1..], before)
  }

  /** Then no server is at risk. */
  lemma {:induction false} TrustedRisksNothing(cfg: Config, w: World, risk: set<ServerId>, steps: seq<Step>, before: bool)
    requires Trusted(steps, before) && (before ==> risk == {})
    ensures AtRisk(cfg, w, risk, steps) == {}
    decreases |steps|
  {
    if steps != [] {
      var after := match steps[0]
        case Restart => true
        case LateWrite(_) => false
        case TickCommitFails(_, groups) => before && groups == []
        case _ => before;
      TrustedRisksNothing(cfg, Next(cfg, w, steps[0]), RiskAfter(w, risk, steps[0]), steps[1..], after);
    }
  }

  /** After a committed tick of any run, every server with findings is up to date that was polled or
      not at risk. */
  lemma {:induction false} TickCatchesUp(cfg: Config, steps: seq<Step>, tick: Step, i: nat)
    requires Legal(cfg, INITIAL, steps)
    requires tick.Tick? && Enabled(cfg, Run(cfg, INITIAL, steps), tick)
    requires i < |Run(cfg, INITIAL, steps).rows|
    ensures var w' := Next(cfg, Run(cfg, INITIAL, steps), tick);
            var server := w'.rows[i].server;
            Polled(tick.groups, server) || server !in AtRisk(cfg, INITIAL, {}, steps) ==>
              UpToDate(cfg, w'.rows, w'.store, server)
  {
    NoLostUpdateOverRuns(cfg, steps);
    var w := Run(cfg, INITIAL, steps);
    var server := w.rows[i].server;
    if !Polled(tick.groups, server) && server !in AtRisk(cfg, INITIAL, {}, steps) {
      assert Seen(w.rows, w.cursor, server);
    }
    if Polled(tick.groups, server) || server !in AtRisk(cfg, INITIAL, {}, steps) {
      TickKeepsUpdates(cfg, w, tick, server);
    }
  }

  /** Over a run without a restart the cursor never decreases. */
  lemma {:induction false} CursorNeverDecreases(cfg: Config, w: World, steps: seq<Step>)
    requires ClockOk(w) && Legal(cfg, w, steps)
    requires forall k :: 0 <= k < |steps| ==> !steps[k].Restart?
    ensures w.cursor <= Run(cfg, w, steps).cursor
    decreases |steps|
  {
    if steps != [] {
      StepKeepsClock(cfg, w, steps[0]);
      CursorNeverDecreases(cfg, Next(cfg, w, steps[0]), steps[1..]);
    }
  }

  /** A tick changes nothing but the clock exactly when no row is stamped beyond the cursor. */
  lemma {:induction false} IdleTickIff(cfg: Config, w: World, s: Step)
    requires s.Tick? && Enabled(cfg, w, s)
    ensures Next(cfg, w, s) == w.(now := s.at) <==> forall i :: 0 <= i < |w.rows| ==> w.rows[i].updatedAt <= w.cursor
  {
    CursorCovers(w.cursor, s.groups);
    if s.groups != [] {
      assert s.groups[0].lastChange > w.cursor;
    }
  }

  // ----- building runs -----

  ghost predicate Leads(cfg: Config, w: World, s: Step, next: World) {
    Enabled(cfg, w, s) && next == Next(cfg, w, s)
  }

  /** A run, given world by world. */
  lemma {:induction false} RunThrough(cfg: Config, steps: seq<Step>, worlds: seq<World>)
    requires |worlds| == |steps| + 1
    requires forall k :: 0 <= k < |steps| ==> Leads(cfg, worlds[k], steps[k], worlds[k + 1])
    ensures Legal(cfg, worlds[0], steps) && Run(cfg, worlds[0], steps) == worlds[|steps|]
    decreases |steps|
  {
    if steps != [] {
      assert Leads(cfg, worlds[0], steps[0], worlds[1]);
      forall k | 0 <= k < |steps[1..]| ensures Leads(cfg, worlds[1..][k], steps[1..][k], worlds[1..][k + 1]) {
        assert Leads(cfg, worlds[k + 1], steps[k + 1], worlds[k + 2]);
      }
      RunThrough(cfg, steps[1..], worlds[1..]);
    }
  }
}
