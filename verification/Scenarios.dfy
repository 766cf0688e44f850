/**
 Runs of the pipeline that show its promises failing: a lost commit, a long scan, a refreshed
 popularity, an unstamped resolution.
 */
module Scenarios {
  import opened Models
  import opened Ledger
  import opened Scoring
  import opened Digest
  import opened Triage
  import opened Pipeline
  import opened Guarantees

  // ----- one step at a time -----

  /** The first finding of a server is simply appended. */
  lemma {:induction false} FirstScan(rows: seq<Row>, b: Batch, f: Finding)
    requires WellKeyed(f) && b.findings == [f]
    requires forall i :: 0 <= i < |rows| ==> rows[i].server != b.server
    ensures Commit(rows, Scan(b)) == rows + [NewRow(b, f)]
  {
    assert forall i :: 0 <= i < |rows| ==> !Matches(rows[i], b, f);
    assert SupersedeMatching(rows, b, f) == rows;
    assert !Collides(rows, NewRow(b, f));
    assert UpsertOne(rows, b, f) == Ok(rows + [NewRow(b, f)]);
    assert UpsertFrom(rows + [NewRow(b, f)], b, 1) == Ok(rows + [NewRow(b, f)]);
  }

  /** A poll that finds one server dirty, last stamped by row i. */
  lemma {:induction false} OneGroup(rows: seq<Row>, cursor: Time, g: Group, i: nat)
    requires i < |rows| && rows[i].server == g.server && rows[i].updatedAt == g.lastChange > cursor
    requires forall k :: 0 <= k < |rows| ==> rows[k].updatedAt <= (if rows[k].server == g.server then g.lastChange else cursor)
    ensures PollReturns(rows, cursor, [g]) && NewCursor(cursor, [g]) == g.lastChange
  {
    var groups := [g];
    assert groups[0] == g && groups[..0] == [];
  }

  /** The tick on that poll. */
  function Ticked(cfg: Config, w: World, g: Group, at: Time): World {
    w.(store := ProcessAll(cfg, w, w.store, [g], at), now := at, cursor := g.lastChange)
  }

  lemma {:induction false} OneServerTick(cfg: Config, w: World, g: Group, at: Time, i: nat)
    requires i < |w.rows| && w.rows[i].server == g.server && w.rows[i].updatedAt == g.lastChange > w.cursor
    requires forall k :: 0 <= k < |w.rows| ==> w.rows[k].updatedAt <= (if w.rows[k].server == g.server then g.lastChange else w.cursor)
    requires w.now <= at && g.wall <= at + cfg.skew && HistoryFree(w.store, g.server, at)
    ensures Leads(cfg, w, Tick(at, [g]), Ticked(cfg, w, g, at))
  {
    OneGroup(w.rows, w.cursor, g, i);
    TickIsEnabled(cfg, w, g, at);
    TickNext(cfg, w, g, at);
  }

  lemma {:induction false} TickIsEnabled(cfg: Config, w: World, g: Group, at: Time)
    requires PollReturns(w.rows, w.cursor, [g])
    requires w.now <= at && g.wall <= at + cfg.skew && HistoryFree(w.store, g.server, at)
    ensures Enabled(cfg, w, Tick(at, [g]))
  {
    assert forall k :: 0 <= k < |[g]| ==> [g][k] == g;
  }

  lemma {:induction false} TickNext(cfg: Config, w: World, g: Group, at: Time)
    requires NewCursor(w.cursor, [g]) == g.lastChange
    ensures Next(cfg, w, Tick(at, [g])) == Ticked(cfg, w, g, at)
  {
  }

  lemma {:induction false} OneProcessed(cfg: Config, w: World, g: Group, at: Time)
    ensures ProcessAll(cfg, w, w.store, [g], at) == ProcessServer(cfg, w, w.store, g.server, at, g.wall)
  {
    assert [g][..0] == [];
    assert ProcessAll(cfg, w, w.store, [], at) == w.store;
  }

  // ----- one high finding -----

  function HitOf(f: Finding, id: nat): Hit {
    Hit(id, f.detector, f.severity, f.confidence)
  }

  function ScoreOf(cfg: Config, f: Finding, pop: real): real {
    Score(cfg.weights, cfg.rules, [HitOf(f, 0)], pop)
  }

  /** A high finding that by itself is worth an alert. */
  predicate Alarming(cfg: Config, f: Finding) {
    WellKeyed(f) && f.severity.High? && ScoreOf(cfg, f, 0.0) >= 1.0
  }

  /** Under the default weights any high finding of an unlisted class and confidence 1 is. */
  lemma {:induction false} DefaultAlarm(f: Finding, skew: nat)
    requires WellKeyed(f) && f.detector == "x" && f.severity.High? && f.confidence == 1.0
    ensures var cfg := Config(DEFAULT_WEIGHTS, DefaultRules(), skew);
            Alarming(cfg, f) && ScoreOf(cfg, f, 0.0) == 5.0 && ScoreOf(cfg, f, 1.0) == 10.0
  {
    UnlistedWeight();
    assert Contribution(DEFAULT_WEIGHTS, HitOf(f, 0)) == 5.0;
    assert [HitOf(f, 0)][1..] == [] && Base(DEFAULT_WEIGHTS, [HitOf(f, 0)]) == 5.0;
    OneDetectorNoBoost([HitOf(f, 0)], "x");
  }

  lemma {:induction false} DigestOfOne(f: Rank, h: Hit)
    ensures FirstFive(SortDescending(f, [h])) == [h]
  {
    assert [h][1..] == [] && SortDescending(f, []) == [];
  }

  lemma {:induction false} RouteOfOne(h: Hit, score: real)
    requires h.severity.High?
    ensures RoutePriority([h], score).P1?
  {
    assert [h][0].severity == High && Detectors([h]) == {h.detector};
  }

  /** What a tick at `at` makes of the tables of a server whose one active finding is f. */
  ghost predicate Alarmed(cfg: Config, f: Finding, sv: ServerId, before: Store, after: Store, at: Time) {
    && sv in after.risks && after.risks[sv].score == ScoreOf(cfg, f, 0.0)
    && after.queue == (if Alerted(before.queue, sv, P1, at) then before.queue
                       else before.queue + [TriageRow(sv, P1, at, Pending, None)])
    && |after.history| == |before.history| + 1 && after.history[..|before.history|] == before.history
    && after.history[|before.history|].scoredAt == at
  }

  lemma {:induction false} AlarmTick(cfg: Config, f: Finding, w: World, sv: ServerId, id: nat, at: Time)
    requires Alarming(cfg, f) && ActiveHits(w.rows, sv) == [HitOf(f, id)] && sv !in w.popularity
    ensures Alarmed(cfg, f, sv, w.store, ProcessServer(cfg, w, w.store, sv, at, at), at)
  {
    var h := HitOf(f, id);
    ScoreOfOne(cfg, f, id);
    DigestOfOne(ByContribution(cfg.weights), h);
    RouteOfOne(h, ScoreOf(cfg, f, 0.0));
    var agg := AggregateOf(cfg, sv, [h], 0.0);
    assert agg.score == ScoreOf(cfg, f, 0.0) && agg.top == [h] && agg.count == 1;
    assert WantsTriage(agg) && RoutePriority(agg.top, agg.score) == P1;
  }

  lemma {:induction false} ScoreOfOne(cfg: Config, f: Finding, id: nat)
    ensures Score(cfg.weights, cfg.rules, [HitOf(f, id)], 0.0) == ScoreOf(cfg, f, 0.0)
  {
    assert Alike(HitOf(f, id), HitOf(f, 0));
    IdsDoNotMatter(cfg.weights, cfg.rules, [HitOf(f, id)], [HitOf(f, 0)], 0.0);
  }

  // ----- scanned at 1 -----

  function BatchAt(f: Finding, sv: ServerId, ref: string, at: Time): Batch {
    Batch(sv, ref, at, [f])
  }

  function First(f: Finding, sv: ServerId, ref: string): Row {
    NewRow(BatchAt(f, sv, ref, 1), f)
  }

  function Scanned(f: Finding, sv: ServerId, ref: string): World {
    INITIAL.(rows := [First(f, sv, ref)], now := 1)
  }

  lemma {:induction false} FirstHits(f: Finding, sv: ServerId, ref: string)
    ensures ActiveHits([First(f, sv, ref)], sv) == [HitOf(f, 0)]
  {
    var rows := [First(f, sv, ref)];
    assert rows[..0] == [] && ActiveHits([], sv) == [];
    assert rows[0].finding.detector == f.detector;
  }

  lemma {:induction false} ScanLeads(cfg: Config, f: Finding, sv: ServerId, ref: string)
    requires WellKeyed(f)
    ensures Leads(cfg, INITIAL, Write(Scan(BatchAt(f, sv, ref, 1))), Scanned(f, sv, ref))
  {
    FirstScan([], BatchAt(f, sv, ref, 1), f);
  }

  lemma {:induction false} ThreeSteps(cfg: Config, steps: seq<Step>, w1: World, w2: World, w3: World)
    requires |steps| == 3
    requires Leads(cfg, INITIAL, steps[0], w1) && Leads(cfg, w1, steps[1], w2) && Leads(cfg, w2, steps[2], w3)
    ensures Legal(cfg, INITIAL, steps) && Run(cfg, INITIAL, steps) == w3
  {
    RunThrough(cfg, steps, [INITIAL, w1, w2, w3]);
  }

  // ----- a commit that fails -----

  /** A scan, and a tick whose commit fails: the server is never scored, and the cursor has moved
      past it. */
  lemma {:induction false} CommitFailureLosesUpdate(cfg: Config, f: Finding, sv: ServerId, ref: string)
    requires WellKeyed(f)
    ensures var steps := [Write(Scan(BatchAt(f, sv, ref, 1))), TickCommitFails(1, [Group(sv, 1, 1)])];
            var w := Run(cfg, INITIAL, steps);
            && Legal(cfg, INITIAL, steps)
            && Seen(w.rows, w.cursor, sv) && sv !in w.store.risks
  {
    var w1 := Scanned(f, sv, ref);
    ScanLeads(cfg, f, sv, ref);
    OneGroup(w1.rows, 0, Group(sv, 1, 1), 0);
    var w2 := w1.(cursor := 1);
    assert Leads(cfg, w1, TickCommitFails(1, [Group(sv, 1, 1)]), w2);
    RunThrough(cfg, [Write(Scan(BatchAt(f, sv, ref, 1))), TickCommitFails(1, [Group(sv, 1, 1)])], [INITIAL, w1, w2]);
    assert w2.rows[0].server == sv;
  }

  // ----- a scan that commits late -----

  lemma {:induction false} UntickedAsBefore(cfg: Config, w: World, g: Group, at: Time, other: ServerId)
    requires other != g.server
    ensures SameRisk(w.store, Ticked(cfg, w, g, at).store, other)
  {
    ProcessAllScores(cfg, w, w.store, [g], at, other);
    assert !Polled([g], other);
  }

  lemma {:induction false} EarlyScan(cfg: Config, f: Finding, sv: ServerId, ref: string) returns (w1: World, w2: World)
    requires WellKeyed(f)
    ensures Leads(cfg, INITIAL, Write(Scan(BatchAt(f, sv, ref, 5))), w1) && Leads(cfg, w1, Tick(6, [Group(sv, 5, 6)]), w2)
    ensures w2.rows == [NewRow(BatchAt(f, sv, ref, 5), f)] && w2.cursor == 5
    ensures forall other :: other != sv ==> other !in w2.store.risks
  {
    FirstScan([], BatchAt(f, sv, ref, 5), f);
    w1 := INITIAL.(rows := [NewRow(BatchAt(f, sv, ref, 5), f)], now := 5);
    OneServerTick(cfg, w1, Group(sv, 5, 6), 6, 0);
    w2 := Ticked(cfg, w1, Group(sv, 5, 6), 6);
    forall other | other != sv ensures other !in w2.store.risks {
      UntickedAsBefore(cfg, w1, Group(sv, 5, 6), 6, other);
    }
  }

  lemma {:induction false} LateScan(cfg: Config, f: Finding, b: Batch, w: World)
    requires WellKeyed(f) && b.findings == [f] && EPOCH < b.at <= w.cursor
    requires forall i :: 0 <= i < |w.rows| ==> w.rows[i].server != b.server && w.rows[i].updatedAt <= w.cursor
    ensures Leads(cfg, w, LateWrite(Scan(b)), w.(rows := w.rows + [NewRow(b, f)]))
    ensures Seen(w.rows + [NewRow(b, f)], w.cursor, b.server) && PollReturns(w.rows + [NewRow(b, f)], w.cursor, [])
  {
    FirstScan(w.rows, b, f);
    assert (w.rows + [NewRow(b, f)])[|w.rows|].server == b.server;
  }

  function LongScan(f: Finding, early: ServerId, late: ServerId, ref: string): seq<Step> {
    [Write(Scan(BatchAt(f, early, ref, 5))), Tick(6, [Group(early, 5, 6)]), LateWrite(Scan(BatchAt(f, late, ref, 3)))]
  }

  /** A scan of one server begins at 3 and commits after a tick has polled another, stamped 5: it is
      never scored, and the next poll returns nothing. */
  lemma {:induction false} LongScanLosesUpdate(cfg: Config, f: Finding, early: ServerId, late: ServerId, ref: string)
    requires WellKeyed(f) && early != late
    ensures Legal(cfg, INITIAL, LongScan(f, early, late, ref))
    ensures var w := Run(cfg, INITIAL, LongScan(f, early, late, ref));
            Seen(w.rows, w.cursor, late) && late !in w.store.risks && PollReturns(w.rows, w.cursor, [])
  {
    var w1, w2 := EarlyScan(cfg, f, early, ref);
    LateScan(cfg, f, BatchAt(f, late, ref, 3), w2);
    var w3 := w2.(rows := w2.rows + [NewRow(BatchAt(f, late, ref, 3), f)]);
    ThreeSteps(cfg, LongScan(f, early, late, ref), w1, w2, w3);
  }

  // ----- ticked at 2 -----

  lemma {:induction false} TickLeads(cfg: Config, f: Finding, sv: ServerId, ref: string) returns (w2: World)
    requires Alarming(cfg, f)
    ensures Leads(cfg, Scanned(f, sv, ref), Tick(2, [Group(sv, 1, 2)]), w2)
    ensures w2 == Scanned(f, sv, ref).(store := w2.store, now := 2, cursor := 1)
    ensures Alarmed(cfg, f, sv, INITIAL.store, w2.store, 2) && w2.store.queue == [TriageRow(sv, P1, 2, Pending, None)]
  {
    Unstamped(sv);
    var w1 := Scanned(f, sv, ref);
    OneServerTick(cfg, w1, Group(sv, 1, 2), 2, 0);
    FirstHits(f, sv, ref);
    AlarmTick(cfg, f, w1, sv, 0, 2);
    OneProcessed(cfg, w1, Group(sv, 1, 2), 2);
    w2 := Ticked(cfg, w1, Group(sv, 1, 2), 2);
  }

  // ----- popularity that is refreshed -----

  function StaleSteps(f: Finding, sv: ServerId, ref: string): seq<Step> {
    [Write(Scan(BatchAt(f, sv, ref, 1))), Tick(2, [Group(sv, 1, 2)]), SetPopularity(sv, 1.0)]
  }

  lemma {:induction false} StaleRun(cfg: Config, f: Finding, sv: ServerId, ref: string) returns (w: World)
    requires Alarming(cfg, f)
    ensures Legal(cfg, INITIAL, StaleSteps(f, sv, ref)) && w == Run(cfg, INITIAL, StaleSteps(f, sv, ref))
    ensures w.rows == [First(f, sv, ref)] && w.cursor == 1 && w.popularity == map[sv := 1.0]
    ensures sv in w.store.risks && w.store.risks[sv].score == ScoreOf(cfg, f, 0.0)
  {
    ScanLeads(cfg, f, sv, ref);
    var w2 := TickLeads(cfg, f, sv, ref);
    w := w2.(popularity := map[sv := 1.0]);
    assert Leads(cfg, w2, SetPopularity(sv, 1.0), w);
    ThreeSteps(cfg, StaleSteps(f, sv, ref), Scanned(f, sv, ref), w2, w);
  }

  lemma {:induction false} NothingSpoils(steps: seq<Step>)
    requires forall k :: 0 <= k < |steps| ==> !steps[k].LateWrite? && !steps[k].TickCommitFails?
    ensures Trusted(steps, true)
    decreases |steps|
  {
    if steps != [] {
      NothingSpoils(steps[1..]);
    }
  }

  /** After a scan, a tick and a refresh to 1, no server is at risk and the next poll returns nothing,
      but the stored score is the one at popularity 0: 5 instead of 10, say (DefaultAlarm). */
  lemma {:induction false} PopularityGoesStale(cfg: Config, f: Finding, sv: ServerId, ref: string)
    requires Alarming(cfg, f)
    ensures var steps := StaleSteps(f, sv, ref);
            var w := Run(cfg, INITIAL, steps);
            && Legal(cfg, INITIAL, steps) && AtRisk(cfg, INITIAL, {}, steps) == {}
            && Seen(w.rows, w.cursor, sv) && PollReturns(w.rows, w.cursor, [])
            && sv in w.store.risks && w.store.risks[sv].score == ScoreOf(cfg, f, 0.0)
            && Score(cfg.weights, cfg.rules, ActiveHits(w.rows, sv), Popularity(w.popularity, sv)) == ScoreOf(cfg, f, 1.0)
  {
    var w := StaleRun(cfg, f, sv, ref);
    FirstHits(f, sv, ref);
    NothingSpoils(StaleSteps(f, sv, ref));
    TrustedRisksNothing(cfg, INITIAL, {}, StaleSteps(f, sv, ref), true);
    assert w.rows[0].server == sv && w.rows[0].updatedAt == 1;
  }

  // ----- a resolution without a stamp -----

  lemma {:induction false} SecondScan(f: Finding, sv: ServerId, ref: string)
    requires WellKeyed(f)
    ensures var after := [Supersede(First(f, sv, ref), 4), NewRow(BatchAt(f, sv, ref, 4), f)];
            Commit([First(f, sv, ref)], Scan(BatchAt(f, sv, ref, 4))) == after && ActiveHits(after, sv) == [HitOf(f, 1)]
  {
    var rows, b := [First(f, sv, ref)], BatchAt(f, sv, ref, 4);
    StoredUnderMatchingKey(f);
    WellKeyedUpsertFrom(rows, b, 0);
    UpsertSettles(rows, b);
    assert Matches(rows[0], b, b.findings[0]);
    assert !MatchedFrom(NewRow(b, f), b, 1);
    assert SettledRows(rows, b, 0) == [Supersede(rows[0], 4)] && BatchRows(b, 0) == [NewRow(b, f)];
    var after := [Supersede(rows[0], 4), NewRow(b, f)];
    assert after[..1] == [Supersede(rows[0], 4)] && after[..1][..0] == [];
    assert ActiveHits(after[..1], sv) == [];
  }

  lemma {:induction false} SecondTick(cfg: Config, f: Finding, sv: ServerId, w4: World) returns (w5: World)
    requires Alarming(cfg, f) && sv !in w4.popularity
    requires |w4.rows| == 2 && (forall k :: 0 <= k < 2 ==> w4.rows[k].server == sv && w4.rows[k].updatedAt == 4)
    requires ActiveHits(w4.rows, sv) == [HitOf(f, 1)] && w4.cursor == 1 && w4.now == 4
    requires |w4.store.history| == 1 && w4.store.history[0].scoredAt == 2
    requires w4.store.queue == [TriageRow(sv, P1, 2, Resolved, None)]
    ensures Leads(cfg, w4, Tick(5, [Group(sv, 4, 5)]), w5)
    ensures w5.store.queue == w4.store.queue + [TriageRow(sv, P1, 5, Pending, None)]
  {
    Unstamped(sv);
    OneServerTick(cfg, w4, Group(sv, 4, 5), 5, 1);
    AlarmTick(cfg, f, w4, sv, 1, 5);
    OneProcessed(cfg, w4, Group(sv, 4, 5), 5);
    w5 := Ticked(cfg, w4, Group(sv, 4, 5), 5);
  }

  function AlertSteps(f: Finding, sv: ServerId, ref: string): seq<Step> {
    [Write(Scan(BatchAt(f, sv, ref, 1))), Tick(2, [Group(sv, 1, 2)]), ResolveRow(3, 0, None),
     Write(Scan(BatchAt(f, sv, ref, 4))), Tick(5, [Group(sv, 4, 5)])]
  }

  /** The one row of the queue is resolved without a stamp, and the server is scanned again. */
  lemma {:induction false} ResolveAndScan(cfg: Config, f: Finding, sv: ServerId, ref: string, w2: World) returns (w3: World, w4: World)
    requires WellKeyed(f) && w2.rows == [First(f, sv, ref)] && w2.cursor == 1 && w2.now == 2
    requires w2.store.queue == [TriageRow(sv, P1, 2, Pending, None)]
    ensures Leads(cfg, w2, ResolveRow(3, 0, None), w3)
    ensures Leads(cfg, w3, Write(Scan(BatchAt(f, sv, ref, 4))), w4)
    ensures |w4.rows| == 2 && (forall k :: 0 <= k < 2 ==> w4.rows[k].server == sv && w4.rows[k].updatedAt == 4)
    ensures ActiveHits(w4.rows, sv) == [HitOf(f, 1)] && w4.cursor == 1 && w4.now == 4
    ensures w4.store == w2.store.(queue := [TriageRow(sv, P1, 2, Resolved, None)]) && w4.popularity == w2.popularity
  {
    w3 := w2.(store := w2.store.(queue := [TriageRow(sv, P1, 2, Resolved, None)]), now := 3);
    SecondScan(f, sv, ref);
    w4 := w3.(rows := [Supersede(First(f, sv, ref), 4), NewRow(BatchAt(f, sv, ref, 4), f)], now := 4);
  }

  lemma {:induction false} Unstamped(sv: ServerId)
    ensures !Alerted([TriageRow(sv, P1, 2, Resolved, None)], sv, P1, 5) && !Alerted([], sv, P1, 2)
  {
  }

  lemma {:induction false} AlertWorlds(cfg: Config, f: Finding, sv: ServerId, ref: string) returns (w2: World, w3: World, w4: World, w5: World)
    requires Alarming(cfg, f)
    ensures Leads(cfg, Scanned(f, sv, ref), Tick(2, [Group(sv, 1, 2)]), w2) && Leads(cfg, w2, ResolveRow(3, 0, None), w3)
    ensures Leads(cfg, w3, Write(Scan(BatchAt(f, sv, ref, 4))), w4) && Leads(cfg, w4, Tick(5, [Group(sv, 4, 5)]), w5)
    ensures w5.store.queue == [TriageRow(sv, P1, 2, Resolved, None), TriageRow(sv, P1, 5, Pending, None)]
  {
    w2 := TickLeads(cfg, f, sv, ref);
    w3, w4 := ResolveAndScan(cfg, f, sv, ref, w2);
    w5 := SecondTick(cfg, f, sv, w4);
  }

  /** A scan, a tick, a resolution without a stamp, the scan again, a tick: two alerts for one server
      and priority, three microseconds apart. */
  lemma {:induction false} TwoAlertsWithinADay(cfg: Config, f: Finding, sv: ServerId, ref: string)
    requires Alarming(cfg, f)
    ensures Legal(cfg, INITIAL, AlertSteps(f, sv, ref))
    ensures Run(cfg, INITIAL, AlertSteps(f, sv, ref)).store.queue ==
              [TriageRow(sv, P1, 2, Resolved, None), TriageRow(sv, P1, 5, Pending, None)]
  {
    ScanLeads(cfg, f, sv, ref);
    var w2, w3, w4, w5 := AlertWorlds(cfg, f, sv, ref);
    FiveSteps(cfg, AlertSteps(f, sv, ref), Scanned(f, sv, ref), w2, w3, w4, w5);
  }

  lemma {:induction false} FiveSteps(cfg: Config, steps: seq<Step>, w1: World, w2: World, w3: World, w4: World, w5: World)
    requires |steps| == 5
    requires Leads(cfg, INITIAL, steps[0], w1) && Leads(cfg, w1, steps[1], w2) && Leads(cfg, w2, steps[2], w3)
    requires Leads(cfg, w3, steps[3], w4) && Leads(cfg, w4, steps[4], w5)
    ensures Legal(cfg, INITIAL, steps) && Run(cfg, INITIAL, steps) == w5
  {
    RunThrough(cfg, steps, [INITIAL, w1, w2, w3, w4, w5]);
  }
}
