/**
 What the pipeline promises beyond the cursor invariant: where the cursor protocol
 fails and exactly when, the alert rate over runs, and the effect of re-scans and
 status moves on a server's score.
 */
module Guarantees {
  import opened Models
  import opened Ledger
  import opened Scoring
  import opened Digest
  import opened Routing
  import opened Triage
  import opened Pipeline
  import opened Rescan

  // ----- where the cursor protocol fails -----

  /** The cursor is assigned before the commit. When the commit fails, the invariant survives
      exactly if the scores the tick was about to write were already there. */
  lemma {:induction false} CommitFailureIff(cfg: Config, w: World, s: Step)
    requires NoLostUpdate(cfg, w)
    requires s.TickCommitFails? && Enabled(cfg, w, s)
    ensures NoLostUpdate(cfg, Next(cfg, w, s)) <==>
            forall g :: 0 <= g < |s.groups| ==> UpToDate(cfg, w.rows, w.store, s.groups[g].server)
  {
    var w' := Next(cfg, w, s);
    assert w'.rows == w.rows && w'.store == w.store && w'.cursor == NewCursor(w.cursor, s.groups);
    forall g | 0 <= g < |s.groups| ensures Seen(w.rows, w'.cursor, s.groups[g].server) {
      PolledIsSeen(w.rows, w.cursor, s.groups, g);
    }
    forall server | Seen(w.rows, w'.cursor, server) && !Polled(s.groups, server)
      ensures UpToDate(cfg, w.rows, w.store, server)
    {
      UnpolledWasSeen(w.rows, w.cursor, w'.cursor, s.groups, server);
    }
  }

  lemma {:induction false} PolledIsSeen(rows: seq<Row>, cursor: Time, groups: seq<Group>, g: nat)
    requires PollReturns(rows, cursor, groups) && g < |groups|
    ensures Seen(rows, NewCursor(cursor, groups), groups[g].server)
  {
    CursorCovers(cursor, groups);
  }

  /** Some row of the server is stamped beyond the cursor: the next poll returns it. */
  ghost predicate Dirty(rows: seq<Row>, cursor: Time, server: ServerId) {
    exists i :: 0 <= i < |rows| && rows[i].server == server && rows[i].updatedAt > cursor
  }

  /** Any write, late or not: the invariant survives exactly if it changes no server's rows, or its
      server is polled next, or the stored risk is that of the new active findings. */
  lemma {:induction false} WriteKeepsInvariantIff(cfg: Config, w: World, op: Op)
    requires NoLostUpdate(cfg, w)
    ensures var w' := w.(rows := Commit(w.rows, op));
            NoLostUpdate(cfg, w') <==>
              match Target(w.rows, op)
              case None => true
              case Some(server) => Dirty(w'.rows, w.cursor, server) || UpToDate(cfg, w'.rows, w.store, server)
  {
    var w' := w.(rows := Commit(w.rows, op));
    forall server | Target(w.rows, op) != Some(server) && Seen(w'.rows, w.cursor, server)
      ensures UpToDate(cfg, w'.rows, w.store, server)
    {
      WriteKeepsUpdates(cfg, w, op, server);
    }
    if Target(w.rows, op).Some? {
      WriteStamps(w.rows, op, Target(w.rows, op).value);
    }
  }

  /** A late write to a server whose findings had all been seen: the invariant survives exactly if the
      write leaves the server's score and priority as they were. */
  lemma {:induction false} LateWriteIff(cfg: Config, w: World, op: Op, server: ServerId)
    requires NoLostUpdate(cfg, w) && Enabled(cfg, w, LateWrite(op))
    requires Target(w.rows, op) == Some(server) && Seen(w.rows, w.cursor, server)
    ensures var w' := Next(cfg, w, LateWrite(op));
            var h, h' := ActiveHits(w.rows, server), ActiveHits(w'.rows, server);
            && server in w.store.popRead
            && (NoLostUpdate(cfg, w') <==>
                  Score(cfg.weights, cfg.rules, h', w.store.popRead[server]) == Score(cfg.weights, cfg.rules, h, w.store.popRead[server])
                  && ServerPriority(h') == ServerPriority(h))
  {
    WriteKeepsInvariantIff(cfg, w, op);
    LateStampsAreBehind(w.rows, op, w.cursor, server);
    assert Next(cfg, w, LateWrite(op)) == w.(rows := Commit(w.rows, op));
  }

  lemma {:induction false} LateStampsAreBehind(rows: seq<Row>, op: Op, cursor: Time, server: ServerId)
    requires OpTime(op) <= cursor && Seen(rows, cursor, server)
    ensures !Dirty(Commit(rows, op), cursor, server)
  {
    WriteKeepsStamps(rows, op);
  }

  /** A scan of a server whose other findings had all been seen is polled exactly if its transaction's
      now() is beyond the cursor; the invariant survives it exactly then, or if the stored risk is by
      chance that of the new active findings. */
  lemma {:induction false} LateCommitIsMissedIff(cfg: Config, w: World, b: Batch, groups: seq<Group>)
    requires NoLostUpdate(cfg, w) && Upsert(w.rows, b).Ok? && b.findings != []
    requires forall i :: 0 <= i < |w.rows| && w.rows[i].server == b.server ==> w.rows[i].updatedAt <= w.cursor
    requires PollReturns(Upsert(w.rows, b).rows, w.cursor, groups)
    ensures Polled(groups, b.server) <==> b.at > w.cursor
    ensures NoLostUpdate(cfg, w.(rows := Upsert(w.rows, b).rows)) <==>
            b.at > w.cursor || UpToDate(cfg, Upsert(w.rows, b).rows, w.store, b.server)
  {
    ScanIsPolledIff(w.rows, b, w.cursor, groups);
    WriteKeepsInvariantIff(cfg, w, Scan(b));
  }

  lemma {:induction false} ScanIsPolledIff(rows: seq<Row>, b: Batch, cursor: Time, groups: seq<Group>)
    requires Upsert(rows, b).Ok? && b.findings != []
    requires forall i :: 0 <= i < |rows| && rows[i].server == b.server ==> rows[i].updatedAt <= cursor
    requires PollReturns(Upsert(rows, b).rows, cursor, groups)
    ensures Polled(groups, b.server) <==> b.at > cursor
    ensures Dirty(Upsert(rows, b).rows, cursor, b.server) <==> b.at > cursor
  {
    ScanKeepsStamps(rows, b);
    FirstNewRow(rows, b);
    PolledIff(Upsert(rows, b).rows, cursor, groups, b.server, b.at, |rows|);
  }

  lemma {:induction false} FirstNewRow(rows: seq<Row>, b: Batch)
    requires Upsert(rows, b).Ok? && |b.findings| > 0
    ensures |Upsert(rows, b).rows| > |rows|
    ensures Upsert(rows, b).rows[|rows|].server == b.server && Upsert(rows, b).rows[|rows|].updatedAt == b.at
  {
    UpsertSettles(rows, b);
    assert Upsert(rows, b).rows[|rows|] == BatchRows(b, 0)[0];
  }

  lemma {:induction false} PolledIff(rows: seq<Row>, cursor: Time, groups: seq<Group>, server: ServerId, at: Time, i: nat)
    requires PollReturns(rows, cursor, groups)
    requires i < |rows| && rows[i].server == server && rows[i].updatedAt == at
    requires forall k :: 0 <= k < |rows| && rows[k].server == server ==> rows[k].updatedAt <= cursor || rows[k].updatedAt == at
    ensures Polled(groups, server) <==> at > cursor
  {
  }

  // ----- popularity -----

  /** A refresh changes what the next aggregation of that server reads, clamped to [0, 1], and nothing else. */
  lemma {:induction false} RefreshIsRead(cfg: Config, w: World, server: ServerId, pop: real, other: ServerId)
    ensures var w' := Next(cfg, w, SetPopularity(server, pop));
            && Popularity(w'.popularity, server) == (if pop < 0.0 then 0.0 else if pop > 1.0 then 1.0 else pop)
            && (other != server ==> Popularity(w'.popularity, other) == Popularity(w.popularity, other))
            && w'.rows == w.rows && w'.store == w.store && w'.cursor == w.cursor
  {
  }

  /** The product before it is capped at 100. */
  function Uncapped(base: real, boost: real, pop: real): real {
    base * (1.0 + boost) * (1.0 + pop)
  }

  lemma {:induction false} SameScaleIff(base: real, boost: real, p: real, p': real)
    requires base >= 0.0 && boost >= 0.0 && p >= 0.0 && p' >= 0.0
    ensures Scale(base, boost, p) == Scale(base, boost, p') <==>
            p == p' || base == 0.0 || (Uncapped(base, boost, p) >= 100.0 && Uncapped(base, boost, p') >= 100.0)
  {
    var m := base * (1.0 + boost);
    assert base > 0.0 ==> m > 0.0;
    assert m * (1.0 + p) - m * (1.0 + p') == m * (p - p');
    assert m > 0.0 && p != p' ==> m * (p - p') != 0.0;
  }

  ghost predicate PopReadOk(store: Store) {
    forall server :: server in store.popRead ==> 0.0 <= store.popRead[server] <= 1.0
  }

  lemma {:induction false} ProcessAllReadsPop(cfg: Config, w: World, store: Store, groups: seq<Group>, at: Time)
    requires PopReadOk(store)
    ensures PopReadOk(ProcessAll(cfg, w, store, groups, at))
  {
    if groups != [] {
      ProcessAllReadsPop(cfg, w, store, groups[..|groups| - 1], at);
    }
  }

  lemma {:induction false} PopReadOverRuns(cfg: Config, w: World, steps: seq<Step>)
    requires PopReadOk(w.store) && Legal(cfg, w, steps)
    ensures PopReadOk(Run(cfg, w, steps).store)
    decreases |steps|
  {
    if steps != [] {
      if steps[0].Tick? {
        ProcessAllReadsPop(cfg, w, w.store, steps[0].groups, steps[0].at);
      }
      PopReadOverRuns(cfg, Next(cfg, w, steps[0]), steps[1..]);
    }
  }

  /** The stored score is the one the current popularity gives. */
  ghost predicate ScoreIsCurrent(cfg: Config, w: World, server: ServerId)
    requires server in w.store.risks
  {
    w.store.risks[server].score == Score(cfg.weights, cfg.rules, ActiveHits(w.rows, server), Popularity(w.popularity, server))
  }

  /** Popularity is refreshed without touching findings, so the poll does not notice. In every run, for
      a server that has been seen and is not at risk, the stored score is the current one exactly if
      popularity is what was last read, or the base score is zero, or both products are capped. */
  lemma {:induction false} PopularityIsNotPolled(cfg: Config, steps: seq<Step>, server: ServerId)
    requires Legal(cfg, INITIAL, steps) && NonNegative(cfg.weights, cfg.rules)
    requires Confident(ActiveHits(Run(cfg, INITIAL, steps).rows, server))
    requires server !in AtRisk(cfg, INITIAL, {}, steps)
    requires Seen(Run(cfg, INITIAL, steps).rows, Run(cfg, INITIAL, steps).cursor, server)
    ensures var w := Run(cfg, INITIAL, steps);
            && server in w.store.risks && server in w.store.popRead
            && var hits, read, now := ActiveHits(w.rows, server), w.store.popRead[server], Popularity(w.popularity, server);
               var base, boost := Base(cfg.weights, hits), Boost(cfg.rules, hits);
               ScoreIsCurrent(cfg, w, server) <==>
                 read == now || base == 0.0 || (Uncapped(base, boost, read) >= 100.0 && Uncapped(base, boost, now) >= 100.0)
  {
    var w := Run(cfg, INITIAL, steps);
    NoLostUpdateOverRuns(cfg, steps);
    PopReadOverRuns(cfg, INITIAL, steps);
    var hits := ActiveHits(w.rows, server);
    BaseNonNegative(cfg.weights, cfg.rules, hits);
    BoostNonNegative(cfg.weights, cfg.rules, hits);
    SameScaleIff(Base(cfg.weights, hits), Boost(cfg.rules, hits), w.store.popRead[server], Popularity(w.popularity, server));
  }

  lemma {:induction false} BoostNonNegative(w: Weights, rules: seq<BoostRule>, hs: seq<Hit>)
    requires NonNegative(w, rules)
    ensures Boost(rules, hs) >= 0.0
  {
    forall i | 0 <= i < |hs| ensures Represented(hs[i], hs) {
      assert Alike(hs[i], hs[i]);
    }
    BoostMonotone(w, rules, hs, hs);
  }

  // ----- alerts -----

  lemma {:induction false} DebouncedLater(q: seq<TriageRow>, now: Time, at: Time, skew: nat)
    requires Debounced(q, now, skew) && now <= at
    ensures Debounced(q, at, skew)
  {
  }

  lemma {:induction false} ProcessAllKeepsDebounce(cfg: Config, w: World, store: Store, groups: seq<Group>, at: Time)
    requires Debounced(store.queue, at, cfg.skew)
    requires forall g :: 0 <= g < |groups| ==> groups[g].wall <= at + cfg.skew
    ensures Debounced(ProcessAll(cfg, w, store, groups, at).queue, at, cfg.skew)
  {
    if groups != [] {
      var init, server := groups[..|groups| - 1], groups[|groups| - 1].server;
      ProcessAllKeepsDebounce(cfg, w, store, init, at);
      var mid := ProcessAll(cfg, w, store, init, at);
      var agg := AggregateOf(cfg, server, ActiveHits(w.rows, server), Popularity(w.popularity, server));
      RouteKeepsDebounce(mid.queue, agg, at, at, groups[|groups| - 1].wall, cfg.skew);
    }
  }

  /** Every resolution is stamped with the time it is made. */
  predicate Stamped(s: Step) {
    s.ResolveRow? ==> s.stamp == Some(s.at)
  }

  lemma {:induction false} StepKeepsDebounce(cfg: Config, w: World, s: Step)
    requires Debounced(w.store.queue, w.now, cfg.skew) && Enabled(cfg, w, s) && Stamped(s)
    ensures Debounced(Next(cfg, w, s).store.queue, Next(cfg, w, s).now, cfg.skew)
  {
    match s
    case Write(_) => DebouncedLater(w.store.queue, w.now, Next(cfg, w, s).now, cfg.skew);
    case Tick(at, groups) =>
      DebouncedLater(w.store.queue, w.now, at, cfg.skew);
      ProcessAllKeepsDebounce(cfg, w, w.store, groups, at);
    case ClaimRow(at, k) => ReviewKeepsDebounce(w.store.queue, k, w.now, at, cfg.skew);
    case ResolveRow(at, k, _) => ReviewKeepsDebounce(w.store.queue, k, w.now, at, cfg.skew);
    case AggregateOnce(at, _) => DebouncedLater(w.store.queue, w.now, at, cfg.skew);
    case TickFails(at) => DebouncedLater(w.store.queue, w.now, at, cfg.skew);
    case TickCommitFails(at, _) => DebouncedLater(w.store.queue, w.now, at, cfg.skew);
    case _ =>
  }

  lemma {:induction false} DebouncedOverRuns(cfg: Config, w: World, steps: seq<Step>)
    requires Debounced(w.store.queue, w.now, cfg.skew)
    requires Legal(cfg, w, steps) && forall k :: 0 <= k < |steps| ==> Stamped(steps[k])
    ensures Debounced(Run(cfg, w, steps).store.queue, Run(cfg, w, steps).now, cfg.skew)
    decreases |steps|
  {
    if steps != [] {
      StepKeepsDebounce(cfg, w, steps[0]);
      DebouncedOverRuns(cfg, Next(cfg, w, steps[0]), steps[1..]);
    }
  }

  /** In every run with stamped resolutions, ticks that fail and restarts included, k alerts for
      one server and priority span more than k - 1 debounce periods, each less the clock skew,
      and all of them but the last are resolved. */
  lemma {:induction false} AlertsAreRateBounded(cfg: Config, steps: seq<Step>, server: ServerId, p: Priority, at: seq<nat>)
    requires Legal(cfg, INITIAL, steps) && forall k :: 0 <= k < |steps| ==> Stamped(steps[k])
    requires RowsOfPair(Run(cfg, INITIAL, steps).store.queue, server, p, at) && |at| >= 2
    ensures var q := Run(cfg, INITIAL, steps).store.queue;
            && q[at[|at| - 1]].enqueuedAt - q[at[0]].enqueuedAt > (|at| - 1) * (86_400_000_000 - cfg.skew)
            && forall m :: 0 <= m < |at| - 1 ==> q[at[m]].status.Resolved?
  {
    DebouncedOverRuns(cfg, INITIAL, steps);
    var w := Run(cfg, INITIAL, steps);
    AlertRateBound(w.store.queue, w.now, cfg.skew, server, p, at);
    forall m | 0 <= m < |at| - 1 ensures w.store.queue[at[m]].status.Resolved? {
      AtMostOneOpen(w.store.queue, w.now, cfg.skew, at[m], at[m + 1]);
    }
  }

  // ----- which servers are queued -----

  /** The router calls for triage exactly the servers with a score of at least 1 that have findings and
      either a score of 30 or more, or a high finding, or a critical one of confidence 0.9 or more, behind
      fewer than five others. */
  ghost predicate Noticed(cfg: Config, hits: seq<Hit>, pop: real) {
    var score := Score(cfg.weights, cfg.rules, hits, pop);
    hits != [] && score >= 1.0
    && (score >= 30.0
        || exists i :: 0 <= i < |hits| && (hits[i].severity == High || (hits[i].severity == Critical && hits[i].confidence >= 0.9))
                       && Ahead(ByContribution(cfg.weights), hits, i) < 5)
  }

  lemma {:induction false} NoticedIff(cfg: Config, server: ServerId, hits: seq<Hit>, pop: real)
    ensures WantsTriage(AggregateOf(cfg, server, hits, pop)) <==> Noticed(cfg, hits, pop)
  {
    CalledIff(cfg.weights, hits, Score(cfg.weights, cfg.rules, hits, pop));
  }

  /** In the queue at P0 or P1: open, or resolved within the last 24 hours. */
  predicate UrgentlyAlerted(q: seq<TriageRow>, server: ServerId, wall: Time) {
    Alerted(q, server, P0, wall) || Alerted(q, server, P1, wall)
  }

  ghost predicate RouteAlwaysAlerts(agg: Aggregate) {
    forall q, at, wall :: UrgentlyAlerted(Route(q, agg, at, wall), agg.server, wall)
  }

  /** Whatever the queue was, routing leaves the server in it at P0 or P1, if and only if it is noticed;
      an unnoticed one is never queued. */
  lemma {:induction false} RouteAlertsIff(cfg: Config, server: ServerId, hits: seq<Hit>, pop: real)
    ensures RouteAlwaysAlerts(AggregateOf(cfg, server, hits, pop)) <==> Noticed(cfg, hits, pop)
    ensures !Noticed(cfg, hits, pop) ==> forall q, at, wall :: Route(q, AggregateOf(cfg, server, hits, pop), at, wall) == q
  {
    var agg := AggregateOf(cfg, server, hits, pop);
    NoticedIff(cfg, server, hits, pop);
    if WantsTriage(agg) {
      forall q, at, wall ensures UrgentlyAlerted(Route(q, agg, at, wall), agg.server, wall) {
        RouteAlerts(q, agg, at, wall);
      }
    } else {
      assert !UrgentlyAlerted(Route([], agg, 0, 0), agg.server, 0);
    }
  }

  /** A server scored P0 that no routing ever queues. */
  lemma {:induction false} P0NeverQueued(server: ServerId, skew: nat, q: seq<TriageRow>, at: Time, wall: Time)
    ensures ServerPriority(Skipped()).P0?
    ensures var agg := AggregateOf(Config(DEFAULT_WEIGHTS, DefaultRules(), skew), server, Skipped(), 0.0);
            agg.score == 19.5 && Route(q, agg, at, wall) == q
  {
    P0IsSkipped();
    RouteAlerts(q, AggregateOf(Config(DEFAULT_WEIGHTS, DefaultRules(), skew), server, Skipped(), 0.0), at, wall);
  }

  function Hits(w: World, g: Group): seq<Hit> {
    ActiveHits(w.rows, g.server)
  }

  function AggregateFor(cfg: Config, w: World, g: Group): Aggregate {
    AggregateOf(cfg, g.server, Hits(w, g), Popularity(w.popularity, g.server))
  }

  lemma {:induction false} TickAlertsWanted(cfg: Config, w: World, store: Store, groups: seq<Group>, at: Time, g: nat)
    requires g < |groups| && WantsTriage(AggregateFor(cfg, w, groups[g]))
    ensures var agg := AggregateFor(cfg, w, groups[g]);
            Alerted(ProcessAll(cfg, w, store, groups, at).queue, agg.server, RoutePriority(agg.top, agg.score), groups[g].wall)
    decreases |groups|
  {
    var n := |groups| - 1;
    var mid, last := ProcessAll(cfg, w, store, groups[..n], at), AggregateFor(cfg, w, groups[n]);
    if g == n {
      RouteAlerts(mid.queue, last, at, groups[n].wall);
    } else {
      TickAlertsWanted(cfg, w, store, groups[..n], at, g);
      var agg := AggregateFor(cfg, w, groups[g]);
      RouteKeepsAlerts(mid.queue, last, at, groups[n].wall, agg.server, RoutePriority(agg.top, agg.score), groups[g].wall);
    }
  }

  /** The queue only grows, and by no row of this server. */
  ghost predicate NoneAdded(before: seq<TriageRow>, after: seq<TriageRow>, server: ServerId) {
    before <= after && forall k :: |before| <= k < |after| ==> after[k].server != server
  }

  lemma {:induction false} TickSkipsUnwanted(cfg: Config, w: World, store: Store, groups: seq<Group>, at: Time, g: Group)
    requires !WantsTriage(AggregateFor(cfg, w, g))
    ensures NoneAdded(store.queue, ProcessAll(cfg, w, store, groups, at).queue, g.server)
    decreases |groups|
  {
    if groups != [] {
      var n := |groups| - 1;
      TickSkipsUnwanted(cfg, w, store, groups[..n], at, g);
      var last := AggregateFor(cfg, w, groups[n]);
      if last.server == g.server {
        assert !WantsTriage(last);
      }
    }
  }

  /** After a tick, a polled server is in the queue at its routed priority if it is noticed, and has got
      no new row if it is not. */
  lemma {:induction false} TickAlerts(cfg: Config, w: World, store: Store, groups: seq<Group>, at: Time, g: nat)
    requires g < |groups|
    ensures var hits, pop := Hits(w, groups[g]), Popularity(w.popularity, groups[g].server);
            var agg, queue := AggregateFor(cfg, w, groups[g]), ProcessAll(cfg, w, store, groups, at).queue;
            if Noticed(cfg, hits, pop)
            then Alerted(queue, groups[g].server, RoutePriority(agg.top, agg.score), groups[g].wall)
            else NoneAdded(store.queue, queue, groups[g].server)
  {
    NoticedIff(cfg, groups[g].server, Hits(w, groups[g]), Popularity(w.popularity, groups[g].server));
    if WantsTriage(AggregateFor(cfg, w, groups[g])) {
      TickAlertsWanted(cfg, w, store, groups, at, g);
    } else {
      TickSkipsUnwanted(cfg, w, store, groups, at, groups[g]);
    }
  }

  /** By the server's own priority: at a score of at least 1, a polled server scored P0 or P1 is in the
      queue after the tick, at that priority, if it has at most five findings. */
  lemma {:induction false} TickAlertsFew(cfg: Config, w: World, store: Store, groups: seq<Group>, at: Time, g: nat)
    requires g < |groups| && |Hits(w, groups[g])| <= 5
    requires Urgent(ServerPriority(Hits(w, groups[g]))) && AggregateFor(cfg, w, groups[g]).score >= 1.0
    ensures Alerted(ProcessAll(cfg, w, store, groups, at).queue, groups[g].server, ServerPriority(Hits(w, groups[g])), groups[g].wall)
  {
    SmallServersAgree(cfg.weights, Hits(w, groups[g]), AggregateFor(cfg, w, groups[g]).score);
    TickAlertsWanted(cfg, w, store, groups, at, g);
  }

  /** Under the default weights, however many findings it has, a polled server with a critical one of
      confidence 0.9 or more is in the queue after the tick, at P0 or P1. */
  lemma {:induction false} TickAlertsCritical(cfg: Config, w: World, store: Store, groups: seq<Group>, at: Time, g: nat, i: nat)
    requires g < |groups| && cfg.weights == DEFAULT_WEIGHTS && NonNegative(cfg.weights, cfg.rules)
    requires Confident(Hits(w, groups[g])) 
    requires i < |Hits(w, groups[g])| && Hits(w, groups[g])[i].severity == Critical && Hits(w, groups[g])[i].confidence >= 0.9
    ensures UrgentlyAlerted(ProcessAll(cfg, w, store, groups, at).queue, groups[g].server, groups[g].wall)
  {
    CriticalIsCalled(Hits(w, groups[g]), cfg.rules, Popularity(w.popularity, groups[g].server), i);
    TickAlertsWanted(cfg, w, store, groups, at, g);
  }

  // ----- re-scans and status moves, up to the score -----

  function ContentHits(cs: seq<Content>, server: ServerId): seq<Hit> {
    if cs == [] then []
    else
      var c := cs[|cs| - 1];
      ContentHits(cs[..|cs| - 1], server)
      + if c.server == server then [Hit(0, c.finding.detector, c.finding.severity, c.finding.confidence)] else []
  }

  lemma {:induction false} HitsComeFromContents(rows: seq<Row>, server: ServerId)
    ensures SameButIds(ActiveHits(rows, server), ContentHits(ActiveContents(rows), server))
  {
    if rows != [] {
      var init, r := rows[..|rows| - 1], rows[|rows| - 1];
      HitsComeFromContents(init, server);
      var cs := ActiveContents(init);
      if r.status.Active? {
        assert ActiveContents(rows)[..|cs|] == cs;
      } else {
        assert ActiveContents(rows) == cs;
      }
    }
  }

  lemma {:induction false} SameButIdsTransitive(a: seq<Hit>, b: seq<Hit>, c: seq<Hit>)
    requires SameButIds(a, b) && SameButIds(c, b)
    ensures SameButIds(a, c)
  {
    forall i | 0 <= i < |a| ensures Alike(a[i], c[i]) {
      assert Alike(a[i], b[i]) && Alike(c[i], b[i]);
    }
  }

  /** Scanning a well-keyed batch twice gives every server the base score, triggered rules, final
      score and priority of scanning it once, while the table keeps the superseded rows. */
  lemma {:induction false} RescanKeepsScore(cfg: Config, rows: seq<Row>, b: Batch, again: Batch, server: ServerId, pop: real)
    requires IndexOk(rows) && WellKeyedBatch(b) && again == b.(at := again.at)
    ensures Upsert(rows, b).Ok? && Upsert(Upsert(rows, b).rows, again).Ok?
    ensures var once := Upsert(rows, b).rows;
            var twice := Upsert(once, again).rows;
            var h1, h2 := ActiveHits(once, server), ActiveHits(twice, server);
            && |twice| == |once| + |b.findings|
            && Base(cfg.weights, h2) == Base(cfg.weights, h1)
            && TriggeredNames(cfg.rules, h2) == TriggeredNames(cfg.rules, h1)
            && Score(cfg.weights, cfg.rules, h2, pop) == Score(cfg.weights, cfg.rules, h1, pop)
            && ServerPriority(h2) == ServerPriority(h1)
  {
    WellKeyedRescan(rows, b, again);
    var once := Upsert(rows, b).rows;
    var twice := Upsert(once, again).rows;
    HistoryGrows(once, again);
    HitsComeFromContents(once, server);
    HitsComeFromContents(twice, server);
    SameButIdsTransitive(ActiveHits(twice, server), ContentHits(ActiveContents(once), server), ActiveHits(once, server));
    IdsDoNotMatter(cfg.weights, cfg.rules, ActiveHits(twice, server), ActiveHits(once, server), pop);
  }

  /** The first n rows, one of which may have left the active set. */
  lemma {:induction false} FewerHits(rows: seq<Row>, rows': seq<Row>, server: ServerId)
    requires |rows| == |rows'|
    requires forall i :: 0 <= i < |rows| ==> rows'[i] == rows[i] || (!rows'[i].status.Active? && rows'[i].server == rows[i].server)
    ensures multiset(ActiveHits(rows', server)) <= multiset(ActiveHits(rows, server))
  {
    if rows != [] {
      FewerHits(rows[..|rows| - 1], rows'[..|rows| - 1], server);
    }
  }

  lemma {:induction false} HitsAreConfident(rows: seq<Row>, server: ServerId)
    requires forall i :: 0 <= i < |rows| ==> rows[i].finding.confidence >= 0.0
    ensures Confident(ActiveHits(rows, server))
  {
    if rows != [] {
      HitsAreConfident(rows[..|rows| - 1], server);
    }
  }

  /** Suppressing, confirming or dismissing a finding never raises any server's score or urgency. */
  lemma {:induction false} LeavingActiveNeverRaises(cfg: Config, rows: seq<Row>, op: Op, server: ServerId, pop: real)
    requires op.Suppress? || op.Confirm? || op.MarkFp?
    requires NonNegative(cfg.weights, cfg.rules) && pop >= 0.0
    requires forall i :: 0 <= i < |rows| ==> rows[i].finding.confidence >= 0.0
    ensures var before, after := ActiveHits(rows, server), ActiveHits(Commit(rows, op), server);
            && 0.0 <= Score(cfg.weights, cfg.rules, after, pop) <= Score(cfg.weights, cfg.rules, before, pop) <= 100.0
            && Urgency(ServerPriority(after)) <= Urgency(ServerPriority(before))
  {
    FewerHits(rows, Commit(rows, op), server);
    HitsAreConfident(rows, server);
    ScoreLaws(cfg.weights, cfg.rules, ActiveHits(Commit(rows, op), server), ActiveHits(rows, server), pop);
  }
}
