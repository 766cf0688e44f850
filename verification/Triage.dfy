/**
 The triage queue: routing with a 24-hour debounce per (server, priority), and what
 reviewers do to the rows afterwards.
 */
module Triage {
  import opened Models
  import opened Scoring
  import opened Digest

  /** 24 hours in microseconds. */
  const DEBOUNCE: int := 24 * 60 * 60 * 1_000_000

  datatype TriageStatus = Pending | InReview | Resolved

  datatype TriageRow = TriageRow(
    server: ServerId,
    priority: Priority,
    enqueuedAt: Time,
    status: TriageStatus,
    resolvedAt: Option<Time>)

  /** The result the aggregator hands to the router. */
  datatype Aggregate = Aggregate(
    server: ServerId,
    score: real,
    base: real,
    boost: real,
    boostRules: seq<string>,
    popularity: real,
    count: nat,
    version: string,
    top: seq<Hit>)

  predicate ForPair(r: TriageRow, server: ServerId, p: Priority) {
    r.server == server && r.priority == p
  }

  predicate AlreadyOpen(q: seq<TriageRow>, server: ServerId, p: Priority) {
    exists i :: 0 <= i < |q| && ForPair(q[i], server, p) && !q[i].status.Resolved?
  }

  /** `wall` is the router's own clock; a resolution without a stamp never counts. */
  predicate RecentResolution(q: seq<TriageRow>, server: ServerId, p: Priority, wall: Time) {
    exists i :: 0 <= i < |q| && ForPair(q[i], server, p) && q[i].status.Resolved?
                && q[i].resolvedAt.Some? && q[i].resolvedAt.value >= wall - DEBOUNCE
  }

  predicate WantsTriage(agg: Aggregate) {
    && agg.score >= 1.0 && agg.count != 0
    && (RoutePriority(agg.top, agg.score).P0? || RoutePriority(agg.top, agg.score).P1?)
  }

  predicate Enqueues(q: seq<TriageRow>, agg: Aggregate, wall: Time) {
    var p := RoutePriority(agg.top, agg.score);
    WantsTriage(agg) && !AlreadyOpen(q, agg.server, p) && !RecentResolution(q, agg.server, p, wall)
  }

  /** `at` is the transaction's now(), which stamps the new row. */
  function Route(q: seq<TriageRow>, agg: Aggregate, at: Time, wall: Time): seq<TriageRow> {
    if Enqueues(q, agg, wall)
    then q + [TriageRow(agg.server, RoutePriority(agg.top, agg.score), at, Pending, None)]
    else q
  }

  /** A reviewer takes a pending row. */
  function Claim(q: seq<TriageRow>, k: nat): seq<TriageRow> {
    if k < |q| && q[k].status.Pending? then q[k := q[k].(status := InReview)] else q
  }

  /** A reviewer resolves an open row; the schema lets the stamp be null. */
  function Resolve(q: seq<TriageRow>, k: nat, stamp: Option<Time>): seq<TriageRow> {
    if k < |q| && !q[k].status.Resolved? then q[k := q[k].(status := Resolved, resolvedAt := stamp)] else q
  }

  // ----- the debounce -----

  /** Of two rows for the same pair the earlier is resolved, at a stamp more than 24 h
      (less the clock skew) before the later was enqueued. */
  ghost predicate Spaced(a: TriageRow, b: TriageRow, skew: nat) {
    ForPair(b, a.server, a.priority) ==>
      && a.status.Resolved? && a.resolvedAt.Some?
      && a.enqueuedAt <= a.resolvedAt.value
      && a.resolvedAt.value + DEBOUNCE < b.enqueuedAt + skew
  }

  ghost predicate Debounced(q: seq<TriageRow>, now: Time, skew: nat) {
    && (forall i :: 0 <= i < |q| ==> q[i].enqueuedAt <= now)
    && (forall i :: 0 <= i < |q| && q[i].status.Resolved? ==> q[i].resolvedAt.Some? && q[i].enqueuedAt <= q[i].resolvedAt.value)
    && (forall i, j :: 0 <= i < j < |q| ==> Spaced(q[i], q[j], skew))
  }

  lemma {:induction false} RouteKeepsDebounce(q: seq<TriageRow>, agg: Aggregate, now: Time, at: Time, wall: Time, skew: nat)
    requires Debounced(q, now, skew) && now <= at && wall <= at + skew
    ensures Debounced(Route(q, agg, at, wall), at, skew)
  {
  }

  lemma {:induction false} ReviewKeepsDebounce(q: seq<TriageRow>, k: nat, now: Time, at: Time, skew: nat)
    requires Debounced(q, now, skew) && now <= at
    ensures Debounced(Claim(q, k), at, skew)
    ensures Debounced(Resolve(q, k, Some(at)), at, skew)
  {
  }

  lemma {:induction false} AtMostOneOpen(q: seq<TriageRow>, now: Time, skew: nat, i: nat, j: nat)
    requires Debounced(q, now, skew) && i < j < |q| && ForPair(q[j], q[i].server, q[i].priority)
    ensures q[i].status.Resolved?
    ensures q[j].enqueuedAt - q[i].enqueuedAt > 86_400_000_000 - skew
  {
    assert Spaced(q[i], q[j], skew);
  }

  /** Positions of rows of one pair, in queue order. */
  ghost predicate RowsOfPair(q: seq<TriageRow>, server: ServerId, p: Priority, at: seq<nat>) {
    && (forall m :: 0 <= m < |at| ==> at[m] < |q| && ForPair(q[at[m]], server, p))
    && (forall m, n :: 0 <= m < n < |at| ==> at[m] < at[n])
  }

  /** k enqueues of one pair span more than (k - 1) debounce periods, each less the skew. */
  lemma {:induction false} AlertRateBound(q: seq<TriageRow>, now: Time, skew: nat, server: ServerId, p: Priority, at: seq<nat>)
    requires Debounced(q, now, skew) && RowsOfPair(q, server, p, at) && |at| >= 2
    ensures q[at[|at| - 1]].enqueuedAt - q[at[0]].enqueuedAt > (|at| - 1) * (86_400_000_000 - skew)
    decreases |at|
  {
    var last := |at| - 1;
    AtMostOneOpen(q, now, skew, at[last - 1], at[last]);
    if |at| > 2 {
      var init := at[..last];
      assert RowsOfPair(q, server, p, init);
      AlertRateBound(q, now, skew, server, p, init);
    }
  }

  /** The pair is in the queue: open, or resolved within the last 24 hours. */
  predicate Alerted(q: seq<TriageRow>, server: ServerId, p: Priority, wall: Time) {
    AlreadyOpen(q, server, p) || RecentResolution(q, server, p, wall)
  }

  lemma {:induction false} RouteAlerts(q: seq<TriageRow>, agg: Aggregate, at: Time, wall: Time)
    ensures if WantsTriage(agg)
            then Alerted(Route(q, agg, at, wall), agg.server, RoutePriority(agg.top, agg.score), wall)
            else Route(q, agg, at, wall) == q
  {
    if Enqueues(q, agg, wall) {
      assert ForPair(Route(q, agg, at, wall)[|q|], agg.server, RoutePriority(agg.top, agg.score));
    }
  }

  lemma {:induction false} RouteKeepsAlerts(q: seq<TriageRow>, agg: Aggregate, at: Time, wall: Time, server: ServerId, p: Priority, since: Time)
    requires Alerted(q, server, p, since)
    ensures Alerted(Route(q, agg, at, wall), server, p, since)
  {
    var q' := Route(q, agg, at, wall);
    assert forall i :: 0 <= i < |q| ==> q'[i] == q[i];
  }

  /** In a debounced queue an open row is the last of its pair, and no earlier one counts as recent. */
  lemma {:induction false} OnlyTheOpenRowCounts(q: seq<TriageRow>, now: Time, skew: nat, k: nat, wall: Time, i: nat)
    requires Debounced(q, now, skew) && k < |q| && !q[k].status.Resolved? && q[k].enqueuedAt + skew <= wall
    requires i < |q| && i != k && ForPair(q[i], q[k].server, q[k].priority)
    ensures q[i].status.Resolved? && q[i].resolvedAt.Some? && q[i].resolvedAt.value < wall - DEBOUNCE
  {
    var first, second := if i < k then i else k, if i < k then k else i;
    assert Spaced(q[first], q[second], skew);
  }

  /** Once the open row of a pair is resolved, the next routing enqueues the pair again if and only
      if the resolution has no stamp, or one older than 24 hours: without a stamp, however soon. */
  lemma {:induction false} UnstampedResolutionDefeatsDebounce(
      q: seq<TriageRow>, now: Time, skew: nat, k: nat, agg: Aggregate, wall: Time, stamp: Option<Time>)
    requires Debounced(q, now, skew) && k < |q| && !q[k].status.Resolved? && q[k].enqueuedAt + skew <= wall
    requires WantsTriage(agg) && ForPair(q[k], agg.server, RoutePriority(agg.top, agg.score))
    ensures Enqueues(Resolve(q, k, stamp), agg, wall) <==> stamp.None? || stamp.value < wall - 86_400_000_000
  {
    var p, q' := RoutePriority(agg.top, agg.score), Resolve(q, k, stamp);
    assert q'[k] == q[k].(status := Resolved, resolvedAt := stamp);
    forall i | 0 <= i < |q| && i != k && ForPair(q[i], agg.server, p)
      ensures q'[i].status.Resolved? && q'[i].resolvedAt.Some? && q'[i].resolvedAt.value < wall - DEBOUNCE
    {
      OnlyTheOpenRowCounts(q, now, skew, k, wall, i);
    }
  }
}
