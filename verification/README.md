# Threat-analysis pipeline: a Dafny model

This project models the stateful core of the MCP threat-analysis pipeline and proves what it promises over whole
runs, in Dafny 4.11. Check it with `dafny verify dfyconfig.toml`.

**Finding ledger, ingestor, aggregator, triage.** A scan writes findings by superseding the active row of the same
key and inserting a new one, under a partial unique index over active rows; reviewers move rows between statuses; a
trigger restamps every changed row. The ingestor polls those stamps by a cursor, re-aggregates each dirty server and
routes it to a triage queue with a 24-hour debounce. `Models`, `Ledger` and `FindingStore` hold the table, `Rescan`
its meaning as a map, `Scoring` and `Digest` the score and the five-finding digest, `WeightTable` the default weights in
numbers, `Routing` which servers that digest
lets the router see, `Triage` the queue, `Pipeline` the state machine of all steps (scans and moves, on time or late, ticks
that commit, roll back or fail at the commit, restarts, reviews, popularity refreshes), `Guarantees` the theorems across them, `Scenarios` the runs in which a promise
fails, and `Ingestor` the classes that update the tables in place, each method tied to a step of the state machine.

**LLM calls.** `LlmProtocol` takes each stretch of code between two awaits as one action, so a schedule is any
interleaving of any number of calls. `LlmSafety` (permits, attempts, audit rows), `LlmMoney` (cost), `LlmCoherence`
(cache) and `LlmProgress` (termination, no deadlock) hold over every schedule. `LlmClient` is the client as the code
runs it: between any two steps of a call other calls may do anything its contract allows, and a ghost trace records
that all of it together is a schedule. `BatchRunner` and `RunnerTasks` do the same for the batch runner, its queue and
its outer semaphore. `Sums` counts and adds over sequences.

**Around them.** `JsonSalvage` (replies in fences or prose), `CharLayer` (the character scanner and its keys),
`Orchestrator` (gathering detectors in any completion order, save, link), `Linking` (LLM calls to findings),
`Handlers` (the handler summary written and read back), `TargetLoader` (bounded copy and extraction).

Where the code does not keep what it promises, the project shows a case and says exactly when it does:

- The cursor is assigned before the commit, and a scan that takes longer than a poll interval commits stamps behind it.
  A failed commit loses updates exactly when some polled server was not already up to date
  (`Guarantees.CommitFailureIff`), a late write to a seen server exactly when it changes that server's score or priority
  (`Guarantees.LateWriteIff`). Only those servers are at risk, until they are aggregated again or the ingestor restarts
  (`Pipeline.NoLostUpdateOverRuns`).
- A null `evidence_key` is stored as it is but matched under the fallback key, so such rows pile up; an empty one makes
  the next scan break the unique index (`Ledger.KeepsOneActivePerKeyIff`, `Rescan.RescanIdempotentIff`).
- Popularity is refreshed without touching findings, so the poll does not notice: the score goes stale unless popularity
  is the same, the base is zero or the score is capped either way (`Guarantees.PopularityIsNotPolled`).
- A resolution lets the pair be enqueued again exactly when it has no stamp or an old one
  (`Triage.UnstampedResolutionDefeatsDebounce`).
- The risk-layer design promises a queue row for every P0 and P1 server. The router looks at five findings: routing
  follows the server's priority, and all P0 and P1 servers are queued, for all sets of n findings exactly if n is at most
  five (`Digest.RoutingAgreesIff`, `Routing.UrgentAreCalledIff`). A server is queued exactly if it scores 30, or a
  high finding of it, or a critical one of confidence 0.9 or more, has fewer than five others ahead
  (`Routing.CalledIff`, `Guarantees.RouteAlertsIff`); under the
  default weights a critical finding of confidence 0.9 or more is never missed (`Routing.CriticalIsCalled`).
- The audit table keeps four decimals of a cost, the budget all of them; a row is exact exactly for whole
  ten-thousandths (`LlmMoney.RowIsExactIff`, `LlmMoney.TokensInUnits`).
- A fence around an object is transparent exactly if the object contains no fence (`JsonSalvage.FenceIsTransparentIff`),
  and the handler summary is exact exactly without import references (`Handlers.RoundTripIff`).
- A job is dispatched after the batch loop has exited exactly if it was before (`BatchRunner.StopStrandsTheQueue`).

Where code and documentation differ, the model follows the code: the comment at
`src/mcp_threat_analysis/semantic_analysis/llm/client.py:300` says the salvaged block is balanced, the code takes
everything from the first opening to the last closing brace; the header of
`src/mcp_threat_analysis/semantic_analysis/llm/cache.py` calls the cache persistent, the class is process-local; the
risk-layer design document (`docs/L6-风险聚合评分层-系统设计.md:186`) debounces webhook pushes, the code debounces queue
rows by the time of resolution; the concurrency design
(`docs/superpowers/specs/2026-04-30-llm-tool-concurrency-design.md:53-70`) speaks of one permit around a call, the
retried function takes and releases one for each attempt.

Assumptions: floats are `real`; a row's id is its position in the table; a transaction is atomic and has one `now()`;
ticks
are atomic; `skew` bounds how far the router's clock runs ahead of the database's.

## Model

| member | source | states |
|---|---|---|
| Models.EvidenceKey | src/mcp_threat_analysis/common/models.py:129-131 | The matching key is the evidence's own key when it has a non-empty one, otherwise file, line and tool name joined by colons; it is never empty. |
| Models.StoredUnderMatchingKey | src/mcp_threat_analysis/common/persistence.py:95-96 | A finding is stored under the key it is matched by if and only if its evidence has no key entry or a non-empty one; a null or empty entry is stored as it is. |
| Ledger.UpsertSettles | src/mcp_threat_analysis/common/persistence.py:71-122 | A committed batch, without its loop: an old row changes only if some finding of the batch names its key, and each finding gets one row, superseded only if a later finding names it. |
| Ledger.UpsertInserts | src/mcp_threat_analysis/common/persistence.py:95-120 | After a committed batch row i of it holds finding i entry by entry: detector, severity, confidence, file, line, tool name, call id, and its own key entry, or the matching key if it has none; under the batch's server, artifact and time, active or superseded, without a reason. |
| Ledger.UpsertRetires | src/mcp_threat_analysis/common/persistence.py:74-94 | An old row is superseded and restamped, nothing else of it changed, if it was active and some finding of the batch has its server, detector and artifact and is matched under its key; otherwise it is untouched. |
| Ledger.CollidesIff | sql/001_schema.sql:67-69 | Making a row active is refused if and only if another row is active with the same server, detector, artifact and text key. |
| Ledger.LastOfItsKeyStaysActive | src/mcp_threat_analysis/common/persistence.py:71-122 | Row i of a batch ends active if and only if no later finding of its detector is matched under its stored key; the table grows by the batch length. |
| Ledger.UpsertOneFailsIff | src/mcp_threat_analysis/common/persistence.py:74-120 | One supersede-then-insert is rejected by the unique index if and only if the finding carries an empty key and such a row is active; otherwise the index still holds. |
| Ledger.CommitsFromEveryTableIff | src/mcp_threat_analysis/common/persistence.py:61-122 | A batch commits from every table the index allows if and only if none of its findings carries an empty key. |
| Ledger.RewritingAnEmptyKeyFails | src/mcp_threat_analysis/common/persistence.py:83-96 | A batch with an empty key, once written, can never be written again: its second scan is rolled back. |
| Ledger.CommitKeepsIndex | sql/001_schema.sql:67-69 | Every scan and every status move, rejected ones included, leaves at most one active row per index entry. |
| Ledger.IndexHoldsOverRuns | sql/001_schema.sql:67-69 | So does every run of them. |
| Ledger.KeepsOneActivePerKeyIff | src/mcp_threat_analysis/common/persistence.py:67-70 | From every table with one active row per (server, detector, artifact, key), a batch commits and keeps that if and only if all its findings are well keyed. |
| Ledger.ReactivateKeepsOneActive | src/mcp_threat_analysis/risk_scoring/lifecycle.py:63-77 | Reactivation, refused when the index would be violated, keeps one active row per key. |
| Ledger.OneActiveOverRuns | src/mcp_threat_analysis/common/persistence.py:61-122 | Over every run of well-keyed scans and status moves, reactivation included, at most one active row exists per key. |
| Rescan.UpsertIsMapOverride | src/mcp_threat_analysis/common/persistence.py:61-122 | As a map from key to active finding, a well-keyed batch is a last-wins override of the table. |
| Rescan.ContentsAfterRescan | src/mcp_threat_analysis/common/persistence.py:61-122 | What is active after scanning a batch twice, for any batch that commits twice. |
| Rescan.RescanIdempotentIff | src/mcp_threat_analysis/common/persistence.py:61-122 | From any table the index allows and the first scan commits to, scanning the batch again leaves the active contents as they were if and only if the batch is well keyed. |
| Rescan.HistoryGrows | src/mcp_threat_analysis/common/persistence.py:98-121 | Each scan, repeated or not, adds one row per finding. |
| FindingStore.FindingTable.Upsert | src/mcp_threat_analysis/common/persistence.py:61-122 | The loop over the statements commits exactly the specified table and returns the ids of rows that hold the findings of the batch entry by entry, in order, or leaves the table as it was. |
| FindingStore.FindingTable.Suppress | src/mcp_threat_analysis/risk_scoring/lifecycle.py:16-30 | Sets the status of the row with that id to suppressed, with the reason, restamps it, and touches no other row. |
| FindingStore.FindingTable.Confirm | src/mcp_threat_analysis/risk_scoring/lifecycle.py:32-45 | Likewise to confirmed, keeping the reason. |
| FindingStore.FindingTable.MarkFp | src/mcp_threat_analysis/risk_scoring/lifecycle.py:47-61 | Likewise to false positive, with the reason. |
| FindingStore.FindingTable.Reactivate | src/mcp_threat_analysis/risk_scoring/lifecycle.py:63-77 | Makes the row active and clears its reason; it changes nothing if and only if another active row has its server, detector, artifact and text key. |
| Scoring.ScoreLaws | src/mcp_threat_analysis/risk_scoring/aggregator.py:73-82 | The score lies in [0, 100]; neither it nor the priority's urgency falls when findings are added. |
| Scoring.OrderDoesNotMatter | src/mcp_threat_analysis/risk_scoring/aggregator.py:73-101 | Score, triggered rules and priority do not depend on the order of the rows. |
| Scoring.IdsDoNotMatter | src/mcp_threat_analysis/risk_scoring/aggregator.py:73-101 | Nor on their ids. |
| Scoring.BaseMonotone | src/mcp_threat_analysis/risk_scoring/aggregator.py:73-77 | More findings never lower the base score, for non-negative weights and confidences. |
| Scoring.BoostMonotone | src/mcp_threat_analysis/risk_scoring/cross_validator.py:57-64 | More detectors never lower the boost. |
| Scoring.UrgencyMonotone | src/mcp_threat_analysis/risk_scoring/aggregator.py:153-169 | More detectors and severities never lower the priority. |
| Scoring.BoostDependsOnDetectors | src/mcp_threat_analysis/risk_scoring/cross_validator.py:57-64 | Boost and rule names depend only on which detectors fired. |
| Scoring.UnmetRuleAddsNothing | src/mcp_threat_analysis/risk_scoring/cross_validator.py:60-64 | A rule one of whose predicates no finding meets can be taken out of the list without changing boost or names. |
| Scoring.MetRuleAddsItself | src/mcp_threat_analysis/risk_scoring/cross_validator.py:60-64 | A rule each of whose predicates some finding meets adds exactly its boost, and its name at its place. |
| Scoring.NoRulesNoBoost | src/mcp_threat_analysis/risk_scoring/cross_validator.py:58-64 | With no rules there is no boost and no name. |
| Scoring.DefaultBoost | src/mcp_threat_analysis/risk_scoring/cross_validator.py:25-50 | Under the default rules the boost is 0.3 if the schema mismatch and the undeclared egress both fired, plus 0.5 for a version diff with "bcc" and the egress, plus 0.2 for a poisoning text rule and the model, and nothing else. |
| Scoring.DefaultNames | src/mcp_threat_analysis/risk_scoring/cross_validator.py:25-50 | And the names returned with it, in this order. |
| Scoring.VersionDiffBccIff | src/mcp_threat_analysis/risk_scoring/cross_validator.py:37 | A detector is such a version diff if and only if it begins with the prefix, any text on the same line, and "bcc". |
| Scoring.ServerPriorityIff | src/mcp_threat_analysis/risk_scoring/aggregator.py:153-169 | P0 if and only if some finding is critical with confidence 0.9 or more, or some is high and three different detectors occur; P1 if and only if not P0 and some finding is high; P2 if and only if none of that and some is medium. |
| Scoring.Head | src/mcp_threat_analysis/risk_scoring/weights.py:77 | The class of a detector is looked up by its part before the first colon, all of it if there is none. |
| Scoring.ContributionIs | src/mcp_threat_analysis/risk_scoring/aggregator.py:73-77 | A finding counts for the weight of its severity, times that of its class, times its confidence; a severity without a weight counts nothing, a class without one counts once. |
| Scoring.ScoreIs | src/mcp_threat_analysis/risk_scoring/aggregator.py:79-82 | The score is the product of base, boost factor and popularity factor, or 100 if that is more. |
| WeightTable.DefaultFactor | src/mcp_threat_analysis/risk_scoring/weights.py:22-55 | The default factor of any detector, by its prefix before the colon: 3 for remote, 2.5 for dynamic-egress, and so on down to 0.6 for reputation; 1 for any prefix without a class. |
| WeightTable.SeverityPoints | src/mcp_threat_analysis/risk_scoring/weights.py:14-20 | By default a critical finding counts 10, a high one 5, a medium one 2, a low one 0.5, an informational one 0.1. |
| WeightTable.StaticClasses | src/mcp_threat_analysis/risk_scoring/weights.py:77-79 | A prefix alone or followed by a colon and anything makes the class of static detectors. |
| WeightTable.SemanticClasses | src/mcp_threat_analysis/risk_scoring/weights.py:80-93 | Likewise for semantic detectors. |
| WeightTable.RuntimeClasses | src/mcp_threat_analysis/risk_scoring/weights.py:94-97 | Likewise for version differences and remote servers. |
| WeightTable.SourceClasses | src/mcp_threat_analysis/risk_scoring/weights.py:98-101 | Likewise for name spaces and commits. |
| WeightTable.NetworkClasses | src/mcp_threat_analysis/risk_scoring/weights.py:102-105 | Likewise for dynamic network and file system findings. |
| WeightTable.ProtocolClass | src/mcp_threat_analysis/risk_scoring/weights.py:106-107 | Likewise for protocol anomalies. |
| WeightTable.OtherClass | src/mcp_threat_analysis/risk_scoring/weights.py:108 | Every detector of another prefix is of the class "unknown". |
| Digest.SortIsStable | src/mcp_threat_analysis/risk_scoring/aggregator.py:84-90 | The sort behind the digest is descending, a permutation, and keeps the order of equal contributions. |
| Digest.DigestIsTop | src/mcp_threat_analysis/risk_scoring/aggregator.py:84-99 | The digest is five findings, or all if there are fewer, in descending order of contribution, none of which contributes less than an omitted one. |
| Digest.RoutePriorityIff | src/mcp_threat_analysis/risk_scoring/triage_router.py:90-105 | Over the digest: P0 if and only if some finding is critical with confidence 0.9 or more, or some is high and three different detectors occur; P1 if and only if not P0 and some finding is high or the score is 30 or more; P2 likewise with medium. |
| Digest.RoutingIsSound | src/mcp_threat_analysis/risk_scoring/triage_router.py:90-105 | Routing at P0 implies that the server is P0; a high finding in the digest implies P0 or P1. |
| Digest.SmallServersAgree | src/mcp_threat_analysis/risk_scoring/triage_router.py:90-105 | With at most five findings routing and server priority agree, except that a score of 30 or more lifts P2 and P3 to P1. |
| Digest.RoutingAgreesIff | src/mcp_threat_analysis/risk_scoring/triage_router.py:90-105 | Under the default weights and at any score, routing follows the server's priority for all sets of n findings, and routes exactly the P0 servers at P0, if and only if n is at most five. |
| Digest.CriticalFallsOut | src/mcp_threat_analysis/risk_scoring/triage_router.py:90-105 | For every n above five, and any weights under which the high finding outranks the critical one, there is a P0 server that is routed as P1. |
| Triage.RouteKeepsDebounce | src/mcp_threat_analysis/risk_scoring/triage_router.py:29-53 | Routing keeps rows of one (server, priority) apart: the earlier is resolved more than 24 h before the later is enqueued. |
| Triage.ReviewKeepsDebounce | sql/001_schema.sql:115-127 | So do claiming a row and resolving it with a stamp. |
| Triage.AtMostOneOpen | src/mcp_threat_analysis/risk_scoring/triage_router.py:55-87 | Of two rows for one pair, the earlier is resolved, and they are enqueued more than 24 h apart, less the clock skew. |
| Triage.AlertRateBound | src/mcp_threat_analysis/risk_scoring/triage_router.py:15 | k enqueues for one pair span more than (k - 1) times 24 h, each period less the clock skew. |
| Routing.SortPlaces | src/mcp_threat_analysis/risk_scoring/aggregator.py:84-90 | A finding stands in the sorted list exactly behind those that outrank it and its equals that come earlier. |
| Routing.CalledIff | src/mcp_threat_analysis/risk_scoring/triage_router.py:29-33 | A server is called for triage if and only if it has findings, a score of at least 1, and either a score of 30 or more, or a finding that is high, or critical with confidence 0.9 or more, and has fewer than five others ahead of it. |
| Routing.UrgentAreCalledIff | src/mcp_threat_analysis/risk_scoring/triage_router.py:29-33 | Under the default weights, at any rules and popularity: all servers of n findings that are scored P0 or P1 with at least 1 are called for triage if and only if n is at most five. |
| Routing.HighDrowns | src/mcp_threat_analysis/risk_scoring/triage_router.py:29-33 | For every n above five there is a server scored P1, at 2 points, that is not called. |
| Routing.P0IsSkipped | src/mcp_threat_analysis/risk_scoring/triage_router.py:90-105 | A server of six findings scored P0, at 19.5 points, is routed as P2. |
| Routing.CriticalIsCalled | src/mcp_threat_analysis/risk_scoring/triage_router.py:29-33 | Under the default weights a server with a critical finding of confidence 0.9 or more is always called: if five others push it out of the digest, its score is 30 or more. |
| Guarantees.RouteAlertsIff | src/mcp_threat_analysis/risk_scoring/triage_router.py:19-53 | Whatever the queue was, routing leaves a server in it at P0 or P1, open or resolved within 24 h, if and only if the condition of CalledIff holds; otherwise the queue stays as it was. |
| Guarantees.P0NeverQueued | src/mcp_threat_analysis/risk_scoring/triage_router.py:19-53 | The P0 server above is left out of every queue. |
| Triage.UnstampedResolutionDefeatsDebounce | src/mcp_threat_analysis/risk_scoring/triage_router.py:71-87 | In any debounced queue, whatever its history: once the open row of a pair is resolved, the pair is enqueued again if and only if the resolution carries no stamp or one older than 24 h. |
| Pipeline.Popularity | src/mcp_threat_analysis/risk_scoring/popularity.py:18-26 | The popularity read is the stored one if that lies in [0, 1], the nearer bound if it does not, and 0 if there is none. |
| Pipeline.HitsAreActiveRows | src/mcp_threat_analysis/risk_scoring/aggregator.py:61-71 | What is aggregated are active rows of the server only, in the order of their ids, each with its detector, severity and confidence. |
| Pipeline.ActiveRowIsHit | src/mcp_threat_analysis/risk_scoring/aggregator.py:61-71 | And every one of them. |
| Pipeline.AggregateIs | src/mcp_threat_analysis/risk_scoring/aggregator.py:140-150 | The aggregate field by field: score, base, boost, rules, popularity, number of active findings, weights version, digest. |
| Pipeline.AggregationWrites | src/mcp_threat_analysis/risk_scoring/aggregator.py:101-139 | Aggregating replaces the server's risk row and appends one history row: score, the server's own priority, number of findings, digest and weights version, stamped now; the queue is untouched. |
| Pipeline.WriteStamps | sql/001_schema.sql:138-148 | A scan or move stamps a row of its target server with its own time and leaves the rows of every other server alone. |
| Pipeline.WriteKeepsStamps | sql/001_schema.sql:138-148 | Every row is restamped or unchanged. |
| Pipeline.CursorCovers | src/mcp_threat_analysis/risk_scoring/ingestor.py:83-90 | The next cursor is the greatest of the old one and the stamps polled. |
| Pipeline.ProcessAllScores | src/mcp_threat_analysis/risk_scoring/ingestor.py:64-65 | A tick leaves every polled server with the score and priority of its active findings, and every other as it was. |
| Pipeline.StepKeepsUpdates | src/mcp_threat_analysis/risk_scoring/ingestor.py:61-90 | Every step, late writes and failed commits included, keeps the stored score and priority current for every seen server that is not at risk. |
| Pipeline.NoLostUpdateOverRuns | src/mcp_threat_analysis/risk_scoring/ingestor.py:61-90 | In every run, a server whose stamps are all at or below the cursor has the stored score and priority of its current active findings, unless it was written to by a late transaction, or polled by a tick whose commit failed, since it was last aggregated or the ingestor last started. |
| Pipeline.AtRiskIff | src/mcp_threat_analysis/risk_scoring/ingestor.py:61-90 | A server is at risk after a run if and only if some step wrote to it late, or polled it and failed to commit, and no later step aggregated it or restarted the ingestor. |
| Pipeline.TrustedRisksNothing | src/mcp_threat_analysis/risk_scoring/ingestor.py:61-90 | No server is at risk if there was no late write and no failed commit of a non-empty tick since the ingestor last started. |
| Pipeline.TickCatchesUp | src/mcp_threat_analysis/risk_scoring/ingestor.py:61-67 | After a committed tick of any run every server with findings that was polled, or is not at risk, is up to date. |
| Pipeline.CursorNeverDecreases | src/mcp_threat_analysis/risk_scoring/ingestor.py:66 | Without a restart the cursor never decreases. |
| Pipeline.IdleTickIff | src/mcp_threat_analysis/risk_scoring/ingestor.py:61-90 | A tick changes nothing if and only if no row is stamped beyond the cursor. |
| Guarantees.CommitFailureIff | src/mcp_threat_analysis/common/db.py:42-50 | When the commit fails after the cursor moved, the invariant survives if and only if every polled server was already up to date. |
| Scenarios.CommitFailureLosesUpdate | src/mcp_threat_analysis/risk_scoring/ingestor.py:62-67 | A run of one scan and one failing commit leaves a server unscored behind the cursor. |
| Guarantees.WriteKeepsInvariantIff | src/mcp_threat_analysis/risk_scoring/ingestor.py:72-80 | Any write keeps the invariant if and only if it changes no server's rows, or its server is stamped beyond the cursor, or the stored risk is that of its new active findings. |
| Guarantees.LateWriteIff | src/mcp_threat_analysis/semantic_analysis/orchestrator.py:71-86 | A late write to a seen server keeps the invariant if and only if it leaves the server's score and priority as they were. |
| Scenarios.LongScanLosesUpdate | src/mcp_threat_analysis/semantic_analysis/orchestrator.py:71-86 | A run: a long scan commits after a tick has polled a later one; its server is never scored and the next poll returns nothing. |
| Guarantees.LateCommitIsMissedIff | src/mcp_threat_analysis/risk_scoring/ingestor.py:72-80 | A scan of a server whose other findings were all seen is polled if and only if its transaction's time is beyond the cursor; the invariant survives it exactly then, or if the stored risk already is that of the new findings. |
| Guarantees.PopularityIsNotPolled | src/mcp_threat_analysis/risk_scoring/ingestor.py:72-80 | In every run, for any seen server not at risk, the stored score is the one current popularity gives if and only if popularity is what was last read, or the base score is zero, or both products are capped. |
| Guarantees.PopReadOverRuns | src/mcp_threat_analysis/risk_scoring/popularity.py:18-26 | In every run each popularity last read lies in [0, 1]. |
| Guarantees.RefreshIsRead | src/mcp_threat_analysis/risk_scoring/popularity.py:18-26 | A refresh changes what the next aggregation of that server reads, clamped to [0, 1], and nothing else. |
| Scenarios.PopularityGoesStale | src/mcp_threat_analysis/risk_scoring/ingestor.py:72-80 | A run of scan, tick and refresh after which nothing is at risk, nothing is polled, and the stored score is that of the old popularity. |
| Scenarios.DefaultAlarm | src/mcp_threat_analysis/risk_scoring/aggregator.py:73-82 | Under the default weights the stale score is 5 where the current one is 10. |
| Guarantees.DebouncedOverRuns | src/mcp_threat_analysis/risk_scoring/triage_router.py:15-87 | The debounce holds in every run with stamped resolutions, failed ticks and restarts included. |
| Guarantees.AlertsAreRateBounded | src/mcp_threat_analysis/risk_scoring/triage_router.py:15-87 | In every such run k alerts for one pair span more than k - 1 periods, and all but the last are resolved. |
| Scenarios.TwoAlertsWithinADay | src/mcp_threat_analysis/risk_scoring/triage_router.py:71-87 | A run with a resolution that carries no stamp: two alerts for one server and priority, microseconds apart. |
| Guarantees.TickAlerts | src/mcp_threat_analysis/risk_scoring/ingestor.py:92-96 | After a tick every polled server that meets the condition is in the queue at its routed priority, and every other has got no new row; nothing is assumed of the server. |
| Guarantees.TickAlertsFew | src/mcp_threat_analysis/risk_scoring/ingestor.py:92-96 | By scored priority: a polled server scored P0 or P1, at 1 or more, with at most five findings, is in the queue at that priority after the tick. |
| Guarantees.TickAlertsCritical | src/mcp_threat_analysis/risk_scoring/ingestor.py:92-96 | Under the default weights so is, at P0 or P1, every polled server with a critical finding of confidence 0.9 or more, however many findings it has. |
| Guarantees.RescanKeepsScore | src/mcp_threat_analysis/risk_scoring/aggregator.py:73-101 | Scanning a well-keyed batch twice gives the base score, rules, score and priority of scanning it once, while superseded rows accumulate. |
| Guarantees.LeavingActiveNeverRaises | src/mcp_threat_analysis/risk_scoring/lifecycle.py:16-61 | Suppressing, confirming or marking a finding never raises its server's score or urgency. |
| Ingestor.CrossValidator.TotalBoost | src/mcp_threat_analysis/risk_scoring/cross_validator.py:57-64 | The loop returns the boost and the names of the rules in effect, as UnmetRuleAddsNothing, MetRuleAddsItself and NoRulesNoBoost determine them. |
| Ingestor.CrossValidator.constructor | src/mcp_threat_analysis/risk_scoring/cross_validator.py:53-55 | An empty list of rules means the default rules. |
| Ingestor.Aggregator.BaseScore | src/mcp_threat_analysis/risk_scoring/aggregator.py:73-77 | The loop returns the sum of the contributions. |
| Ingestor.Aggregator.Aggregate | src/mcp_threat_analysis/risk_scoring/aggregator.py:54-150 | Writes the server's risk, and its history row if asked, and returns the aggregate; no other server is touched. |
| Ingestor.TriageRouter.Route | src/mcp_threat_analysis/risk_scoring/triage_router.py:19-53 | Returns true if and only if the score is at least 1, there are findings, the routed priority is P0 or P1, and every row of that server and priority is resolved, without a stamp or more than 24 h ago; then it appends one pending row of that priority, otherwise nothing. |
| Ingestor.Ingestor.PollDirty | src/mcp_threat_analysis/risk_scoring/ingestor.py:83-90 | The loop returns the dirty servers in query order and the next cursor. |
| Ingestor.Ingestor.ProcessDirty | src/mcp_threat_analysis/risk_scoring/ingestor.py:64-65 | Processes the servers in order, up to a fault. |
| Ingestor.Ingestor.Tick | src/mcp_threat_analysis/risk_scoring/ingestor.py:61-67 | A tick is the state machine's step for its fault: committed, rolled back with the old cursor, or rolled back with the new one. |
| LlmSafety.ProtocolIsSafe | src/mcp_threat_analysis/semantic_analysis/llm/client.py:128-247 | In every interleaving free permits plus holders is the configured concurrency, a call finishes at most three attempts and is in flight only before the third is finished, a hit makes none, a raising call exactly three, and a finished call has exactly one audit row. |
| LlmSafety.AuditTells | src/mcp_threat_analysis/semantic_analysis/llm/client.py:141-202 | In every interleaving an audit row carries its call's request and tells how it went: a hit or an error at no cost, or a response at its own stored cost. |
| LlmSafety.StepAudits | src/mcp_threat_analysis/semantic_analysis/llm/client.py:143-198 | An action writes a row exactly when its call becomes recorded, for that call, with its status and its cost as the column keeps it. |
| LlmProgress.ActionsAreBounded | src/mcp_threat_analysis/semantic_analysis/llm/client.py:224-229 | n calls take at most 11 n actions in any schedule. |
| LlmProgress.NoDeadlock | src/mcp_threat_analysis/semantic_analysis/llm/client.py:239-247 | With at least one permit, an unfinished call means that some call can act. |
| LlmMoney.CostIsConserved | src/mcp_threat_analysis/semantic_analysis/llm/client.py:185-202 | At every reachable state a detector's audited cost is accepted spend plus what parse failures and refusals lost plus what is not yet charged, up to 0.00005 for each "ok" row, and exactly so when all these calls cost whole ten-thousandths; each day's spend is exactly the cost of the calls charged that day. |
| LlmMoney.NewDay | src/mcp_threat_analysis/semantic_analysis/llm/budget.py:24-33 | In every schedule a new day begins with nothing spent and keeps what was spent before. |
| LlmMoney.RowIsExactIff | sql/001_schema.sql:95 | Over every schedule an "ok" row says exactly what its call cost if and only if that is a whole number of ten-thousandths. |
| LlmMoney.CostOf | src/mcp_threat_analysis/semantic_analysis/llm/client.py:308-313 | A million tokens in and out cost 1 and 5 dollars, 3 and 15, or 15 and 75, for the three known models; nothing for any other. |
| LlmMoney.TokensInUnits | src/mcp_threat_analysis/semantic_analysis/llm/client.py:308-313 | For a known model that is so if and only if input tokens plus five times output tokens is a multiple of 100, or of 20 for the dearest model. |
| LlmMoney.StoredIsNear | sql/001_schema.sql:95 | The column is never off by more than 0.00005. |
| LlmMoney.RoundingLosesSpend | src/mcp_threat_analysis/semantic_analysis/llm/client.py:185-201 | A schedule whose one call costs 0.000035: that is charged, and audited as nothing. |
| LlmMoney.StaysWithinLimitsIff | src/mcp_threat_analysis/semantic_analysis/llm/budget.py:21-33 | From within limits a step stays there if and only if it does not set a limit below what was spent on some day. |
| LlmMoney.LimitsHoldOverSchedules | src/mcp_threat_analysis/semantic_analysis/llm/budget.py:24-33 | Over every schedule whose limits undercut no past spend, no day's spend exceeds its limit. |
| LlmCoherence.LookUpReadsLastPut | src/mcp_threat_analysis/semantic_analysis/llm/cache.py:27-33 | A lookup hits exactly if the last value put under its key exists and is not null, and then returns it. |
| LlmCoherence.PutsAreSeparateIff | src/mcp_threat_analysis/semantic_analysis/llm/cache.py:27-33 | A put never changes what any other request finds if and only if the hash is injective. |
| LlmCoherence.CacheIsCoherent | src/mcp_threat_analysis/semantic_analysis/llm/client.py:141-202 | With an injective hash every entry, and every value a hit returned, is the parse of an audited response to exactly that request whose cost the budget accepted. |
| LlmClient.Budget.Consume | src/mcp_threat_analysis/semantic_analysis/llm/budget.py:24-33 | Refuses exactly when the new total would exceed the limit, and a refusal changes no spend. |
| LlmClient.Budget.Remaining | src/mcp_threat_analysis/semantic_analysis/llm/budget.py:35-39 | What is left under the limit, never negative; reading it changes no spend. |
| LlmClient.LLMClient.Attempt | src/mcp_threat_analysis/semantic_analysis/llm/client.py:239-247 | One attempt holds a permit across the request and ends with the response or the failure counted. |
| LlmClient.LLMClient.CallWithRetry | src/mcp_threat_analysis/semantic_analysis/llm/client.py:224-247 | Answers if and only if the first, the second or the third attempt gets a response, with the first one there is; otherwise fails after exactly three. |
| LlmClient.LLMClient.AskModel | src/mcp_threat_analysis/semantic_analysis/llm/client.py:164-222 | After a miss the call raises exactly after three failures, or ends with what the parser and the budget make of its first response. |
| LlmClient.LLMClient.Settle | src/mcp_threat_analysis/semantic_analysis/llm/client.py:185-222 | Audits first; then the outcome is a parse failure, a refusal or an answer, according to the parser and the budget. |
| LlmClient.LLMClient.CallOnce | src/mcp_threat_analysis/semantic_analysis/llm/client.py:128-222 | Whatever runs at its awaits, a call finishes, all that happened is a schedule of the protocol, and it raises only when all three attempts failed. |
| BatchRunner.RunnerIsSafe | src/mcp_threat_analysis/semantic_analysis/llm/batch_runner.py:43-72 | Over every schedule jobs are conserved and dispatched first in, first out; requests in flight are within both semaphores; a job's call carries its own detector, prompt and payload and no two jobs share one; a finished job's callback was given the value of its call if that was a cache hit or an answer, then nothing, too, if it raised on it, and nothing, once, if the call raised. |
| BatchRunner.InFlightWithinInner | src/mcp_threat_analysis/semantic_analysis/llm/batch_runner.py:60-68 | Batch requests in flight never exceed the client's permits. |
| BatchRunner.InFlightWithinOuter | src/mcp_threat_analysis/semantic_analysis/llm/batch_runner.py:61 | Nor the runner's own. |
| BatchRunner.WorkIsBounded | src/mcp_threat_analysis/semantic_analysis/llm/batch_runner.py:52-72 | In every schedule the steps of dispatched jobs and of calls are bounded by the rank at the start, 15 for each job taken and 11 for each call made by others, less the rank that is left. |
| BatchRunner.OtherStepsRank | src/mcp_threat_analysis/semantic_analysis/llm/batch_runner.py:43-58 | Every other step leaves the rank as it is, but for a job taken (15) and a call made by others (11). |
| BatchRunner.WorkFromStart | src/mcp_threat_analysis/semantic_analysis/llm/batch_runner.py:52-72 | So from the start there are at most 15 steps for each job taken and 11 for each call made by others. |
| BatchRunner.NoDeadlock | src/mcp_threat_analysis/semantic_analysis/llm/batch_runner.py:61-68 | The nested permits cannot deadlock. |
| BatchRunner.StopStrandsTheQueue | src/mcp_threat_analysis/semantic_analysis/llm/batch_runner.py:38-58 | For every schedule after the loop has exited, a submitted job is ever dispatched if and only if it had been at the exit. |
| BatchRunner.StopTakesOneMoreAtMost | src/mcp_threat_analysis/semantic_analysis/llm/batch_runner.py:52-58 | Once stopped, the loop takes at most one more job, and none unless it is already waiting for one. |
| BatchRunner.StoppedBeforeDispatch | src/mcp_threat_analysis/semantic_analysis/llm/batch_runner.py:38-58 | A schedule of submit, stop and the loop's check ends with the job in the queue and the loop left. |
| RunnerTasks.Runner.Submit | src/mcp_threat_analysis/semantic_analysis/llm/batch_runner.py:43-44 | Appends the job to the queue. |
| RunnerTasks.Runner.Stop | src/mcp_threat_analysis/semantic_analysis/llm/batch_runner.py:38-39 | Sets the stop event and nothing else. |
| RunnerTasks.Runner.RunOnce | src/mcp_threat_analysis/semantic_analysis/llm/batch_runner.py:52-58 | Leaves the loop exactly if stopped before the turn; otherwise dispatches the head of a non-empty queue. |
| RunnerTasks.Runner.AwaitCall | src/mcp_threat_analysis/semantic_analysis/llm/batch_runner.py:63-68 | The awaited call is done after boundedly many steps of the client. |
| RunnerTasks.Runner.ReturnJob | src/mcp_threat_analysis/semantic_analysis/llm/batch_runner.py:63-72 | A hit or an answer leads to the callback with its value, every other outcome to the one with None. |
| RunnerTasks.Runner.DispatchJob | src/mcp_threat_analysis/semantic_analysis/llm/batch_runner.py:60-72 | Whatever runs at its awaits, a dispatched job finishes with its callback given the value of its own call if that was a cache hit or an answer, and None afterwards if and only if it raised on it; None alone if the call raised. |
| JsonSalvage.FenceIsTransparentIff | src/mcp_threat_analysis/semantic_analysis/llm/client.py:290-298 | A bare or tagged fence around an object's text, padded with any JSON white space, yields the object's value for every decoder that ignores white space around a value if and only if the text contains no fence; with spaces and newlines only, for every decoder. |
| JsonSalvage.InnerFenceCuts | src/mcp_threat_analysis/semantic_analysis/llm/client.py:293-296 | Otherwise what is decoded is the object's text up to its first inner fence. |
| JsonSalvage.ProseIsTransparentIff | src/mcp_threat_analysis/semantic_analysis/llm/client.py:297-305 | Prose that does not open with a fence yields the object's value, for every decoder that rejects the reply as a whole, if and only if no opening brace precedes the object and no closing one follows it. |
| JsonSalvage.SalvageIsWidest | src/mcp_threat_analysis/semantic_analysis/llm/client.py:300-304 | The salvaged text contains every text between an opening and a later closing brace; it need not be balanced. |
| JsonSalvage.NextFence | src/mcp_threat_analysis/semantic_analysis/llm/client.py:293 | The fence that ends the fenced part is the first one after the opening. |
| JsonSalvage.PlainReply | src/mcp_threat_analysis/semantic_analysis/llm/client.py:290-299 | A reply without a fence that decodes as it stands, up to white space around it, is that value. |
| JsonSalvage.BlankReply | src/mcp_threat_analysis/semantic_analysis/llm/client.py:290-305 | A reply of white space only is decoded as the empty text. |
| JsonSalvage.FencePadIff | src/mcp_threat_analysis/semantic_analysis/llm/client.py:296 | At either end of a fenced text backticks, spaces and newlines are dropped, nothing else. |
| JsonSalvage.IsSpaceIff | src/mcp_threat_analysis/semantic_analysis/llm/client.py:291 | The white space stripped, by code point. |
| CharLayer.SearchAnsi | src/mcp_threat_analysis/semantic_analysis/detectors/char_layer.py:23 | The search succeeds if and only if some substring is ESC [ (digits or semicolons) letter. |
| CharLayer.AnsiMatchIff | src/mcp_threat_analysis/semantic_analysis/detectors/char_layer.py:23 | Such a substring is escape, bracket, any digits and semicolons, and an ASCII letter. |
| CharLayer.RangesAreDisjoint | src/mcp_threat_analysis/semantic_analysis/detectors/char_layer.py:16-22 | No code point is in two ranges, so leaving the inner loop at the first hides no second finding. |
| CharLayer.SuspiciousIff | src/mcp_threat_analysis/semantic_analysis/detectors/char_layer.py:16-22 | The suspicious code points in numbers, both ends of every range included. |
| CharLayer.HiddenExact | src/mcp_threat_analysis/semantic_analysis/detectors/char_layer.py:47-71 | Exactly one hidden-unicode finding per suspicious position, in increasing order. |
| CharLayer.ScanExact | src/mcp_threat_analysis/semantic_analysis/detectors/char_layer.py:45-89 | A position is reported if and only if it is suspicious, an escape if and only if the text has one, and nothing twice. |
| CharLayer.Scan | src/mcp_threat_analysis/semantic_analysis/detectors/char_layer.py:45-89 | The loops with their break emit exactly these findings, in this order. |
| CharLayer.RunDetector | src/mcp_threat_analysis/semantic_analysis/detectors/char_layer.py:29-43 | The detector emits those of all tools and fields, in order. |
| CharLayer.FieldsInOrder | src/mcp_threat_analysis/semantic_analysis/detectors/char_layer.py:31-43 | Of each tool in turn: its description, its annotations, its input schema. |
| CharLayer.KeysAreInjective | src/mcp_threat_analysis/semantic_analysis/detectors/char_layer.py:65-83 | Detector and key determine tool name, field and position, colons in names notwithstanding. |
| CharLayer.RenderedAs | src/mcp_threat_analysis/semantic_analysis/detectors/char_layer.py:52-89 | A hidden code point is a high finding of confidence 0.95, an escape sequence a medium one of 0.9, under the key of tool name, field and position, or tool name and field. |
| CharLayer.DecimalReadsBack | src/mcp_threat_analysis/semantic_analysis/detectors/char_layer.py:67 | The position in a key is written in decimal digits that read back as it. |
| CharLayer.AllStayActive | src/mcp_threat_analysis/semantic_analysis/detectors/char_layer.py:29-43 | For tools of distinct names one upsert of a run commits and leaves every finding active. |
| Orchestrator.Gather | src/mcp_threat_analysis/semantic_analysis/orchestrator.py:107-111 | Whatever the completion order, each result is at its detector's position. |
| Orchestrator.RunDetectors | src/mcp_threat_analysis/semantic_analysis/orchestrator.py:94-119 | The findings are those of the rule detectors, then of the LLM detectors, that did not raise, in list order, whatever the completion order. |
| Orchestrator.EveryOutputInPlace | src/mcp_threat_analysis/semantic_analysis/orchestrator.py:94-119 | The findings of each detector that did not raise are a block right behind those of the detectors that run before it. |
| Orchestrator.NothingElse | src/mcp_threat_analysis/semantic_analysis/orchestrator.py:94-119 | And the result holds nothing else. |
| Orchestrator.SemanticAnalysis.Run | src/mcp_threat_analysis/semantic_analysis/orchestrator.py:63-87 | Detects, saves and links in one transaction and returns the findings; a rejected save raises, changes nothing and links nothing; without persistence nothing is written. |
| Linking.CallTable.Link | src/mcp_threat_analysis/semantic_analysis/persistence.py:235-254 | The loop of guarded updates links each unlinked call that is named to the first finding naming it, and changes no other. |
| Linking.SaveLinksWhatItNames | src/mcp_threat_analysis/semantic_analysis/orchestrator.py:82-86 | After a committed save a call is unlinked if and only if it was and no finding names it; a new link is to the row of the first finding naming it. |
| Linking.RelinkIsNoOp | src/mcp_threat_analysis/semantic_analysis/persistence.py:247-250 | Linking again changes nothing. |
| Linking.LinksAreFinalOverRuns | src/mcp_threat_analysis/semantic_analysis/persistence.py:247-250 | Over every run a linked call keeps its link. |
| Linking.LinksAgreeOverRuns | src/mcp_threat_analysis/semantic_analysis/persistence.py:235-254 | Over every run of saves, moves and audited calls, every link leads to a row that names the call. |
| Linking.IdsStayUniqueOverRuns | src/mcp_threat_analysis/semantic_analysis/persistence.py:184-232 | Over every run call ids stay unique. |
| Linking.CallTable.Insert | src/mcp_threat_analysis/semantic_analysis/persistence.py:184-232 | An audited call is added unlinked under a fresh id. |
| Handlers.HydrateHandlers | src/mcp_threat_analysis/semantic_analysis/persistence.py:71-134 | The loop returns what reading the list yields, and raises when reading any one handler does. |
| Handlers.AbsentSummary | src/mcp_threat_analysis/semantic_analysis/persistence.py:74-77 | A missing or empty document, or nothing under its handler entry, reads as no handlers. |
| Handlers.EmptyHandler | src/mcp_threat_analysis/semantic_analysis/persistence.py:79-131 | What a handler reads as that has no entries at all. |
| Handlers.EmptyRecords | src/mcp_threat_analysis/semantic_analysis/persistence.py:90-125 | Likewise for a network call, a file operation and a subprocess call. |
| Handlers.AsDictKeepsIff | src/mcp_threat_analysis/static_analysis/persistence.py:17-19 | Converting a value to dictionaries leaves it unchanged if and only if there is no import reference inside. |
| Handlers.RecordEntries | src/mcp_threat_analysis/static_analysis/persistence.py:17-19 | The entries under which import references, network calls, file operations and subprocess calls are written. |
| Handlers.SummaryReadsBack | src/mcp_threat_analysis/static_analysis/persistence.py:39-42 | Everything but the import references survives writing and reading, for lists of any length. |
| Handlers.RoundTripIff | src/mcp_threat_analysis/semantic_analysis/persistence.py:71-134 | Reading back the written summary returns the original handlers if and only if none has imported callees. |
| TargetLoader.WorkDir.CopyDirectory | src/mcp_threat_analysis/static_analysis/target_loader.py:85-107 | At every moment, and when it raises, the files copied are a prefix of the eligible ones within both limits; it raises if and only if there are more than 50,000 eligible files or they exceed the byte limit; the directories of all files are made, with those above them, none of a skipped name. |
| TargetLoader.EligibleExactly | src/mcp_threat_analysis/static_analysis/target_loader.py:89-98 | The eligible files are exactly the regular, unlinked ones with none of the thirteen skipped names in their path. |
| TargetLoader.EligibleInOrder | src/mcp_threat_analysis/static_analysis/target_loader.py:89-101 | They stay in order, each as often as it occurs, and their sizes add up. |
| TargetLoader.SplitJoins | src/mcp_threat_analysis/static_analysis/target_loader.py:153 | Splitting a name at slashes loses nothing. |
| TargetLoader.AcceptedIff | src/mcp_threat_analysis/static_analysis/target_loader.py:153 | A name is accepted if and only if it begins with neither a slash nor two dots and no component of it is two dots. |
| TargetLoader.AcceptedStaysInside | src/mcp_threat_analysis/static_analysis/target_loader.py:150-169 | An accepted name, followed component by component from any root, never leaves it. |
| TargetLoader.RejectedMayLeave | src/mcp_threat_analysis/static_analysis/target_loader.py:153 | Rejected names that lead above the root or to another place. |
| TargetLoader.SafeNameRejected | src/mcp_threat_analysis/static_analysis/target_loader.py:153 | A file name that merely begins with two dots leads inside, and is rejected too. |
| TargetLoader.SafeExtract | src/mcp_threat_analysis/static_analysis/target_loader.py:150-169 | Extracts the accepted members in order, at most 50,000, and raises if and only if there are more. |

## Left out

- Float rounding: `findings.confidence` and the stored scores are REAL columns, so a confidence of 0.9 read back is slightly below 0.9; the model keeps the exact value.
- Pipeline.ActiveHits: rows come back in order of their ids, where the query leaves the order open; score, rules and server priority do not depend on it (Scoring.OrderDoesNotMatter), but among findings of equal contribution it decides which are in the digest, and so what the router sees.
- JSON text, JSONB storage, SHA-256 and UUIDs: a decoder and a hash are parameters, stored documents come back as written, fresh ids are distinct.
- SQL beyond row sets, the guarded update, the partial unique index, the restamping trigger and commit or rollback: foreign keys, deleting a server, the check on layers, nulls in key columns.
- Evidence entries other than the matching key and the LLM call id, and non-text evidence keys.
- LlmClient.LLMClient.Interleave: has an empty body; what other calls may do is its contract, and callers are proved against nothing else.
- RunnerTasks.Runner.Interleave: likewise for the other tasks of the batch runner.
- RunnerTasks.Runner.AwaitQueue: likewise while the loop waits on its queue.
- LlmClient.LLMClient.AwaitPermit: others are let run until a permit is free by finishing one holder; the contract allows any schedule that frees one.
- RunnerTasks.Runner.AwaitCall: drives the call by one fair schedule; safety over all schedules is proved in BatchRunner.
- BatchRunner.RunnerIsSafe: `flush`, which only polls the queue, and `start` are not modelled; a dispatch that is waiting when the process ends is not followed further.
- Task cancellation, failed audit writes (a cost of a million dollars, which overflows the column, among them), semaphore fairness, and a job lost by a timeout that races with a queue get.
- TargetLoader.WorkDir.CopyDirectory: entries do not change while they are copied, and a directory walk is a given list; removal of the work directory after an error, downloading and the language index are not modelled.
- TargetLoader.AcceptedStaysInside: lexical; symbolic links inside an archive are not modelled.
- CharLayer.Scan: the context, name and code point entries of the evidence are not modelled; annotations and schema arrive as text.
- Orchestrator.RunDetectors: what each detector returns is given; a detector that is cancelled rather than raising is excluded, and attaching handlers to tools by name is not modelled.
- Handlers.RoundTripIff: the other entries of the summary are an arbitrary map.
- Linking.CallTable.Link: call ids are well formed, so no single update fails.
- Loading weights from YAML, other regular expressions than the two of the default rules (any predicate on detector names is allowed), reopening a triage row, and two aggregations of one server in one transaction, which collide on the history key and roll back.
- External scanners, remote and network detectors, embeddings, the server, command-line tools and provider SDKs: calls with opaque results, or only easy members.
