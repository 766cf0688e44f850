/**
 Permits, attempts and audit rows, over every schedule of the call protocol.
 */
module LlmSafety {
  import opened Models
  import opened LlmProtocol
  import opened Sums

  // ----- permits -----

  function Holding(): Call -> int {
    (call: Call) => if call.pc.InFlight? then 1 else 0
  }

  ghost predicate PermitsOk(c: Config, s: State) {
    s.free >= 0 && s.free + Count(s.calls, Holding()) == c.permits
  }

  /** What a call gives up in holding, the semaphore gains, and the other way round. */
  lemma {:induction false} PermitMoves(c: Config, s: State, a: Action, i: nat)
    requires Enabled(c, s, a) && Actor(a) == Some(i)
    ensures Next(c, s, a).free + Holding()(Next(c, s, a).calls[i]) == s.free + Holding()(s.calls[i])
    ensures Next(c, s, a).free >= s.free || s.free > 0
    ensures s.free - 1 <= Next(c, s, a).free
  {
  }

  lemma {:induction false} StepKeepsPermits(c: Config, s: State, a: Action)
    requires PermitsOk(c, s) && Enabled(c, s, a)
    ensures PermitsOk(c, Next(c, s, a))
  {
    var s' := Next(c, s, a);
    match Actor(a)
    case Some(i) =>
      OneCallMoves(c, s, a, i);
      PermitMoves(c, s, a, i);
      CountUpdate(s.calls, i, s'.calls[i], Holding());
    case None =>
      if a.Spawn? {
        assert s'.calls[..|s.calls|] == s.calls;
      }
  }

  // ----- attempts -----

  /** How many HTTP attempts a call has finished, by where it is. */
  predicate AttemptsOk(call: Call) {
    match call.pc
    case Ready => call.attempts == 0
    case RecordingHit(_) => call.attempts == 0
    case Waiting => call.attempts < MAX_ATTEMPTS
    case InFlight => call.attempts < MAX_ATTEMPTS
    case BackingOff => 1 <= call.attempts < MAX_ATTEMPTS
    case RecordingError => call.attempts == MAX_ATTEMPTS
    case Done(Hit(_)) => call.attempts == 0
    case Done(Raised) => call.attempts == MAX_ATTEMPTS
    case _ => 1 <= call.attempts <= MAX_ATTEMPTS
  }

  // ----- audit rows -----

  /** What the audit must say of a call by now: nothing, or one row of this status and cost. */
  function Recorded(call: Call): Option<(AuditStatus, real)> {
    match call.pc
    case Done(Hit(_)) => Some((CacheHit, 0.0))
    case Done(Raised) => Some((Error, 0.0))
    case Done(_) => Some((Success, Stored(call.cost)))
    case Charging(_) => Some((Success, Stored(call.cost)))
    case _ => None
  }

  function RowsOf(audit: seq<AuditRow>, i: nat): nat {
    if audit == [] then 0
    else RowsOf(audit[..|audit| - 1], i) + if audit[|audit| - 1].call == i then 1 else 0
  }

  ghost predicate RowOk(s: State, r: AuditRow) {
    && r.call < |s.calls|
    && r.req == s.calls[r.call].req
    && Recorded(s.calls[r.call]) == Some((r.status, r.cost))
  }

  ghost predicate AuditOk(s: State) {
    && (forall k :: 0 <= k < |s.audit| ==> RowOk(s, s.audit[k]))
    && (forall i :: 0 <= i < |s.calls| ==> RowsOf(s.audit, i) == if Recorded(s.calls[i]).Some? then 1 else 0)
  }

  lemma {:induction false} NoRowsBeyond(audit: seq<AuditRow>, i: nat)
    requires forall k :: 0 <= k < |audit| ==> audit[k].call != i
    ensures RowsOf(audit, i) == 0
  {
    if audit != [] {
      NoRowsBeyond(audit[..|audit| - 1], i);
    }
  }

  lemma {:induction false} SomeRow(audit: seq<AuditRow>, k: nat)
    requires k < |audit|
    ensures RowsOf(audit, audit[k].call) >= 1
  {
    if k < |audit| - 1 {
      SomeRow(audit[..|audit| - 1], k);
    }
  }

  /** An action writes at most one row, for its own call, and exactly when the call becomes recorded. */
  lemma {:induction false} StepAudits(c: Config, s: State, a: Action, i: nat)
    requires Enabled(c, s, a) && Actor(a) == Some(i)
    ensures var s' := Next(c, s, a);
            && |s'.calls| == |s.calls| && s'.calls[i].req == s.calls[i].req
            && (forall j :: 0 <= j < |s.calls| && j != i ==> s'.calls[j] == s.calls[j])
            && (if Recorded(s.calls[i]).None? && Recorded(s'.calls[i]).Some?
                then s'.audit == s.audit + [AuditRow(i, s.calls[i].req, Recorded(s'.calls[i]).value.1, Recorded(s'.calls[i]).value.0)]
                else s'.audit == s.audit && Recorded(s'.calls[i]) == Recorded(s.calls[i]))
  {
  }

  /** Only call i moved, and it became recorded. */
  lemma {:induction false} RowAppended(s: State, s': State, i: nat)
    requires AuditOk(s) && i < |s.calls| == |s'.calls| && s'.calls[i].req == s.calls[i].req
    requires forall j :: 0 <= j < |s.calls| && j != i ==> s'.calls[j] == s.calls[j]
    requires Recorded(s.calls[i]).None? && Recorded(s'.calls[i]).Some?
    requires var (status, cost) := Recorded(s'.calls[i]).value;
             s'.audit == s.audit + [AuditRow(i, s.calls[i].req, cost, status)]
    ensures AuditOk(s')
  {
    var n := |s.audit|;
    assert s'.audit[..n] == s.audit;
    forall k | 0 <= k < n ensures s.audit[k].call != i {
      SomeRow(s.audit, k);
    }
    forall k | 0 <= k < n ensures RowOk(s', s'.audit[k]) {
      assert s'.audit[k] == s.audit[k] && RowOk(s, s.audit[k]);
    }
  }

  lemma {:induction false} RowsKept(s: State, s': State, i: nat)
    requires AuditOk(s) && i < |s.calls| == |s'.calls| && s'.calls[i].req == s.calls[i].req
    requires forall j :: 0 <= j < |s.calls| && j != i ==> s'.calls[j] == s.calls[j]
    requires s'.audit == s.audit && Recorded(s'.calls[i]) == Recorded(s.calls[i])
    ensures AuditOk(s')
  {
    forall k | 0 <= k < |s.audit| ensures RowOk(s', s'.audit[k]) {
      assert RowOk(s, s.audit[k]);
    }
  }

  lemma {:induction false} StepKeepsAudit(c: Config, s: State, a: Action)
    requires AuditOk(s) && Enabled(c, s, a)
    ensures AuditOk(Next(c, s, a))
  {
    var s' := Next(c, s, a);
    match Actor(a)
    case None =>
      if a.Spawn? {
        NoRowsBeyond(s.audit, |s.calls|);
      }
    case Some(i) =>
      StepAudits(c, s, a, i);
      if Recorded(s.calls[i]).None? && Recorded(s'.calls[i]).Some? {
        RowAppended(s, s', i);
      } else {
        RowsKept(s, s', i);
      }
  }

  // ----- over every schedule -----

  ghost predicate Safe(c: Config, s: State) {
    PermitsOk(c, s) && AuditOk(s) && forall i :: 0 <= i < |s.calls| ==> AttemptsOk(s.calls[i])
  }

  lemma {:induction false} StepKeepsAttempts(c: Config, s: State, a: Action)
    requires (forall i :: 0 <= i < |s.calls| ==> AttemptsOk(s.calls[i])) && Enabled(c, s, a)
    ensures forall i :: 0 <= i < |Next(c, s, a).calls| ==> AttemptsOk(Next(c, s, a).calls[i])
  {
    if Actor(a).Some? {
      StepAudits(c, s, a, Actor(a).value);
      assert AttemptsOk(s.calls[Actor(a).value]);
    }
  }

  lemma {:induction false} StepKeepsSafe(c: Config, s: State, a: Action)
    requires Safe(c, s) && Enabled(c, s, a)
    ensures Safe(c, Next(c, s, a))
  {
    StepKeepsPermits(c, s, a);
    StepKeepsAudit(c, s, a);
    StepKeepsAttempts(c, s, a);
  }

  lemma {:induction false} SafeOverSchedules(c: Config, s: State, actions: seq<Action>)
    requires Safe(c, s) && Legal(c, s, actions)
    ensures Safe(c, Run(c, s, actions))
    decreases |actions|
  {
    if actions != [] {
      StepKeepsSafe(c, s, actions[0]);
      SafeOverSchedules(c, Next(c, s, actions[0]), actions[1..]);
    }
  }

  /** Under every interleaving of any number of calls: free permits plus holders is the
      configured concurrency; no call finishes more than three attempts, a cache hit makes none
      and an exhausted call exactly three; a finished call has exactly one audit row. */
  lemma {:induction false} ProtocolIsSafe(c: Config, actions: seq<Action>, i: nat)
    requires Legal(c, Initial(c), actions) && i < |Run(c, Initial(c), actions).calls|
    ensures var s := Run(c, Initial(c), actions);
            var call := s.calls[i];
            && 0 <= Count(s.calls, Holding()) <= c.permits && s.free + Count(s.calls, Holding()) == c.permits
            && call.attempts <= 3
            && (call.pc.InFlight? ==> call.attempts < 3)
            && (call.pc.Done? ==> RowsOf(s.audit, i) == 1)
            && (call.pc.Done? && call.pc.outcome.Hit? ==> call.attempts == 0)
            && (call.pc.Done? && call.pc.outcome.Raised? ==> call.attempts == 3)
            && (call.pc.BackingOff? ==> 1 <= call.attempts < 3)
  {
    assert Safe(c, Initial(c));
    SafeOverSchedules(c, Initial(c), actions);
    CountNonNegative(Run(c, Initial(c), actions).calls, Holding());
  }

  /** Under every interleaving each audit row is of a call that is done or about to charge, and tells how it
      went: a cache hit and a call whose attempts all failed at no cost, any other at its own stored cost. */
  lemma {:induction false} AuditTells(c: Config, actions: seq<Action>, k: nat)
    requires Legal(c, Initial(c), actions) && k < |Run(c, Initial(c), actions).audit|
    ensures var s := Run(c, Initial(c), actions);
            var row := s.audit[k];
            && row.call < |s.calls| && row.req == s.calls[row.call].req
            && match s.calls[row.call].pc
               case Done(Hit(_)) => row.status == CacheHit && row.cost == 0.0
               case Done(Raised) => row.status == Error && row.cost == 0.0
               case Done(_) => row.status == Success && row.cost == Stored(s.calls[row.call].cost)
               case Charging(_) => row.status == Success && row.cost == Stored(s.calls[row.call].cost)
               case _ => false
  {
    assert Safe(c, Initial(c));
    SafeOverSchedules(c, Initial(c), actions);
    assert RowOk(Run(c, Initial(c), actions), Run(c, Initial(c), actions).audit[k]);
  }
}
