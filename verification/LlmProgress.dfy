/**
 Progress of the call protocol: no schedule deadlocks, and every call takes a bounded
 number of actions.
 */
module LlmProgress {
  import opened Models
  import opened LlmProtocol
  import opened Sums
  import opened LlmSafety

  /** The most actions a call can still take. */
  function Remaining(call: Call): int {
    match call.pc
    case Ready => 11
    case RecordingHit(_) => 1
    case Waiting => 3 * (3 - call.attempts) + 1
    case InFlight => 3 * (3 - call.attempts)
    case BackingOff => 3 * (3 - call.attempts) + 2
    case RecordingError => 1
    case RecordingOk => 2
    case Charging(_) => 1
    case Done(_) => 0
  }

  function RemainingOf(): Call -> int {
    (call: Call) => Remaining(call)
  }

  /** The most actions all calls together can still take. */
  function Rank(s: State): int {
    Count(s.calls, RemainingOf())
  }

  lemma {:induction false} ActorAdvances(c: Config, s: State, a: Action, i: nat)
    requires Enabled(c, s, a) && Actor(a) == Some(i) && AttemptsOk(s.calls[i])
    ensures Next(c, s, a).calls == s.calls[i := Next(c, s, a).calls[i]]
    ensures Remaining(Next(c, s, a).calls[i]) <= Remaining(s.calls[i]) - 1
  {
  }

  lemma {:induction false} StepLowersRank(c: Config, s: State, a: Action)
    requires Safe(c, s) && Enabled(c, s, a)
    ensures Actor(a).Some? ==> Rank(Next(c, s, a)) <= Rank(s) - 1
    ensures a.Spawn? ==> Rank(Next(c, s, a)) == Rank(s) + 11
    ensures Actor(a).None? && !a.Spawn? ==> Rank(Next(c, s, a)) == Rank(s)
  {
    var s' := Next(c, s, a);
    match Actor(a)
    case Some(i) =>
      ActorAdvances(c, s, a, i);
      CountUpdate(s.calls, i, s'.calls[i], RemainingOf());
    case None =>
      if a.Spawn? {
        assert s'.calls[..|s.calls|] == s.calls;
      }
  }

  lemma {:induction false} RankNonNegative(calls: seq<Call>)
    requires forall i :: 0 <= i < |calls| ==> AttemptsOk(calls[i])
    ensures Count(calls, RemainingOf()) >= 0
  {
    if calls != [] {
      assert AttemptsOk(calls[|calls| - 1]);
      RankNonNegative(calls[..|calls| - 1]);
    }
  }

  function Spawns(actions: seq<Action>): nat {
    if actions == [] then 0 else (if actions[0].Spawn? then 1 else 0) + Spawns(actions[1..])
  }

  function CallActions(actions: seq<Action>): nat {
    if actions == [] then 0 else (if Actor(actions[0]).Some? then 1 else 0) + CallActions(actions[1..])
  }

  /** Every schedule is bounded: n calls take at most 11 n actions between them. */
  lemma {:induction false} ActionsAreBounded(c: Config, s: State, actions: seq<Action>)
    requires Safe(c, s) && Legal(c, s, actions)
    ensures CallActions(actions) + Rank(Run(c, s, actions)) <= Rank(s) + 11 * Spawns(actions)
    ensures CallActions(actions) <= Rank(s) + 11 * Spawns(actions)
    decreases |actions|
  {
    if actions != [] {
      StepKeepsSafe(c, s, actions[0]);
      StepLowersRank(c, s, actions[0]);
      ActionsAreBounded(c, Next(c, s, actions[0]), actions[1..]);
    } else {
      RankNonNegative(s.calls);
    }
  }

  /** The next action of a call that is not waiting for a permit. */
  function OwnAction(call: Call, i: nat): Action {
    match call.pc
    case Ready => LookUp(i)
    case RecordingHit(_) => RecordHit(i)
    case Waiting => Acquire(i)
    case InFlight => FailAttempt(i)
    case BackingOff => Retry(i)
    case RecordingError => RecordError(i)
    case RecordingOk => RecordOk(i)
    case Charging(_) => Charge(i)
    case Done(_) => Midnight
  }

  lemma {:induction false} OwnActionIsEnabled(c: Config, s: State, i: nat)
    requires i < |s.calls| && !s.calls[i].pc.Done? && (s.calls[i].pc.Waiting? ==> s.free > 0)
    ensures Enabled(c, s, OwnAction(s.calls[i], i)) && Actor(OwnAction(s.calls[i], i)) == Some(i)
  {
  }

  lemma {:induction false} SomeHolder(calls: seq<Call>) returns (i: nat)
    requires Count(calls, Holding()) > 0
    ensures i < |calls| && calls[i].pc.InFlight?
  {
    if calls[|calls| - 1].pc.InFlight? {
      i := |calls| - 1;
    } else {
      i := SomeHolder(calls[..|calls| - 1]);
    }
  }

  /** With at least one permit, an unfinished call means some call can act. */
  lemma {:induction false} NoDeadlock(c: Config, s: State, i: nat) returns (a: Action)
    requires Safe(c, s) && c.permits > 0
    requires i < |s.calls| && !s.calls[i].pc.Done?
    ensures Enabled(c, s, a) && Actor(a).Some?
  {
    if s.calls[i].pc.Waiting? && s.free == 0 {
      var j := SomeHolder(s.calls);
      a := FailAttempt(j);
    } else {
      a := OwnAction(s.calls[i], i);
    }
  }
}
