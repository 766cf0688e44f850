/**
 The batch runner: a FIFO queue drained by a loop, one dispatch task per job behind an outer
 semaphore, each making one call of the shared client behind its inner semaphore.
 */
module BatchRunner {
  import opened Models
  import opened Sums
  import Llm = LlmProtocol
  import LlmSafety
  import LlmProgress

  datatype Job = Job(detector: string, prompt: string, payload: string)

  datatype Config = Config(client: Llm.Config, outer: nat, model: string)

  datatype LoopPc = Top | Getting | Exited

  /** Where a dispatch is; `call` is the call it makes of the client. */
  datatype JobPc =
    | Waiting                                              // awaiting an outer permit
    | Calling(call: nat)                                   // holding it, awaiting the client
    | FirstCallback(call: nat, response: Llm.Parsed)       // awaiting the callback with the response
    | LastCallback(call: nat)                              // awaiting the callback with None
    | Finished(call: nat)

  /** `given` is what the callback has been run with, in order; `raised` says whether it raised on the
      response. */
  datatype Dispatch = Dispatch(job: Job, pc: JobPc, given: seq<Option<Llm.Parsed>>, raised: bool)

  datatype State = State(
    queue: seq<Job>,
    submitted: seq<Job>,
    loop: LoopPc,
    stopping: bool,
    jobs: seq<Dispatch>,
    outerFree: int,
    client: Llm.State)

  function Initial(c: Config): State {
    State([], [], Top, false, [], c.outer, Llm.Initial(c.client))
  }

  datatype Action =
    | Submit(job: Job)
    | Stop
    | CheckStop                         // the loop's condition
    | Take                              // queue.get() returns; a dispatch task is created
    | TimeOut                           // queue.get() times out
    | Enter(j: nat)                     // outer permit taken, the call is made
    | Client(a: Llm.Action)             // any call of the client advances, or another user makes one
    | Return(j: nat)                    // the call returns or raises
    | CallBack(j: nat, raises: bool)    // a callback finishes

  /** What the call returns, if it does not raise. */
  function Response(o: Llm.Outcome): Option<Llm.Parsed> {
    match o
    case Hit(v) => Some(v)
    case Answered(v, _) => Some(v)
    case _ => None
  }

  /** Where the dispatch goes once its call is done. */
  function Returned(call: nat, o: Llm.Outcome): JobPc {
    match Response(o)
    case Some(v) => FirstCallback(call, v)
    case None => LastCallback(call)
  }

  predicate Enabled(c: Config, s: State, a: Action) {
    match a
    case Submit(_) => true
    case Stop => true
    case CheckStop => s.loop.Top?
    case Take => s.loop.Getting? && s.queue != []
    case TimeOut => s.loop.Getting?
    case Enter(j) => j < |s.jobs| && s.jobs[j].pc.Waiting? && s.outerFree > 0
    case Client(b) => Llm.Enabled(c.client, s.client, b)
    case Return(j) =>
      && j < |s.jobs| && s.jobs[j].pc.Calling?
      && s.jobs[j].pc.call < |s.client.calls| && s.client.calls[s.jobs[j].pc.call].pc.Done?
    case CallBack(j, _) => j < |s.jobs| && (s.jobs[j].pc.FirstCallback? || s.jobs[j].pc.LastCallback?)
  }

  function Next(c: Config, s: State, a: Action): State
    requires Enabled(c, s, a)
  {
    match a
    case Submit(job) => s.(queue := s.queue + [job], submitted := s.submitted + [job])
    case Stop => s.(stopping := true)
    case CheckStop => s.(loop := if s.stopping then Exited else Getting)
    case Take => s.(queue := s.queue[1..], jobs := s.jobs + [Dispatch(s.queue[0], Waiting, [], false)], loop := Top)
    case TimeOut => s.(loop := Top)
    case Enter(j) =>
      s.(jobs := s.jobs[j := s.jobs[j].(pc := Calling(|s.client.calls|))],
         outerFree := s.outerFree - 1,
         client := Llm.Next(c.client, s.client, Llm.Spawn(RequestOf(c, s.jobs[j].job))))
    case Client(b) => s.(client := Llm.Next(c.client, s.client, b))
    case Return(j) =>
      var outcome := s.client.calls[s.jobs[j].pc.call].pc.outcome;
      s.(jobs := s.jobs[j := s.jobs[j].(pc := Returned(s.jobs[j].pc.call, outcome))])
    case CallBack(j, raises) =>
      var d := CalledBack(s.jobs[j], raises);
      s.(jobs := s.jobs[j := d], outerFree := if d.pc.Finished? then s.outerFree + 1 else s.outerFree)
  }

  /** A callback has run; one that raises on the response is run again with None. */
  function CalledBack(d: Dispatch, raises: bool): Dispatch
    requires d.pc.FirstCallback? || d.pc.LastCallback?
  {
    match d.pc
    case FirstCallback(call, v) =>
      if raises
      then d.(pc := LastCallback(call), given := d.given + [Some(v)], raised := true)
      else d.(pc := Finished(call), given := d.given + [Some(v)])
    case LastCallback(call) => d.(pc := Finished(call), given := d.given + [None])
  }

  predicate Legal(c: Config, s: State, actions: seq<Action>)
    decreases |actions|
  {
    actions != [] ==> Enabled(c, s, actions[0]) && Legal(c, Next(c, s, actions[0]), actions[1..])
  }

  function Run(c: Config, s: State, actions: seq<Action>): State
    requires Legal(c, s, actions)
    decreases |actions|
  {
    if actions == [] then s else Run(c, Next(c, s, actions[0]), actions[1..])
  }

  lemma {:induction false} RunExtends(c: Config, s: State, actions: seq<Action>, a: Action)
    requires Legal(c, s, actions) && Enabled(c, Run(c, s, actions), a)
    ensures Legal(c, s, actions + [a]) && Run(c, s, actions + [a]) == Next(c, Run(c, s, actions), a)
    decreases |actions|
  {
    if actions == [] {
      assert [] + [a] == [a] && [a][1..] == [];
    } else {
      RunExtends(c, Next(c, s, actions[0]), actions[1..], a);
      assert (actions + [a])[1..] == actions[1..] + [a];
    }
  }

  // ----- invariants -----

  function JobsOf(ds: seq<Dispatch>): (js: seq<Job>)
    ensures |js| == |ds|
    ensures forall j :: 0 <= j < |ds| ==> js[j] == ds[j].job
  {
    seq(|ds|, j requires 0 <= j < |ds| => ds[j].job)
  }

  /** Dispatch is FIFO and loses nothing: what was submitted is what was dispatched, then the queue. */
  ghost predicate Fifo(s: State) {
    s.submitted == JobsOf(s.jobs) + s.queue
  }

  function HoldingOuter(): Dispatch -> int {
    (d: Dispatch) => if d.pc.Waiting? || d.pc.Finished? then 0 else 1
  }

  ghost predicate OuterOk(c: Config, s: State) {
    s.outerFree >= 0 && s.outerFree + Count(s.jobs, HoldingOuter()) == c.outer
  }

  /** The call a job makes of the client. */
  function RequestOf(c: Config, job: Job): Llm.Request {
    Llm.Request(job.detector, c.model, job.prompt, job.payload)
  }

  /** A job's call makes the job's own request, and no two jobs share a call. */
  ghost predicate OwnCalls(c: Config, s: State) {
    && (forall j :: 0 <= j < |s.jobs| && !s.jobs[j].pc.Waiting? ==>
          s.jobs[j].pc.call < |s.client.calls| && s.client.calls[s.jobs[j].pc.call].req == RequestOf(c, s.jobs[j].job))
    && (forall j, k :: 0 <= j < k < |s.jobs| && !s.jobs[j].pc.Waiting? && !s.jobs[k].pc.Waiting? ==>
          s.jobs[j].pc.call != s.jobs[k].pc.call)
  }

  /** The response of a call that is done, if it got one. */
  function ResponseOf(calls: seq<Llm.Call>, call: nat): (r: Option<Llm.Parsed>)
    requires call < |calls| && calls[call].pc.Done?
  {
    Response(calls[call].pc.outcome)
  }

  predicate DoneCall(calls: seq<Llm.Call>, call: nat) {
    call < |calls| && calls[call].pc.Done?
  }

  /** What the callback has been given so far fits the outcome of the job's call. */
  predicate CallbacksOk(calls: seq<Llm.Call>, d: Dispatch) {
    match d.pc
    case FirstCallback(call, v) => DoneCall(calls, call) && ResponseOf(calls, call) == Some(v) && d.given == [] && !d.raised
    case LastCallback(call) =>
      DoneCall(calls, call) && d.given == (if d.raised then [ResponseOf(calls, call)] else []) && d.raised == ResponseOf(calls, call).Some?
    case Finished(call) =>
      DoneCall(calls, call) && d.given == [ResponseOf(calls, call)] + (if d.raised then [None] else [])
      && (d.raised ==> ResponseOf(calls, call).Some?)
    case _ => d.given == [] && !d.raised
  }

  ghost predicate Inv(c: Config, s: State) {
    && Fifo(s) && OuterOk(c, s) && OwnCalls(c, s)
    && LlmSafety.Safe(c.client, s.client)
    && forall j :: 0 <= j < |s.jobs| ==> CallbacksOk(s.client.calls, s.jobs[j])
  }

  lemma {:induction false} StepKeepsOuter(c: Config, s: State, a: Action)
    requires OuterOk(c, s) && Enabled(c, s, a)
    ensures OuterOk(c, Next(c, s, a))
  {
    var s' := Next(c, s, a);
    match a
    case Take =>
      assert s'.jobs[..|s.jobs|] == s.jobs;
    case Enter(j) => CountUpdate(s.jobs, j, s'.jobs[j], HoldingOuter());
    case Return(j) => CountUpdate(s.jobs, j, s'.jobs[j], HoldingOuter());
    case CallBack(j, _) => CountUpdate(s.jobs, j, s'.jobs[j], HoldingOuter());
    case _ =>
  }

  lemma {:induction false} StepKeepsFifo(c: Config, s: State, a: Action)
    requires Fifo(s) && Enabled(c, s, a)
    ensures Fifo(Next(c, s, a))
  {
  }

  lemma {:induction false} CallsGrow(c: Llm.Config, s: Llm.State, a: Llm.Action)
    requires Llm.Enabled(c, s, a)
    ensures |Llm.Next(c, s, a).calls| >= |s.calls|
    ensures forall i :: 0 <= i < |s.calls| ==> Llm.Next(c, s, a).calls[i].req == s.calls[i].req
  {
  }

  lemma {:induction false} StepKeepsOwnCalls(c: Config, s: State, a: Action)
    requires OwnCalls(c, s) && Enabled(c, s, a)
    ensures OwnCalls(c, Next(c, s, a))
  {
    match a
    case Client(b) =>
      CallsGrow(c.client, s.client, b);
      GrownCallsKeepOwn(c, s, Next(c, s, a));
    case Enter(j) => EnterKeepsOwnCalls(c, s, j);
    case Take => TakeKeepsOwn(c, s, Next(c, s, a));
    case Return(j) => SameCallKeepsOwn(c, s, Next(c, s, a), j);
    case CallBack(j, _) => SameCallKeepsOwn(c, s, Next(c, s, a), j);
    case _ =>
  }

  lemma {:induction false} GrownCallsKeepOwn(c: Config, s: State, s': State)
    requires OwnCalls(c, s) && s'.jobs == s.jobs && |s'.client.calls| >= |s.client.calls|
    requires forall i :: 0 <= i < |s.client.calls| ==> s'.client.calls[i].req == s.client.calls[i].req
    ensures OwnCalls(c, s')
  {
  }

  lemma {:induction false} TakeKeepsOwn(c: Config, s: State, s': State)
    requires OwnCalls(c, s) && s'.client == s.client
    requires |s'.jobs| == |s.jobs| + 1 && s'.jobs[|s.jobs|].pc.Waiting? && forall k :: 0 <= k < |s.jobs| ==> s'.jobs[k] == s.jobs[k]
    ensures OwnCalls(c, s')
  {
  }

  lemma {:induction false} SameCallKeepsOwn(c: Config, s: State, s': State, j: nat)
    requires OwnCalls(c, s) && j < |s.jobs| && s'.client == s.client
    requires |s'.jobs| == |s.jobs| && forall k :: 0 <= k < |s.jobs| && k != j ==> s'.jobs[k] == s.jobs[k]
    requires s'.jobs[j].job == s.jobs[j].job && !s.jobs[j].pc.Waiting? && !s'.jobs[j].pc.Waiting? && s'.jobs[j].pc.call == s.jobs[j].pc.call
    ensures OwnCalls(c, s')
  {
  }

  lemma {:induction false} EnterKeepsOwnCalls(c: Config, s: State, j: nat)
    requires OwnCalls(c, s) && Enabled(c, s, Enter(j))
    ensures OwnCalls(c, Next(c, s, Enter(j)))
  {
  }

  lemma {:induction false} StepKeepsClient(c: Config, s: State, a: Action)
    requires LlmSafety.Safe(c.client, s.client) && Enabled(c, s, a)
    ensures LlmSafety.Safe(c.client, Next(c, s, a).client)
  {
    match a
    case Enter(j) =>
      LlmSafety.StepKeepsSafe(c.client, s.client, Llm.Spawn(RequestOf(c, s.jobs[j].job)));
    case Client(b) => LlmSafety.StepKeepsSafe(c.client, s.client, b);
    case _ =>
  }

  lemma {:induction false} StepKeepsInv(c: Config, s: State, a: Action)
    requires Inv(c, s) && Enabled(c, s, a)
    ensures Inv(c, Next(c, s, a))
  {
    StepKeepsOuter(c, s, a);
    StepKeepsFifo(c, s, a);
    StepKeepsOwnCalls(c, s, a);
    StepKeepsClient(c, s, a);
    StepKeepsCallbacks(c, s, a);
  }

  /** A call that is done stays as it is. */
  lemma {:induction false} DoneStays(c: Llm.Config, s: Llm.State, a: Llm.Action, call: nat)
    requires Llm.Enabled(c, s, a) && DoneCall(s.calls, call)
    ensures DoneCall(Llm.Next(c, s, a).calls, call) && Llm.Next(c, s, a).calls[call] == s.calls[call]
  {
    if Llm.Actor(a).Some? {
      Llm.OneCallMoves(c, s, a, Llm.Actor(a).value);
    }
  }

  lemma {:induction false} ClientKeepsCallbacks(c: Llm.Config, s: Llm.State, a: Llm.Action, d: Dispatch)
    requires Llm.Enabled(c, s, a) && CallbacksOk(s.calls, d)
    ensures CallbacksOk(Llm.Next(c, s, a).calls, d)
  {
    match d.pc
    case FirstCallback(call, _) => DoneStays(c, s, a, call);
    case LastCallback(call) => DoneStays(c, s, a, call);
    case Finished(call) => DoneStays(c, s, a, call);
    case _ =>
  }

  lemma {:induction false} CallBackKeepsCallbacks(calls: seq<Llm.Call>, d: Dispatch, raises: bool)
    requires CallbacksOk(calls, d) && (d.pc.FirstCallback? || d.pc.LastCallback?)
    ensures CallbacksOk(calls, CalledBack(d, raises))
  {
  }

  lemma {:induction false} ReturnKeepsCallbacks(calls: seq<Llm.Call>, d: Dispatch)
    requires CallbacksOk(calls, d) && d.pc.Calling? && DoneCall(calls, d.pc.call)
    ensures CallbacksOk(calls, d.(pc := Returned(d.pc.call, calls[d.pc.call].pc.outcome)))
  {
  }

  lemma {:induction false} StepKeepsCallbacks(c: Config, s: State, a: Action)
    requires (forall j :: 0 <= j < |s.jobs| ==> CallbacksOk(s.client.calls, s.jobs[j])) && Enabled(c, s, a)
    ensures forall j :: 0 <= j < |Next(c, s, a).jobs| ==> CallbacksOk(Next(c, s, a).client.calls, Next(c, s, a).jobs[j])
  {
    match a
    case Client(b) =>
      forall j | 0 <= j < |s.jobs| ensures CallbacksOk(Next(c, s, a).client.calls, s.jobs[j]) {
        ClientKeepsCallbacks(c.client, s.client, b, s.jobs[j]);
      }
    case Enter(k) =>
      var b := Llm.Spawn(RequestOf(c, s.jobs[k].job));
      forall j | 0 <= j < |s.jobs| ensures CallbacksOk(Next(c, s, a).client.calls, s.jobs[j]) {
        ClientKeepsCallbacks(c.client, s.client, b, s.jobs[j]);
      }
    case Return(j) => ReturnKeepsCallbacks(s.client.calls, s.jobs[j]);
    case CallBack(j, raises) => CallBackKeepsCallbacks(s.client.calls, s.jobs[j], raises);
    case _ =>
  }

  lemma {:induction false} InvOverSchedules(c: Config, s: State, actions: seq<Action>)
    requires Inv(c, s) && Legal(c, s, actions)
    ensures Inv(c, Run(c, s, actions))
    decreases |actions|
  {
    if actions != [] {
      StepKeepsInv(c, s, actions[0]);
      InvOverSchedules(c, Next(c, s, actions[0]), actions[1..]);
    }
  }

  // ----- in-flight requests -----

  /** The jobs whose call holds an inner permit. */
  function InFlightJobs(s: State): set<nat> {
    set j: nat | j < |s.jobs| && s.jobs[j].pc.Calling? && s.jobs[j].pc.call < |s.client.calls|
                 && s.client.calls[s.jobs[j].pc.call].pc.InFlight?
  }

  lemma {:induction false} InFlightWithinOuter(c: Config, s: State)
    requires OuterOk(c, s)
    ensures |InFlightJobs(s)| <= c.outer
  {
    OnesAreCounted(s.jobs, HoldingOuter());
    LargerSet(InFlightJobs(s), Ones(s.jobs, HoldingOuter()));
  }

  lemma {:induction false} LargerSet(a: set<nat>, b: set<nat>)
    requires a <= b
    ensures |a| <= |b|
  {
    InjectionBound(a, b, map x | x in a :: x);
  }

  lemma {:induction false} InFlightWithinInner(c: Config, s: State)
    requires OwnCalls(c, s) && LlmSafety.PermitsOk(c.client, s.client)
    ensures |InFlightJobs(s)| <= c.client.permits
  {
    var a := InFlightJobs(s);
    var calls := s.client.calls;
    OnesAreCounted(calls, LlmSafety.Holding());
    InjectionBound(a, Ones(calls, LlmSafety.Holding()), map j | j in a :: s.jobs[j].pc.call);
  }

  /** The callback of a finished job was given the response and nothing else if its call was answered, from
      the cache or by the model, and then None as well if it raised; otherwise it was given None, once. */
  predicate GivenTheResponse(calls: seq<Llm.Call>, call: nat, given: seq<Option<Llm.Parsed>>, raised: bool) {
    call < |calls| &&
    match calls[call].pc
    case Done(Hit(v)) => given == if raised then [Some(v), None] else [Some(v)]
    case Done(Answered(v, _)) => given == if raised then [Some(v), None] else [Some(v)]
    case Done(_) => given == [None] && !raised
    case _ => false
  }

  lemma {:induction false} FinishedFits(calls: seq<Llm.Call>, d: Dispatch)
    requires CallbacksOk(calls, d) && d.pc.Finished?
    ensures GivenTheResponse(calls, d.pc.call, d.given, d.raised)
  {
  }

  /** The job's call carries its detector, prompt and payload, and the runner's model. */
  predicate MakesItsRequest(c: Config, calls: seq<Llm.Call>, d: Dispatch)
    requires !d.pc.Waiting?
  {
    d.pc.call < |calls| &&
    var req := calls[d.pc.call].req;
    req.detector == d.job.detector && req.prompt == d.job.prompt && req.payload == d.job.payload && req.model == c.model
  }

  /** Over every schedule: submitted jobs are the dispatched ones in order, then the queue; batch
      requests in flight are within both semaphores; a job's call makes the job's request, and no two jobs
      share one; a finished job's callback was given its call's response. */
  lemma {:induction false} RunnerIsSafe(c: Config, actions: seq<Action>)
    requires Legal(c, Initial(c), actions)
    ensures var s := Run(c, Initial(c), actions);
            && s.submitted == JobsOf(s.jobs) + s.queue
            && |InFlightJobs(s)| <= c.outer && |InFlightJobs(s)| <= c.client.permits
            && (forall j :: 0 <= j < |s.jobs| && s.jobs[j].pc.Finished? ==>
                  GivenTheResponse(s.client.calls, s.jobs[j].pc.call, s.jobs[j].given, s.jobs[j].raised))
            && (forall j :: 0 <= j < |s.jobs| && !s.jobs[j].pc.Waiting? ==> MakesItsRequest(c, s.client.calls, s.jobs[j]))
            && (forall j, k :: 0 <= j < k < |s.jobs| && !s.jobs[j].pc.Waiting? && !s.jobs[k].pc.Waiting? ==>
                  s.jobs[j].pc.call != s.jobs[k].pc.call)
            && (forall j :: 0 <= j < |s.jobs| && (s.jobs[j].pc.Waiting? || s.jobs[j].pc.Calling?) ==> s.jobs[j].given == [])
  {
    assert LlmSafety.Safe(c.client, Llm.Initial(c.client));
    InvOverSchedules(c, Initial(c), actions);
    var s := Run(c, Initial(c), actions);
    InFlightWithinOuter(c, s);
    InFlightWithinInner(c, s);
    forall j | 0 <= j < |s.jobs| && s.jobs[j].pc.Finished?
      ensures GivenTheResponse(s.client.calls, s.jobs[j].pc.call, s.jobs[j].given, s.jobs[j].raised)
    {
      FinishedFits(s.client.calls, s.jobs[j]);
    }
    assert forall j :: 0 <= j < |s.jobs| ==> CallbacksOk(s.client.calls, s.jobs[j]);
  }

  // ----- progress -----

  function JobRemaining(): Dispatch -> int {
    (d: Dispatch) =>
      match d.pc
      case Waiting => 15
      case Calling(_) => 3
      case FirstCallback(_, _) => 2
      case LastCallback(_) => 1
      case Finished(_) => 0
  }

  function Rank(s: State): int {
    Count(s.jobs, JobRemaining()) + LlmProgress.Rank(s.client)
  }

  /** Work on dispatched jobs and on calls, as opposed to new arrivals and the loop's own steps. */
  predicate Works(a: Action) {
    a.Enter? || a.Return? || a.CallBack? || (a.Client? && Llm.Actor(a.a).Some?)
  }

  lemma {:induction false} WorkLowersRank(c: Config, s: State, a: Action)
    requires LlmSafety.Safe(c.client, s.client) && Enabled(c, s, a) && Works(a)
    ensures Rank(Next(c, s, a)) <= Rank(s) - 1
  {
    var s' := Next(c, s, a);
    match a
    case Enter(j) =>
      CountUpdate(s.jobs, j, s'.jobs[j], JobRemaining());
      LlmProgress.StepLowersRank(c.client, s.client, Llm.Spawn(RequestOf(c, s.jobs[j].job)));
    case Return(j) => CountUpdate(s.jobs, j, s'.jobs[j], JobRemaining());
    case CallBack(j, _) =>
      CountUpdate(s.jobs, j, s'.jobs[j], JobRemaining());
    case Client(b) => LlmProgress.StepLowersRank(c.client, s.client, b);
    case _ =>
  }

  /** Every other step leaves the rank alone, but for a job taken and a call made by another user. */
  lemma {:induction false} OtherStepsRank(c: Config, s: State, a: Action)
    requires LlmSafety.Safe(c.client, s.client) && Enabled(c, s, a) && !Works(a)
    ensures Rank(Next(c, s, a)) == Rank(s) + (if a.Take? then 15 else 0) + (if ByOthers(a) then 11 else 0)
  {
    var s' := Next(c, s, a);
    match a
    case Take => assert s'.jobs[..|s.jobs|] == s.jobs;
    case Client(b) => LlmProgress.StepLowersRank(c.client, s.client, b);
    case _ =>
  }

  /** Another user of the client makes a call. */
  predicate ByOthers(a: Action) {
    a.Client? && a.a.Spawn?
  }

  function WorkSteps(actions: seq<Action>): nat {
    if actions == [] then 0 else (if Works(actions[0]) then 1 else 0) + WorkSteps(actions[1..])
  }

  function Takes(actions: seq<Action>): nat {
    if actions == [] then 0 else (if actions[0].Take? then 1 else 0) + Takes(actions[1..])
  }

  function OthersCalls(actions: seq<Action>): nat {
    if actions == [] then 0 else (if ByOthers(actions[0]) then 1 else 0) + OthersCalls(actions[1..])
  }

  lemma {:induction false} RankIsNonNegative(c: Config, s: State)
    requires Inv(c, s)
    ensures Rank(s) >= 0
  {
    CountNonNegative(s.jobs, JobRemaining());
    LlmProgress.RankNonNegative(s.client.calls);
  }

  /** In every schedule the steps of dispatched jobs and of calls are bounded: by the rank at the start,
      15 for each job taken and 11 for each call made by others; what is left is the rank at the end. */
  lemma {:induction false} WorkIsBounded(c: Config, s: State, actions: seq<Action>)
    requires Inv(c, s) && Legal(c, s, actions)
    ensures WorkSteps(actions) + Rank(Run(c, s, actions)) <= Rank(s) + 15 * Takes(actions) + 11 * OthersCalls(actions)
    ensures Rank(Run(c, s, actions)) >= 0
    decreases |actions|
  {
    if actions != [] {
      if Works(actions[0]) {
        WorkLowersRank(c, s, actions[0]);
      } else {
        OtherStepsRank(c, s, actions[0]);
      }
      StepKeepsInv(c, s, actions[0]);
      WorkIsBounded(c, Next(c, s, actions[0]), actions[1..]);
    } else {
      RankIsNonNegative(c, s);
    }
  }

  /** From the start: at most 15 steps for each job taken and 11 for each call made by others. */
  lemma {:induction false} WorkFromStart(c: Config, actions: seq<Action>)
    requires Legal(c, Initial(c), actions)
    ensures WorkSteps(actions) <= 15 * Takes(actions) + 11 * OthersCalls(actions)
  {
    assert LlmSafety.Safe(c.client, Llm.Initial(c.client));
    WorkIsBounded(c, Initial(c), actions);
  }

  lemma {:induction false} SomeHolder(jobs: seq<Dispatch>) returns (j: nat)
    requires Count(jobs, HoldingOuter()) > 0
    ensures j < |jobs| && !jobs[j].pc.Waiting? && !jobs[j].pc.Finished?
  {
    if HoldingOuter()(jobs[|jobs| - 1]) == 1 {
      j := |jobs| - 1;
    } else {
      j := SomeHolder(jobs[..|jobs| - 1]);
    }
  }

  lemma {:induction false} HolderCanWork(c: Config, s: State, j: nat) returns (a: Action)
    requires Inv(c, s) && c.client.permits > 0
    requires j < |s.jobs| && !s.jobs[j].pc.Waiting? && !s.jobs[j].pc.Finished?
    ensures Enabled(c, s, a) && Works(a)
  {
    if s.jobs[j].pc.Calling? {
      var t := s.jobs[j].pc.call;
      if s.client.calls[t].pc.Done? {
        a := Return(j);
      } else {
        var b := LlmProgress.NoDeadlock(c.client, s.client, t);
        a := Client(b);
      }
    } else {
      a := CallBack(j, false);
    }
  }

  /** The nested permits cannot deadlock: while a dispatched job is unfinished, some work is enabled. */
  lemma {:induction false} NoDeadlock(c: Config, s: State, j: nat) returns (a: Action)
    requires Inv(c, s) && c.outer > 0 && c.client.permits > 0
    requires j < |s.jobs| && !s.jobs[j].pc.Finished?
    ensures Enabled(c, s, a) && Works(a)
  {
    if !s.jobs[j].pc.Waiting? {
      a := HolderCanWork(c, s, j);
    } else if s.outerFree > 0 {
      a := Enter(j);
    } else {
      var k := SomeHolder(s.jobs);
      a := HolderCanWork(c, s, k);
    }
  }

  // ----- stopping -----

  /** After the loop has exited nothing leaves the queue. */
  lemma {:induction false} QueueStaysAfterExit(c: Config, s: State, actions: seq<Action>)
    requires s.loop.Exited? && Legal(c, s, actions)
    ensures var s' := Run(c, s, actions);
            s'.loop.Exited? && |s'.jobs| == |s.jobs| && s.queue <= s'.queue && s.submitted <= s'.submitted
    decreases |actions|
  {
    if actions != [] {
      QueueStaysAfterExit(c, Next(c, s, actions[0]), actions[1..]);
    }
  }

  /** The k-th job submitted has its dispatch. */
  ghost predicate Dispatched(s: State, k: nat) {
    k < |s.submitted| && k < |s.jobs| && s.jobs[k].job == s.submitted[k]
  }

  /** Whatever happens after the loop has exited, a job is dispatched by then if and only if it was
      among the dispatched ones at the exit; all others, earlier or later submitted, never are. */
  lemma {:induction false} StopStrandsTheQueue(c: Config, before: seq<Action>, after: seq<Action>, k: nat)
    requires Legal(c, Initial(c), before) && Run(c, Initial(c), before).loop.Exited?
    requires Legal(c, Run(c, Initial(c), before), after)
    requires k < |Run(c, Run(c, Initial(c), before), after).submitted|
    ensures var s := Run(c, Initial(c), before);
            Dispatched(Run(c, s, after), k) <==> k < |s.jobs|
  {
    assert LlmSafety.Safe(c.client, Llm.Initial(c.client));
    InvOverSchedules(c, Initial(c), before);
    var s := Run(c, Initial(c), before);
    QueueStaysAfterExit(c, s, after);
    InvOverSchedules(c, s, after);
    var s' := Run(c, s, after);
    if k < |s'.jobs| {
      assert s'.submitted[k] == JobsOf(s'.jobs)[k];
    }
  }

  /** Once stopped, the loop takes at most one more job, and none unless it is already waiting for one. */
  lemma {:induction false} StopTakesOneMoreAtMost(c: Config, s: State, actions: seq<Action>)
    requires s.stopping && Legal(c, s, actions)
    ensures |Run(c, s, actions).jobs| <= |s.jobs| + if s.loop.Getting? then 1 else 0
    decreases |actions|
  {
    if actions != [] {
      StopTakesOneMoreAtMost(c, Next(c, s, actions[0]), actions[1..]);
    }
  }

  /** A job submitted just before the stop is lost. */
  lemma {:induction false} StoppedBeforeDispatch(c: Config, job: Job)
    ensures var actions := [Submit(job), Stop, CheckStop];
            Legal(c, Initial(c), actions) && Run(c, Initial(c), actions).loop.Exited? && Run(c, Initial(c), actions).queue == [job]
  {
    var s1 := Next(c, Initial(c), Submit(job));
    var s2 := Next(c, s1, Stop);
    var s3 := Next(c, s2, CheckStop);
    assert [Submit(job), Stop, CheckStop][1..] == [Stop, CheckStop] && [Stop, CheckStop][1..] == [CheckStop] && [CheckStop][1..] == [];
    assert Legal(c, s3, []) && Legal(c, s2, [CheckStop]) && Legal(c, s1, [Stop, CheckStop]);
    assert Run(c, s2, [CheckStop]) == s3 && Run(c, s1, [Stop, CheckStop]) == s3;
  }
}
