/**
 The concurrent call protocol of the LLM client as a state machine. Every await of a call
 is a point where any other call may run: each action below is one stretch of code
 between two awaits.
 */
module LlmProtocol {
  import opened Models

  /** A decoded JSON value; only whether it is null matters to the protocol. */
  datatype Parsed = JsonNull | JsonValue(text: string)

  datatype Request = Request(detector: string, model: string, prompt: string, payload: string)

  datatype CacheKey = CacheKey(detector: string, model: string, promptSha: string, inputSha: string)

  /** `sha` and `parse` stand for SHA-256 and the response parser; `parse` is None when it raises. */
  datatype Config = Config(permits: nat, sha: string -> string, parse: string -> Option<Parsed>)

  type Day = nat

  datatype Outcome =
    | Hit(value: Parsed)                  // answered from the cache
    | Raised                              // all attempts failed
    | Unparsed                            // the response did not parse
    | Refused                             // the budget refused the cost
    | Answered(value: Parsed, day: Day)   // charged on `day` and cached

  /** Where a call is. */
  datatype Pc =
    | Ready                               // about to look in the cache
    | RecordingHit(value: Parsed)         // awaiting the cache_hit audit row
    | Waiting                             // awaiting a permit
    | InFlight                            // holding a permit, awaiting the response
    | BackingOff                          // awaiting the retry delay
    | RecordingError                      // awaiting the error audit row
    | RecordingOk                         // awaiting the ok audit row
    | Charging(value: Parsed)             // awaiting the budget lock
    | Done(outcome: Outcome)

  /** `attempts` counts finished HTTP attempts; `raw` and `cost` are those of the response. */
  datatype Call = Call(req: Request, pc: Pc, attempts: nat, raw: string, cost: real)

  datatype AuditStatus = CacheHit | Error | Success

  /** `cost` is what the column keeps of the cost, rounded to four decimals. */
  datatype AuditRow = AuditRow(call: nat, req: Request, cost: real, status: AuditStatus)

  /** A history variable of the cache: which call put which value under which key. */
  datatype Put = Put(call: nat, key: CacheKey, value: Parsed)

  datatype State = State(
    calls: seq<Call>,
    free: int,
    cache: map<CacheKey, Parsed>,
    puts: seq<Put>,
    spend: map<(string, Day), real>,
    limits: map<string, real>,
    today: Day,
    audit: seq<AuditRow>)

  const MAX_ATTEMPTS := 3

  function Initial(c: Config): State {
    State([], c.permits, map[], [], map[], map[], 0, [])
  }

  function KeyOf(c: Config, r: Request): CacheKey {
    CacheKey(r.detector, r.model, c.sha(r.prompt), c.sha(r.payload))
  }

  // ----- price and budget -----

  /** USD per million tokens (input, output). */
  const PRICES: map<string, (real, real)> := map[
    "claude-haiku-4-5-20251001" := (1.0, 5.0),
    "claude-sonnet-4-6" := (3.0, 15.0),
    "claude-opus-4-7" := (15.0, 75.0)]

  function Cost(model: string, tokensIn: nat, tokensOut: nat): real {
    if model in PRICES
    then (tokensIn as real * PRICES[model].0 + tokensOut as real * PRICES[model].1) / 1_000_000.0
    else 0.0
  }

  /** A cost as the NUMERIC(10,4) column of the audit table keeps it: the nearest multiple of
      0.0001, the larger one of two equally near. */
  function Stored(cost: real): real {
    (cost * 10_000.0 + 0.5).Floor as real / 10_000.0
  }

  function Spend(spend: map<(string, Day), real>, detector: string, day: Day): real {
    if (detector, day) in spend then spend[(detector, day)] else 0.0
  }

  predicate OverLimit(s: State, detector: string, cost: real) {
    detector in s.limits && Spend(s.spend, detector, s.today) + cost > s.limits[detector]
  }

  // ----- actions -----

  datatype Action =
    | Spawn(req: Request)
    | LookUp(i: nat)
    | RecordHit(i: nat)
    | Acquire(i: nat)
    | Respond(i: nat, raw: string, tokensIn: nat, tokensOut: nat)
    | FailAttempt(i: nat)
    | Retry(i: nat)
    | RecordError(i: nat)
    | RecordOk(i: nat)
    | Charge(i: nat)
    | SetLimit(detector: string, limit: real)
    | Midnight

  /** The call an action belongs to; the environment's actions belong to none. */
  function Actor(a: Action): Option<nat> {
    match a
    case Spawn(_) => None
    case LookUp(i) => Some(i)
    case RecordHit(i) => Some(i)
    case Acquire(i) => Some(i)
    case Respond(i, _, _, _) => Some(i)
    case FailAttempt(i) => Some(i)
    case Retry(i) => Some(i)
    case RecordError(i) => Some(i)
    case RecordOk(i) => Some(i)
    case Charge(i) => Some(i)
    case SetLimit(_, _) => None
    case Midnight => None
  }

  predicate Enabled(c: Config, s: State, a: Action) {
    match Actor(a)
    case None => true
    case Some(i) =>
      i < |s.calls| &&
      var pc := s.calls[i].pc;
      match a
      case LookUp(_) => pc.Ready?
      case RecordHit(_) => pc.RecordingHit?
      case Acquire(_) => pc.Waiting? && s.free > 0
      case Respond(_, _, _, _) => pc.InFlight?
      case FailAttempt(_) => pc.InFlight?
      case Retry(_) => pc.BackingOff?
      case RecordError(_) => pc.RecordingError?
      case RecordOk(_) => pc.RecordingOk?
      case Charge(_) => pc.Charging?
      case _ => false
  }

  function Move(s: State, i: nat, call: Call): State
    requires i < |s.calls|
  {
    s.(calls := s.calls[i := call])
  }

  function Next(c: Config, s: State, a: Action): State
    requires Enabled(c, s, a)
  {
    match a
    case Spawn(req) => s.(calls := s.calls + [Call(req, Ready, 0, "", 0.0)])
    case LookUp(i) =>
      var call := s.calls[i];
      var key := KeyOf(c, call.req);
      // a cached null reads as a miss
      if key in s.cache && !s.cache[key].JsonNull?
      then Move(s, i, call.(pc := RecordingHit(s.cache[key])))
      else Move(s, i, call.(pc := Waiting))
    case RecordHit(i) =>
      var call := s.calls[i];
      Move(s, i, call.(pc := Done(Hit(call.pc.value)))).(audit := s.audit + [AuditRow(i, call.req, 0.0, CacheHit)])
    case Acquire(i) =>
      Move(s, i, s.calls[i].(pc := InFlight)).(free := s.free - 1)
    case Respond(i, raw, tokensIn, tokensOut) =>
      var call := s.calls[i];
      var cost := Cost(call.req.model, tokensIn, tokensOut);
      Move(s, i, call.(pc := RecordingOk, attempts := call.attempts + 1, raw := raw, cost := cost)).(free := s.free + 1)
    case FailAttempt(i) =>
      var call := s.calls[i];
      var pc := if call.attempts + 1 < MAX_ATTEMPTS then BackingOff else RecordingError;
      Move(s, i, call.(pc := pc, attempts := call.attempts + 1)).(free := s.free + 1)
    case Retry(i) =>
      Move(s, i, s.calls[i].(pc := Waiting))
    case RecordError(i) =>
      var call := s.calls[i];
      Move(s, i, call.(pc := Done(Raised))).(audit := s.audit + [AuditRow(i, call.req, 0.0, Error)])
    case RecordOk(i) =>
      var call := s.calls[i];
      var pc := match c.parse(call.raw) case None => Done(Unparsed) case Some(v) => Charging(v);
      Move(s, i, call.(pc := pc)).(audit := s.audit + [AuditRow(i, call.req, Stored(call.cost), Success)])
    case Charge(i) =>
      var call := s.calls[i];
      var key := KeyOf(c, call.req);
      if OverLimit(s, call.req.detector, call.cost)
      then
        // reading the defaultdict leaves a zero entry behind
        Move(s, i, call.(pc := Done(Refused))).(
          spend := s.spend[(call.req.detector, s.today) := Spend(s.spend, call.req.detector, s.today)])
      else
        Move(s, i, call.(pc := Done(Answered(call.pc.value, s.today)))).(
          spend := s.spend[(call.req.detector, s.today) := Spend(s.spend, call.req.detector, s.today) + call.cost],
          cache := s.cache[key := call.pc.value],
          puts := s.puts + [Put(i, key, call.pc.value)])
    case SetLimit(detector, limit) => s.(limits := s.limits[detector := limit])
    case Midnight => s.(today := s.today + 1)
  }

  /** A call's action moves that call only. */
  lemma {:induction false} OneCallMoves(c: Config, s: State, a: Action, i: nat)
    requires Enabled(c, s, a) && Actor(a) == Some(i)
    ensures Next(c, s, a).calls == s.calls[i := Next(c, s, a).calls[i]]
    ensures Next(c, s, a).today == s.today && Next(c, s, a).limits == s.limits
  {
  }

  predicate Legal(c: Config, s: State, actions: seq<Action>)
    decreases |actions|
  {
    actions != [] ==> Enabled(c, s, actions[0]) && Legal(c, Next(c, s, actions[0]), actions[1..])
  }

  /** A schedule: any interleaving of the actions of any number of calls. */
  function Run(c: Config, s: State, actions: seq<Action>): State
    requires Legal(c, s, actions)
    decreases |actions|
  {
    if actions == [] then s else Run(c, Next(c, s, actions[0]), actions[1..])
  }

  lemma {:induction false} RunExtends(c: Config, s: State, actions: seq<Action>, a: Action)
    requires Legal(c, s, actions) && Enabled(c, Run(c, s, actions), a)
    ensures Legal(c, s, actions + [a]) && Run(c, s, actions + [a]) == Next(c, Run(c, s, actions), a)
    decreases |actions|
  {
    if actions == [] {
      assert [] + [a] == [a] && [a][1..] == [];
    } else {
      RunExtends(c, Next(c, s, actions[0]), actions[1..], a);
      assert (actions + [a])[1..] == actions[1..] + [a];
    }
  }

  /** One more action of a given schedule. */
  lemma {:induction false} RunTo(c: Config, s: State, actions: seq<Action>, k: nat)
    requires k < |actions| && Legal(c, s, actions[..k])
    requires Enabled(c, Run(c, s, actions[..k]), actions[k])
    ensures Legal(c, s, actions[..k + 1])
    ensures Run(c, s, actions[..k + 1]) == Next(c, Run(c, s, actions[..k]), actions[k])
  {
    RunExtends(c, s, actions[..k], actions[k]);
    assert actions[..k + 1] == actions[..k] + [actions[k]];
  }
}
