/**
 The client, its budget and its cache as the code updates them. A call runs its own control
 flow while, at every await, other calls may do anything the protocol allows; the ghost trace
 records that all of it together is a schedule of module LlmProtocol.
 */
module LlmClient {
  import opened Models
  import opened LlmProtocol
  import opened LlmSafety
  import LlmProgress

  class Budget {
    var dailyLimits: map<string, real>
    var spend: map<(string, Day), real>

    constructor (limits: map<string, real>)
      ensures dailyLimits == limits && spend == map[]
    {
      dailyLimits, spend := limits, map[];
    }

    method SetDailyLimit(detector: string, limit: real)
      modifies this`dailyLimits
      ensures dailyLimits == old(dailyLimits)[detector := limit]
    {
      dailyLimits := dailyLimits[detector := limit];
    }

    /** Refused exactly when the new total would exceed the limit, and then no spend changes. */
    method Consume(detector: string, cost: real, today: Day) returns (ok: bool)
      modifies this`spend
      ensures var spent := if (detector, today) in old(spend) then old(spend)[(detector, today)] else 0.0;
              && (ok <==> (detector in dailyLimits ==> spent + cost <= dailyLimits[detector]))
              && spend == old(spend)[(detector, today) := if ok then spent + cost else spent]
      ensures !ok ==> forall d, day :: Spend(spend, d, day) == Spend(old(spend), d, day)
    {
      if (detector, today) !in spend {
        spend := spend[(detector, today) := 0.0];
      }
      var total := spend[(detector, today)] + cost;
      if detector in dailyLimits && total > dailyLimits[detector] {
        return false;
      }
      spend := spend[(detector, today) := total];
      return true;
    }

    /** What a further cost may be, unless there is no limit; reading it changes no spend. */
    method Remaining(detector: string, today: Day) returns (left: Option<real>)
      modifies this`spend
      ensures forall d, day :: Spend(spend, d, day) == Spend(old(spend), d, day)
      ensures left.None? <==> detector !in dailyLimits
      ensures left.Some? ==> left.value >= 0.0
      ensures left.Some? && left.value > 0.0 ==> Spend(old(spend), detector, today) + left.value == dailyLimits[detector]
      ensures left.Some? && left.value == 0.0 ==> Spend(old(spend), detector, today) >= dailyLimits[detector]
    {
      if detector !in dailyLimits {
        return None;
      }
      if (detector, today) !in spend {
        spend := spend[(detector, today) := 0.0];
      }
      var diff := dailyLimits[detector] - spend[(detector, today)];
      return Some(if diff > 0.0 then diff else 0.0);
    }
  }

  class LLMCache {
    const sha: string -> string
    var store: map<CacheKey, Parsed>

    constructor (sha: string -> string)
      ensures this.sha == sha && store == map[]
    {
      this.sha, this.store := sha, map[];
    }

    function Key(r: Request): CacheKey {
      CacheKey(r.detector, r.model, sha(r.prompt), sha(r.payload))
    }

    method Get(r: Request) returns (v: Option<Parsed>)
      ensures v == if Key(r) in store then Some(store[Key(r)]) else None
    {
      v := if Key(r) in store then Some(store[Key(r)]) else None;
    }

    method Put(r: Request, value: Parsed)
      modifies this
      ensures store == old(store)[Key(r) := value]
    {
      store := store[Key(r) := value];
    }
  }

  /** What one HTTP attempt comes to. */
  datatype HttpResult = Response(raw: string, tokensIn: nat, tokensOut: nat) | Failure

  class LLMClient {
    const config: Config
    const cache: LLMCache
    const budget: Budget
    var free: int
    var today: Day
    var audit: seq<AuditRow>
    var calls: seq<Call>
    var puts: seq<Put>
    ghost var trace: seq<Action>

    constructor (config: Config)
      requires config.permits > 0
      ensures Valid() && calls == [] && this.config == config
      ensures fresh(cache) && fresh(budget)
    {
      this.config := config;
      this.cache := new LLMCache(config.sha);
      this.budget := new Budget(map[]);
      this.free, this.today, this.audit, this.calls, this.puts := config.permits, 0, [], [], [];
      this.trace := [];
    }

    ghost function View(): State
      reads this, cache, budget
    {
      State(calls, free, cache.store, puts, budget.spend, budget.dailyLimits, today, audit)
    }

    /** The client is where its trace, a legal schedule, leads from the initial state. */
    ghost predicate Valid()
      reads this, cache, budget
    {
      && config.permits > 0 && cache.sha == config.sha
      && Legal(config, Initial(config), trace)
      && View() == Run(config, Initial(config), trace)
    }

    lemma {:induction false} ValidIsSafe()
      requires Valid()
      ensures Safe(config, View())
    {
      assert Safe(config, Initial(config));
      SafeOverSchedules(config, Initial(config), trace);
    }

    /** The trace after one more action. */
    ghost method Log(a: Action)
      requires config.permits > 0 && cache.sha == config.sha
      requires Legal(config, Initial(config), trace)
      requires Enabled(config, Run(config, Initial(config), trace), a)
      requires View() == Next(config, Run(config, Initial(config), trace), a)
      modifies this`trace
      ensures Valid() && trace == old(trace) + [a]
    {
      RunExtends(config, Initial(config), trace, a);
      trace := trace + [a];
    }

    /** Other calls run. Callers may rely on nothing but this contract. */
    method Interleave(ghost me: nat)
      requires Valid() && me < |calls|
      modifies this, cache, budget
      ensures Valid() && old(trace) <= trace
      ensures me < |calls| && calls[me] == old(calls[me])
    {
    }

    /** Waits for the semaphore: others run until a permit is free. */
    method AwaitPermit(ghost me: nat)
      requires Valid() && me < |calls| && calls[me].pc.Waiting?
      modifies this, cache, budget
      ensures Valid() && old(trace) <= trace && free > 0
      ensures me < |calls| && calls[me] == old(calls[me])
    {
      ValidIsSafe();
      if free == 0 {
        var i := 0;
        while i < |calls| && !calls[i].pc.InFlight?
          invariant 0 <= i <= |calls|
          invariant forall j :: 0 <= j < i ==> !calls[j].pc.InFlight?
        {
          i := i + 1;
        }
        if i == |calls| {
          var j := LlmProgress.SomeHolder(calls);
        }
        Finish(i, Failure);
      }
    }

    method Begin(req: Request) returns (me: nat)
      requires Valid()
      modifies this
      ensures Valid() && old(trace) <= trace
      ensures me == |old(calls)| && calls == old(calls) + [Call(req, Ready, 0, "", 0.0)]
    {
      me := |calls|;
      calls := calls + [Call(req, Ready, 0, "", 0.0)];
      Log(Spawn(req));
    }

    /** The cache lookup; a cached null is a miss. */
    method CheckCache(me: nat) returns (cached: Option<Parsed>)
      requires Valid() && me < |calls| && calls[me].pc.Ready?
      modifies this
      ensures Valid() && old(trace) <= trace && |calls| == |old(calls)|
      ensures cached.Some? ==> calls[me] == old(calls[me]).(pc := RecordingHit(cached.value))
      ensures cached.None? ==> calls[me] == old(calls[me]).(pc := Waiting)
    {
      cached := cache.Get(calls[me].req);
      if cached == Some(JsonNull) {
        cached := None;
      }
      calls := calls[me := calls[me].(pc := if cached.Some? then RecordingHit(cached.value) else Waiting)];
      Log(LookUp(me));
    }

    method RecordHitRow(me: nat)
      requires Valid() && me < |calls| && calls[me].pc.RecordingHit?
      modifies this
      ensures Valid() && old(trace) <= trace && |calls| == |old(calls)|
      ensures calls[me] == old(calls[me]).(pc := Done(Hit(old(calls[me]).pc.value)))
    {
      audit := audit + [AuditRow(me, calls[me].req, 0.0, CacheHit)];
      calls := calls[me := calls[me].(pc := Done(Hit(calls[me].pc.value)))];
      Log(RecordHit(me));
    }

    method TakePermit(me: nat)
      requires Valid() && me < |calls| && calls[me].pc.Waiting? && free > 0
      modifies this
      ensures Valid() && old(trace) <= trace && |calls| == |old(calls)|
      ensures calls[me] == old(calls[me]).(pc := InFlight)
    {
      free := free - 1;
      calls := calls[me := calls[me].(pc := InFlight)];
      Log(Acquire(me));
    }

    /** The response, or the exception, comes back and the permit is released. */
    method Finish(me: nat, result: HttpResult)
      requires Valid() && me < |calls| && calls[me].pc.InFlight?
      modifies this
      ensures Valid() && old(trace) <= trace && |calls| == |old(calls)| && free == old(free) + 1
      ensures calls == old(calls)[me := calls[me]]
      ensures match result
              case Response(raw, tin, tout) =>
                calls[me] == old(calls[me]).(pc := RecordingOk, attempts := old(calls[me]).attempts + 1, raw := raw,
                                             cost := Cost(calls[me].req.model, tin, tout))
              case Failure =>
                calls[me] == old(calls[me]).(attempts := old(calls[me]).attempts + 1,
                                             pc := if old(calls[me]).attempts + 1 < MAX_ATTEMPTS then BackingOff else RecordingError)
    {
      var call := calls[me];
      free := free + 1;
      match result
      case Response(raw, tin, tout) =>
        calls := calls[me := call.(pc := RecordingOk, attempts := call.attempts + 1, raw := raw, cost := Cost(call.req.model, tin, tout))];
        Log(Respond(me, raw, tin, tout));
      case Failure =>
        var pc := if call.attempts + 1 < MAX_ATTEMPTS then BackingOff else RecordingError;
        calls := calls[me := call.(pc := pc, attempts := call.attempts + 1)];
        Log(FailAttempt(me));
    }

    method Backoff(me: nat)
      requires Valid() && me < |calls| && calls[me].pc.BackingOff?
      modifies this
      ensures Valid() && old(trace) <= trace && |calls| == |old(calls)|
      ensures calls[me] == old(calls[me]).(pc := Waiting)
    {
      calls := calls[me := calls[me].(pc := Waiting)];
      Log(Retry(me));
    }

    method RecordErrorRow(me: nat)
      requires Valid() && me < |calls| && calls[me].pc.RecordingError?
      modifies this
      ensures Valid() && old(trace) <= trace && |calls| == |old(calls)|
      ensures calls[me] == old(calls[me]).(pc := Done(Raised))
    {
      audit := audit + [AuditRow(me, calls[me].req, 0.0, Error)];
      calls := calls[me := calls[me].(pc := Done(Raised))];
      Log(RecordError(me));
    }

    /** The ok row is written before parsing, so a parse failure leaves it behind. */
    method RecordOkRow(me: nat) returns (parsed: Option<Parsed>)
      requires Valid() && me < |calls| && calls[me].pc.RecordingOk?
      modifies this
      ensures Valid() && old(trace) <= trace && |calls| == |old(calls)|
      ensures parsed == config.parse(old(calls[me]).raw)
      ensures calls[me] == old(calls[me]).(pc := if parsed.Some? then Charging(parsed.value) else Done(Unparsed))
    {
      var call := calls[me];
      audit := audit + [AuditRow(me, call.req, Stored(call.cost), Success)];
      parsed := config.parse(call.raw);
      calls := calls[me := call.(pc := if parsed.Some? then Charging(parsed.value) else Done(Unparsed))];
      Log(RecordOk(me));
    }

    method ChargeAndCache(me: nat) returns (ok: bool)
      requires Valid() && me < |calls| && calls[me].pc.Charging?
      modifies this, cache, budget
      ensures Valid() && old(trace) <= trace && |calls| == |old(calls)|
      ensures calls[me] == old(calls[me]).(pc := Done(if ok then Answered(old(calls[me]).pc.value, today) else Refused))
    {
      var call := calls[me];
      ghost var before := View();
      ok := budget.Consume(call.req.detector, call.cost, today);
      if ok {
        Answer(me, before);
      } else {
        calls := calls[me := call.(pc := Done(Refused))];
        assert View() == Next(config, before, Charge(me));
      }
      Log(Charge(me));
    }

    /** The accepted charge: the value is cached and the call is done. */
    method Answer(me: nat, ghost before: State)
      requires cache.sha == config.sha && Enabled(config, before, Charge(me))
      requires var call := before.calls[me];
               && !OverLimit(before, call.req.detector, call.cost)
               && View() == before.(spend := before.spend[(call.req.detector, today) :=
                                      Spend(before.spend, call.req.detector, today) + call.cost])
      modifies this`puts, this`calls, cache
      ensures View() == Next(config, before, Charge(me))
    {
      var call := calls[me];
      cache.Put(call.req, call.pc.value);
      puts := puts + [Put(me, cache.Key(call.req), call.pc.value)];
      calls := calls[me := call.(pc := Done(Answered(call.pc.value, today)))];
    }

    /** One attempt: wait for a permit, hold it across the request, release it. */
    method Attempt(me: nat, result: HttpResult)
      requires Valid() && me < |calls| && calls[me].pc.Waiting?
      modifies this, cache, budget
      ensures Valid() && old(trace) <= trace && me < |calls|
      ensures match result
              case Response(raw, tin, tout) =>
                calls[me] == old(calls[me]).(pc := RecordingOk, attempts := old(calls[me]).attempts + 1, raw := raw,
                                             cost := Cost(calls[me].req.model, tin, tout))
              case Failure =>
                calls[me] == old(calls[me]).(attempts := old(calls[me]).attempts + 1,
                                             pc := if old(calls[me]).attempts + 1 < MAX_ATTEMPTS then BackingOff else RecordingError)
    {
      AwaitPermit(me);
      TakePermit(me);
      Interleave(me);
      Finish(me, result);
    }

    method Delay(me: nat)
      requires Valid() && me < |calls| && calls[me].pc.BackingOff?
      modifies this, cache, budget
      ensures Valid() && old(trace) <= trace && me < |calls|
      ensures calls[me] == old(calls[me]).(pc := Waiting)
    {
      Interleave(me);
      Backoff(me);
    }

    /** Three attempts at most, each with its own permit. */
    method CallWithRetry(me: nat, http: nat -> HttpResult) returns (ok: bool)
      requires Valid() && me < |calls| && calls[me].pc.Waiting? && calls[me].attempts == 0
      modifies this, cache, budget
      ensures Valid() && old(trace) <= trace && me < |calls| && calls[me].req == old(calls[me]).req
      ensures ok <==> http(0).Response? || http(1).Response? || http(2).Response?
      ensures !ok ==> calls[me].pc.RecordingError? && calls[me].attempts == 3
      ensures ok ==> calls[me].pc.RecordingOk? && AnsweredBy(calls[me], http)
    {
      ghost var req := calls[me].req;
      for n := 0 to MAX_ATTEMPTS
        invariant Valid() && old(trace) <= trace && me < |calls| && calls[me].req == req && calls[me].attempts == n
        invariant calls[me].pc == if n < MAX_ATTEMPTS then (if n == 0 then Waiting else BackingOff) else RecordingError
        invariant forall j: nat :: j < n ==> http(j).Failure?
      {
        if n > 0 {
          Delay(me);
        }
        Attempt(me, http(n));
        if http(n).Response? {
          return true;
        }
      }
      return false;
    }

    /** A call, under any interference at its awaits. All it and the others do is a schedule of the
        protocol, in which the call has finished with the outcome returned. */
    method CallOnce(req: Request, http: nat -> HttpResult) returns (me: nat, outcome: Outcome)
      requires Valid()
      modifies this, cache, budget
      ensures Valid() && old(trace) <= trace
      ensures me < |calls| && calls[me].req == req && calls[me].pc == Done(outcome)
      ensures outcome.Raised? ==> http(0).Failure? && http(1).Failure? && http(2).Failure? && calls[me].attempts == 3
      ensures !outcome.Raised? && !outcome.Hit? ==> AnsweredBy(calls[me], http)
      ensures outcome.Unparsed? ==> config.parse(calls[me].raw).None?
      ensures outcome.Answered? ==> config.parse(calls[me].raw) == Some(outcome.value)
      ensures outcome.Refused? ==> config.parse(calls[me].raw).Some?
    {
      me := Begin(req);
      Interleave(me);
      var cached := CheckCache(me);
      if cached.Some? {
        Interleave(me);
        RecordHitRow(me);
        return me, Hit(cached.value);
      }
      outcome := AskModel(me, http);
    }

    /** After a miss: the attempts, then an error row, or what Settle makes of the response. */
    method AskModel(me: nat, http: nat -> HttpResult) returns (outcome: Outcome)
      requires Valid() && me < |calls| && calls[me].pc.Waiting? && calls[me].attempts == 0
      modifies this, cache, budget
      ensures Valid() && old(trace) <= trace
      ensures me < |calls| && calls[me].req == old(calls[me]).req && calls[me].pc == Done(outcome)
      ensures !outcome.Hit?
      ensures outcome.Raised? ==> http(0).Failure? && http(1).Failure? && http(2).Failure? && calls[me].attempts == 3
      ensures !outcome.Raised? ==> AnsweredBy(calls[me], http)
      ensures outcome.Unparsed? ==> config.parse(calls[me].raw).None?
      ensures outcome.Answered? ==> config.parse(calls[me].raw) == Some(outcome.value)
      ensures outcome.Refused? ==> config.parse(calls[me].raw).Some?
    {
      var ok := CallWithRetry(me, http);
      if !ok {
        Interleave(me);
        RecordErrorRow(me);
        return Raised;
      }
      outcome := Settle(me, http);
    }

    /** Audit, parse, charge and cache a response. */
    method Settle(me: nat, http: nat -> HttpResult) returns (outcome: Outcome)
      requires Valid() && me < |calls| && calls[me].pc.RecordingOk? && AnsweredBy(calls[me], http)
      modifies this, cache, budget
      ensures Valid() && old(trace) <= trace && me < |calls|
      ensures calls[me] == old(calls[me]).(pc := Done(outcome)) && AnsweredBy(calls[me], http)
      ensures outcome.Unparsed? || outcome.Answered? || outcome.Refused?
      ensures outcome.Unparsed? <==> config.parse(calls[me].raw).None?
      ensures outcome.Answered? ==> config.parse(calls[me].raw) == Some(outcome.value)
    {
      Interleave(me);
      var parsed := RecordOkRow(me);
      if parsed.None? {
        return Unparsed;
      }
      Interleave(me);
      var ok := ChargeAndCache(me);
      return if ok then Answered(parsed.value, today) else Refused;
    }
  }

  /** The call's response is that of its last attempt, the first to get one. */
  ghost predicate AnsweredBy(call: Call, http: nat -> HttpResult) {
    && 1 <= call.attempts <= 3
    && var k: nat := call.attempts - 1;
       && http(k).Response? && (forall j: nat :: j < k ==> http(j).Failure?)
       && call.raw == http(k).raw
       && call.cost == Cost(call.req.model, http(k).tokensIn, http(k).tokensOut)
  }
}
