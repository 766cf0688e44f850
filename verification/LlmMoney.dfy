/**
 Where the money goes: audited cost against budget spend, over every schedule.
 */
module LlmMoney {
  import opened Models
  import opened LlmProtocol
  import opened LlmSafety
  import opened Sums

  /** Cost of the audited "ok" rows of a detector. */
  function AuditedCost(audit: seq<AuditRow>, d: string): real {
    if audit == [] then 0.0
    else
      var r := audit[|audit| - 1];
      AuditedCost(audit[..|audit| - 1], d) + if r.status.Success? && r.req.detector == d then r.cost else 0.0
  }

  /** The number of those rows. */
  function OkRows(audit: seq<AuditRow>, d: string): nat {
    if audit == [] then 0
    else
      var r := audit[|audit| - 1];
      OkRows(audit[..|audit| - 1], d) + if r.status.Success? && r.req.detector == d then 1 else 0
  }

  /** Spend of a detector up to and including a day. */
  function SpendThrough(spend: map<(string, Day), real>, d: string, day: Day): real {
    Spend(spend, d, day) + if day == 0 then 0.0 else SpendThrough(spend, d, day - 1)
  }

  // ----- the cost of one call, by what became of it -----

  /** The call's "ok" row is written. */
  predicate Billable(call: Call, d: string) {
    && call.req.detector == d
    && (call.pc.Charging? || (call.pc.Done? && !call.pc.outcome.Hit? && !call.pc.outcome.Raised?))
  }

  function Billed(d: string): Call -> real {
    (call: Call) => if Billable(call, d) then call.cost else 0.0
  }

  /** As the audit table keeps it. */
  function Audited(d: string): Call -> real {
    (call: Call) => if Billable(call, d) then Stored(call.cost) else 0.0
  }

  function OkRow(d: string): Call -> int {
    (call: Call) => if Billable(call, d) then 1 else 0
  }

  /** Accepted by the budget. */
  function Charged(d: string): Call -> real {
    (call: Call) => if call.req.detector == d && call.pc.Done? && call.pc.outcome.Answered? then call.cost else 0.0
  }

  function ChargedOn(d: string, day: Day): Call -> real {
    (call: Call) =>
      if call.req.detector == d && call.pc.Done? && call.pc.outcome.Answered? && call.pc.outcome.day == day
      then call.cost else 0.0
  }

  /** Paid for, but the response did not parse or the budget refused it. */
  function Lost(d: string): Call -> real {
    (call: Call) =>
      if call.req.detector == d && call.pc.Done? && (call.pc.outcome.Unparsed? || call.pc.outcome.Refused?)
      then call.cost else 0.0
  }

  /** Paid for, and not yet put to the budget. */
  function Pending(d: string): Call -> real {
    (call: Call) => if call.req.detector == d && call.pc.Charging? then call.cost else 0.0
  }

  function LostOrPending(d: string): Call -> real {
    (call: Call) => Lost(d)(call) + Pending(d)(call)
  }

  // ----- conservation -----

  ghost predicate Conserved(s: State, d: string) {
    && AuditedCost(s.audit, d) == Sum(s.calls, Audited(d)) && OkRows(s.audit, d) == Count(s.calls, OkRow(d))
    && SpendThrough(s.spend, d, s.today) == Sum(s.calls, Charged(d))
    && forall day: Day :: Spend(s.spend, d, day) == Sum(s.calls, ChargedOn(d, day)) && (day > s.today ==> Spend(s.spend, d, day) == 0.0)
  }

  lemma {:induction false} SpendThroughFrame(spend: map<(string, Day), real>, spend': map<(string, Day), real>, d: string, day: Day)
    requires forall k: Day :: k <= day ==> Spend(spend', d, k) == Spend(spend, d, k)
    ensures SpendThrough(spend', d, day) == SpendThrough(spend, d, day)
  {
    if day > 0 {
      SpendThroughFrame(spend, spend', d, day - 1);
    }
  }

  lemma {:induction false} SpendThroughCharged(spend: map<(string, Day), real>, d: string, today: Day, x: real, other: string)
    ensures var spend' := spend[(d, today) := Spend(spend, d, today) + x];
            SpendThrough(spend', other, today) == SpendThrough(spend, other, today) + if other == d then x else 0.0
  {
    var spend' := spend[(d, today) := Spend(spend, d, today) + x];
    if today > 0 {
      SpendThroughFrame(spend, spend', other, today - 1);
    }
  }

  lemma {:induction false} SpendCharged(spend: map<(string, Day), real>, d: string, today: Day, x: real, other: string, day: Day)
    ensures Spend(spend[(d, today) := Spend(spend, d, today) + x], other, day)
            == Spend(spend, other, day) + if other == d && day == today then x else 0.0
  {
  }

  /** How one action changes the three accounts of a detector. */
  lemma {:induction false} StepBills(c: Config, s: State, a: Action, i: nat, d: string)
    requires Enabled(c, s, a) && Actor(a) == Some(i)
    ensures var s' := Next(c, s, a);
            && s'.calls == s.calls[i := s'.calls[i]] && s'.today == s.today
            && AuditedCost(s'.audit, d) == AuditedCost(s.audit, d) - Audited(d)(s.calls[i]) + Audited(d)(s'.calls[i])
            && OkRows(s'.audit, d) == OkRows(s.audit, d) - OkRow(d)(s.calls[i]) + OkRow(d)(s'.calls[i])
  {
    var s' := Next(c, s, a);
    OneCallMoves(c, s, a, i);
    StepAudits(c, s, a, i);
    RecordedBills(s.calls[i], d);
    RecordedBills(s'.calls[i], d);
    if s'.audit != s.audit {
      RowBills(s.audit, s'.audit[|s.audit|], d);
    }
  }

  /** What a call is billed is what its row says, if it has one. */
  lemma {:induction false} RecordedBills(call: Call, d: string)
    ensures Billable(call, d) <==> call.req.detector == d && Recorded(call) == Some((Success, Stored(call.cost)))
    ensures Recorded(call).Some? && Recorded(call).value.0.Success? ==> Recorded(call).value.1 == Stored(call.cost)
  {
  }

  lemma {:induction false} RowBills(audit: seq<AuditRow>, r: AuditRow, d: string)
    ensures AuditedCost(audit + [r], d) == AuditedCost(audit, d) + if r.status.Success? && r.req.detector == d then r.cost else 0.0
    ensures OkRows(audit + [r], d) == OkRows(audit, d) + if r.status.Success? && r.req.detector == d then 1 else 0
  {
    assert (audit + [r])[..|audit|] == audit;
  }

  lemma {:induction false} SpendUntouched(c: Config, s: State, a: Action, i: nat, d: string, day: Day)
    requires Enabled(c, s, a) && Actor(a) == Some(i) && !a.Charge?
    ensures Next(c, s, a).spend == s.spend
    ensures Charged(d)(Next(c, s, a).calls[i]) == Charged(d)(s.calls[i])
    ensures ChargedOn(d, day)(Next(c, s, a).calls[i]) == ChargedOn(d, day)(s.calls[i])
  {
  }

  lemma {:induction false} StepSpends(c: Config, s: State, a: Action, i: nat, d: string, day: Day)
    requires Enabled(c, s, a) && Actor(a) == Some(i)
    ensures var s' := Next(c, s, a);
            && Spend(s'.spend, d, day) == Spend(s.spend, d, day) - ChargedOn(d, day)(s.calls[i]) + ChargedOn(d, day)(s'.calls[i])
            && SpendThrough(s'.spend, d, s.today) == SpendThrough(s.spend, d, s.today) - Charged(d)(s.calls[i]) + Charged(d)(s'.calls[i])
            && (day > s.today ==> Spend(s'.spend, d, day) == Spend(s.spend, d, day))
  {
    if a.Charge? {
      ChargeSpends(c, s, i, d, day);
    } else {
      SpendUntouched(c, s, a, i, d, day);
    }
  }

  /** What a charge adds to its detector's spend of the day. */
  lemma {:induction false} ChargeAdds(c: Config, s: State, i: nat)
    requires Enabled(c, s, Charge(i))
    ensures var s', call := Next(c, s, Charge(i)), s.calls[i];
            var x := if OverLimit(s, call.req.detector, call.cost) then 0.0 else call.cost;
            && s'.spend == s.spend[(call.req.detector, s.today) := Spend(s.spend, call.req.detector, s.today) + x]
            && (forall d :: Charged(d)(s.calls[i]) == 0.0 && Charged(d)(s'.calls[i]) == if d == call.req.detector then x else 0.0)
            && (forall d, day :: ChargedOn(d, day)(s.calls[i]) == 0.0
                  && ChargedOn(d, day)(s'.calls[i]) == if d == call.req.detector && day == s.today then x else 0.0)
  {
  }

  lemma {:induction false} ChargeSpends(c: Config, s: State, i: nat, d: string, day: Day)
    requires Enabled(c, s, Charge(i))
    ensures var s' := Next(c, s, Charge(i));
            && Spend(s'.spend, d, day) == Spend(s.spend, d, day) - ChargedOn(d, day)(s.calls[i]) + ChargedOn(d, day)(s'.calls[i])
            && SpendThrough(s'.spend, d, s.today) == SpendThrough(s.spend, d, s.today) - Charged(d)(s.calls[i]) + Charged(d)(s'.calls[i])
            && (day > s.today ==> Spend(s'.spend, d, day) == Spend(s.spend, d, day))
  {
    var call := s.calls[i];
    var x := if OverLimit(s, call.req.detector, call.cost) then 0.0 else call.cost;
    ChargeAdds(c, s, i);
    SpendThroughCharged(s.spend, call.req.detector, s.today, x, d);
    SpendCharged(s.spend, call.req.detector, s.today, x, d, day);
  }

  lemma {:induction false} CallStepConserves(c: Config, s: State, a: Action, i: nat, d: string)
    requires Conserved(s, d) && Enabled(c, s, a) && Actor(a) == Some(i)
    ensures Conserved(Next(c, s, a), d)
  {
    var s' := Next(c, s, a);
    StepBills(c, s, a, i, d);
    SumUpdate(s.calls, i, s'.calls[i], Audited(d));
    CountUpdate(s.calls, i, s'.calls[i], OkRow(d));
    SumUpdate(s.calls, i, s'.calls[i], Charged(d));
    StepSpends(c, s, a, i, d, 0);
    forall day: Day
      ensures Spend(s'.spend, d, day) == Sum(s'.calls, ChargedOn(d, day)) && (day > s'.today ==> Spend(s'.spend, d, day) == 0.0)
    {
      StepSpends(c, s, a, i, d, day);
      SumUpdate(s.calls, i, s'.calls[i], ChargedOn(d, day));
    }
  }

  lemma {:induction false} StepConserves(c: Config, s: State, a: Action, d: string)
    requires Conserved(s, d) && Enabled(c, s, a)
    ensures Conserved(Next(c, s, a), d)
  {
    match Actor(a)
    case Some(i) => CallStepConserves(c, s, a, i, d);
    case None =>
      var s' := Next(c, s, a);
      if a.Spawn? {
        assert s'.calls[..|s.calls|] == s.calls;
      }
  }

  lemma {:induction false} ConservedOverSchedules(c: Config, s: State, actions: seq<Action>, d: string)
    requires Conserved(s, d) && Legal(c, s, actions)
    ensures Conserved(Run(c, s, actions), d)
    decreases |actions|
  {
    if actions != [] {
      StepConserves(c, s, actions[0], d);
      ConservedOverSchedules(c, Next(c, s, actions[0]), actions[1..], d);
    }
  }

  // ----- what the column loses -----

  /** A whole number of ten-thousandths of a dollar. */
  predicate InUnits(cost: real) {
    (cost * 10_000.0).Floor as real == cost * 10_000.0
  }

  lemma {:induction false} StoredIsNear(cost: real)
    ensures cost - 0.00005 <= Stored(cost) <= cost + 0.00005
    ensures Stored(cost) == cost <==> InUnits(cost)
  {
    var x := cost * 10_000.0;
    var n := (x + 0.5).Floor;
    assert n as real <= x + 0.5 < (n + 1) as real;
    if InUnits(cost) {
      assert x.Floor as real == x;
      assert n == x.Floor;
    }
  }

  /** What one input token of a known model costs, in millionths; an output token costs five times that. */
  function UnitPrice(model: string): nat
    requires model in PRICES
  {
    if model == "claude-haiku-4-5-20251001" then 1 else if model == "claude-sonnet-4-6" then 3 else 15
  }

  lemma {:induction false} PricesAreUnits(model: string)
    requires model in PRICES
    ensures PRICES[model] == (UnitPrice(model) as real, (5 * UnitPrice(model)) as real)
  {
  }

  lemma {:induction false} CostInMillionths(model: string, tokensIn: nat, tokensOut: nat)
    requires model in PRICES
    ensures Cost(model, tokensIn, tokensOut) == (UnitPrice(model) * (tokensIn + 5 * tokensOut)) as real / 1_000_000.0
  {
    PricesAreUnits(model);
    var u := UnitPrice(model);
    assert u == 1 || u == 3 || u == 15;
  }

  /** A million tokens cost 1 (in) and 5 (out) dollars, or 3 and 15, or 15 and 75; those of any other model
      cost nothing. */
  lemma {:induction false} CostOf(model: string, tokensIn: nat, tokensOut: nat)
    ensures Cost(model, tokensIn, tokensOut) * 1_000_000.0 ==
            if model == "claude-haiku-4-5-20251001" then (tokensIn + 5 * tokensOut) as real
            else if model == "claude-sonnet-4-6" then (3 * tokensIn + 15 * tokensOut) as real
            else if model == "claude-opus-4-7" then (15 * tokensIn + 75 * tokensOut) as real
            else 0.0
  {
    if model in PRICES {
      CostInMillionths(model, tokensIn, tokensOut);
      var n := UnitPrice(model) * (tokensIn + 5 * tokensOut);
      assert n as real / 1_000_000.0 * 1_000_000.0 == n as real;
    }
  }

  /** For a known model the audit row is exact if and only if the tokens add up to whole units. */
  lemma {:induction false} TokensInUnits(model: string, tokensIn: nat, tokensOut: nat)
    requires model in PRICES
    ensures InUnits(Cost(model, tokensIn, tokensOut)) <==>
            (tokensIn + 5 * tokensOut) % (if model == "claude-opus-4-7" then 20 else 100) == 0
  {
    var u, t := UnitPrice(model), tokensIn + 5 * tokensOut;
    assert u == 15 <==> model == "claude-opus-4-7";
    CostInMillionths(model, tokensIn, tokensOut);
    HundredthsInUnits(u * t);
    WholeHundreds(u, t);
  }

  lemma {:induction false} WholeHundreds(u: nat, t: nat)
    requires u == 1 || u == 3 || u == 15
    ensures u * t % 100 == 0 <==> t % (if u == 15 then 20 else 100) == 0
  {
    if u == 3 {
      Thrice(t);
    } else if u == 15 {
      FifteenTimes(t);
    } else {
      assert u * t == t;
    }
  }

  lemma {:induction false} HundredTimes(n: int, k: int)
    requires n == 100 * k
    ensures n % 100 == 0
  {
  }

  lemma {:induction false} TwentyTimes(n: int, k: int)
    requires n == 20 * k
    ensures n % 20 == 0
  {
  }

  lemma {:induction false} Thrice(t: nat)
    ensures 3 * t % 100 == 0 <==> t % 100 == 0
  {
    var k, m := 3 * t / 100, t / 100;
    if 3 * t % 100 == 0 {
      assert 3 * t == 100 * k;
      HundredTimes(t, 67 * k - 2 * t);
    }
    if t % 100 == 0 {
      assert t == 100 * m;
      HundredTimes(3 * t, 3 * m);
    }
  }

  lemma {:induction false} FifteenTimes(t: nat)
    ensures 15 * t % 100 == 0 <==> t % 20 == 0
  {
    var k, m := 15 * t / 100, t / 20;
    if 15 * t % 100 == 0 {
      assert 15 * t == 100 * k;
      TwentyTimes(t, 7 * k - t);
    }
    if t % 20 == 0 {
      assert t == 20 * m;
      HundredTimes(15 * t, 3 * m);
    }
  }

  lemma {:induction false} HundredthsInUnits(n: nat)
    ensures InUnits(n as real / 1_000_000.0) <==> n % 100 == 0
  {
    var x := n as real / 1_000_000.0 * 10_000.0;
    assert x == n as real / 100.0;
    assert x.Floor <= n / 100 && n / 100 <= x.Floor;
    assert n == 100 * (n / 100) + n % 100;
  }

  /** Each "ok" row is off by half a unit at most. */
  lemma {:induction false} RoundingBound(calls: seq<Call>, d: string)
    ensures -0.00005 * Count(calls, OkRow(d)) as real <= Sum(calls, Audited(d)) - Sum(calls, Billed(d)) <= 0.00005 * Count(calls, OkRow(d)) as real
    ensures (forall i :: 0 <= i < |calls| && Billable(calls[i], d) ==> InUnits(calls[i].cost)) ==>
              Sum(calls, Audited(d)) == Sum(calls, Billed(d))
  {
    if calls != [] {
      RoundingBound(calls[..|calls| - 1], d);
      StoredIsNear(calls[|calls| - 1].cost);
    }
  }

  /** What the budget accepted, plus what was lost to parse failures and refusals, plus what is still
      to be charged. */
  ghost function Accounted(s: State, d: string): real {
    SpendThrough(s.spend, d, s.today) + Sum(s.calls, Lost(d)) + Sum(s.calls, Pending(d))
  }

  /** At every reachable state and for every detector the audited cost is what is accounted for, up
      to half a unit for each of its "ok" rows, and exactly so if every such call cost whole units;
      each day's spend is exactly the cost of the calls charged that day. */
  lemma {:induction false} CostIsConserved(c: Config, actions: seq<Action>, d: string, day: Day)
    requires Legal(c, Initial(c), actions)
    ensures var s := Run(c, Initial(c), actions);
            && Accounted(s, d) - 0.00005 * OkRows(s.audit, d) as real <= AuditedCost(s.audit, d)
            && AuditedCost(s.audit, d) <= Accounted(s, d) + 0.00005 * OkRows(s.audit, d) as real
            && ((forall i :: 0 <= i < |s.calls| && Billable(s.calls[i], d) ==> InUnits(s.calls[i].cost)) ==>
                  AuditedCost(s.audit, d) == Accounted(s, d))
            && Spend(s.spend, d, day) == Sum(s.calls, ChargedOn(d, day))
            && (day > s.today ==> Spend(s.spend, d, day) == 0.0)
  {
    assert Conserved(Initial(c), d);
    ConservedOverSchedules(c, Initial(c), actions, d);
    var s := Run(c, Initial(c), actions);
    forall call: Call ensures Billed(d)(call) == Charged(d)(call) + LostOrPending(d)(call) {
      assert LostOrPending(d)(call) == Lost(d)(call) + Pending(d)(call);
    }
    SumSplit(s.calls, Billed(d), Charged(d), LostOrPending(d));
    SumSplit(s.calls, LostOrPending(d), Lost(d), Pending(d));
    RoundingBound(s.calls, d);
  }

  /** A row says exactly what its call cost, and was charged, if and only if that is a whole number
      of units. */
  lemma {:induction false} RowIsExactIff(c: Config, actions: seq<Action>, k: nat)
    requires Legal(c, Initial(c), actions)
    requires var s := Run(c, Initial(c), actions); k < |s.audit| && s.audit[k].status.Success?
    ensures var s := Run(c, Initial(c), actions);
            && s.audit[k].call < |s.calls|
            && var cost := s.calls[s.audit[k].call].cost;
               s.audit[k].cost == cost <==> InUnits(cost)
  {
    assert Safe(c, Initial(c));
    SafeOverSchedules(c, Initial(c), actions);
    var s := Run(c, Initial(c), actions);
    assert RowOk(s, s.audit[k]);
    StoredIsNear(s.calls[s.audit[k].call].cost);
  }

  const SMALL := Request("d", "claude-haiku-4-5-20251001", "", "")

  const SMALL_CALL := [Spawn(SMALL), LookUp(0), Acquire(0), Respond(0, "{}", 30, 1), RecordOk(0), Charge(0)]

  lemma {:induction false} SmallResponse(c: Config)
    requires c.permits > 0
    ensures Legal(c, Initial(c), SMALL_CALL[..4])
    ensures Run(c, Initial(c), SMALL_CALL[..4]) == Initial(c).(calls := [Call(SMALL, RecordingOk, 1, "{}", 0.000035)])
  {
    RunTo(c, Initial(c), SMALL_CALL, 0);
    RunTo(c, Initial(c), SMALL_CALL, 1);
    RunTo(c, Initial(c), SMALL_CALL, 2);
    RunTo(c, Initial(c), SMALL_CALL, 3);
    CostInMillionths(SMALL.model, 30, 1);
  }

  lemma {:induction false} SmallRecorded(c: Config, v: Parsed)
    requires c.permits > 0 && c.parse("{}") == Some(v)
    ensures Legal(c, Initial(c), SMALL_CALL[..5])
    ensures Run(c, Initial(c), SMALL_CALL[..5]) == Initial(c).(calls := [Call(SMALL, Charging(v), 1, "{}", 0.000035)],
                                                               audit := [AuditRow(0, SMALL, 0.0, Success)])
  {
    SmallResponse(c);
    assert Stored(0.000035) == 0.0;
    RunTo(c, Initial(c), SMALL_CALL, 4);
  }

  /** 30 tokens in and 1 out of the cheapest model cost 0.000035: charged, and audited as nothing. */
  lemma {:induction false} RoundingLosesSpend(c: Config, v: Parsed)
    requires c.permits > 0 && c.parse("{}") == Some(v)
    ensures Legal(c, Initial(c), SMALL_CALL)
    ensures var s := Run(c, Initial(c), SMALL_CALL);
            Spend(s.spend, "d", s.today) == 0.000035 && AuditedCost(s.audit, "d") == 0.0 && OkRows(s.audit, "d") == 1
  {
    SmallRecorded(c, v);
    RunTo(c, Initial(c), SMALL_CALL, 5);
    assert SMALL_CALL[..6] == SMALL_CALL;
    var s := Run(c, Initial(c), SMALL_CALL);
    assert s.audit == [AuditRow(0, SMALL, 0.0, Success)] && s.audit[..0] == [];
  }

  /** In every schedule a new day begins with nothing spent, and keeps what was spent before. */
  lemma {:induction false} NewDay(c: Config, actions: seq<Action>, d: string, day: Day)
    requires Legal(c, Initial(c), actions)
    ensures var s := Run(c, Initial(c), actions);
            var s' := Next(c, s, Midnight);
            && s'.today == s.today + 1 && Spend(s'.spend, d, s'.today) == 0.0
            && Spend(s'.spend, d, day) == Spend(s.spend, d, day) && s'.calls == s.calls
  {
    CostIsConserved(c, actions, d, Run(c, Initial(c), actions).today + 1);
  }

  // ----- limits -----

  ghost predicate WithinLimits(s: State) {
    forall d, day :: d in s.limits ==> Spend(s.spend, d, day) <= s.limits[d]
  }

  /** A change of limit keeps spend within limits exactly when it is not below what the detector
      has already spent on any one day; nothing else can break it. */
  lemma {:induction false} StaysWithinLimitsIff(c: Config, s: State, a: Action)
    requires WithinLimits(s) && Enabled(c, s, a)
    ensures WithinLimits(Next(c, s, a)) <==> (a.SetLimit? ==> forall day :: Spend(s.spend, a.detector, day) <= a.limit)
  {
    var s' := Next(c, s, a);
    if a.SetLimit? {
      assert s'.limits[a.detector] == a.limit && a.detector in s'.limits;
    } else if Actor(a).Some? {
      forall d, day | d in s'.limits ensures Spend(s'.spend, d, day) <= s'.limits[d] {
        StepSpends(c, s, a, Actor(a).value, d, day);
      }
    }
  }

  /** No limit is set below what its detector has already spent on some day. */
  ghost predicate NeverUndercut(c: Config, s: State, actions: seq<Action>)
    requires Legal(c, s, actions)
    decreases |actions|
  {
    actions != [] ==>
      && (actions[0].SetLimit? ==> forall day :: Spend(s.spend, actions[0].detector, day) <= actions[0].limit)
      && NeverUndercut(c, Next(c, s, actions[0]), actions[1..])
  }

  /** Over every schedule whose limits never undercut past spend, no day's spend exceeds its limit. */
  lemma {:induction false} LimitsHoldOverSchedules(c: Config, s: State, actions: seq<Action>)
    requires WithinLimits(s) && Legal(c, s, actions) && NeverUndercut(c, s, actions)
    ensures WithinLimits(Run(c, s, actions))
    decreases |actions|
  {
    if actions != [] {
      StaysWithinLimitsIff(c, s, actions[0]);
      LimitsHoldOverSchedules(c, Next(c, s, actions[0]), actions[1..]);
    }
  }
}
