/**
 The response cache: what its entries and hits are worth, over every schedule.
 */
module LlmCoherence {
  import opened Models
  import opened LlmProtocol
  import opened LlmSafety

  /** The value last put under a key. */
  function LastPut(puts: seq<Put>, key: CacheKey): Option<Parsed> {
    if puts == [] then None
    else if puts[|puts| - 1].key == key then Some(puts[|puts| - 1].value)
    else LastPut(puts[..|puts| - 1], key)
  }

  /** The put came from a call that was audited, parsed, charged and answered with that value. */
  ghost predicate PutOk(c: Config, s: State, p: Put) {
    && p.call < |s.calls|
    && var call := s.calls[p.call];
       && p.key == KeyOf(c, call.req)
       && call.pc.Done? && call.pc.outcome.Answered? && call.pc.outcome.value == p.value
  }

  /** A decoded value is the parse of the call's own response. */
  ghost predicate ValueOk(c: Config, call: Call) {
    && (call.pc.Charging? ==> c.parse(call.raw) == Some(call.pc.value))
    && (call.pc.Done? && call.pc.outcome.Answered? ==> c.parse(call.raw) == Some(call.pc.outcome.value))
  }

  /** A hit returned a value that was put under the key of its own request, never null. */
  ghost predicate HitOk(c: Config, s: State, call: Call) {
    && (call.pc.RecordingHit? ==> WasPut(s.puts, KeyOf(c, call.req), call.pc.value))
    && (call.pc.Done? && call.pc.outcome.Hit? ==> WasPut(s.puts, KeyOf(c, call.req), call.pc.outcome.value))
  }

  ghost predicate WasPut(puts: seq<Put>, key: CacheKey, value: Parsed) {
    !value.JsonNull? && exists k :: 0 <= k < |puts| && puts[k].key == key && puts[k].value == value
  }

  ghost predicate CacheIsLastPut(s: State) {
    forall key :: LastPut(s.puts, key) == if key in s.cache then Some(s.cache[key]) else None
  }

  ghost predicate Coherent(c: Config, s: State) {
    && CacheIsLastPut(s)
    && (forall k :: 0 <= k < |s.puts| ==> PutOk(c, s, s.puts[k]))
    && (forall i :: 0 <= i < |s.calls| ==> ValueOk(c, s.calls[i]) && HitOk(c, s, s.calls[i]))
  }

  lemma {:induction false} LastPutWasPut(puts: seq<Put>, key: CacheKey)
    requires LastPut(puts, key).Some?
    ensures exists k :: 0 <= k < |puts| && puts[k].key == key && puts[k].value == LastPut(puts, key).value
  {
    if puts[|puts| - 1].key != key {
      LastPutWasPut(puts[..|puts| - 1], key);
    }
  }

  lemma {:induction false} StepKeepsCache(c: Config, s: State, a: Action)
    requires CacheIsLastPut(s) && Enabled(c, s, a)
    ensures CacheIsLastPut(Next(c, s, a))
  {
    var s' := Next(c, s, a);
    if a.Charge? && s'.puts != s.puts {
      var p := s'.puts[|s.puts|];
      assert s'.puts == s.puts + [p] && s'.cache == s.cache[p.key := p.value];
      forall key ensures LastPut(s'.puts, key) == if key == p.key then Some(p.value) else LastPut(s.puts, key) {
        assert s'.puts[..|s.puts|] == s.puts;
      }
    } else {
      assert s'.puts == s.puts && s'.cache == s.cache;
    }
  }

  lemma {:induction false} WasPutStays(puts: seq<Put>, more: seq<Put>, key: CacheKey, value: Parsed)
    requires WasPut(puts, key, value)
    ensures WasPut(puts + more, key, value)
  {
    var k :| 0 <= k < |puts| && puts[k].key == key && puts[k].value == value;
    assert (puts + more)[k] == puts[k];
  }

  lemma {:induction false} StepPuts(c: Config, s: State, a: Action)
    requires Enabled(c, s, a)
    ensures var s' := Next(c, s, a);
            && s'.puts == s.puts + s'.puts[|s.puts|..]
            && |s.calls| <= |s'.calls|
            && (forall j :: 0 <= j < |s.calls| ==> s'.calls[j].req == s.calls[j].req)
            && (forall j :: 0 <= j < |s.calls| && s.calls[j].pc.Done? ==> s'.calls[j] == s.calls[j])
            && (forall k :: |s.puts| <= k < |s'.puts| ==> PutOk(c, s', s'.puts[k]))
  {
  }

  lemma {:induction false} StepKeepsParses(c: Config, s: State, a: Action, j: nat)
    requires Enabled(c, s, a) && j < |Next(c, s, a).calls|
    requires j < |s.calls| ==> ValueOk(c, s.calls[j])
    ensures ValueOk(c, Next(c, s, a).calls[j])
  {
  }

  /** Later puts take no hit away. */
  lemma {:induction false} HitStays(c: Config, s: State, s': State, more: seq<Put>, call: Call)
    requires HitOk(c, s, call) && s'.puts == s.puts + more
    ensures HitOk(c, s', call)
  {
    if call.pc.RecordingHit? {
      WasPutStays(s.puts, more, KeyOf(c, call.req), call.pc.value);
    } else if call.pc.Done? && call.pc.outcome.Hit? {
      WasPutStays(s.puts, more, KeyOf(c, call.req), call.pc.outcome.value);
    }
  }

  /** A call's hit, if it has one, is the one it had, but for a lookup, which takes the last put. */
  lemma {:induction false} HitComesFrom(c: Config, s: State, a: Action, j: nat)
    requires Enabled(c, s, a) && j < |Next(c, s, a).calls|
    ensures var call' := Next(c, s, a).calls[j];
            || (j < |s.calls| && HitOk(c, s, s.calls[j]) ==> HitOk(c, s, call'))
            || (a == LookUp(j) && call'.pc.RecordingHit? && KeyOf(c, call'.req) in s.cache
                && s.cache[KeyOf(c, call'.req)] == call'.pc.value && !call'.pc.value.JsonNull?)
    ensures j >= |s.calls| ==> HitOk(c, s, Next(c, s, a).calls[j])
  {
  }

  lemma {:induction false} StepKeepsValues(c: Config, s: State, a: Action, j: nat)
    requires CacheIsLastPut(s) && Enabled(c, s, a)
    requires j < |s.calls| ==> ValueOk(c, s.calls[j]) && HitOk(c, s, s.calls[j])
    requires j < |Next(c, s, a).calls|
    ensures ValueOk(c, Next(c, s, a).calls[j]) && HitOk(c, Next(c, s, a), Next(c, s, a).calls[j])
  {
    var s' := Next(c, s, a);
    StepKeepsParses(c, s, a, j);
    StepPuts(c, s, a);
    HitComesFrom(c, s, a, j);
    var call := s'.calls[j];
    if !HitOk(c, s, call) {
      LastPutWasPut(s.puts, KeyOf(c, call.req));
    }
    HitStays(c, s, s', s'.puts[|s.puts|..], call);
  }

  lemma {:induction false} StepKeepsCoherent(c: Config, s: State, a: Action)
    requires Coherent(c, s) && Enabled(c, s, a)
    ensures Coherent(c, Next(c, s, a))
  {
    var s' := Next(c, s, a);
    StepKeepsCache(c, s, a);
    StepPuts(c, s, a);
    forall k | 0 <= k < |s'.puts| ensures PutOk(c, s', s'.puts[k]) {
      if k < |s.puts| {
        assert PutOk(c, s, s.puts[k]);
        assert s'.puts[k] == s.puts[k];
      }
    }
    forall j | 0 <= j < |s'.calls| ensures ValueOk(c, s'.calls[j]) && HitOk(c, s', s'.calls[j]) {
      StepKeepsValues(c, s, a, j);
    }
  }

  lemma {:induction false} CoherentOverSchedules(c: Config, s: State, actions: seq<Action>)
    requires Coherent(c, s) && Legal(c, s, actions)
    ensures Coherent(c, Run(c, s, actions))
    decreases |actions|
  {
    if actions != [] {
      StepKeepsCoherent(c, s, actions[0]);
      CoherentOverSchedules(c, Next(c, s, actions[0]), actions[1..]);
    }
  }

  /** A lookup that hits takes the value last put under its key; one that misses found none, or null. */
  lemma {:induction false} LookUpReadsLastPut(c: Config, s: State, i: nat)
    requires CacheIsLastPut(s) && Enabled(c, s, LookUp(i))
    ensures var last := LastPut(s.puts, KeyOf(c, s.calls[i].req));
            Next(c, s, LookUp(i)).calls[i].pc ==
              if last.Some? && !last.value.JsonNull? then RecordingHit(last.value) else Waiting
  {
  }

  ghost predicate Injective(f: string -> string) {
    forall x, y :: f(x) == f(y) ==> x == y
  }

  /** Whether a put for r leaves what a lookup for r' finds as it was. */
  predicate PutSpares(c: Config, store: map<CacheKey, Parsed>, r: Request, v: Parsed, r': Request) {
    var key, store' := KeyOf(c, r'), store[KeyOf(c, r) := v];
    (key in store' <==> key in store) && (key in store ==> store'[key] == store[key])
  }

  /** A put never changes what any other request finds if and only if the hash is injective. */
  lemma {:induction false} PutsAreSeparateIff(c: Config)
    ensures Injective(c.sha) <==>
            forall store, r, v, r' :: r != r' ==> PutSpares(c, store, r, v, r')
  {
    if !Injective(c.sha) {
      var x, y :| c.sha(x) == c.sha(y) && x != y;
      assert !PutSpares(c, map[], Request("", "", x, ""), JsonNull, Request("", "", y, ""));
    }
  }

  /** The value answers exactly this request: some call of the same request was audited as ok,
      its response parses to the value, and the budget accepted its cost. */
  ghost predicate Justified(c: Config, s: State, req: Request, value: Parsed) {
    exists i :: 0 <= i < |s.calls| && s.calls[i].req == req
      && c.parse(s.calls[i].raw) == Some(value)
      && s.calls[i].pc.Done? && s.calls[i].pc.outcome.Answered?
      && RowsOf(s.audit, i) == 1 && Recorded(s.calls[i]) == Some((Success, Stored(s.calls[i].cost)))
  }

  lemma {:induction false} PutIsJustified(c: Config, s: State, k: nat, req: Request)
    requires Injective(c.sha) && Coherent(c, s) && AuditOk(s)
    requires k < |s.puts| && s.puts[k].key == KeyOf(c, req)
    ensures Justified(c, s, req, s.puts[k].value)
  {
    assert PutOk(c, s, s.puts[k]);
    var i := s.puts[k].call;
    assert ValueOk(c, s.calls[i]);
    assert c.sha(s.calls[i].req.prompt) == c.sha(req.prompt) && c.sha(s.calls[i].req.payload) == c.sha(req.payload);
    assert s.calls[i].req == req;
  }

  /** In every schedule, racing duplicate misses included, and if the hash is injective: every
      cache entry a request would find, and every value a hit returned, answers exactly that request. */
  lemma {:induction false} CacheIsCoherent(c: Config, actions: seq<Action>)
    requires Legal(c, Initial(c), actions) && Injective(c.sha)
    ensures var s := Run(c, Initial(c), actions);
            && (forall req :: KeyOf(c, req) in s.cache ==> Justified(c, s, req, s.cache[KeyOf(c, req)]))
            && (forall i :: 0 <= i < |s.calls| && s.calls[i].pc.Done? && s.calls[i].pc.outcome.Hit? ==>
                  Justified(c, s, s.calls[i].req, s.calls[i].pc.outcome.value))
  {
    assert Coherent(c, Initial(c)) && Safe(c, Initial(c));
    CoherentOverSchedules(c, Initial(c), actions);
    SafeOverSchedules(c, Initial(c), actions);
    var s := Run(c, Initial(c), actions);
    forall req | KeyOf(c, req) in s.cache ensures Justified(c, s, req, s.cache[KeyOf(c, req)]) {
      assert LastPut(s.puts, KeyOf(c, req)).Some?;
      LastPutWasPut(s.puts, KeyOf(c, req));
      var k :| 0 <= k < |s.puts| && s.puts[k].key == KeyOf(c, req) && s.puts[k].value == LastPut(s.puts, KeyOf(c, req)).value;
      PutIsJustified(c, s, k, req);
    }
    forall i | 0 <= i < |s.calls| && s.calls[i].pc.Done? && s.calls[i].pc.outcome.Hit?
      ensures Justified(c, s, s.calls[i].req, s.calls[i].pc.outcome.value)
    {
      assert HitOk(c, s, s.calls[i]);
      var k :| 0 <= k < |s.puts| && s.puts[k].key == KeyOf(c, s.calls[i].req) && s.puts[k].value == s.calls[i].pc.outcome.value;
      PutIsJustified(c, s, k, s.calls[i].req);
    }
  }
}
