/**
 Server-level scoring: contributions, cross-detector boosts, the final score,
 the server priority, and the five-finding digest the triage router reads.
 */
module Scoring {
  import opened Models

  /** What the aggregator reads of an active finding. */
  datatype Hit = Hit(id: nat, detector: string, severity: Severity, confidence: real)

  datatype Weights = Weights(severity: map<Severity, real>, detectorClass: map<string, real>, version: string)

  datatype BoostRule = BoostRule(name: string, require: seq<string -> bool>, boost: real)

  datatype Priority = P0 | P1 | P2 | P3

  // ----- weights -----

  /** The part of a detector name before its first colon. */
  function Head(detector: string): (h: string)
    ensures ':' !in h && h <= detector
    ensures h < detector ==> detector[|h|] == ':'
  {
    if detector == "" || detector[0] == ':' then "" else [detector[0]] + Head(detector[1..])
  }

  function DetectorToClass(detector: string): string {
    var head := Head(detector);
    if head in {"semgrep", "codeql", "secret", "sca", "manifest", "obfuscation", "reputation"} then "static:" + head
    else if head == "char" then "semantic:char"
    else if head == "tpa-rule" then "semantic:tpa-rule"
    else if head == "tpa-llm" then "semantic:tpa-llm"
    else if head == "shadow" then "semantic:shadowing"
    else if head == "llm" then "semantic:schema-code"
    else if head == "toxic-flow" then "semantic:toxic-flow"
    else if head == "untrusted-content" then "semantic:untrusted"
    else if head == "version-diff" then "runtime:version-diff"
    else if head == "remote" then "runtime:remote-targeted"
    else if head == "ns" then "runtime:namespace"
    else if head == "git" then "runtime:commit-anomaly"
    else if head == "dynamic-egress" then "network:dynamic-egress"
    else if head == "dynamic-fs" then "network:dynamic-fs"
    else if head == "protocol" then "network:protocol-anomaly"
    else "unknown"
  }

  function SeverityWeight(w: Weights, s: Severity): real {
    if s in w.severity then w.severity[s] else 0.0
  }

  function ClassWeight(w: Weights, detector: string): real {
    var cls := DetectorToClass(detector);
    if cls in w.detectorClass then w.detectorClass[cls] else 1.0
  }

  function Contribution(w: Weights, h: Hit): real {
    SeverityWeight(w, h.severity) * ClassWeight(w, h.detector) * h.confidence
  }

  /** No negative weight or boost. */
  ghost predicate NonNegative(w: Weights, rules: seq<BoostRule>) {
    && (forall s :: s in w.severity ==> w.severity[s] >= 0.0)
    && (forall c :: c in w.detectorClass ==> w.detectorClass[c] >= 0.0)
    && (forall i :: 0 <= i < |rules| ==> rules[i].boost >= 0.0)
  }

  ghost predicate Confident(hs: seq<Hit>) {
    forall h :: h in hs ==> h.confidence >= 0.0
  }

  // ----- score -----

  function Base(w: Weights, hs: seq<Hit>): real {
    if hs == [] then 0.0 else Contribution(w, hs[0]) + Base(w, hs[1..])
  }

  predicate Met(p: string -> bool, hs: seq<Hit>) {
    exists i :: 0 <= i < |hs| && p(hs[i].detector)
  }

  /** All of the rule's predicates are met, each by some finding. */
  predicate Triggered(rule: BoostRule, hs: seq<Hit>) {
    forall k :: 0 <= k < |rule.require| ==> Met(rule.require[k], hs)
  }

  function Boost(rules: seq<BoostRule>, hs: seq<Hit>): real {
    if rules == [] then 0.0
    else (if Triggered(rules[0], hs) then rules[0].boost else 0.0) + Boost(rules[1..], hs)
  }

  function TriggeredNames(rules: seq<BoostRule>, hs: seq<Hit>): seq<string> {
    if rules == [] then []
    else (if Triggered(rules[0], hs) then [rules[0].name] else []) + TriggeredNames(rules[1..], hs)
  }

  function Min(a: real, b: real): real { if b < a then b else a }

  function Scale(base: real, boost: real, pop: real): real {
    Min(100.0, base * (1.0 + boost) * (1.0 + pop))
  }

  function Score(w: Weights, rules: seq<BoostRule>, hs: seq<Hit>, pop: real): real {
    Scale(Base(w, hs), Boost(rules, hs), pop)
  }

  // ----- server priority -----

  predicate CriticalHighConf(h: Hit) { h.severity.Critical? && h.confidence >= 0.9 }

  predicate HasCriticalHighConf(hs: seq<Hit>) { exists i :: 0 <= i < |hs| && CriticalHighConf(hs[i]) }

  predicate HasSeverity(hs: seq<Hit>, s: Severity) { exists i :: 0 <= i < |hs| && hs[i].severity == s }

  function Detectors(hs: seq<Hit>): set<string> { set i | 0 <= i < |hs| :: hs[i].detector }

  function ServerPriority(hs: seq<Hit>): Priority {
    if HasCriticalHighConf(hs) then P0
    else if |Detectors(hs)| >= 3 && HasSeverity(hs, High) then P0
    else if HasSeverity(hs, High) then P1
    else if HasSeverity(hs, Medium) then P2
    else P3
  }

  function Urgency(p: Priority): (u: nat)
    ensures u <= 3 && (u == 3 <==> p == P0) && (u >= 2 <==> p == P0 || p == P1) && (u == 0 <==> p == P3)
  {
    match p case P0 => 3 case P1 => 2 case P2 => 1 case P3 => 0
  }

  // ----- what triggers a rule, and what it adds -----

  /** A rule one of whose predicates holds of no finding's detector can be taken out of the list: it
      adds neither boost nor name. */
  lemma {:induction false} UnmetRuleAddsNothing(rules: seq<BoostRule>, i: nat, hs: seq<Hit>)
    requires i < |rules|
    requires exists k :: 0 <= k < |rules[i].require| && forall j :: 0 <= j < |hs| ==> !rules[i].require[k](hs[j].detector)
    ensures Boost(rules, hs) == Boost(rules[..i] + rules[i + 1..], hs)
    ensures TriggeredNames(rules, hs) == TriggeredNames(rules[..i] + rules[i + 1..], hs)
  {
    var k :| 0 <= k < |rules[i].require| && forall j :: 0 <= j < |hs| ==> !rules[i].require[k](hs[j].detector);
    assert !Met(rules[i].require[k], hs);
    BoostAt(rules, i, hs);
    NamesAt(rules, i, hs);
  }

  /** A rule each of whose predicates holds of some finding's detector adds exactly its boost, and its
      name at its place. */
  lemma {:induction false} MetRuleAddsItself(rules: seq<BoostRule>, i: nat, hs: seq<Hit>)
    requires i < |rules|
    requires forall k :: 0 <= k < |rules[i].require| ==> exists j :: 0 <= j < |hs| && rules[i].require[k](hs[j].detector)
    ensures Boost(rules, hs) == Boost(rules[..i] + rules[i + 1..], hs) + rules[i].boost
    ensures TriggeredNames(rules, hs) == TriggeredNames(rules[..i], hs) + [rules[i].name] + TriggeredNames(rules[i + 1..], hs)
  {
    forall k | 0 <= k < |rules[i].require| ensures Met(rules[i].require[k], hs) {
    }
    BoostAt(rules, i, hs);
    NamesAt(rules, i, hs);
  }

  lemma {:induction false} NoRulesNoBoost(hs: seq<Hit>)
    ensures Boost([], hs) == 0.0 && TriggeredNames([], hs) == []
  {
  }

  lemma {:induction false} BoostAt(rules: seq<BoostRule>, i: nat, hs: seq<Hit>)
    requires i < |rules|
    ensures Boost(rules, hs) ==
            Boost(rules[..i] + rules[i + 1..], hs) + if Triggered(rules[i], hs) then rules[i].boost else 0.0
  {
    assert rules == rules[..i] + rules[i..] && rules[i..][1..] == rules[i + 1..];
    BoostConcat(rules[..i], rules[i..], hs);
    BoostConcat(rules[..i], rules[i + 1..], hs);
  }

  lemma {:induction false} NamesAt(rules: seq<BoostRule>, i: nat, hs: seq<Hit>)
    requires i < |rules|
    ensures TriggeredNames(rules, hs) ==
            TriggeredNames(rules[..i], hs) + (if Triggered(rules[i], hs) then [rules[i].name] else []) + TriggeredNames(rules[i + 1..], hs)
    ensures TriggeredNames(rules[..i] + rules[i + 1..], hs) == TriggeredNames(rules[..i], hs) + TriggeredNames(rules[i + 1..], hs)
  {
    assert rules == rules[..i] + rules[i..] && rules[i..][1..] == rules[i + 1..];
    NamesConcat(rules[..i], rules[i..], hs);
    NamesConcat(rules[..i], rules[i + 1..], hs);
  }

  lemma {:induction false} BoostConcat(a: seq<BoostRule>, b: seq<BoostRule>, hs: seq<Hit>)
    ensures Boost(a + b, hs) == Boost(a, hs) + Boost(b, hs)
  {
    if a == [] {
      assert a + b == b;
    } else {
      assert (a + b)[1..] == a[1..] + b;
      BoostConcat(a[1..], b, hs);
    }
  }

  lemma {:induction false} NamesConcat(a: seq<BoostRule>, b: seq<BoostRule>, hs: seq<Hit>)
    ensures TriggeredNames(a + b, hs) == TriggeredNames(a, hs) + TriggeredNames(b, hs)
  {
    if a == [] {
      assert a + b == b;
    } else {
      assert (a + b)[1..] == a[1..] + b;
      NamesConcat(a[1..], b, hs);
    }
  }

  // ----- the default rules -----

  function DetectorEq(name: string): string -> bool {
    d => d == name
  }

  function StartsWith(prefix: string): string -> bool {
    d => prefix <= d
  }

  /** A match of `version-diff:.*bcc.*` at the beginning: the dot matches no newline. */
  function VersionDiffBcc(): string -> bool {
    d => "version-diff:" <= d && exists k: nat :: 13 <= k && k + 3 <= |d| && '\n' !in d[13..k] && d[k..k + 3] == "bcc"
  }

  function DefaultRules(): seq<BoostRule> {
    [BoostRule("schema_code_corroborates_egress",
               [DetectorEq("llm:schema-code-inconsistency"), DetectorEq("dynamic-egress:undeclared-domain")], 0.3),
     BoostRule("postmark-style", [VersionDiffBcc(), DetectorEq("dynamic-egress:undeclared-domain")], 0.5),
     BoostRule("text-rule-corroborates-llm", [StartsWith("tpa-rule:tool-poisoning-"), DetectorEq("tpa-llm")], 0.2)]
  }

  /** Under the default rules a boost is given only for pairs of detectors that both fired: 0.3, 0.5
      and 0.2, added up. */
  lemma {:induction false} DefaultBoost(hs: seq<Hit>)
    ensures var egress := exists j :: 0 <= j < |hs| && hs[j].detector == "dynamic-egress:undeclared-domain";
            var schema := exists j :: 0 <= j < |hs| && hs[j].detector == "llm:schema-code-inconsistency";
            var bcc := exists j :: 0 <= j < |hs| && VersionDiffBcc()(hs[j].detector);
            var poisoning := exists j :: 0 <= j < |hs| && "tpa-rule:tool-poisoning-" <= hs[j].detector;
            var llm := exists j :: 0 <= j < |hs| && hs[j].detector == "tpa-llm";
            Boost(DefaultRules(), hs) ==
              (if schema && egress then 0.3 else 0.0) + (if bcc && egress then 0.5 else 0.0) + (if poisoning && llm then 0.2 else 0.0)
  {
    var rules := DefaultRules();
    PairTriggers(rules[0], hs);
    PairTriggers(rules[1], hs);
    PairTriggers(rules[2], hs);
    BoostOfThree(rules, hs);
  }

  /** And under these names, in this order. */
  lemma {:induction false} DefaultNames(hs: seq<Hit>)
    ensures var egress := exists j :: 0 <= j < |hs| && hs[j].detector == "dynamic-egress:undeclared-domain";
            var schema := exists j :: 0 <= j < |hs| && hs[j].detector == "llm:schema-code-inconsistency";
            var bcc := exists j :: 0 <= j < |hs| && VersionDiffBcc()(hs[j].detector);
            var poisoning := exists j :: 0 <= j < |hs| && "tpa-rule:tool-poisoning-" <= hs[j].detector;
            var llm := exists j :: 0 <= j < |hs| && hs[j].detector == "tpa-llm";
            TriggeredNames(DefaultRules(), hs) ==
              (if schema && egress then ["schema_code_corroborates_egress"] else [])
              + (if bcc && egress then ["postmark-style"] else [])
              + (if poisoning && llm then ["text-rule-corroborates-llm"] else [])
  {
    var rules := DefaultRules();
    PairTriggers(rules[0], hs);
    PairTriggers(rules[1], hs);
    PairTriggers(rules[2], hs);
    NamesOfThree(rules, hs);
  }

  /** The prefix, some text on the same line, and "bcc". */
  lemma {:induction false} VersionDiffBccIff(d: string)
    ensures VersionDiffBcc()(d) <==> exists text: string :: '\n' !in text && "version-diff:" + text + "bcc" <= d
  {
    if VersionDiffBcc()(d) {
      var k: nat :| 13 <= k && k + 3 <= |d| && '\n' !in d[13..k] && d[k..k + 3] == "bcc";
      var text := d[13..k];
      assert d[..13] == "version-diff:";
      assert d[..k + 3] == d[..13] + text + d[k..k + 3];
    }
    if text: string :| '\n' !in text && "version-diff:" + text + "bcc" <= d {
      var k := 13 + |text|;
      assert d[..k + 3] == "version-diff:" + text + "bcc";
      assert d[13..k] == d[..k + 3][13..k] == text && d[k..k + 3] == d[..k + 3][k..] == "bcc";
      assert "version-diff:" <= d;
    }
  }

  lemma {:induction false} PairTriggers(rule: BoostRule, hs: seq<Hit>)
    requires |rule.require| == 2
    ensures Triggered(rule, hs) <==>
            (exists j :: 0 <= j < |hs| && rule.require[0](hs[j].detector)) && (exists j :: 0 <= j < |hs| && rule.require[1](hs[j].detector))
  {
    assert Triggered(rule, hs) <==> Met(rule.require[0], hs) && Met(rule.require[1], hs);
  }

  lemma {:induction false} BoostOfThree(rules: seq<BoostRule>, hs: seq<Hit>)
    requires |rules| == 3
    ensures Boost(rules, hs) == (if Triggered(rules[0], hs) then rules[0].boost else 0.0)
                                + (if Triggered(rules[1], hs) then rules[1].boost else 0.0)
                                + (if Triggered(rules[2], hs) then rules[2].boost else 0.0)
  {
    assert rules[1..][1..] == rules[2..] && rules[2..][1..] == [];
    assert Boost(rules[2..], hs) == if Triggered(rules[2], hs) then rules[2].boost else 0.0;
  }

  lemma {:induction false} NamesOfThree(rules: seq<BoostRule>, hs: seq<Hit>)
    requires |rules| == 3
    ensures TriggeredNames(rules, hs) == (if Triggered(rules[0], hs) then [rules[0].name] else [])
                                         + (if Triggered(rules[1], hs) then [rules[1].name] else [])
                                         + (if Triggered(rules[2], hs) then [rules[2].name] else [])
  {
    assert rules[1..][1..] == rules[2..] && rules[2..][1..] == [];
    assert TriggeredNames(rules[2..], hs) == if Triggered(rules[2], hs) then [rules[2].name] else [];
  }

  /** With one detector only, the default rules give nothing. */
  lemma {:induction false} OneDetectorNoBoost(hs: seq<Hit>, d: string)
    requires forall j :: 0 <= j < |hs| ==> hs[j].detector == d
    ensures Boost(DefaultRules(), hs) == 0.0
  {
    DefaultBoost(hs);
    PairsDiffer(d);
  }

  lemma {:induction false} PairsDiffer(d: string)
    ensures d == "dynamic-egress:undeclared-domain" ==> d != "llm:schema-code-inconsistency" && !VersionDiffBcc()(d)
    ensures d == "tpa-llm" ==> !("tpa-rule:tool-poisoning-" <= d)
  {
    if d == "dynamic-egress:undeclared-domain" {
      DifferentStart(d, "llm:schema-code-inconsistency", 0);
      DifferentStart(d, "version-diff:", 0);
    } else if d == "tpa-llm" {
      DifferentStart(d, "tpa-rule:tool-poisoning-", 4);
    }
  }

  lemma {:induction false} DifferentStart(d: string, prefix: string, k: nat)
    requires k < |d| && k < |prefix| && d[k] != prefix[k]
    ensures !(prefix <= d)
  {
    assert prefix <= d ==> d[k] == prefix[k];
  }

  // ----- the priority, finding by finding -----

  lemma {:induction false} ThreeDetectorsIff(hs: seq<Hit>)
    ensures |Detectors(hs)| >= 3 <==>
            exists i, j, k :: 0 <= i < |hs| && 0 <= j < |hs| && 0 <= k < |hs|
              && hs[i].detector != hs[j].detector && hs[i].detector != hs[k].detector && hs[j].detector != hs[k].detector
  {
    if |Detectors(hs)| >= 3 {
      var i, j, k := ThreeFindings(hs);
    }
    if i, j, k :| 0 <= i < |hs| && 0 <= j < |hs| && 0 <= k < |hs|
                  && hs[i].detector != hs[j].detector && hs[i].detector != hs[k].detector && hs[j].detector != hs[k].detector {
      ThreeIn(Detectors(hs), hs[i].detector, hs[j].detector, hs[k].detector);
    }
  }

  lemma {:induction false} ThreeFindings(hs: seq<Hit>) returns (i: nat, j: nat, k: nat)
    requires |Detectors(hs)| >= 3
    ensures i < |hs| && j < |hs| && k < |hs|
    ensures hs[i].detector != hs[j].detector && hs[i].detector != hs[k].detector && hs[j].detector != hs[k].detector
  {
    var a, b, c := ThreeOf(Detectors(hs));
    i :| 0 <= i < |hs| && hs[i].detector == a;
    j :| 0 <= j < |hs| && hs[j].detector == b;
    k :| 0 <= k < |hs| && hs[k].detector == c;
  }

  lemma {:induction false} ThreeOf(ds: set<string>) returns (a: string, b: string, c: string)
    requires |ds| >= 3
    ensures a in ds && b in ds && c in ds && a != b && a != c && b != c
  {
    a :| a in ds;
    assert |ds - {a}| == |ds| - 1;
    b :| b in ds - {a};
    assert |ds - {a} - {b}| == |ds| - 2;
    c :| c in ds - {a} - {b};
  }

  lemma {:induction false} ThreeIn(ds: set<string>, a: string, b: string, c: string)
    requires a in ds && b in ds && c in ds && a != b && a != c && b != c
    ensures |ds| >= 3
  {
    assert |{a, b, c}| == 3;
    SubsetCardinality({a, b, c}, ds);
  }

  /** A critical finding of confidence 0.9 or more, or a high finding among three detectors. */
  ghost predicate WorthP0(hs: seq<Hit>) {
    || (exists i :: 0 <= i < |hs| && hs[i].severity == Critical && hs[i].confidence >= 0.9)
    || ((exists i :: 0 <= i < |hs| && hs[i].severity == High)
        && exists i, j, k :: 0 <= i < |hs| && 0 <= j < |hs| && 0 <= k < |hs|
             && hs[i].detector != hs[j].detector && hs[i].detector != hs[k].detector && hs[j].detector != hs[k].detector)
  }

  /** The server's priority: P0 as above; else P1 for a high finding, else P2 for a medium one, else P3. */
  lemma {:induction false} ServerPriorityIff(hs: seq<Hit>)
    ensures ServerPriority(hs) == P0 <==> WorthP0(hs)
    ensures ServerPriority(hs) == P1 <==> !WorthP0(hs) && exists i :: 0 <= i < |hs| && hs[i].severity == High
    ensures ServerPriority(hs) == P2 <==>
            && !WorthP0(hs) && (forall i :: 0 <= i < |hs| ==> hs[i].severity != High)
            && exists i :: 0 <= i < |hs| && hs[i].severity == Medium
  {
    ThreeDetectorsIff(hs);
  }

  // ----- the score's arithmetic -----

  /** A finding counts for its severity's weight, times its class's, times its confidence; a severity
      without a weight counts nothing, a class without one counts as 1. */
  lemma {:induction false} ContributionIs(w: Weights, h: Hit)
    ensures var cls := DetectorToClass(h.detector);
            Contribution(w, h) == (if h.severity in w.severity then w.severity[h.severity] else 0.0)
                                  * (if cls in w.detectorClass then w.detectorClass[cls] else 1.0) * h.confidence
  {
  }

  /** The product of base, boost factor and popularity factor, capped at 100. */
  lemma {:induction false} ScoreIs(w: Weights, rules: seq<BoostRule>, hs: seq<Hit>, pop: real, base: real, boost: real)
    requires base == Base(w, hs) && boost == Boost(rules, hs)
    ensures var product := base * (1.0 + boost) * (1.0 + pop);
            Score(w, rules, hs, pop) == if product > 100.0 then 100.0 else product
  {
    ScaleIs(base, boost, pop, base * (1.0 + boost) * (1.0 + pop));
  }

  lemma {:induction false} ScaleIs(base: real, boost: real, pop: real, product: real)
    requires product == base * (1.0 + boost) * (1.0 + pop)
    ensures Scale(base, boost, pop) == if product > 100.0 then 100.0 else product
  {
    assert Scale(base, boost, pop) == Min(100.0, product);
  }

  // ----- score laws -----

  lemma {:induction false} MulMonotone(a: real, b: real, c: real, d: real)
    requires 0.0 <= a <= b && 0.0 <= c <= d
    ensures 0.0 <= a * c <= b * d
  {
    assert a * c <= b * c;
    assert b * c <= b * d;
  }

  lemma {:induction false} ContributionNonNegative(w: Weights, rules: seq<BoostRule>, h: Hit)
    requires NonNegative(w, rules) && h.confidence >= 0.0
    ensures Contribution(w, h) >= 0.0
  {
    var s, c := SeverityWeight(w, h.severity), ClassWeight(w, h.detector);
    assert s * c >= 0.0;
    assert s * c * h.confidence >= 0.0;
  }

  lemma {:induction false} BaseNonNegative(w: Weights, rules: seq<BoostRule>, hs: seq<Hit>)
    requires NonNegative(w, rules) && Confident(hs)
    ensures Base(w, hs) >= 0.0
  {
    if hs != [] {
      ContributionNonNegative(w, rules, hs[0]);
      BaseNonNegative(w, rules, hs[1..]);
    }
  }

  /** Any one finding may be taken out first. */
  lemma {:induction false} BaseWithout(w: Weights, hs: seq<Hit>, i: nat)
    requires i < |hs|
    ensures Base(w, hs) == Contribution(w, hs[i]) + Base(w, hs[..i] + hs[i + 1..])
  {
    if i == 0 {
      assert hs[..0] + hs[1..] == hs[1..];
    } else {
      BaseWithout(w, hs[1..], i - 1);
      assert hs[1..][..i - 1] + hs[1..][i..] == (hs[..i] + hs[i + 1..])[1..];
    }
  }

  lemma {:induction false} TakeOut(hs: seq<Hit>, i: nat)
    requires i < |hs|
    ensures multiset(hs[..i] + hs[i + 1..]) == multiset(hs) - multiset{hs[i]}
    ensures forall h :: h in hs[..i] + hs[i + 1..] ==> h in hs
  {
    assert hs == hs[..i] + [hs[i]] + hs[i + 1..];
  }

  lemma {:induction false} HeadTakenOut(hs: seq<Hit>, more: seq<Hit>, i: nat)
    requires hs != [] && i < |more| && more[i] == hs[0]
    ensures multiset(hs) <= multiset(more) ==> multiset(hs[1..]) <= multiset(more[..i] + more[i + 1..])
    ensures multiset(hs) == multiset(more) ==> multiset(hs[1..]) == multiset(more[..i] + more[i + 1..])
  {
    TakeOut(hs, 0);
    assert hs[..0] + hs[1..] == hs[1..];
    TakeOut(more, i);
    OneLess(multiset(hs), multiset(more), hs[0], multiset(hs[1..]), multiset(more[..i] + more[i + 1..]));
  }

  lemma {:induction false} OneLess(a: multiset<Hit>, b: multiset<Hit>, h: Hit, a': multiset<Hit>, b': multiset<Hit>)
    requires a' == a - multiset{h} && b' == b - multiset{h}
    ensures a <= b ==> a' <= b'
    ensures a == b ==> a' == b'
  {
  }

  /** The first finding of hs has a partner in `more`; both can be taken out. */
  lemma {:induction false} MatchHead(hs: seq<Hit>, more: seq<Hit>) returns (i: nat, rest: seq<Hit>)
    requires hs != [] && multiset(hs) <= multiset(more)
    ensures i < |more| && more[i] == hs[0] && rest == more[..i] + more[i + 1..]
    ensures multiset(hs[1..]) <= multiset(rest)
    ensures multiset(hs) == multiset(more) ==> multiset(hs[1..]) == multiset(rest)
    ensures forall h :: h in rest ==> h in more
  {
    assert hs[0] in multiset(hs);
    assert hs[0] in multiset(more);
    i :| 0 <= i < |more| && more[i] == hs[0];
    rest := more[..i] + more[i + 1..];
    HeadTakenOut(hs, more, i);
  }

  lemma {:induction false} BasePermutation(w: Weights, hs: seq<Hit>, hs': seq<Hit>)
    requires multiset(hs) == multiset(hs')
    ensures Base(w, hs) == Base(w, hs')
    decreases |hs|
  {
    if hs == [] {
      assert |multiset(hs')| == 0;
    } else {
      var i, rest := MatchHead(hs, hs');
      BasePermutation(w, hs[1..], rest);
      BaseWithout(w, hs', i);
    }
  }

  lemma {:induction false} BaseMonotone(w: Weights, rules: seq<BoostRule>, hs: seq<Hit>, more: seq<Hit>)
    requires NonNegative(w, rules) && Confident(more)
    requires multiset(hs) <= multiset(more)
    ensures 0.0 <= Base(w, hs) <= Base(w, more)
    decreases |hs|
  {
    if hs == [] {
      BaseNonNegative(w, rules, more);
    } else {
      var i, rest := MatchHead(hs, more);
      BaseMonotone(w, rules, hs[1..], rest);
      BaseWithout(w, more, i);
      ContributionNonNegative(w, rules, hs[0]);
    }
  }

  /** Same detector, severity and confidence. */
  predicate Alike(h: Hit, h': Hit) {
    h.(id := h'.id) == h'
  }

  ghost predicate Represented(h: Hit, more: seq<Hit>) {
    exists j :: 0 <= j < |more| && Alike(more[j], h)
  }

  ghost predicate Covers(more: seq<Hit>, hs: seq<Hit>) {
    forall i :: 0 <= i < |hs| ==> Represented(hs[i], more)
  }

  lemma {:induction false} SubMultisetCovers(hs: seq<Hit>, more: seq<Hit>)
    requires multiset(hs) <= multiset(more)
    ensures Covers(more, hs)
  {
    forall i | 0 <= i < |hs| ensures Represented(hs[i], more) {
      assert hs[i] in multiset(hs);
      assert hs[i] in multiset(more);
      var j :| 0 <= j < |more| && more[j] == hs[i];
      assert Alike(more[j], hs[i]);
    }
  }

  lemma {:induction false} TriggeredCovered(rule: BoostRule, hs: seq<Hit>, more: seq<Hit>)
    requires Covers(more, hs) && Triggered(rule, hs)
    ensures Triggered(rule, more)
  {
    forall k | 0 <= k < |rule.require| ensures Met(rule.require[k], more) {
      assert Met(rule.require[k], hs);
      var i :| 0 <= i < |hs| && rule.require[k](hs[i].detector);
      var j :| 0 <= j < |more| && Alike(more[j], hs[i]);
      assert rule.require[k](more[j].detector);
    }
  }

  lemma {:induction false} BoostMonotone(w: Weights, rules: seq<BoostRule>, hs: seq<Hit>, more: seq<Hit>)
    requires NonNegative(w, rules) && Covers(more, hs)
    ensures 0.0 <= Boost(rules, hs) <= Boost(rules, more)
    decreases |rules|
  {
    if rules != [] {
      BoostMonotone(w, rules[1..], hs, more);
      if Triggered(rules[0], hs) {
        TriggeredCovered(rules[0], hs, more);
      }
    }
  }

  lemma {:induction false} SubsetCardinality<T>(a: set<T>, b: set<T>)
    requires a <= b
    ensures |a| <= |b|
  {
    if a != {} {
      var x :| x in a;
      SubsetCardinality(a - {x}, b - {x});
    }
  }

  lemma {:induction false} UrgencyMonotone(hs: seq<Hit>, more: seq<Hit>)
    requires Covers(more, hs)
    ensures Urgency(ServerPriority(hs)) <= Urgency(ServerPriority(more))
  {
    forall i | 0 <= i < |hs| ensures exists j :: 0 <= j < |more| && Alike(more[j], hs[i]) {
      assert Represented(hs[i], more);
    }
    assert Detectors(hs) <= Detectors(more);
    SubsetCardinality(Detectors(hs), Detectors(more));
  }

  /** With non-negative weights, confidences, boosts and popularity the score is in [0, 100];
      neither it nor the priority's urgency falls when findings are added, so taking findings
      out of the active set never raises either. */
  lemma {:induction false} ScoreLaws(w: Weights, rules: seq<BoostRule>, hs: seq<Hit>, more: seq<Hit>, pop: real)
    requires NonNegative(w, rules) && Confident(more) && pop >= 0.0
    requires multiset(hs) <= multiset(more)
    ensures 0.0 <= Score(w, rules, hs, pop) <= Score(w, rules, more, pop) <= 100.0
    ensures Urgency(ServerPriority(hs)) <= Urgency(ServerPriority(more))
  {
    SubMultisetCovers(hs, more);
    BaseMonotone(w, rules, hs, more);
    BoostMonotone(w, rules, hs, more);
    UrgencyMonotone(hs, more);
    ScaleMonotone(Base(w, hs), Base(w, more), Boost(rules, hs), Boost(rules, more), pop);
  }

  lemma {:induction false} ScaleMonotone(b: real, b': real, x: real, x': real, pop: real)
    requires 0.0 <= b <= b' && 0.0 <= x <= x' && pop >= 0.0
    ensures 0.0 <= Scale(b, x, pop) <= Scale(b', x', pop) <= 100.0
  {
    MulMonotone(b, b', 1.0 + x, 1.0 + x');
    MulMonotone(b * (1.0 + x), b' * (1.0 + x'), 1.0 + pop, 1.0 + pop);
  }

  lemma {:induction false} BoostDependsOnDetectors(rules: seq<BoostRule>, hs: seq<Hit>, hs': seq<Hit>)
    requires Covers(hs, hs') && Covers(hs', hs)
    ensures Boost(rules, hs) == Boost(rules, hs')
    ensures TriggeredNames(rules, hs) == TriggeredNames(rules, hs')
    decreases |rules|
  {
    if rules != [] {
      BoostDependsOnDetectors(rules[1..], hs, hs');
      if Triggered(rules[0], hs) {
        TriggeredCovered(rules[0], hs, hs');
      } else if Triggered(rules[0], hs') {
        TriggeredCovered(rules[0], hs', hs);
      }
    }
  }

  lemma {:induction false} PriorityDependsOnContents(hs: seq<Hit>, hs': seq<Hit>)
    requires Covers(hs, hs') && Covers(hs', hs)
    ensures ServerPriority(hs) == ServerPriority(hs')
  {
    UrgencyMonotone(hs, hs');
    UrgencyMonotone(hs', hs);
  }

  /** The order in which the rows come back does not matter, whatever the weights' signs. */
  lemma {:induction false} OrderDoesNotMatter(w: Weights, rules: seq<BoostRule>, hs: seq<Hit>, hs': seq<Hit>, pop: real)
    requires multiset(hs) == multiset(hs')
    ensures Score(w, rules, hs, pop) == Score(w, rules, hs', pop)
    ensures TriggeredNames(rules, hs) == TriggeredNames(rules, hs')
    ensures ServerPriority(hs) == ServerPriority(hs')
  {
    BasePermutation(w, hs, hs');
    SubMultisetCovers(hs, hs');
    SubMultisetCovers(hs', hs);
    BoostDependsOnDetectors(rules, hs, hs');
    PriorityDependsOnContents(hs, hs');
  }

  // ----- row ids do not matter -----

  ghost predicate SameButIds(hs: seq<Hit>, hs': seq<Hit>) {
    |hs| == |hs'| && forall i :: 0 <= i < |hs| ==> Alike(hs[i], hs'[i])
  }

  lemma {:induction false} AlikeContribute(w: Weights, h: Hit, h': Hit)
    requires Alike(h, h')
    ensures Contribution(w, h) == Contribution(w, h')
  {
  }

  lemma {:induction false} BaseIgnoresIds(w: Weights, hs: seq<Hit>, hs': seq<Hit>)
    requires SameButIds(hs, hs')
    ensures Base(w, hs) == Base(w, hs')
    decreases |hs|
  {
    if hs != [] {
      AlikeContribute(w, hs[0], hs'[0]);
      forall i | 0 <= i < |hs[1..]| ensures Alike(hs[1..][i], hs'[1..][i]) {
        assert Alike(hs[i + 1], hs'[i + 1]);
      }
      BaseIgnoresIds(w, hs[1..], hs'[1..]);
    }
  }

  lemma {:induction false} SameButIdsCovers(hs: seq<Hit>, hs': seq<Hit>)
    requires SameButIds(hs, hs')
    ensures Covers(hs, hs') && Covers(hs', hs)
  {
    forall i | 0 <= i < |hs| ensures Represented(hs[i], hs') && Represented(hs'[i], hs) {
      assert Alike(hs[i], hs'[i]) && Alike(hs'[i], hs[i]);
    }
  }

  lemma {:induction false} IdsDoNotMatter(w: Weights, rules: seq<BoostRule>, hs: seq<Hit>, hs': seq<Hit>, pop: real)
    requires SameButIds(hs, hs')
    ensures Base(w, hs) == Base(w, hs')
    ensures TriggeredNames(rules, hs) == TriggeredNames(rules, hs')
    ensures Score(w, rules, hs, pop) == Score(w, rules, hs', pop)
    ensures ServerPriority(hs) == ServerPriority(hs')
  {
    BaseIgnoresIds(w, hs, hs');
    SameButIdsCovers(hs, hs');
    BoostDependsOnDetectors(rules, hs, hs');
    PriorityDependsOnContents(hs, hs');
  }
}
