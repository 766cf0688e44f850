/**
 The weight tables in numbers: the class of every detector prefix, and what a finding contributes
 under the default weights.
 */
module WeightTable {
  import opened Models
  import opened Scoring
  import opened Digest

  lemma {:induction false} HeadOf(h: string, rest: string)
    requires ':' !in h
    ensures Head(h) == h && Head(h + ":" + rest) == h
  {
    if h != "" {
      assert (h + ":" + rest)[1..] == h[1..] + ":" + rest;
      HeadOf(h[1..], rest);
    }
  }

  /** The detector is the prefix itself, or the prefix, a colon and more. */
  ghost predicate HasPrefix(d: string, h: string) {
    ':' !in h && (d == h || h + ":" <= d)
  }

  lemma {:induction false} HeadIsPrefix(d: string, h: string)
    requires HasPrefix(d, h)
    ensures Head(d) == h
  {
    if d == h {
      HeadOf(h, "");
    } else {
      HeadOf(h, d[|h| + 1..]);
      assert d == h + ":" + d[|h| + 1..];
    }
  }

  // ----- classes -----

  lemma {:induction false} StaticClasses(d: string, h: string)
    requires HasPrefix(d, h)
    ensures h == "semgrep" ==> DetectorToClass(d) == "static:semgrep"
    ensures h == "codeql" ==> DetectorToClass(d) == "static:codeql"
    ensures h == "secret" ==> DetectorToClass(d) == "static:secret"
    ensures h == "sca" ==> DetectorToClass(d) == "static:sca"
    ensures h == "manifest" ==> DetectorToClass(d) == "static:manifest"
    ensures h == "obfuscation" ==> DetectorToClass(d) == "static:obfuscation"
    ensures h == "reputation" ==> DetectorToClass(d) == "static:reputation"
  {
    HeadIsPrefix(d, h);
    assert "static:" + "semgrep" == "static:semgrep" && "static:" + "codeql" == "static:codeql" && "static:" + "secret" == "static:secret";
    assert "static:" + "sca" == "static:sca" && "static:" + "manifest" == "static:manifest" && "static:" + "obfuscation" == "static:obfuscation" && "static:" + "reputation" == "static:reputation";
  }

  lemma {:induction false} SemanticClasses(d: string, h: string)
    requires HasPrefix(d, h)
    ensures h == "char" ==> DetectorToClass(d) == "semantic:char"
    ensures h == "tpa-rule" ==> DetectorToClass(d) == "semantic:tpa-rule"
    ensures h == "tpa-llm" ==> DetectorToClass(d) == "semantic:tpa-llm"
    ensures h == "shadow" ==> DetectorToClass(d) == "semantic:shadowing"
    ensures h == "llm" ==> DetectorToClass(d) == "semantic:schema-code"
    ensures h == "toxic-flow" ==> DetectorToClass(d) == "semantic:toxic-flow"
    ensures h == "untrusted-content" ==> DetectorToClass(d) == "semantic:untrusted"
  {
    HeadIsPrefix(d, h);
  }

  lemma {:induction false} RuntimeClasses(d: string, h: string)
    requires HasPrefix(d, h)
    ensures h == "version-diff" ==> DetectorToClass(d) == "runtime:version-diff"
    ensures h == "remote" ==> DetectorToClass(d) == "runtime:remote-targeted"
  {
    HeadIsPrefix(d, h);
  }

  lemma {:induction false} SourceClasses(d: string, h: string)
    requires HasPrefix(d, h)
    ensures h == "ns" ==> DetectorToClass(d) == "runtime:namespace"
    ensures h == "git" ==> DetectorToClass(d) == "runtime:commit-anomaly"
  {
    HeadIsPrefix(d, h);
  }

  lemma {:induction false} NetworkClasses(d: string, h: string)
    requires HasPrefix(d, h)
    ensures h == "dynamic-egress" ==> DetectorToClass(d) == "network:dynamic-egress"
    ensures h == "dynamic-fs" ==> DetectorToClass(d) == "network:dynamic-fs"
  {
    HeadIsPrefix(d, h);
  }

  lemma {:induction false} ProtocolClass(d: string, h: string)
    requires HasPrefix(d, h)
    ensures h == "protocol" ==> DetectorToClass(d) == "network:protocol-anomaly"
  {
    HeadIsPrefix(d, h);
  }

  const PREFIXES: set<string> := {
    "semgrep", "codeql", "secret", "sca", "manifest", "obfuscation", "reputation",
    "char", "tpa-rule", "tpa-llm", "shadow", "llm", "toxic-flow", "untrusted-content",
    "version-diff", "remote", "ns", "git", "dynamic-egress", "dynamic-fs", "protocol"}

  lemma {:induction false} OtherClass(d: string, h: string)
    requires HasPrefix(d, h) && h !in PREFIXES
    ensures DetectorToClass(d) == "unknown"
  {
    HeadIsPrefix(d, h);
  }

  // ----- default weights -----

  lemma {:induction false} StaticWeights()
    ensures var w := DEFAULT_WEIGHTS.detectorClass;
            && w["static:semgrep"] == 1.0 && w["static:codeql"] == 1.2 && w["static:secret"] == 1.5 && w["static:sca"] == 0.8
            && w["static:manifest"] == 1.0 && w["static:reputation"] == 0.6 && w["static:obfuscation"] == 1.2
  {
  }

  lemma {:induction false} SemanticWeights()
    ensures var w := DEFAULT_WEIGHTS.detectorClass;
            && w["semantic:char"] == 1.5 && w["semantic:tpa-rule"] == 1.2 && w["semantic:tpa-llm"] == 1.5 && w["semantic:shadowing"] == 1.0
            && w["semantic:schema-code"] == 2.0 && w["semantic:toxic-flow"] == 1.5 && w["semantic:untrusted"] == 0.8
  {
  }

  lemma {:induction false} RuntimeAndNetworkWeights()
    ensures var w := DEFAULT_WEIGHTS.detectorClass;
            && w["runtime:version-diff"] == 2.0 && w["runtime:remote-targeted"] == 3.0 && w["runtime:namespace"] == 2.0
            && w["runtime:commit-anomaly"] == 1.5 && w["network:dynamic-egress"] == 2.5 && w["network:dynamic-fs"] == 2.0
            && w["network:protocol-anomaly"] == 1.5 && "unknown" !in w
  {
  }

  lemma {:induction false} SeverityPoints(s: Severity)
    ensures DEFAULT_WEIGHTS.version == "default-1"
    ensures SeverityWeight(DEFAULT_WEIGHTS, s) == match s case Critical => 10.0 case High => 5.0 case Medium => 2.0 case Low => 0.5 case Info => 0.1
  {
  }

  lemma {:induction false} StaticFactor(d: string, h: string)
    requires HasPrefix(d, h)
    ensures h == "semgrep" ==> ClassWeight(DEFAULT_WEIGHTS, d) == 1.0
    ensures h == "codeql" ==> ClassWeight(DEFAULT_WEIGHTS, d) == 1.2
    ensures h == "secret" ==> ClassWeight(DEFAULT_WEIGHTS, d) == 1.5
    ensures h == "sca" ==> ClassWeight(DEFAULT_WEIGHTS, d) == 0.8
    ensures h == "manifest" ==> ClassWeight(DEFAULT_WEIGHTS, d) == 1.0
    ensures h == "reputation" ==> ClassWeight(DEFAULT_WEIGHTS, d) == 0.6
    ensures h == "obfuscation" ==> ClassWeight(DEFAULT_WEIGHTS, d) == 1.2
  {
    StaticClasses(d, h);
    StaticWeights();
  }

  lemma {:induction false} SemanticFactor(d: string, h: string)
    requires HasPrefix(d, h)
    ensures h in {"char", "tpa-llm", "toxic-flow"} ==> ClassWeight(DEFAULT_WEIGHTS, d) == 1.5
    ensures h == "tpa-rule" ==> ClassWeight(DEFAULT_WEIGHTS, d) == 1.2
    ensures h == "shadow" ==> ClassWeight(DEFAULT_WEIGHTS, d) == 1.0
    ensures h == "llm" ==> ClassWeight(DEFAULT_WEIGHTS, d) == 2.0
    ensures h == "untrusted-content" ==> ClassWeight(DEFAULT_WEIGHTS, d) == 0.8
  {
    SemanticClasses(d, h);
    SemanticWeights();
  }

  lemma {:induction false} RuntimeAndNetworkFactor(d: string, h: string)
    requires HasPrefix(d, h)
    ensures h in {"version-diff", "ns", "dynamic-fs"} ==> ClassWeight(DEFAULT_WEIGHTS, d) == 2.0
    ensures h == "remote" ==> ClassWeight(DEFAULT_WEIGHTS, d) == 3.0
    ensures h in {"git", "protocol"} ==> ClassWeight(DEFAULT_WEIGHTS, d) == 1.5
    ensures h == "dynamic-egress" ==> ClassWeight(DEFAULT_WEIGHTS, d) == 2.5
    ensures h !in PREFIXES ==> ClassWeight(DEFAULT_WEIGHTS, d) == 1.0
  {
    RuntimeClasses(d, h);
    SourceClasses(d, h);
    NetworkClasses(d, h);
    ProtocolClass(d, h);
    if h !in PREFIXES {
      OtherClass(d, h);
    }
    RuntimeAndNetworkWeights();
  }

  /** The default factor of a detector with prefix h. */
  lemma {:induction false} DefaultFactor(d: string, h: string)
    requires HasPrefix(d, h)
    ensures ClassWeight(DEFAULT_WEIGHTS, d) ==
            if h == "remote" then 3.0
            else if h == "dynamic-egress" then 2.5
            else if h in {"llm", "version-diff", "ns", "dynamic-fs"} then 2.0
            else if h in {"secret", "char", "tpa-llm", "toxic-flow", "git", "protocol"} then 1.5
            else if h in {"codeql", "obfuscation", "tpa-rule"} then 1.2
            else if h in {"sca", "untrusted-content"} then 0.8
            else if h == "reputation" then 0.6
            else 1.0
  {
    StaticFactor(d, h);
    SemanticFactor(d, h);
    RuntimeAndNetworkFactor(d, h);
  }
}
