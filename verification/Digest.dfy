/**
 The five-finding digest of an aggregation and the priority the triage router
 recomputes from it.
 */
module Digest {
  import opened Models
  import opened Scoring

  const DEFAULT_WEIGHTS := Weights(
    map[Critical := 10.0, High := 5.0, Medium := 2.0, Low := 0.5, Info := 0.1],
    map["static:semgrep" := 1.0, "static:codeql" := 1.2, "static:secret" := 1.5, "static:sca" := 0.8,
        "static:manifest" := 1.0, "static:reputation" := 0.6, "static:obfuscation" := 1.2,
        "semantic:char" := 1.5, "semantic:tpa-rule" := 1.2, "semantic:tpa-llm" := 1.5,
        "semantic:shadowing" := 1.0, "semantic:schema-code" := 2.0, "semantic:toxic-flow" := 1.5,
        "semantic:untrusted" := 0.8, "runtime:version-diff" := 2.0, "runtime:remote-targeted" := 3.0,
        "runtime:namespace" := 2.0, "runtime:commit-anomaly" := 1.5, "network:dynamic-egress" := 2.5,
        "network:dynamic-fs" := 2.0, "network:protocol-anomaly" := 1.5],
    "default-1")

  // ----- the stable descending sort behind the digest -----

  type Rank = Hit -> real

  function Insert(f: Rank, h: Hit, s: seq<Hit>): seq<Hit> {
    if s == [] || f(h) >= f(s[0]) then [h] + s else [s[0]] + Insert(f, h, s[1..])
  }

  function SortDescending(f: Rank, hs: seq<Hit>): seq<Hit> {
    if hs == [] then [] else Insert(f, hs[0], SortDescending(f, hs[1..]))
  }

  function FirstFive(s: seq<Hit>): seq<Hit> {
    if |s| <= 5 then s else s[..5]
  }

  function ByContribution(w: Weights): Rank {
    (h: Hit) => Contribution(w, h)
  }

  function TopFive(w: Weights, hs: seq<Hit>): seq<Hit> {
    FirstFive(SortDescending(ByContribution(w), hs))
  }

  ghost predicate Descending(f: Rank, s: seq<Hit>) {
    forall i, j :: 0 <= i < j < |s| ==> f(s[i]) >= f(s[j])
  }

  /** The findings of rank v, in order. */
  ghost function OfRank(f: Rank, s: seq<Hit>, v: real): seq<Hit> {
    if s == [] then []
    else (if f(s[0]) == v then [s[0]] else []) + OfRank(f, s[1..], v)
  }

  lemma {:induction false} InsertPermutes(f: Rank, h: Hit, s: seq<Hit>)
    ensures multiset(Insert(f, h, s)) == multiset(s) + multiset{h}
  {
    if s != [] {
      assert s == [s[0]] + s[1..];
      InsertPermutes(f, h, s[1..]);
    }
  }

  lemma {:induction false} InsertSorts(f: Rank, h: Hit, s: seq<Hit>)
    requires Descending(f, s)
    ensures Descending(f, Insert(f, h, s))
  {
    if s != [] && f(h) < f(s[0]) {
      InsertSorts(f, h, s[1..]);
      InsertPermutes(f, h, s[1..]);
      var t := Insert(f, h, s[1..]);
      forall i | 0 <= i < |t| ensures f(s[0]) >= f(t[i]) {
        assert t[i] in multiset(t);
        assert t[i] == h || t[i] in s[1..];
      }
    }
  }

  lemma {:induction false} InsertIsStable(f: Rank, h: Hit, s: seq<Hit>, v: real)
    requires Descending(f, s)
    ensures OfRank(f, Insert(f, h, s), v) == (if f(h) == v then [h] else []) + OfRank(f, s, v)
  {
    if s != [] && f(h) < f(s[0]) {
      InsertIsStable(f, h, s[1..], v);
      assert Insert(f, h, s)[1..] == Insert(f, h, s[1..]);
    } else {
      assert Insert(f, h, s)[1..] == s;
    }
    if f(h) == v {
      NoneOfHigherRank(f, s, v);
    }
  }

  lemma {:induction false} NoneOfHigherRank(f: Rank, s: seq<Hit>, v: real)
    ensures (forall i :: 0 <= i < |s| ==> f(s[i]) != v) ==> OfRank(f, s, v) == []
  {
    if s != [] {
      assert forall i :: 0 <= i < |s[1..]| ==> s[1..][i] == s[i + 1];
      NoneOfHigherRank(f, s[1..], v);
    }
  }

  /** Descending, a permutation, and findings of equal rank keep their order. */
  lemma {:induction false} SortIsStable(f: Rank, hs: seq<Hit>, v: real)
    ensures Descending(f, SortDescending(f, hs))
    ensures multiset(SortDescending(f, hs)) == multiset(hs)
    ensures OfRank(f, SortDescending(f, hs), v) == OfRank(f, hs, v)
  {
    SortPermutes(f, hs);
    if hs != [] {
      SortIsStable(f, hs[1..], v);
      InsertSorts(f, hs[0], SortDescending(f, hs[1..]));
      InsertIsStable(f, hs[0], SortDescending(f, hs[1..]), v);
    }
  }

  lemma {:induction false} SortPermutes(f: Rank, hs: seq<Hit>)
    ensures multiset(SortDescending(f, hs)) == multiset(hs)
  {
    if hs != [] {
      SortPermutes(f, hs[1..]);
      InsertPermutes(f, hs[0], SortDescending(f, hs[1..]));
      assert hs == [hs[0]] + hs[1..];
    }
  }

  /** The digest is a descending sub-multiset of min(5, n) findings, none outranked by one left out. */
  ghost predicate IsTop(f: Rank, top: seq<Hit>, hs: seq<Hit>) {
    && |top| == (if |hs| <= 5 then |hs| else 5)
    && Descending(f, top)
    && multiset(top) <= multiset(hs)
    && (forall omitted, t :: omitted in multiset(hs) - multiset(top) && t in top ==> f(omitted) <= f(t))
    && (|hs| <= 5 ==> multiset(top) == multiset(hs))
  }

  lemma {:induction false} PrefixDominates(f: Rank, sorted: seq<Hit>, omitted: Hit, t: Hit)
    requires |sorted| > 5 && Descending(f, sorted)
    requires omitted in sorted[5..] && t in sorted[..5]
    ensures f(omitted) <= f(t)
  {
    var i :| 5 <= i < |sorted| && sorted[i] == omitted;
    var j :| 0 <= j < 5 && sorted[j] == t;
  }

  lemma {:induction false} PrefixSplits(sorted: seq<Hit>)
    requires |sorted| > 5
    ensures multiset(sorted) == multiset(sorted[..5]) + multiset(sorted[5..])
  {
    assert sorted == sorted[..5] + sorted[5..];
  }

  lemma {:induction false} PrefixIsTop(f: Rank, sorted: seq<Hit>, hs: seq<Hit>)
    requires Descending(f, sorted) && multiset(sorted) == multiset(hs)
    ensures IsTop(f, FirstFive(sorted), hs)
  {
    assert |sorted| == |multiset(sorted)| == |multiset(hs)| == |hs|;
    if |sorted| > 5 {
      PrefixSplits(sorted);
      var top, left := sorted[..5], multiset(hs) - multiset(sorted[..5]);
      assert left == multiset(sorted[5..]);
      assert Descending(f, top);
      forall omitted, t | omitted in left && t in top ensures f(omitted) <= f(t) {
        PrefixDominates(f, sorted, omitted, t);
      }
    }
  }

  lemma {:induction false} TopFiveIsTop(w: Weights, hs: seq<Hit>)
    ensures IsTop(ByContribution(w), TopFive(w, hs), hs)
  {
    SortIsStable(ByContribution(w), hs, 0.0);
    PrefixIsTop(ByContribution(w), SortDescending(ByContribution(w), hs), hs);
  }

  /** All findings if they are at most five, else five of them, in descending order of contribution; none
      left out contributes more than one kept. */
  lemma {:induction false} DigestIsTop(w: Weights, hs: seq<Hit>)
    ensures |TopFive(w, hs)| == if |hs| <= 5 then |hs| else 5
    ensures multiset(TopFive(w, hs)) <= multiset(hs)
    ensures forall i, j :: 0 <= i < j < |TopFive(w, hs)| ==> Contribution(w, TopFive(w, hs)[i]) >= Contribution(w, TopFive(w, hs)[j])
    ensures forall omitted, t :: omitted in multiset(hs) - multiset(TopFive(w, hs)) && t in TopFive(w, hs) ==>
              Contribution(w, omitted) <= Contribution(w, t)
  {
    TopFiveIsTop(w, hs);
    RankIsContribution(w, TopFive(w, hs));
  }

  lemma {:induction false} RankIsContribution(w: Weights, top: seq<Hit>)
    ensures forall h :: ByContribution(w)(h) == Contribution(w, h)
    ensures forall i :: 0 <= i < |top| ==> ByContribution(w)(top[i]) == Contribution(w, top[i])
  {
  }

  // ----- the router's priority -----

  function RoutePriority(top: seq<Hit>, score: real): Priority {
    if HasCriticalHighConf(top) then P0
    else if |Detectors(top)| >= 3 && HasSeverity(top, High) then P0
    else if HasSeverity(top, High) || score >= 30.0 then P1
    else if HasSeverity(top, Medium) then P2
    else P3
  }

  /** P0 for the same reasons as the server's own priority, but over the digest; else P1 for a high finding
      in it or a score of 30 or more. */
  lemma {:induction false} RoutePriorityIff(top: seq<Hit>, score: real)
    ensures RoutePriority(top, score) == P0 <==> WorthP0(top)
    ensures RoutePriority(top, score) == P1 <==>
            !WorthP0(top) && (score >= 30.0 || exists i :: 0 <= i < |top| && top[i].severity == High)
    ensures RoutePriority(top, score) == P2 <==>
            && !WorthP0(top) && score < 30.0 && (forall i :: 0 <= i < |top| ==> top[i].severity != High)
            && exists i :: 0 <= i < |top| && top[i].severity == Medium
  {
    ThreeDetectorsIff(top);
  }

  lemma {:induction false} SubDigest(w: Weights, hs: seq<Hit>)
    ensures Covers(hs, TopFive(w, hs))
    ensures |hs| <= 5 ==> Covers(TopFive(w, hs), hs)
  {
    TopFiveIsTop(w, hs);
    SubMultisetCovers(TopFive(w, hs), hs);
    if |hs| <= 5 {
      SubMultisetCovers(hs, TopFive(w, hs));
    }
  }

  /** Routing at P0 means the server was scored P0; a high finding in the digest means the
      server was scored P0 or P1. */
  lemma {:induction false} RoutingIsSound(w: Weights, hs: seq<Hit>, score: real)
    ensures RoutePriority(TopFive(w, hs), score).P0? ==> ServerPriority(hs).P0?
    ensures HasSeverity(TopFive(w, hs), High) ==> ServerPriority(hs).P0? || ServerPriority(hs).P1?
  {
    SubDigest(w, hs);
    UrgencyMonotone(TopFive(w, hs), hs);
  }

  /** The server's priority, with P2 and P3 lifted to P1 at a score of 30 or more. */
  function Lifted(p: Priority, score: real): Priority {
    if score >= 30.0 && (p.P2? || p.P3?) then P1 else p
  }

  /** With at most five findings the two priorities agree, except that a score of 30 or more
      lifts P2 and P3 to P1. */
  lemma {:induction false} SmallServersAgree(w: Weights, hs: seq<Hit>, score: real)
    requires |hs| <= 5
    ensures RoutePriority(TopFive(w, hs), score) == Lifted(ServerPriority(hs), score)
  {
    SubDigest(w, hs);
    PriorityDependsOnContents(TopFive(w, hs), hs);
  }

  // ----- when the two priorities agree -----

  predicate RoutedAsScored(w: Weights, hs: seq<Hit>, score: real) {
    RoutePriority(TopFive(w, hs), score) == Lifted(ServerPriority(hs), score)
  }

  predicate P0RoutedAsP0(w: Weights, hs: seq<Hit>, score: real) {
    RoutePriority(TopFive(w, hs), score).P0? <==> ServerPriority(hs).P0?
  }

  const LOUD := Hit(0, "ns", High, 1.0)

  const DEADLY := Hit(1, "x", Critical, 0.95)

  lemma {:induction false} LoudContribution()
    ensures Contribution(DEFAULT_WEIGHTS, LOUD) == 10.0
  {
    assert "ns"[1..] == "s" && "s"[1..] == "";
    assert Head("") == "" && Head("s") == "s" && Head("ns") == "ns";
    assert DetectorToClass("ns") == "runtime:namespace";
    assert ClassWeight(DEFAULT_WEIGHTS, "ns") == 2.0;
  }

  lemma {:induction false} DeadlyContribution()
    ensures Contribution(DEFAULT_WEIGHTS, DEADLY) == 9.5
  {
    UnlistedWeight();
  }

  lemma {:induction false} UnlistedClass()
    ensures DetectorToClass("x") == "unknown"
  {
    assert "x"[1..] == "" && Head("") == "" && Head("x") == "x";
  }

  /** A detector of no listed class has weight 1. */
  lemma {:induction false} UnlistedWeight()
    ensures ClassWeight(DEFAULT_WEIGHTS, "x") == 1.0
  {
    UnlistedClass();
    assert "unknown" !in DEFAULT_WEIGHTS.detectorClass;
  }

  function Copies(a: Hit, n: nat): (s: seq<Hit>)
    ensures |s| == n && forall i :: 0 <= i < n ==> s[i] == a
  {
    if n == 0 then [] else [a] + Copies(a, n - 1)
  }

  lemma {:induction false} CopiesAreSorted(f: Rank, a: Hit, n: nat, b: Hit)
    requires f(a) > f(b)
    ensures SortDescending(f, Copies(a, n) + [b]) == Copies(a, n) + [b]
  {
    var hs := Copies(a, n) + [b];
    if n == 0 {
      assert hs == [b] && [b][1..] == [];
    } else {
      assert hs[1..] == Copies(a, n - 1) + [b];
      CopiesAreSorted(f, a, n - 1, b);
    }
  }

  /** n - 1 findings that outrank one critical finding: from six on it falls out of the digest. */
  lemma {:induction false} CriticalFallsOut(w: Weights, n: nat, score: real)
    requires n > 5 && Contribution(w, LOUD) > Contribution(w, DEADLY)
    ensures var hs := Copies(LOUD, n - 1) + [DEADLY];
            |hs| == n && ServerPriority(hs).P0? && RoutePriority(TopFive(w, hs), score).P1?
  {
    var hs := Copies(LOUD, n - 1) + [DEADLY];
    assert CriticalHighConf(hs[n - 1]);
    CopiesAreSorted(ByContribution(w), LOUD, n - 1, DEADLY);
    var top := TopFive(w, hs);
    assert top == hs[..5];
    assert forall i :: 0 <= i < 5 ==> top[i] == LOUD;
    RouteOfLoud(top, score);
  }

  lemma {:induction false} RouteOfLoud(top: seq<Hit>, score: real)
    requires |top| == 5 && forall i :: 0 <= i < 5 ==> top[i] == LOUD
    ensures RoutePriority(top, score).P1?
  {
    assert top[0].severity == High;
    assert Detectors(top) == {LOUD.detector};
  }

  lemma {:induction false} RoutingAgreesFor(w: Weights, n: nat, score: real)
    requires Contribution(w, LOUD) > Contribution(w, DEADLY)
    ensures (forall hs :: |hs| == n ==> RoutedAsScored(w, hs, score)) <==> n <= 5
    ensures (forall hs :: |hs| == n ==> P0RoutedAsP0(w, hs, score)) <==> n <= 5
  {
    if n <= 5 {
      forall hs: seq<Hit> | |hs| == n ensures RoutedAsScored(w, hs, score) && P0RoutedAsP0(w, hs, score) {
        SmallServersAgree(w, hs, score);
      }
    } else {
      CriticalFallsOut(w, n, score);
      var hs := Copies(LOUD, n - 1) + [DEADLY];
      assert |hs| == n && !RoutedAsScored(w, hs, score) && !P0RoutedAsP0(w, hs, score);
    }
  }

  /** Under the default weights and at any score, routing follows the server's priority, and routes
      exactly the P0 servers at P0, for every set of n findings if and only if n is at most five. */
  lemma {:induction false} RoutingAgreesIff(n: nat, score: real)
    ensures (forall hs :: |hs| == n ==> RoutedAsScored(DEFAULT_WEIGHTS, hs, score)) <==> n <= 5
    ensures (forall hs :: |hs| == n ==> P0RoutedAsP0(DEFAULT_WEIGHTS, hs, score)) <==> n <= 5
  {
    LoudContribution();
    DeadlyContribution();
    RoutingAgreesFor(DEFAULT_WEIGHTS, n, score);
  }
}
