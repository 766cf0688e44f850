/**
 Which servers the router calls for triage: it sees the five findings that come first in the digest's
 order, so a server can be scored P0 or P1 and never be queued.
 */
module Routing {
  import opened Models
  import opened Scoring
  import opened Digest

  // ----- where the sort puts each finding -----

  /** How many findings rank above v, and how many at v or above. */
  function Above(f: Rank, hs: seq<Hit>, v: real): nat {
    if hs == [] then 0 else (if f(hs[0]) > v then 1 else 0) + Above(f, hs[1..], v)
  }

  function AtLeast(f: Rank, hs: seq<Hit>, v: real): nat {
    if hs == [] then 0 else (if f(hs[0]) >= v then 1 else 0) + AtLeast(f, hs[1..], v)
  }

  /** How many others come before finding i: those that outrank it, and its equals earlier in the list. */
  function Ahead(f: Rank, hs: seq<Hit>, i: nat): nat
    requires i < |hs|
  {
    AtLeast(f, hs[..i], f(hs[i])) + Above(f, hs[i + 1..], f(hs[i]))
  }

  /** Insertion puts a finding behind exactly those that rank above it. */
  lemma {:induction false} InsertPlaces(f: Rank, h: Hit, s: seq<Hit>)
    requires Descending(f, s)
    ensures var k := Above(f, s, f(h));
            && k <= |s| && Insert(f, h, s) == s[..k] + [h] + s[k..]
            && (forall j :: 0 <= j < k ==> f(s[j]) > f(h))
            && (forall j :: k <= j < |s| ==> f(s[j]) <= f(h))
  {
    if s != [] {
      InsertPlaces(f, h, s[1..]);
      if f(h) >= f(s[0]) {
        NoneAbove(f, s, f(h));
      } else {
        var k := Above(f, s[1..], f(h));
        assert s == [s[0]] + s[1..];
        assert s[..k + 1] == [s[0]] + s[1..][..k] && s[k + 1..] == s[1..][k..];
      }
    }
  }

  lemma {:induction false} NoneAbove(f: Rank, s: seq<Hit>, v: real)
    requires forall j :: 0 <= j < |s| ==> f(s[j]) <= v
    ensures Above(f, s, v) == 0
  {
    if s != [] {
      NoneAbove(f, s[1..], v);
    }
  }

  lemma {:induction false} InsertKeepsAbove(f: Rank, h: Hit, s: seq<Hit>, v: real)
    ensures Above(f, Insert(f, h, s), v) == Above(f, s, v) + if f(h) > v then 1 else 0
  {
    if s == [] || f(h) >= f(s[0]) {
      assert ([h] + s)[1..] == s;
    } else {
      InsertKeepsAbove(f, h, s[1..], v);
      assert ([s[0]] + Insert(f, h, s[1..]))[1..] == Insert(f, h, s[1..]);
    }
  }

  lemma {:induction false} SortKeepsAbove(f: Rank, hs: seq<Hit>, v: real)
    ensures Above(f, SortDescending(f, hs), v) == Above(f, hs, v)
  {
    if hs != [] {
      SortKeepsAbove(f, hs[1..], v);
      InsertKeepsAbove(f, hs[0], SortDescending(f, hs[1..]), v);
    }
  }

  lemma {:induction false} SortedDescends(f: Rank, hs: seq<Hit>)
    ensures Descending(f, SortDescending(f, hs)) && |SortDescending(f, hs)| == |hs|
  {
    SortIsStable(f, hs, 0.0);
    assert |SortDescending(f, hs)| == |multiset(SortDescending(f, hs))| == |multiset(hs)|;
  }

  /** The first finding goes behind those of the rest that outrank it; the rest move up accordingly. */
  lemma {:induction false} SortStep(f: Rank, hs: seq<Hit>) returns (k: nat)
    requires hs != []
    ensures k == Above(f, hs[1..], f(hs[0]))
    ensures var sorted, tail := SortDescending(f, hs), SortDescending(f, hs[1..]);
            && k <= |tail| && |sorted| == |tail| + 1 && sorted[k] == hs[0]
            && (forall j :: 0 <= j < k ==> sorted[j] == tail[j] && f(tail[j]) > f(hs[0]))
            && (forall j :: k <= j < |tail| ==> sorted[j + 1] == tail[j] && f(tail[j]) <= f(hs[0]))
  {
    var tail := SortDescending(f, hs[1..]);
    SortedDescends(f, hs[1..]);
    SortKeepsAbove(f, hs[1..], f(hs[0]));
    InsertPlaces(f, hs[0], tail);
    k := Above(f, hs[1..], f(hs[0]));
    Indices(tail, k, hs[0], SortDescending(f, hs));
  }

  lemma {:induction false} Indices(s: seq<Hit>, k: nat, h: Hit, out: seq<Hit>)
    requires k <= |s| && out == s[..k] + [h] + s[k..]
    ensures |out| == |s| + 1 && out[k] == h
    ensures forall j :: 0 <= j < k ==> out[j] == s[j]
    ensures forall j :: k <= j < |s| ==> out[j + 1] == s[j]
  {
  }

  /** Finding i stands exactly behind the findings ahead of it. */
  lemma {:induction false} SortPlaces(f: Rank, hs: seq<Hit>, i: nat)
    requires i < |hs|
    ensures Ahead(f, hs, i) < |SortDescending(f, hs)| && SortDescending(f, hs)[Ahead(f, hs, i)] == hs[i]
  {
    var k := SortStep(f, hs);
    if i == 0 {
      assert hs[..0] == [];
    } else {
      SortPlaces(f, hs[1..], i - 1);
      AheadInTail(f, hs, i);
    }
  }

  lemma {:induction false} AheadInTail(f: Rank, hs: seq<Hit>, i: nat)
    requires 0 < i < |hs|
    ensures Ahead(f, hs, i) == Ahead(f, hs[1..], i - 1) + if f(hs[0]) >= f(hs[i]) then 1 else 0
  {
    assert hs[1..][..i - 1] == hs[..i][1..] && hs[1..][i..] == hs[i + 1..];
    assert hs[..i][0] == hs[0];
  }

  /** Every place is some finding's. */
  lemma {:induction false} PlaceOf(f: Rank, hs: seq<Hit>, p: nat) returns (i: nat)
    requires p < |SortDescending(f, hs)|
    ensures i < |hs| && Ahead(f, hs, i) == p && SortDescending(f, hs)[p] == hs[i]
  {
    SortedDescends(f, hs);
    var k := SortStep(f, hs);
    if p == k {
      i := 0;
      assert hs[..0] == [];
    } else {
      var j := PlaceOf(f, hs[1..], if p < k then p else p - 1);
      i := j + 1;
      AheadInTail(f, hs, i);
    }
  }

  // ----- what the router sees -----

  /** High, or critical with high confidence: by itself enough for P1. */
  predicate Loud(h: Hit) {
    h.severity.High? || CriticalHighConf(h)
  }

  /** Some loud finding has fewer than five others ahead of it. */
  predicate LoudInDigest(w: Weights, hs: seq<Hit>) {
    exists i :: 0 <= i < |hs| && Loud(hs[i]) && Ahead(ByContribution(w), hs, i) < 5
  }

  predicate Urgent(p: Priority) {
    p.P0? || p.P1?
  }

  /** The router's guard, from the findings themselves. */
  predicate Called(w: Weights, hs: seq<Hit>, score: real) {
    score >= 1.0 && hs != [] && Urgent(RoutePriority(TopFive(w, hs), score))
  }

  lemma {:induction false} DigestHasLoudIff(w: Weights, hs: seq<Hit>)
    ensures (exists t :: 0 <= t < |TopFive(w, hs)| && Loud(TopFive(w, hs)[t])) <==> LoudInDigest(w, hs)
  {
    var f := ByContribution(w);
    var top, sorted := TopFive(w, hs), SortDescending(f, hs);
    if t :| 0 <= t < |top| && Loud(top[t]) {
      var i := PlaceOf(f, hs, t);
      assert Loud(hs[i]) && Ahead(f, hs, i) < 5;
    }
    if i :| 0 <= i < |hs| && Loud(hs[i]) && Ahead(f, hs, i) < 5 {
      SortPlaces(f, hs, i);
      assert top[Ahead(f, hs, i)] == hs[i];
    }
  }

  /** A server is called for triage if and only if it has findings, a score of 1 or more, and either a
      score of 30 or more, or a high finding, or a critical one of confidence 0.9 or more, behind fewer
      than five others. */
  lemma {:induction false} CalledIff(w: Weights, hs: seq<Hit>, score: real)
    ensures Called(w, hs, score) <==>
            hs != [] && score >= 1.0
            && (score >= 30.0
                || exists i :: 0 <= i < |hs| && (hs[i].severity == High || (hs[i].severity == Critical && hs[i].confidence >= 0.9))
                               && Ahead(ByContribution(w), hs, i) < 5)
  {
    DigestHasLoudIff(w, hs);
    LoudRoutes(TopFive(w, hs), score);
    LoudMeans(w, hs);
  }

  lemma {:induction false} LoudRoutes(top: seq<Hit>, score: real)
    ensures Urgent(RoutePriority(top, score)) <==> score >= 30.0 || exists t :: 0 <= t < |top| && Loud(top[t])
  {
    assert HasCriticalHighConf(top) || HasSeverity(top, High) <==> exists t :: 0 <= t < |top| && Loud(top[t]);
  }

  lemma {:induction false} LoudMeans(w: Weights, hs: seq<Hit>)
    ensures LoudInDigest(w, hs) <==>
            exists i :: 0 <= i < |hs| && (hs[i].severity == High || (hs[i].severity == Critical && hs[i].confidence >= 0.9))
                        && Ahead(ByContribution(w), hs, i) < 5
  {
  }

  // ----- up to five findings -----

  /** Every server of n findings that scores at least 1 and P0 or P1 is called for triage. */
  ghost predicate AllUrgentCalled(n: nat) {
    forall hs, rules, pop | |hs| == n :: CalledWhenUrgent(hs, rules, pop)
  }

  ghost predicate CalledWhenUrgent(hs: seq<Hit>, rules: seq<BoostRule>, pop: real) {
    var score := Score(DEFAULT_WEIGHTS, rules, hs, pop);
    score >= 1.0 && (ServerPriority(hs) == P0 || ServerPriority(hs) == P1) ==> Called(DEFAULT_WEIGHTS, hs, score)
  }

  /** k findings that share a contribution of 2, and a high one of none. */
  function Drowned(k: nat): seq<Hit>
    requires k > 0
  {
    Copies(Hit(0, "x", Medium, 1.0 / k as real), k) + [Hit(1, "x", High, 0.0)]
  }

  lemma {:induction false} ContributionOfX(h: Hit)
    requires h.detector == "x"
    ensures Contribution(DEFAULT_WEIGHTS, h) == SeverityWeight(DEFAULT_WEIGHTS, h.severity) * h.confidence
  {
    UnlistedWeight();
  }

  function Times(k: nat, x: real): real {
    if k == 0 then 0.0 else x + Times(k - 1, x)
  }

  lemma {:induction false} TimesIsProduct(k: nat, x: real)
    ensures Times(k, x) == k as real * x
  {
    if k > 0 {
      TimesIsProduct(k - 1, x);
      var m := (k - 1) as real;
      assert k as real == m + 1.0;
      assert (m + 1.0) * x == m * x + x;
    }
  }

  lemma {:induction false} ShareOfTwo(k: nat)
    requires k > 0
    ensures 1.0 / k as real > 0.0 && Times(k, 2.0 * (1.0 / k as real)) == 2.0
  {
    TimesIsProduct(k, 2.0 * (1.0 / k as real));
  }

  lemma {:induction false} BaseOfCopies(w: Weights, a: Hit, k: nat, b: Hit)
    ensures Base(w, Copies(a, k) + [b]) == Times(k, Contribution(w, a)) + Contribution(w, b)
  {
    var hs := Copies(a, k) + [b];
    if k == 0 {
      assert hs == [b] && [b][1..] == [];
    } else {
      assert hs[0] == a && hs[1..] == Copies(a, k - 1) + [b];
      BaseOfCopies(w, a, k - 1, b);
    }
  }

  lemma {:induction false} DrownedScore(k: nat)
    requires k > 0
    ensures Score(DEFAULT_WEIGHTS, DefaultRules(), Drowned(k), 0.0) == 2.0
    ensures SortDescending(ByContribution(DEFAULT_WEIGHTS), Drowned(k)) == Drowned(k)
  {
    var a, b := Hit(0, "x", Medium, 1.0 / k as real), Hit(1, "x", High, 0.0);
    ContributionOfX(a);
    ContributionOfX(b);
    ShareOfTwo(k);
    assert Contribution(DEFAULT_WEIGHTS, a) == 2.0 * (1.0 / k as real) && Contribution(DEFAULT_WEIGHTS, b) == 0.0;
    BaseOfCopies(DEFAULT_WEIGHTS, a, k, b);
    UnboostedScore(DEFAULT_WEIGHTS, Drowned(k));
    CopiesAreSorted(ByContribution(DEFAULT_WEIGHTS), a, k, b);
  }

  lemma {:induction false} UnboostedScore(w: Weights, hs: seq<Hit>)
    requires forall i :: 0 <= i < |hs| ==> hs[i].detector == "x"
    ensures Score(w, DefaultRules(), hs, 0.0) == Min(100.0, Base(w, hs))
  {
    OneDetectorNoBoost(hs, "x");
  }

  lemma {:induction false} RouteOfMediums(top: seq<Hit>, score: real)
    requires |top| == 5 && score < 30.0 && forall i :: 0 <= i < |top| ==> top[i].severity == Medium
    ensures RoutePriority(top, score).P2?
  {
    assert top[0].severity == Medium;
  }

  /** A server scored P1, at 2 points, that the router never queues. */
  lemma {:induction false} HighDrowns(k: nat)
    requires k >= 5
    ensures var hs, score := Drowned(k), Score(DEFAULT_WEIGHTS, DefaultRules(), Drowned(k), 0.0);
            |hs| == k + 1 && score == 2.0 && ServerPriority(hs).P1? && !Called(DEFAULT_WEIGHTS, hs, score)
  {
    var hs := Drowned(k);
    DrownedScore(k);
    RouteOfMediums(hs[..5], 2.0);
    assert hs[k].severity == High && hs[k].detector == "x";
    OneDetector(hs);
  }

  lemma {:induction false} OneDetector(hs: seq<Hit>)
    requires hs != [] && forall i :: 0 <= i < |hs| ==> hs[i].detector == "x"
    ensures |Detectors(hs)| == 1
  {
    assert hs[0].detector == "x";
    assert Detectors(hs) == {"x"};
  }

  lemma {:induction false} FewAreCalled(hs: seq<Hit>, rules: seq<BoostRule>, pop: real)
    requires |hs| <= 5
    ensures CalledWhenUrgent(hs, rules, pop)
  {
    SmallServersAgree(DEFAULT_WEIGHTS, hs, Score(DEFAULT_WEIGHTS, rules, hs, pop));
  }

  lemma {:induction false} ManyAreNot(k: nat)
    requires k >= 5
    ensures |Drowned(k)| == k + 1 && !CalledWhenUrgent(Drowned(k), DefaultRules(), 0.0)
  {
    HighDrowns(k);
  }

  /** Every urgently scored server of n findings is called for triage, at whatever rules and popularity,
      if and only if n is at most five. */
  lemma {:induction false} UrgentAreCalledIff(n: nat)
    ensures AllUrgentCalled(n) <==> n <= 5
  {
    if n <= 5 {
      forall hs, rules, pop | |hs| == n ensures CalledWhenUrgent(hs, rules, pop) {
        FewAreCalled(hs, rules, pop);
      }
    } else {
      ManyAreNot(n - 1);
    }
  }

  // ----- critical findings are never drowned -----

  lemma {:induction false} DefaultWeightsAtLeast(h: Hit)
    requires h.severity == Critical && h.confidence >= 0.9
    ensures Contribution(DEFAULT_WEIGHTS, h) >= 5.4
  {
    ClassAtLeast(h.detector);
    ProductAtLeast(ClassWeight(DEFAULT_WEIGHTS, h.detector), h.confidence);
  }

  lemma {:induction false} ProductAtLeast(c: real, confidence: real)
    requires c >= 0.6 && confidence >= 0.9
    ensures 10.0 * c * confidence >= 5.4
  {
    assert c * confidence >= 0.6 * confidence;
    assert 10.0 * c * confidence == 10.0 * (c * confidence);
  }

  lemma {:induction false} ClassAtLeast(detector: string)
    ensures ClassWeight(DEFAULT_WEIGHTS, detector) >= 0.6
  {
    var weights := DEFAULT_WEIGHTS.detectorClass;
    assert forall cls :: cls in weights ==> weights[cls] >= 0.6;
  }

  lemma {:induction false} BaseAtLeast(w: Weights, rules: seq<BoostRule>, hs: seq<Hit>)
    requires NonNegative(w, rules) && Confident(hs)
    ensures Base(w, hs) >= 5.4 * AtLeast(ByContribution(w), hs, 5.4) as real
  {
    if hs != [] {
      ContributionNonNegative(w, rules, hs[0]);
      BaseAtLeast(w, rules, hs[1..]);
    }
  }

  lemma {:induction false} AtLeastBounds(f: Rank, hs: seq<Hit>, u: real, v: real)
    requires u <= v
    ensures Above(f, hs, v) <= AtLeast(f, hs, v) <= AtLeast(f, hs, u)
  {
    if hs != [] {
      AtLeastBounds(f, hs[1..], u, v);
    }
  }

  lemma {:induction false} AtLeastConcat(f: Rank, a: seq<Hit>, b: seq<Hit>, v: real)
    ensures AtLeast(f, a + b, v) == AtLeast(f, a, v) + AtLeast(f, b, v)
  {
    if a == [] {
      assert a + b == b;
    } else {
      AtLeastConcat(f, a[1..], b, v);
      assert (a + b)[1..] == a[1..] + b;
    }
  }

  lemma {:induction false} AheadIsCounted(f: Rank, hs: seq<Hit>, i: nat, v: real)
    requires i < |hs| && f(hs[i]) >= v
    ensures AtLeast(f, hs, v) >= Ahead(f, hs, i) + 1
  {
    assert hs == hs[..i] + ([hs[i]] + hs[i + 1..]);
    AtLeastConcat(f, hs[..i], [hs[i]] + hs[i + 1..], v);
    AtLeastBounds(f, hs[..i], v, f(hs[i]));
    AtLeastBounds(f, hs[i + 1..], v, f(hs[i]));
    assert ([hs[i]] + hs[i + 1..])[1..] == hs[i + 1..];
  }

  /** Under the default weights a server with a critical finding of confidence 0.9 or more is always
      called for triage: if five others push it out of the digest, the score is 30 or more. */
  lemma {:induction false} CriticalIsCalled(hs: seq<Hit>, rules: seq<BoostRule>, pop: real, i: nat)
    requires NonNegative(DEFAULT_WEIGHTS, rules) && Confident(hs) && pop >= 0.0
    requires i < |hs| && hs[i].severity == Critical && hs[i].confidence >= 0.9
    ensures Called(DEFAULT_WEIGHTS, hs, Score(DEFAULT_WEIGHTS, rules, hs, pop))
  {
    var w, f := DEFAULT_WEIGHTS, ByContribution(DEFAULT_WEIGHTS);
    DefaultWeightsAtLeast(hs[i]);
    BaseAtLeast(w, rules, hs);
    AheadIsCounted(f, hs, i, 5.4);
    ScoreAtLeastBase(w, rules, hs, pop);
    CalledIff(w, hs, Score(w, rules, hs, pop));
  }

  lemma {:induction false} ScoreAtLeastBase(w: Weights, rules: seq<BoostRule>, hs: seq<Hit>, pop: real)
    requires NonNegative(w, rules) && Confident(hs) && pop >= 0.0
    ensures Score(w, rules, hs, pop) >= Min(100.0, Base(w, hs))
  {
    BaseNonNegative(w, rules, hs);
    SubMultisetCovers(hs, hs);
    BoostMonotone(w, rules, hs, hs);
    ScaleMonotone(Base(w, hs), Base(w, hs), 0.0, Boost(rules, hs), 0.0);
    ScalePopularity(Base(w, hs), Boost(rules, hs), pop);
  }

  lemma {:induction false} ScalePopularity(base: real, boost: real, pop: real)
    requires base >= 0.0 && boost >= 0.0 && pop >= 0.0
    ensures Scale(base, boost, 0.0) <= Scale(base, boost, pop)
  {
    MulMonotone(base, base, 1.0 + boost, 1.0 + boost);
    MulMonotone(base * (1.0 + boost), base * (1.0 + boost), 1.0, 1.0 + pop);
  }

  // ----- a P0 server that is never queued -----

  /** Four namespace findings and one of a commit, all medium, and a faint high one. */
  function Skipped(): seq<Hit> {
    var ns := Hit(0, "ns", Medium, 1.0);
    [ns, ns, ns, ns, Hit(4, "git", Medium, 1.0), Hit(5, "x", High, 0.1)]
  }

  lemma {:induction false} ContributionOfNs()
    ensures Contribution(DEFAULT_WEIGHTS, Skipped()[0]) == 4.0
  {
    assert "ns"[1..] == "s" && "s"[1..] == "" && Head("") == "" && Head("s") == "s" && Head("ns") == "ns";
    assert DetectorToClass("ns") == "runtime:namespace" && ClassWeight(DEFAULT_WEIGHTS, "ns") == 2.0;
  }

  lemma {:induction false} ContributionOfGit()
    ensures Contribution(DEFAULT_WEIGHTS, Skipped()[4]) == 3.0
  {
    GitClass();
    assert ClassWeight(DEFAULT_WEIGHTS, "git") == 1.5;
  }

  lemma {:induction false} HeadOfGit()
    ensures Head("git") == "git"
  {
    assert "git"[1..] == "it" && "it"[1..] == "t" && "t"[1..] == "";
    assert Head("") == "" && Head("t") == "t" && Head("it") == "it";
  }

  lemma {:induction false} GitClass()
    ensures DetectorToClass("git") == "runtime:commit-anomaly"
  {
    HeadOfGit();
  }

  ghost predicate Falling(f: Rank, hs: seq<Hit>) {
    forall i :: 0 <= i < |hs| - 1 ==> f(hs[i]) >= f(hs[i + 1])
  }

  /** A list that never rises is left as it is. */
  lemma {:induction false} FallingIsSorted(f: Rank, hs: seq<Hit>)
    requires Falling(f, hs)
    ensures SortDescending(f, hs) == hs
  {
    if |hs| > 0 {
      assert forall i :: 0 <= i < |hs[1..]| ==> hs[1..][i] == hs[i + 1];
      FallingIsSorted(f, hs[1..]);
      assert hs == [hs[0]] + hs[1..];
    }
  }

  lemma {:induction false} BaseOfSix(w: Weights, hs: seq<Hit>)
    requires |hs| == 6
    ensures Base(w, hs) == Contribution(w, hs[0]) + Contribution(w, hs[1]) + Contribution(w, hs[2])
                           + Contribution(w, hs[3]) + Contribution(w, hs[4]) + Contribution(w, hs[5])
  {
    assert hs[4..][1..] == hs[5..] && hs[5..][1..] == [];
    assert Base(w, hs[5..]) == Contribution(w, hs[5]);
    assert Base(w, hs[4..]) == Contribution(w, hs[4]) + Base(w, hs[5..]);
    assert hs[3..][1..] == hs[4..] && hs[2..][1..] == hs[3..] && hs[1..][1..] == hs[2..];
    assert Base(w, hs[2..]) == Contribution(w, hs[2]) + Contribution(w, hs[3]) + Base(w, hs[4..]);
    assert Base(w, hs) == Contribution(w, hs[0]) + Contribution(w, hs[1]) + Base(w, hs[2..]);
  }

  lemma {:induction false} SkippedContributions(i: nat)
    requires i < 6
    ensures Contribution(DEFAULT_WEIGHTS, Skipped()[i]) == if i < 4 then 4.0 else if i == 4 then 3.0 else 0.5
  {
    if i == 5 {
      ContributionOfX(Skipped()[5]);
    } else if i == 4 {
      ContributionOfGit();
    } else {
      assert Skipped()[i] == Skipped()[0];
      ContributionOfNs();
    }
  }

  lemma {:induction false} ScoreOfSix(w: Weights, hs: seq<Hit>)
    requires |hs| == 6
    requires forall i :: 0 <= i < 6 ==> Contribution(w, hs[i]) == if i < 4 then 4.0 else if i == 4 then 3.0 else 0.5
    ensures Base(w, hs) == 19.5 && TopFive(w, hs) == hs[..5]
  {
    BaseOfSix(w, hs);
    FallingIsSorted(ByContribution(w), hs);
  }

  lemma {:induction false} SkippedScore()
    ensures Score(DEFAULT_WEIGHTS, DefaultRules(), Skipped(), 0.0) == 19.5
    ensures |TopFive(DEFAULT_WEIGHTS, Skipped())| == 5
    ensures forall i :: 0 <= i < 5 ==> TopFive(DEFAULT_WEIGHTS, Skipped())[i].severity == Medium
  {
    forall i | 0 <= i < 6
      ensures Contribution(DEFAULT_WEIGHTS, Skipped()[i]) == if i < 4 then 4.0 else if i == 4 then 3.0 else 0.5
    {
      SkippedContributions(i);
    }
    SkippedScoreFor(DEFAULT_WEIGHTS);
  }

  lemma {:induction false} SkippedScoreFor(w: Weights)
    requires forall i :: 0 <= i < 6 ==> Contribution(w, Skipped()[i]) == if i < 4 then 4.0 else if i == 4 then 3.0 else 0.5
    ensures Score(w, DefaultRules(), Skipped(), 0.0) == 19.5
    ensures |TopFive(w, Skipped())| == 5 && forall i :: 0 <= i < 5 ==> TopFive(w, Skipped())[i].severity == Medium
  {
    var hs := Skipped();
    ScoreOfSix(w, hs);
    SkippedBoost();
    assert forall i :: 0 <= i < 5 ==> hs[..5][i] == hs[i] && hs[i].severity == Medium;
  }

  /** Neither of the detectors that end a default rule is among them. */
  lemma {:induction false} SkippedBoost()
    ensures Boost(DefaultRules(), Skipped()) == 0.0
  {
    DefaultBoost(Skipped());
    assert forall i :: 0 <= i < 6 ==> |Skipped()[i].detector| < 4;
  }

  lemma {:induction false} SkippedPriority()
    ensures ServerPriority(Skipped()).P0?
  {
    var hs := Skipped();
    assert hs[5].severity == High;
    assert {"ns", "git", "x"} <= Detectors(hs) by {
      assert hs[0].detector == "ns" && hs[4].detector == "git" && hs[5].detector == "x";
    }
    assert |{"ns", "git", "x"}| == 3;
    SubsetCardinality({"ns", "git", "x"}, Detectors(hs));
  }

  /** Three detectors and a high finding make it P0, at 19.5 points; the router sees mediums only. */
  lemma {:induction false} P0IsSkipped()
    ensures var hs := Skipped();
            && Score(DEFAULT_WEIGHTS, DefaultRules(), hs, 0.0) == 19.5 && ServerPriority(hs).P0?
            && RoutePriority(TopFive(DEFAULT_WEIGHTS, hs), 19.5).P2? && !Called(DEFAULT_WEIGHTS, hs, 19.5)
  {
    SkippedScore();
    SkippedPriority();
    RouteOfMediums(TopFive(DEFAULT_WEIGHTS, Skipped()), 19.5);
  }
}
