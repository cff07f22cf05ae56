/** The Inevitability Engine: how strongly the episode's own evidence converges on a
    topic, as a score in [0, 1] built from five additive factors, with the
    thresholds that gate confrontation and reveals. */
module InevitabilityEngine {
  import opened Basics
  import opened Schemas
  import opened Lexicon

  datatype InevitabilityScore = InevitabilityScore(
    score: real,
    rationale: string,
    thresholdForReveal: real,
    thresholdForConfrontSoft: real,
    thresholdForConfrontFirm: real)

  const RevealThreshold: real := 0.7
  const ConfrontSoftThreshold: real := 0.5
  const ConfrontFirmThreshold: real := 0.8

  /** The five tallies the score is built from. */
  datatype Evidence = Evidence(
    anchors: nat,          // claims whose statement mentions the topic
    unresolved: nat,       // contradictions not yet addressed
    avoidance: nat,        // repeated minimization, agency-shift or humor signals
    eligibleEchoes: nat,   // unused echo phrases past their turn cooldown
    urgentLoops: nat)      // open loops of priority 7 or more

  predicate IsAvoidanceKind(k: PatternKind) {
    k == MinimizationLanguage || k == AgencyShiftActiveToPassive || k == HumorDeflection
  }

  /** The tallies for `topic`. Claims match case-insensitively by substring; the
      contradiction, avoidance, echo and loop tallies do not depend on the topic, and
      echo eligibility here looks at the turn cooldown only, not at the act. */
  function Gather(ep: EpisodeState, topic: string, m: Matcher): Evidence {
    Evidence(
      Count(ep.claimsLedger, (c: Claim) => Includes(m.lowerCase(c.statement), m.lowerCase(topic))),
      Count(ep.contradictionIndex, (c: Contradiction) => !c.addressed),
      Count(ep.patternSignals, (p: PatternSignal) => p.occurrenceCount >= 2 && IsAvoidanceKind(p.kind)),
      Count(ep.echoPhrases, (e: EchoPhrase) => !e.used && e.eligibleAfterTurn <= ep.metrics.currentTurn),
      Count(ep.openLoops, (l: OpenLoop) => l.status == Open && l.priority >= 7))
  }

  /** The factors that apply, each carrying the tally it reports. */
  datatype Factor =
    | Anchors(n: nat)
    | Contradictions(n: nat)
    | Avoidance(n: nat)
    | Echoes(n: nat)
    | HighPriorityLoop

  /** The factors in the order the engine checks them: two or more anchors, any
      unresolved contradiction, any avoidance pattern, any eligible echo, any urgent loop. */
  function Factors(ev: Evidence): seq<Factor> {
    AnchorFactor(ev) + ContradictionFactor(ev) + AvoidanceFactor(ev) + EchoFactor(ev) + LoopFactor(ev)
  }

  function AnchorFactor(ev: Evidence): seq<Factor> {
    if ev.anchors >= 2 then [Anchors(ev.anchors)] else []
  }

  function ContradictionFactor(ev: Evidence): seq<Factor> {
    if ev.unresolved > 0 then [Contradictions(ev.unresolved)] else []
  }

  function AvoidanceFactor(ev: Evidence): seq<Factor> {
    if ev.avoidance > 0 then [Avoidance(ev.avoidance)] else []
  }

  function EchoFactor(ev: Evidence): seq<Factor> {
    if ev.eligibleEchoes > 0 then [Echoes(ev.eligibleEchoes)] else []
  }

  function LoopFactor(ev: Evidence): seq<Factor> {
    if ev.urgentLoops > 0 then [HighPriorityLoop] else []
  }

  function Weight(f: Factor): real {
    match f
    case Anchors(_) => 0.2
    case Contradictions(n) => 0.15 * MinReal(n as real, 2.0)
    case Avoidance(n) => 0.1 * n as real
    case Echoes(_) => 0.1
    case HighPriorityLoop => 0.15
  }

  function Describe(f: Factor): (s: string)
    ensures |s| > 0 && (IsDigit(s[0]) || s[0] == 'H')
    ensures !f.HighPriorityLoop? ==> StartsWith(s, NatToString(f.n))
    ensures f.HighPriorityLoop? ==> StartsWith(s, "High")
  {
    match f
    case Anchors(n) => Tally(n, " independent mentions")
    case Contradictions(n) => Tally(n, " unresolved contradictions")
    case Avoidance(n) => Tally(n, " avoidance patterns detected")
    case Echoes(n) => Tally(n, " echo phrases eligible")
    case HighPriorityLoop => "High-priority open loop present"
  }

  /** A count followed by what it counts. */
  function Tally(n: nat, what: string): (s: string)
    ensures StartsWith(s, NatToString(n))
  {
    StartsWithConcat(NatToString(n), what);
    NatToString(n) + what
  }

  /** The running total of the factors' weights. */
  function TotalWeight(fs: seq<Factor>): real {
    if |fs| == 0 then 0.0 else TotalWeight(fs[..|fs| - 1]) + Weight(fs[|fs| - 1])
  }

  const NoSignals: string := "No convergence signals"

  function Rationale(fs: seq<Factor>): string {
    if |fs| > 0 then Join(seq(|fs|, i requires 0 <= i < |fs| => Describe(fs[i])), "; ") else NoSignals
  }

  /** The score written in closed form over the tallies: the independent definition
      the factor-by-factor accumulation is checked against. */
  function ClosedForm(ev: Evidence): real {
    (if ev.anchors >= 2 then 0.2 else 0.0)
    + 0.15 * MinReal(ev.unresolved as real, 2.0)
    + 0.1 * ev.avoidance as real
    + (if ev.eligibleEchoes > 0 then 0.1 else 0.0)
    + (if ev.urgentLoops > 0 then 0.15 else 0.0)
  }

  lemma TotalWeightAppend(fs: seq<Factor>, gs: seq<Factor>)
    ensures TotalWeight(fs + gs) == TotalWeight(fs) + TotalWeight(gs)
    decreases |gs|
  {
    if |gs| == 0 {
      assert fs + gs == fs;
    } else {
      assert (fs + gs)[..|fs + gs| - 1] == fs + gs[..|gs| - 1];
      assert (fs + gs)[|fs + gs| - 1] == gs[|gs| - 1];
      TotalWeightAppend(fs, gs[..|gs| - 1]);
    }
  }

  /** Accumulating the factors one by one gives the closed form. */
  lemma {:induction false} TotalWeightIsClosedForm(ev: Evidence)
    ensures TotalWeight(Factors(ev)) == ClosedForm(ev)
  {
    TotalWeightOfFive(AnchorFactor(ev), ContradictionFactor(ev), AvoidanceFactor(ev), EchoFactor(ev), LoopFactor(ev));
    PartWeights(ev);
  }

  /** Each part of the factor list weighs its term of the closed form. */
  lemma PartWeights(ev: Evidence)
    ensures TotalWeight(AnchorFactor(ev)) == if ev.anchors >= 2 then 0.2 else 0.0
    ensures TotalWeight(ContradictionFactor(ev)) == 0.15 * MinReal(ev.unresolved as real, 2.0)
    ensures TotalWeight(AvoidanceFactor(ev)) == 0.1 * ev.avoidance as real
    ensures TotalWeight(EchoFactor(ev)) == if ev.eligibleEchoes > 0 then 0.1 else 0.0
    ensures TotalWeight(LoopFactor(ev)) == if ev.urgentLoops > 0 then 0.15 else 0.0
  {
    SingleWeight(AnchorFactor(ev));
    SingleWeight(ContradictionFactor(ev));
    SingleWeight(AvoidanceFactor(ev));
    SingleWeight(EchoFactor(ev));
    SingleWeight(LoopFactor(ev));
  }

  lemma TotalWeightOfFive(a: seq<Factor>, c: seq<Factor>, v: seq<Factor>, e: seq<Factor>, l: seq<Factor>)
    ensures TotalWeight(a + c + v + e + l) == TotalWeight(a) + TotalWeight(c) + TotalWeight(v) + TotalWeight(e) + TotalWeight(l)
  {
    TotalWeightAppend(a, c);
    TotalWeightAppend(a + c, v);
    TotalWeightAppend(a + c + v, e);
    TotalWeightAppend(a + c + v + e, l);
  }

  lemma SingleWeight(fs: seq<Factor>)
    requires |fs| <= 1
    ensures TotalWeight(fs) == if |fs| == 1 then Weight(fs[0]) else 0.0
  {
    if |fs| == 1 {
      assert fs[..0] == [];
    }
  }

  /** The score is zero exactly when no factor applies. */
  lemma ClosedFormZero(ev: Evidence)
    ensures ClosedForm(ev) >= 0.0
    ensures ClosedForm(ev) == 0.0 <==> |Factors(ev)| == 0
  {
  }

  /** `compute`: the capped sum of the applicable factors' weights, the factors'
      descriptions joined by "; " (or a fixed sentence when there are none), and the
      three fixed thresholds. */
  function Compute(ep: EpisodeState, topic: string, m: Matcher): (s: InevitabilityScore)
    ensures 0.0 <= s.score <= 1.0
    ensures s.score == MinReal(ClosedForm(Gather(ep, topic, m)), 1.0)
    ensures s.rationale == NoSignals <==> s.score == 0.0
    ensures s.rationale == Rationale(Factors(Gather(ep, topic, m)))
    ensures s.thresholdForReveal == RevealThreshold
    ensures s.thresholdForConfrontSoft == ConfrontSoftThreshold
    ensures s.thresholdForConfrontFirm == ConfrontFirmThreshold
  {
    var fs := Factors(Gather(ep, topic, m));
    TotalWeightIsClosedForm(Gather(ep, topic, m));
    ClosedFormZero(Gather(ep, topic, m));
    var r := Rationale(fs);
    assert |fs| > 0 ==> r[0] == Describe(fs[0])[0];
    InevitabilityScore(MinReal(TotalWeight(fs), 1.0), r, RevealThreshold, ConfrontSoftThreshold, ConfrontFirmThreshold)
  }

  /** The score only grows with the evidence: more of any tally never lowers it. */
  lemma ScoreMonotone(e1: Evidence, e2: Evidence)
    requires e1.anchors <= e2.anchors && e1.unresolved <= e2.unresolved && e1.avoidance <= e2.avoidance
    requires e1.eligibleEchoes <= e2.eligibleEchoes && e1.urgentLoops <= e2.urgentLoops
    ensures MinReal(ClosedForm(e1), 1.0) <= MinReal(ClosedForm(e2), 1.0)
  {
  }

  /** One more unaddressed contradiction in the episode never lowers the score of any topic. */
  lemma {:induction false} ContradictionNeverLowers(ep: EpisodeState, topic: string, m: Matcher, c: Contradiction)
    requires !c.addressed
    ensures Compute(ep, topic, m).score
            <= Compute(ep.(contradictionIndex := ep.contradictionIndex + [c]), topic, m).score
  {
    var ep2 := ep.(contradictionIndex := ep.contradictionIndex + [c]);
    assert (ep.contradictionIndex + [c])[..|ep.contradictionIndex|] == ep.contradictionIndex;
    ScoreMonotone(Gather(ep, topic, m), Gather(ep2, topic, m));
  }

  /** With one signal per kind there are at most three avoidance signals, so every
      single factor weighs at most 0.3: reaching the confrontation threshold takes at
      least two converging factors. */
  lemma {:induction false} NoSingleFactorConfronts(ep: EpisodeState, topic: string, m: Matcher)
    requires UniqueKinds(ep.patternSignals)
    ensures forall f | f in Factors(Gather(ep, topic, m)) :: Weight(f) <= 0.3
    ensures |Factors(Gather(ep, topic, m))| <= 1 ==> Compute(ep, topic, m).score < ConfrontSoftThreshold
  {
    AvoidanceAtMostThree(ep.patternSignals);
    var ev := Gather(ep, topic, m);
    FactorsWeighLittle(ev);
    OneFactorScore(ev);
  }

  lemma FactorsWeighLittle(ev: Evidence)
    requires ev.avoidance <= 3
    ensures forall f | f in Factors(ev) :: Weight(f) <= 0.3
  {
  }

  lemma {:induction false} OneFactorScore(ev: Evidence)
    requires ev.avoidance <= 3
    ensures |Factors(ev)| <= 1 ==> ClosedForm(ev) < ConfrontSoftThreshold
  {
    if |Factors(ev)| <= 1 {
      FactorsWeighLittle(ev);
      TotalWeightIsClosedForm(ev);
      var fs := Factors(ev);
      if |fs| == 1 {
        SingleWeight(fs);
        assert fs[0] in fs;
      }
    }
  }

  /** At most three signals of avoidance kinds when no kind repeats. */
  lemma {:induction false} AvoidanceAtMostThree(signals: seq<PatternSignal>)
    requires UniqueKinds(signals)
    ensures Count(signals, (p: PatternSignal) => p.occurrenceCount >= 2 && IsAvoidanceKind(p.kind)) <= 3
  {
    var avoid := (p: PatternSignal) => p.occurrenceCount >= 2 && IsAvoidanceKind(p.kind);
    KindsCounted(signals, avoid);
    var kindsSeen := KindsOf(signals, avoid);
    assert kindsSeen <= {MinimizationLanguage, AgencyShiftActiveToPassive, HumorDeflection};
    assert |{MinimizationLanguage, AgencyShiftActiveToPassive, HumorDeflection}| == 3;
    SubsetCard(kindsSeen, {MinimizationLanguage, AgencyShiftActiveToPassive, HumorDeflection});
  }

  lemma SubsetCard(a: set<PatternKind>, b: set<PatternKind>)
    requires a <= b
    ensures |a| <= |b|
  {
    assert b == a + (b - a);
  }

  /** The kinds of the signals that satisfy `p`. */
  function KindsOf(signals: seq<PatternSignal>, p: PatternSignal -> bool): set<PatternKind> {
    set i | 0 <= i < |signals| && p(signals[i]) :: signals[i].kind
  }

  lemma KindsOfSnoc(signals: seq<PatternSignal>, p: PatternSignal -> bool)
    requires |signals| > 0
    ensures KindsOf(signals, p) == KindsOf(signals[..|signals| - 1], p)
      + (if p(signals[|signals| - 1]) then {signals[|signals| - 1].kind} else {})
  {
    var init := signals[..|signals| - 1];
    var last := signals[|signals| - 1];
    var rhs := KindsOf(init, p) + (if p(last) then {last.kind} else {});
    forall k | k in rhs ensures k in KindsOf(signals, p) {
      if k in KindsOf(init, p) {
        var i :| 0 <= i < |init| && p(init[i]) && init[i].kind == k;
        assert signals[i] == init[i];
      } else {
        assert signals[|signals| - 1] == last;
      }
    }
    forall k | k in KindsOf(signals, p) ensures k in rhs {
      var i :| 0 <= i < |signals| && p(signals[i]) && signals[i].kind == k;
      if i < |init| {
        assert init[i] == signals[i];
      }
    }
  }

  /** Without repeated kinds, the last signal's kind is not among the earlier ones. */
  lemma LastKindIsNew(signals: seq<PatternSignal>, p: PatternSignal -> bool)
    requires |signals| > 0 && UniqueKinds(signals)
    ensures signals[|signals| - 1].kind !in KindsOf(signals[..|signals| - 1], p)
  {
    var init := signals[..|signals| - 1];
    forall k | k in KindsOf(init, p) ensures k != signals[|signals| - 1].kind {
      var i :| 0 <= i < |init| && p(init[i]) && init[i].kind == k;
      assert init[i] == signals[i];
    }
  }

  /** The kinds of the counted signals: as many as the count when no kind repeats. */
  lemma {:induction false} KindsCounted(signals: seq<PatternSignal>, p: PatternSignal -> bool)
    requires UniqueKinds(signals)
    ensures |KindsOf(signals, p)| == Count(signals, p)
  {
    if |signals| > 0 {
      var init := signals[..|signals| - 1];
      assert UniqueKinds(init) by {
        forall i, j | 0 <= i < j < |init| ensures init[i].kind != init[j].kind {
          assert init[i] == signals[i] && init[j] == signals[j];
        }
      }
      KindsCounted(init, p);
      KindsOfSnoc(signals, p);
      LastKindIsNew(signals, p);
    }
  }
}
