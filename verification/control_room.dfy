/** The Control Room: the per-turn pipeline. Safety first; then pattern detection and
    merge, echo capture, inevitability for the top open loop, the move-proposal ladder,
    the Standards & Practices review, the Director's turn record, and the earpiece feed
    for the host together with the updated episode state. */
module Orchestrator {
  import opened Basics
  import opened Schemas
  import opened Lexicon
  import opened DirectorFsm
  import opened PatternEngine
  import opened InevitabilityEngine
  import opened EchoPhraseEngine
  import opened SPGovernor
  import opened SafetyDetection

  datatype MoveProposal = MoveProposal(primary: MoveChoice, alternates: seq<MoveChoice>)

  // ---------------------------------------------------------------------------
  // The move-proposal ladder
  // ---------------------------------------------------------------------------

  /** A reply of fewer words than this is short. */
  const ShortReplyWords: int := 10

  /** The position of the first signal at or after `from` that may be disclosed at low
      risk, or -1. */
  function FirstDisclosableFrom(policy: PatternDisclosurePolicy, patterns: seq<PatternSignal>, from: nat): (i: int)
    requires from <= |patterns|
    ensures i == -1 || from <= i < |patterns|
    ensures i == -1 <==> forall j | from <= j < |patterns| :: !IsPatternDisclosureAllowed(policy, patterns[j], Low)
    ensures i != -1 ==> IsPatternDisclosureAllowed(policy, patterns[i], Low)
    ensures i != -1 ==> forall j | from <= j < i :: !IsPatternDisclosureAllowed(policy, patterns[j], Low)
    decreases |patterns| - from
  {
    if from == |patterns| then -1
    else if IsPatternDisclosureAllowed(policy, patterns[from], Low) then from
    else FirstDisclosableFrom(policy, patterns, from + 1)
  }

  /** `patterns.find(...)` for a signal disclosable at low risk. */
  function FirstDisclosable(policy: PatternDisclosurePolicy, patterns: seq<PatternSignal>): (r: Option<PatternSignal>)
    ensures r.None? <==> forall j | 0 <= j < |patterns| :: !IsPatternDisclosureAllowed(policy, patterns[j], Low)
    ensures r.Some? ==> r.value in patterns && IsPatternDisclosureAllowed(policy, r.value, Low)
  {
    var i := FirstDisclosableFrom(policy, patterns, 0);
    if i == -1 then None else Some(patterns[i])
  }

  /** How the host names a pattern: its cost hint, or its kind when there is none. */
  function NamePattern(s: PatternSignal): string {
    if HasCostHint(s) then s.costHint.value else PatternKindName(s.kind)
  }

  /** The callback quotes the first eligible echo. */
  function CallbackInstruction(echo: EchoPhrase): string {
    "Callback to: \"" + echo.phrase + "\""
  }

  function PatternInstruction(s: PatternSignal): string {
    "Name the pattern: " + NamePattern(s)
  }

  predicate PinRung(available: seq<HostMove>, userMessage: string) {
    WordCount(userMessage) < ShortReplyWords && PinToSpecifics in available
  }

  predicate CallbackRung(available: seq<HostMove>, eligibleEchoes: seq<EchoPhrase>) {
    |eligibleEchoes| > 0 && ReturnToOpenLoop in available
  }

  predicate PatternRung(available: seq<HostMove>, policy: PatternDisclosurePolicy, patterns: seq<PatternSignal>) {
    FirstDisclosable(policy, patterns).Some? && PatternPause in available
  }

  predicate ConfrontRung(inevitability: InevitabilityScore) {
    inevitability.score >= inevitability.thresholdForConfrontSoft
  }

  /** `proposeMove`: the first rung that applies, top-down — a short reply gets pinned
      to specifics, an eligible echo gets called back, a disclosable pattern gets named,
      a converging story gets an observation — else the host mirrors. Only the first
      three rungs ask whether their move is available; every proposal carries two
      alternates, both different from the primary move. */
  function ProposeMove(available: seq<HostMove>, policy: PatternDisclosurePolicy, userMessage: string,
                       patterns: seq<PatternSignal>, eligibleEchoes: seq<EchoPhrase>,
                       inevitability: InevitabilityScore): (p: MoveProposal)
    ensures |p.alternates| == 2
    ensures forall a | a in p.alternates :: a.move != p.primary.move
    ensures p.primary.move == PinToSpecifics <==> PinRung(available, userMessage)
    ensures p.primary.move == ReturnToOpenLoop <==>
      !PinRung(available, userMessage) && CallbackRung(available, eligibleEchoes)
    ensures p.primary.move == PatternPause <==>
      && !PinRung(available, userMessage) && !CallbackRung(available, eligibleEchoes)
      && PatternRung(available, policy, patterns)
    ensures p.primary.move == StateAndStop <==>
      && !PinRung(available, userMessage) && !CallbackRung(available, eligibleEchoes)
      && !PatternRung(available, policy, patterns) && ConfrontRung(inevitability)
    ensures p.primary.move == MirrorLanguage <==>
      && !PinRung(available, userMessage) && !CallbackRung(available, eligibleEchoes)
      && !PatternRung(available, policy, patterns) && !ConfrontRung(inevitability)
    ensures p.primary.move == ReturnToOpenLoop ==> p.primary.instruction == CallbackInstruction(eligibleEchoes[0])
    ensures p.primary.move == PatternPause ==>
      p.primary.instruction == PatternInstruction(FirstDisclosable(policy, patterns).value)
    ensures p.primary.move == PinToSpecifics ==>
      && p.primary.instruction == "Ask for the specific moment or image."
      && p.alternates == [ MoveChoice(MirrorLanguage, "Reflect their words back."),
                           MoveChoice(HostMove.Silence, "Wait. Let them fill the space.") ]
    ensures p.primary.move == ReturnToOpenLoop ==>
      p.alternates == [ MoveChoice(MirrorLanguage, "Reflect first, callback later."),
                        MoveChoice(BridgeThread, "Connect this to the earlier moment.") ]
    ensures p.primary.move == PatternPause ==>
      p.alternates == [ MoveChoice(StateAndStop, "Make an observation, then silence."),
                        MoveChoice(OfferFork, "Give them a choice to go deeper or sideways.") ]
    ensures p.primary.move == StateAndStop ==>
      && p.primary.instruction == "Make an observation about what you're hearing. Then stop."
      && p.alternates == [ MoveChoice(UtilitarianCheck, "Ask how this is working for them."),
                           MoveChoice(LightPress, "One gentle follow-up.") ]
    ensures p.primary.move == MirrorLanguage ==>
      && p.primary.instruction == "Reflect their exact words. Let them hear themselves."
      && p.alternates == [ MoveChoice(HostMove.Silence, "Wait. Give them space."),
                           MoveChoice(OfferFork, "Stay here or explore something else?") ]
  {
    if PinRung(available, userMessage) then
      MoveProposal(
        MoveChoice(PinToSpecifics, "Ask for the specific moment or image."),
        [ MoveChoice(MirrorLanguage, "Reflect their words back."),
          MoveChoice(HostMove.Silence, "Wait. Let them fill the space.") ])
    else if CallbackRung(available, eligibleEchoes) then
      MoveProposal(
        MoveChoice(ReturnToOpenLoop, CallbackInstruction(eligibleEchoes[0])),
        [ MoveChoice(MirrorLanguage, "Reflect first, callback later."),
          MoveChoice(BridgeThread, "Connect this to the earlier moment.") ])
    else if PatternRung(available, policy, patterns) then
      MoveProposal(
        MoveChoice(PatternPause, PatternInstruction(FirstDisclosable(policy, patterns).value)),
        [ MoveChoice(StateAndStop, "Make an observation, then silence."),
          MoveChoice(OfferFork, "Give them a choice to go deeper or sideways.") ])
    else if ConfrontRung(inevitability) then
      MoveProposal(
        MoveChoice(StateAndStop, "Make an observation about what you're hearing. Then stop."),
        [ MoveChoice(UtilitarianCheck, "Ask how this is working for them."),
          MoveChoice(LightPress, "One gentle follow-up.") ])
    else
      MoveProposal(
        MoveChoice(MirrorLanguage, "Reflect their exact words. Let them hear themselves."),
        [ MoveChoice(HostMove.Silence, "Wait. Give them space."),
          MoveChoice(OfferFork, "Stay here or explore something else?") ])
  }

  /** The ladder's first three rungs propose only available moves; the last two may
      propose a move the Director's state does not allow. */
  lemma {:induction false} LadderLegality(available: seq<HostMove>, policy: PatternDisclosurePolicy, userMessage: string,
                                          patterns: seq<PatternSignal>, eligibleEchoes: seq<EchoPhrase>,
                                          inevitability: InevitabilityScore)
    ensures var move := ProposeMove(available, policy, userMessage, patterns, eligibleEchoes, inevitability).primary.move;
      move != StateAndStop && move != MirrorLanguage ==> move in available
  {
  }

  /** In the safety hold every proposal is one the Director refuses there. */
  lemma {:induction false} LadderInSafetyHold(policy: PatternDisclosurePolicy, userMessage: string,
                                              patterns: seq<PatternSignal>, eligibleEchoes: seq<EchoPhrase>,
                                              inevitability: InevitabilityScore)
    ensures var move := ProposeMove(MoveAvailability(SafetyHold), policy, userMessage, patterns, eligibleEchoes, inevitability).primary.move;
      (move == StateAndStop || move == MirrorLanguage) && move !in MoveAvailability(SafetyHold)
  {
    var safetyMoves := MoveAvailability(SafetyHold);
    assert PinToSpecifics !in safetyMoves && ReturnToOpenLoop !in safetyMoves && PatternPause !in safetyMoves;
  }

  /** In the green room the ladder can only state-and-stop (when the story converges)
      or mirror. */
  lemma {:induction false} LadderInGreenRoom(policy: PatternDisclosurePolicy, userMessage: string,
                                             patterns: seq<PatternSignal>, eligibleEchoes: seq<EchoPhrase>,
                                             inevitability: InevitabilityScore)
    ensures var move := ProposeMove(MoveAvailability(GreenRoom), policy, userMessage, patterns, eligibleEchoes, inevitability).primary.move;
      && (move == StateAndStop <==> ConfrontRung(inevitability))
      && (move == MirrorLanguage <==> !ConfrontRung(inevitability))
  {
    var greenMoves := MoveAvailability(GreenRoom);
    assert PinToSpecifics !in greenMoves && ReturnToOpenLoop !in greenMoves && PatternPause !in greenMoves;
  }

  // ---------------------------------------------------------------------------
  // Risk, posture and tone
  // ---------------------------------------------------------------------------

  /** A shame or freeze cue observed with confidence above 0.7. */
  predicate IsHighRisk(p: PatternSignal) {
    (p.kind == ShameCue || p.kind == FreezeCue) && p.confidence > 0.7
  }

  /** `assessRiskLevel`: critical with a safety signal, elevated with a confident shame
      or freeze cue, else low. */
  function AssessRiskLevel(patterns: seq<PatternSignal>, safetySignal: Option<SafetySignal>): (r: RiskLevel)
    ensures r == Critical <==> safetySignal.Some?
    ensures r == Elevated <==> safetySignal.None? && exists i | 0 <= i < |patterns| :: IsHighRisk(patterns[i])
  {
    if safetySignal.Some? then Critical
    else if Count(patterns, IsHighRisk) > 0 then Elevated
    else Low
  }

  /** `determinePosture`: silence sits silent, state-and-stop leans back, presses and
      pins lean in; any other move confronts softly only once the score is past the
      reveal threshold. The feed never confronts firmly. */
  function DeterminePosture(move: HostMove, inevitability: real): (p: Posture)
    ensures move == HostMove.Silence ==> p == Posture.Silence
    ensures move == StateAndStop ==> p == LeanBack
    ensures move == LightPress || move == PinToSpecifics ==> p == LeanIn
    ensures p == ConfrontSoft <==>
      move !in {HostMove.Silence, StateAndStop, LightPress, PinToSpecifics} && inevitability > RevealThreshold
    ensures move !in {HostMove.Silence, StateAndStop, LightPress, PinToSpecifics} && inevitability <= RevealThreshold
            ==> p == LeanIn
    ensures p == LeanIn <==>
      || move == LightPress || move == PinToSpecifics
      || (move !in {HostMove.Silence, StateAndStop} && inevitability <= RevealThreshold)
    ensures p != ConfrontFirm
  {
    if move == HostMove.Silence then Posture.Silence
    else if move == StateAndStop then LeanBack
    else if move == LightPress || move == PinToSpecifics then LeanIn
    else if inevitability > 0.7 then ConfrontSoft
    else LeanIn
  }

  /** `determineTone`: gentle whenever risk is elevated, and only then; otherwise
      precise for pins and utilitarian checks, warm for everything else. */
  function DetermineTone(move: HostMove, riskLevel: RiskLevel): (t: Tone)
    ensures t == GentleCuriosity <==> riskLevel == Elevated
    ensures riskLevel != Elevated ==>
      (t == SkepticalPrecision <==> move == PinToSpecifics || move == UtilitarianCheck)
  {
    if riskLevel == Elevated then GentleCuriosity
    else if move == PinToSpecifics || move == UtilitarianCheck then SkepticalPrecision
    else WarmAuthority
  }

  // ---------------------------------------------------------------------------
  // The safety feed
  // ---------------------------------------------------------------------------

  /** `createSafetyFeed`: ground the user with the crisis response; no alternates, no
      pressure, nothing to disclose, nothing to reveal, critical risk. */
  function CreateSafetyFeed(signal: SafetySignal): (f: EarpieceFeed)
    ensures FeedWF(f)
    ensures f.status == Live && f.move == SafetyGround && f.instruction == GetResponse(signal)
    ensures f.posture == LeanBack && f.tone == WarmAuthority
    ensures f.alternates == [] && f.pressureCaps == FeedPressureCaps(0, 0)
    ensures f.guardrails.riskLevel == Critical && f.guardrails.safetyMode == StopAndGround
    ensures f.guardrails.permissionRequiredTopics == []
    ensures f.patternState.detected == [] && !f.patternState.disclosureAllowed
    ensures f.act == "Safety Hold"
    ensures f.guardrails.forbiddenInitiations == ["all"]
    ensures f.inevitability == FeedInevitability(0.0, "Safety override", 1.0)
    ensures f.revealPlan.None? && f.jumbotronCue.None?
  {
    EarpieceFeed(
      Live,
      "Safety Hold",
      SafetyGround,
      LeanBack,
      WarmAuthority,
      GetResponse(signal),
      [],
      FeedPressureCaps(0, 0),
      Guardrails(["all"], [], Critical, StopAndGround),
      PatternState([], false, None),
      FeedInevitability(0.0, "Safety override", 1.0),
      None,
      None)
  }

  // ---------------------------------------------------------------------------
  // Pieces of the normal turn
  // ---------------------------------------------------------------------------

  /** The position of the first open loop at or after `from`, or -1. */
  function FirstOpenFrom(loops: seq<OpenLoop>, from: nat): (i: int)
    requires from <= |loops|
    ensures i == -1 || from <= i < |loops|
    ensures i == -1 <==> forall j | from <= j < |loops| :: loops[j].status != Open
    ensures i != -1 ==> loops[i].status == Open && forall j | from <= j < i :: loops[j].status != Open
    decreases |loops| - from
  {
    if from == |loops| then -1
    else if loops[from].status == Open then from
    else FirstOpenFrom(loops, from + 1)
  }

  /** The first loop still open, in list order. */
  function TopOpenLoop(loops: seq<OpenLoop>): (r: Option<OpenLoop>)
    ensures r.None? <==> forall j | 0 <= j < |loops| :: loops[j].status != Open
    ensures r.Some? ==> r.value in loops && r.value.status == Open
    ensures r.Some? ==> exists i | 0 <= i < |loops| :: loops[i] == r.value && forall j | 0 <= j < i :: loops[j].status != Open
  {
    var i := FirstOpenFrom(loops, 0);
    if i == -1 then None else Some(loops[i])
  }

  /** `topOpenLoop?.id || null`: the loop's id, unless there is no loop or its id is
      empty. */
  function TopicKey(top: Option<OpenLoop>): (k: Option<string>)
    ensures k.Some? <==> top.Some? && top.value.id != ""
    ensures k.Some? ==> k.value == top.value.id
  {
    if top.Some? && top.value.id != "" then Some(top.value.id) else None
  }

  /** The act line of the feed: the act number and the top loop's topic, or
      "Opening" when there is no loop or its topic is empty. */
  function ActLabel(currentAct: int, top: Option<OpenLoop>): string {
    "Act " + IntToString(currentAct) + ": "
    + (if top.Some? && top.value.topic != "" then top.value.topic else "Opening")
  }

  /** The act label names the act number and then the top loop's topic; without an
      open loop, or when its topic is empty, it says "Opening". Distinct acts give
      distinct labels. */
  lemma {:induction false} ActLabelParts(currentAct: int, top: Option<OpenLoop>, otherAct: int)
    ensures top.Some? && top.value.topic != "" ==>
      ActLabel(currentAct, top) == "Act " + IntToString(currentAct) + ": " + top.value.topic
    ensures top.None? || top.value.topic == "" ==>
      ActLabel(currentAct, top) == "Act " + IntToString(currentAct) + ": Opening"
    ensures ActLabel(currentAct, None) == ActLabel(otherAct, None) ==> currentAct == otherAct
  {
    var l1, l2 := ActLabel(currentAct, None), ActLabel(otherAct, None);
    if l1 == l2 {
      var s1, s2 := IntToString(currentAct), IntToString(otherAct);
      assert l1 == "Act " + (s1 + ": Opening");
      assert l2 == "Act " + (s2 + ": Opening");
      assert s1 + ": Opening" == l1[4..] == l2[4..] == s2 + ": Opening";
      assert s1 == (s1 + ": Opening")[..|s1|] == (s2 + ": Opening")[..|s2|] == s2;
      IntToStringInjective(currentAct, otherAct);
    }
  }

  /** The score of the top open loop's topic; without an open loop, zero. */
  function TurnInevitability(ep: EpisodeState, top: Option<OpenLoop>, m: Matcher): (s: InevitabilityScore)
    ensures 0.0 <= s.score <= 1.0
    ensures top.Some? ==> s == Compute(ep, top.value.topic, m)
    ensures top.None? ==> s.score == 0.0 && s.rationale == "No open loops"
    ensures s.thresholdForReveal == RevealThreshold && s.thresholdForConfrontSoft == ConfrontSoftThreshold
  {
    if top.Some? then Compute(ep, top.value.topic, m)
    else InevitabilityScore(0.0, "No open loops", RevealThreshold, ConfrontSoftThreshold, ConfrontFirmThreshold)
  }

  /** Loops of priority 8 or more need the user's permission: their topics, in order. */
  function PermissionRequiredTopics(loops: seq<OpenLoop>): (topics: seq<string>)
    ensures |topics| == Count(loops, (l: OpenLoop) => l.priority >= 8)
    ensures forall t | t in topics :: exists l | l in loops :: l.priority >= 8 && l.topic == t
    ensures forall l | l in loops && l.priority >= 8 :: l.topic in topics
  {
    if |loops| == 0 then []
    else
      var init := loops[..|loops| - 1];
      var last := loops[|loops| - 1];
      var prev := PermissionRequiredTopics(init);
      assert forall l | l in loops :: l in init || l == last;
      assert forall l | l in init :: l in loops;
      if last.priority >= 8 then prev + [last.topic] else prev
  }

  /** The topics keep the order of the loops they come from, once per loop. */
  lemma {:induction false} PermissionRequiredTopicsAppend(a: seq<OpenLoop>, b: seq<OpenLoop>)
    ensures PermissionRequiredTopics(a + b) == PermissionRequiredTopics(a) + PermissionRequiredTopics(b)
    decreases |b|
  {
    if |b| == 0 {
      assert a + b == a;
    } else {
      var init := b[..|b| - 1];
      assert (a + b)[..|a + b| - 1] == a + init;
      assert (a + b)[|a + b| - 1] == b[|b| - 1];
      PermissionRequiredTopicsAppend(a, init);
    }
  }

  /** A single loop contributes its topic exactly when its priority is 8 or more. */
  lemma PermissionRequiredTopicsOne(l: OpenLoop)
    ensures PermissionRequiredTopics([l]) == if l.priority >= 8 then [l.topic] else []
  {
    assert [l][..0] == [];
  }

  /** The signals that may be disclosed at the given risk, in order. */
  function Disclosable(policy: PatternDisclosurePolicy, patterns: seq<PatternSignal>, riskLevel: RiskLevel): (r: seq<PatternSignal>)
    ensures |r| <= |patterns|
    ensures forall s | s in r :: s in patterns && IsPatternDisclosureAllowed(policy, s, riskLevel)
    ensures forall s | s in patterns && IsPatternDisclosureAllowed(policy, s, riskLevel) :: s in r
    ensures |r| > 0 ==> exists i | 0 <= i < |patterns| ::
      && r[0] == patterns[i]
      && forall j | 0 <= j < i :: !IsPatternDisclosureAllowed(policy, patterns[j], riskLevel)
  {
    if |patterns| == 0 then []
    else
      var rest := Disclosable(policy, patterns[1..], riskLevel);
      assert forall s | s in patterns :: s == patterns[0] || s in patterns[1..];
      assert forall s | s in patterns[1..] :: s in patterns;
      if IsPatternDisclosureAllowed(policy, patterns[0], riskLevel) then
        [patterns[0]] + rest
      else
        assert |rest| > 0 ==> exists i | 0 <= i < |patterns| ::
          && rest[0] == patterns[i]
          && forall j | 0 <= j < i :: !IsPatternDisclosureAllowed(policy, patterns[j], riskLevel) by {
          if |rest| > 0 {
            var i :| 0 <= i < |patterns[1..]| && rest[0] == patterns[1..][i] &&
              forall j | 0 <= j < i :: !IsPatternDisclosureAllowed(policy, patterns[1..][j], riskLevel);
            assert rest[0] == patterns[i + 1];
            forall j | 0 <= j < i + 1 ensures !IsPatternDisclosureAllowed(policy, patterns[j], riskLevel) {
              if j > 0 {
                assert patterns[j] == patterns[1..][j - 1];
              }
            }
          }
        }
        rest
  }

  /** Why disclosure is allowed: the first disclosable signal and how often it was seen. */
  function DisclosureReason(disclosable: seq<PatternSignal>): Option<string> {
    if |disclosable| > 0 then
      Some(PatternKindName(disclosable[0].kind) + " observed " + IntToString(disclosable[0].occurrenceCount) + " times")
    else None
  }

  const VetoPivot: string := "Pivot to safer ground."

  /** The move that goes out: a veto's alternative, unchecked against the Director's
      table, or else the proposal's primary move. */
  function FinalMove(proposal: MoveProposal, review: SPVeto): (c: MoveChoice)
    ensures review.vetoed && review.alternativeMove.Some? ==> c == MoveChoice(review.alternativeMove.value, VetoPivot)
    ensures !(review.vetoed && review.alternativeMove.Some?) ==> c == proposal.primary
  {
    if review.vetoed && review.alternativeMove.Some? then MoveChoice(review.alternativeMove.value, VetoPivot)
    else proposal.primary
  }

  function StatusOf(s: DirectorState): FeedStatus {
    if s == DirectorState.CommercialBreak then FeedStatus.CommercialBreak
    else if s == DirectorState.Wrap then FeedStatus.Wrap
    else Live
  }

  const ForbiddenInitiations: seq<string> := ["polygraph", "diagnosis", "therapy"]

  /** The feed of a turn without a safety signal, from what the pipeline computed. */
  function BuildFeed(directorState: DirectorState, currentAct: int, ep: EpisodeState, top: Option<OpenLoop>,
                     merged: seq<PatternSignal>, disclosable: seq<PatternSignal>,
                     inevitability: InevitabilityScore, proposal: MoveProposal, riskLevel: RiskLevel,
                     finalMove: MoveChoice): EarpieceFeed
  {
    EarpieceFeed(
      StatusOf(directorState),
      ActLabel(currentAct, top),
      finalMove.move,
      DeterminePosture(finalMove.move, inevitability.score),
      DetermineTone(finalMove.move, riskLevel),
      finalMove.instruction,
      if |proposal.alternates| <= 2 then proposal.alternates else proposal.alternates[..2],
      FeedPressureCaps(3, 2),
      Guardrails(ForbiddenInitiations, PermissionRequiredTopics(ep.openLoops), riskLevel, Normal),
      PatternState(merged, |disclosable| > 0, DisclosureReason(disclosable)),
      FeedInevitability(inevitability.score, inevitability.rationale, inevitability.thresholdForReveal),
      None,
      None)
  }

  /** The turn number of the turn being processed. */
  function TurnNumber(ep: EpisodeState): int {
    ep.metrics.currentTurn + 1
  }

  /** The merged pattern list after a turn without a safety signal. */
  function MergedAfter(m: Matcher, userMessage: string, turnId: string, ep: EpisodeState): seq<PatternSignal> {
    MergeAll(ep.patternSignals, DetectedSignals(m, userMessage, turnId, TurnNumber(ep)))
  }

  /** Steps 4 to 10 of a turn without a safety signal — inevitability of the top open
      loop, eligible echoes, the proposal, the risk, the S&P review, disclosure and the
      feed — given the merged patterns and the Director's context and policy as they
      stand before the turn is recorded (recording a turn changes no state). */
  function FeedFor(m: Matcher, ctx: DirectorContext, policy: PatternDisclosurePolicy,
                   userMessage: string, ep: EpisodeState, merged: seq<PatternSignal>): EarpieceFeed
  {
    var top := TopOpenLoop(ep.openLoops);
    var inevitability := TurnInevitability(ep, top, m);
    var eligible := GetEligible(ep.echoPhrases, ep.metrics.currentAct, TurnNumber(ep));
    var proposal := ProposeMove(MoveAvailability(ctx.currentState), policy, userMessage, merged, eligible, inevitability);
    var riskLevel := AssessRiskLevel(merged, None);
    var review := ReviewMove(m, proposal.primary.move, proposal.primary.instruction, ctx, riskLevel);
    var finalMove := FinalMove(proposal, review);
    BuildFeed(ctx.currentState, ep.metrics.currentAct, ep, top, merged, Disclosable(policy, merged, riskLevel),
              inevitability, proposal, riskLevel, finalMove)
  }

  /** The feed of a turn without a safety signal. */
  function TurnFeed(m: Matcher, ctx: DirectorContext, policy: PatternDisclosurePolicy,
                    userMessage: string, turnId: string, ep: EpisodeState): EarpieceFeed
  {
    FeedFor(m, ctx, policy, userMessage, ep, MergedAfter(m, userMessage, turnId, ep))
  }

  /** The episode after a turn without a safety signal: merged patterns, this turn's
      echoes appended unused, and the turn counter advanced; nothing else changes. */
  function TurnState(m: Matcher, userMessage: string, turnId: string, ep: EpisodeState): EpisodeState {
    var turnNumber := TurnNumber(ep);
    ep.(patternSignals := MergedAfter(m, userMessage, turnId, ep),
        echoPhrases := ep.echoPhrases
          + ToEchoPhrases(Captured(m, userMessage, turnId, ep.metrics.currentAct, turnNumber), turnNumber),
        metrics := ep.metrics.(currentTurn := turnNumber))
  }

  /** A turn without a safety signal advances the turn counter by exactly one, keeps
      the earlier echoes and appends one unused echo per expression match, and merges
      this turn's signals so that a kind is present exactly when it was before or was
      detected now; nothing else in the episode changes. */
  lemma {:induction false} TurnStateChanges(m: Matcher, userMessage: string, turnId: string, ep: EpisodeState)
    ensures var r := TurnState(m, userMessage, turnId, ep);
      && r.metrics.currentTurn == ep.metrics.currentTurn + 1
      && r.metrics.(currentTurn := ep.metrics.currentTurn) == ep.metrics
      && r.(patternSignals := ep.patternSignals, echoPhrases := ep.echoPhrases, metrics := ep.metrics) == ep
    ensures var r := TurnState(m, userMessage, turnId, ep);
      && |r.echoPhrases| == |ep.echoPhrases| + MatchCount(m, EchoPatterns, userMessage)
      && r.echoPhrases[..|ep.echoPhrases|] == ep.echoPhrases
      && forall i | |ep.echoPhrases| <= i < |r.echoPhrases| ::
           !r.echoPhrases[i].used && r.echoPhrases[i].turnId == turnId
    ensures forall k: PatternKind ::
      HasKind(TurnState(m, userMessage, turnId, ep).patternSignals, k) <==>
        HasKind(ep.patternSignals, k) || PatternEngine.Detect(m, k, userMessage).Some?
  {
    var turnNumber := TurnNumber(ep);
    var captured := Captured(m, userMessage, turnId, ep.metrics.currentAct, turnNumber);
    CapturedForCount(m, EchoPatterns, userMessage, turnId, ep.metrics.currentAct, turnNumber);
    forall i | 0 <= i < |captured|
      ensures captured[i].turnId == turnId
    {
      var k := CapturedForSource(m, EchoPatterns, userMessage, turnId, ep.metrics.currentAct, turnNumber, i);
    }
    var newEchoes := ToEchoPhrases(captured, turnNumber);
    assert (ep.echoPhrases + newEchoes)[..|ep.echoPhrases|] == ep.echoPhrases;
    var detected := DetectedSignals(m, userMessage, turnId, turnNumber);
    DetectedSignalsShape(m, userMessage, turnId, turnNumber);
    MergeAllKinds(ep.patternSignals, detected);
  }

  /** The episode after a turn with a safety signal: one more safety incident, naming
      the turn, the crisis type and the response given; nothing else changes. */
  function SafetyState(ep: EpisodeState, turnId: string, signal: SafetySignal): (r: EpisodeState)
    ensures r.safetyIncidents == ep.safetyIncidents + [SafetyIncident(turnId, SafetyTypeName(signal.signalType), GetResponse(signal))]
    ensures r.(safetyIncidents := ep.safetyIncidents) == ep
    ensures EpisodeWF(ep) ==> EpisodeWF(r)
  {
    ep.(safetyIncidents := ep.safetyIncidents + [SafetyIncident(turnId, SafetyTypeName(signal.signalType), GetResponse(signal))])
  }

  /** The episode stays within its schema across a turn: merged signals keep their
      confidences in [0, 1] and one signal per kind; loops, moments and plans are
      untouched. */
  lemma TurnStateWellFormed(m: Matcher, userMessage: string, turnId: string, ep: EpisodeState)
    requires EpisodeWF(ep)
    ensures EpisodeWF(TurnState(m, userMessage, turnId, ep))
  {
    var detected := DetectedSignals(m, userMessage, turnId, TurnNumber(ep));
    DetectedSignalsShape(m, userMessage, turnId, TurnNumber(ep));
    assert forall x | x in detected :: PatternSignalWF(x);
    MergeAllWellFormed(ep.patternSignals, detected);
    MergeAllUnique(ep.patternSignals, detected);
  }

  /** On a turn without a safety signal the risk is never critical, so the governor's
      critical-risk veto cannot fire, and disclosure at the turn's risk is disclosure
      at low risk. The feed is normal-mode, capped at three follow-ups, with the two
      alternates of the proposal and a score in [0, 1]. */
  lemma {:induction false} TurnFeedShape(m: Matcher, ctx: DirectorContext, policy: PatternDisclosurePolicy,
                                         userMessage: string, turnId: string, ep: EpisodeState)
    requires EpisodeWF(ep)
    ensures var f := TurnFeed(m, ctx, policy, userMessage, turnId, ep);
      && FeedWF(f)
      && |f.alternates| == 2
      && f.guardrails.riskLevel != Critical
      && f.guardrails.safetyMode == Normal
      && f.pressureCaps == FeedPressureCaps(3, 2)
      && f.revealPlan.None?
    ensures var merged := MergedAfter(m, userMessage, turnId, ep);
      Disclosable(policy, merged, AssessRiskLevel(merged, None)) == Disclosable(policy, merged, Low)
  {
    var merged := MergedAfter(m, userMessage, turnId, ep);
    TurnStateWellFormed(m, userMessage, turnId, ep);
    assert merged == TurnState(m, userMessage, turnId, ep).patternSignals;
    DisclosableIgnoresNonCriticalRisk(policy, merged, AssessRiskLevel(merged, None));
  }

  /** Disclosure depends on the risk level only through whether it is critical. */
  lemma {:induction false} DisclosableIgnoresNonCriticalRisk(policy: PatternDisclosurePolicy, patterns: seq<PatternSignal>, riskLevel: RiskLevel)
    requires riskLevel != Critical
    ensures Disclosable(policy, patterns, riskLevel) == Disclosable(policy, patterns, Low)
  {
    if |patterns| > 0 {
      DisclosableIgnoresNonCriticalRisk(policy, patterns[1..], riskLevel);
    }
  }

  /** Steps 2 to 8 and 10 to 11 of `processTurn`, once no crisis language was found:
      detect and merge patterns, capture echoes, and build the feed and the updated
      episode. The Director's context and policy are read, not changed. */
  method TurnPipeline(m: Matcher, ctx: DirectorContext, policy: PatternDisclosurePolicy,
                      userMessage: string, turnId: string, episode: EpisodeState)
    returns (feed: EarpieceFeed, updated: EpisodeState)
    ensures feed == FeedFor(m, ctx, policy, userMessage, episode, MergedAfter(m, userMessage, turnId, episode))
    ensures updated == TurnState(m, userMessage, turnId, episode)
  {
    var turnNumber := episode.metrics.currentTurn + 1;
    var currentAct := episode.metrics.currentAct;

    var newPatterns := DetectPatterns(m, userMessage, turnId, turnNumber);
    var mergedPatterns := MergePatterns(episode.patternSignals, newPatterns);
    assert mergedPatterns == MergedAfter(m, userMessage, turnId, episode);
    var newEchoes := Capture(m, userMessage, turnId, currentAct, turnNumber);
    assert turnNumber == TurnNumber(episode);

    feed := FeedFor(m, ctx, policy, userMessage, episode, mergedPatterns);
    updated := episode.(
      patternSignals := mergedPatterns,
      echoPhrases := episode.echoPhrases + ToEchoPhrases(newEchoes, turnNumber),
      metrics := episode.metrics.(currentTurn := turnNumber));
  }

  // ---------------------------------------------------------------------------
  // The Control Room
  // ---------------------------------------------------------------------------

  class ControlRoom {
    const director: Director
    const matcher: Matcher

    /** A control room with a fresh Director at its defaults. */
    constructor (matcher: Matcher)
      ensures this.matcher == matcher && fresh(director)
      ensures director.context == DirectorContext(GreenRoom, 1, 0, 0, 0, None, None, false)
      ensures director.pressureCaps == DefaultPressureCaps
      ensures director.patternPolicy == DefaultPatternDisclosurePolicy
    {
      this.matcher := matcher;
      director := new Director();
    }

    /** `processTurn`. With crisis language the Director goes to the safety hold, the
        feed grounds the user, and the only change to the episode is one more safety
        incident. Otherwise the Director records the turn on the top open loop's id
        (its state never changes here) and the feed and episode follow `TurnFeed` and
        `TurnState`. `now` is the time stamped on a safety signal. */
    method ProcessTurn(userMessage: string, turnId: string, episode: EpisodeState, now: string)
      returns (feed: EarpieceFeed, updated: EpisodeState)
      modifies director
      ensures FirstCrisis(matcher, userMessage).Some? ==>
        var signal := SafetySignal(FirstCrisis(matcher, userMessage).value, DetectionConfidence, turnId, now);
        && feed == CreateSafetyFeed(signal)
        && updated == SafetyState(episode, turnId, signal)
        && director.context == old(director.context).(currentState := SafetyHold, safetyOverride := true)
      ensures FirstCrisis(matcher, userMessage).None? ==>
        && feed == TurnFeed(matcher, old(director.context), director.patternPolicy, userMessage, turnId, episode)
        && updated == TurnState(matcher, userMessage, turnId, episode)
        && director.context == Recorded(old(director.context), TopicKey(TopOpenLoop(episode.openLoops)))
      ensures EpisodeWF(episode) ==> FeedWF(feed) && EpisodeWF(updated)
    {
      var safetySignal := SafetyDetection.Detect(matcher, userMessage, turnId, now);
      if safetySignal.Some? {
        director.TriggerSafety();
        feed := CreateSafetyFeed(safetySignal.value);
        updated := SafetyState(episode, turnId, safetySignal.value);
        return;
      }
      feed, updated := TurnPipeline(matcher, director.context, director.patternPolicy, userMessage, turnId, episode);
      director.RecordTurn(TopicKey(TopOpenLoop(episode.openLoops)));
      if EpisodeWF(episode) {
        TurnStateWellFormed(matcher, userMessage, turnId, episode);
        TurnFeedShape(matcher, old(director.context), director.patternPolicy, userMessage, turnId, episode);
      }
    }
  }
}
