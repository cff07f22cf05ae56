/** The engine's canonical types: closed enumerations for moves, pattern kinds and
    safety signals, the records exchanged between the Director and the Control Room,
    and the range and size bounds that a well-formed value respects. */
module Schemas {
  import opened Basics

  // ---------------------------------------------------------------------------
  // Host moves: a finite, locked registry
  // ---------------------------------------------------------------------------

  datatype HostMove =
    | PinToSpecifics      // ask for concrete detail after a vague statement
    | MirrorLanguage      // repeat the user's exact words back
    | NameTheShift        // observe a change in speech pattern
    | StateAndStop        // a statement, then deliberate silence
    | OfferFork           // "stay here or step sideways?"
    | ReturnToOpenLoop    // delayed callback to an earlier thread
    | BridgeThread        // connect two distant moments
    | LightPress          // a single follow-up, no recursion
    | UtilitarianCheck    // "how's that working?"
    | PatternPause        // name a pattern, then stop
    | EarnedReveal        // execute an approved reveal plan
    | CommercialBreak     // synthesis pause
    | Wrap                // recap and consent for follow-ups
    | Silence             // deliberate pause with a minimal continuer
    | SafetyGround        // safety escalation response

  const AllHostMoves: seq<HostMove> := [
    PinToSpecifics, MirrorLanguage, NameTheShift, StateAndStop, OfferFork,
    ReturnToOpenLoop, BridgeThread, LightPress, UtilitarianCheck, PatternPause,
    EarnedReveal, HostMove.CommercialBreak, HostMove.Wrap, HostMove.Silence, SafetyGround
  ]

  /** The move registry is closed: exactly fifteen distinct moves, and every move is one of them. */
  lemma {:induction false} HostMoveRegistryClosed()
    ensures |AllHostMoves| == 15
    ensures forall m: HostMove :: m in AllHostMoves
    ensures forall i, j | 0 <= i < j < |AllHostMoves| :: AllHostMoves[i] != AllHostMoves[j]
  {
    forall m: HostMove ensures m in AllHostMoves {
      match m
      case PinToSpecifics => assert AllHostMoves[0] == m;
      case MirrorLanguage => assert AllHostMoves[1] == m;
      case NameTheShift => assert AllHostMoves[2] == m;
      case StateAndStop => assert AllHostMoves[3] == m;
      case OfferFork => assert AllHostMoves[4] == m;
      case ReturnToOpenLoop => assert AllHostMoves[5] == m;
      case BridgeThread => assert AllHostMoves[6] == m;
      case LightPress => assert AllHostMoves[7] == m;
      case UtilitarianCheck => assert AllHostMoves[8] == m;
      case PatternPause => assert AllHostMoves[9] == m;
      case EarnedReveal => assert AllHostMoves[10] == m;
      case CommercialBreak => assert AllHostMoves[11] == m;
      case Wrap => assert AllHostMoves[12] == m;
      case Silence => assert AllHostMoves[13] == m;
      case SafetyGround => assert AllHostMoves[14] == m;
    }
  }

  // ---------------------------------------------------------------------------
  // Pattern signals: non-clinical, observable
  // ---------------------------------------------------------------------------

  datatype PatternKind =
    | MinimizationLanguage
    | AbsolutistLanguage
    | AgencyShiftActiveToPassive
    | ActorOmission
    | ChronologySkip
    | HumorDeflection
    | OverPrecisionInSafeTopics
    | BrevitySpike
    | RepetitionLoop
    | InevitabilityLanguage
    | ShameCue
    | FreezeCue

  /** The kinds in declaration order, which is also the order the detectors run in. */
  const AllPatternKinds: seq<PatternKind> := [
    MinimizationLanguage, AbsolutistLanguage, AgencyShiftActiveToPassive, ActorOmission,
    ChronologySkip, HumorDeflection, OverPrecisionInSafeTopics, BrevitySpike,
    RepetitionLoop, InevitabilityLanguage, ShameCue, FreezeCue
  ]

  /** The pattern-kind catalogue is closed: exactly twelve distinct kinds. */
  lemma {:induction false} PatternKindsClosed()
    ensures |AllPatternKinds| == 12
    ensures forall k: PatternKind :: k in AllPatternKinds
    ensures forall i, j | 0 <= i < j < |AllPatternKinds| :: AllPatternKinds[i] != AllPatternKinds[j]
  {
    forall k: PatternKind ensures k in AllPatternKinds {
      match k
      case MinimizationLanguage => assert AllPatternKinds[0] == k;
      case AbsolutistLanguage => assert AllPatternKinds[1] == k;
      case AgencyShiftActiveToPassive => assert AllPatternKinds[2] == k;
      case ActorOmission => assert AllPatternKinds[3] == k;
      case ChronologySkip => assert AllPatternKinds[4] == k;
      case HumorDeflection => assert AllPatternKinds[5] == k;
      case OverPrecisionInSafeTopics => assert AllPatternKinds[6] == k;
      case BrevitySpike => assert AllPatternKinds[7] == k;
      case RepetitionLoop => assert AllPatternKinds[8] == k;
      case InevitabilityLanguage => assert AllPatternKinds[9] == k;
      case ShameCue => assert AllPatternKinds[10] == k;
      case FreezeCue => assert AllPatternKinds[11] == k;
    }
  }

  /** The wire name of a pattern kind. */
  function PatternKindName(k: PatternKind): string {
    match k
    case MinimizationLanguage => "minimization_language"
    case AbsolutistLanguage => "absolutist_language"
    case AgencyShiftActiveToPassive => "agency_shift_active_to_passive"
    case ActorOmission => "actor_omission"
    case ChronologySkip => "chronology_skip"
    case HumorDeflection => "humor_deflection"
    case OverPrecisionInSafeTopics => "over_precision_in_safe_topics"
    case BrevitySpike => "brevity_spike"
    case RepetitionLoop => "repetition_loop"
    case InevitabilityLanguage => "inevitability_language"
    case ShameCue => "shame_cue"
    case FreezeCue => "freeze_cue"
  }

  datatype PatternSignal = PatternSignal(
    kind: PatternKind,
    evidenceTurnIds: seq<string>,
    confidence: real,
    costHint: Option<string>,
    firstSeenTurn: int,
    lastSeenTurn: int,
    occurrenceCount: int)

  predicate PatternSignalWF(s: PatternSignal) {
    0.0 <= s.confidence <= 1.0
  }

  /** At most one signal per kind: repeats merge, never duplicate. */
  predicate UniqueKinds(signals: seq<PatternSignal>) {
    forall i, j | 0 <= i < j < |signals| :: signals[i].kind != signals[j].kind
  }

  // ---------------------------------------------------------------------------
  // Receipt cards and jumbotron cues
  // ---------------------------------------------------------------------------

  datatype ReceiptCardType = Quote | TimelineSnap | Photo | MissingTape

  datatype HighlightSpan = HighlightSpan(start: int, stop: int)

  /** One record type with per-variant optional fields, as the schema has it. */
  datatype ReceiptCard = ReceiptCard(
    cardType: ReceiptCardType,
    // quote
    docRef: Option<string>,
    excerpt: Option<string>,
    highlightSpans: Option<seq<HighlightSpan>>,
    // timeline
    dateStart: Option<string>,
    dateEnd: Option<string>,
    eventDescription: Option<string>,
    isGap: Option<bool>,
    // photo
    url: Option<string>,
    caption: Option<string>,
    tag: Option<string>,
    // missing tape
    gapDescription: Option<string>)

  datatype JumbotronTiming = BeforeSpeech | DuringSpeech | AfterSpeech

  datatype JumbotronCue = JumbotronCue(triggerTiming: JumbotronTiming, payload: ReceiptCard)

  // ---------------------------------------------------------------------------
  // Reveal plans: tease, permission, reveal, integrate
  // ---------------------------------------------------------------------------

  datatype RevealStatus = Pending | Teased | PermissionGranted | Revealed | Vetoed | Declined

  datatype PermissionGate = PermissionGate(required: bool, askCopy: string)

  datatype RevealPlan = RevealPlan(
    id: string,
    teaseLine: string,
    permissionGate: PermissionGate,
    trigger: string,
    payload: ReceiptCard,
    integrationPrompt: string,
    vetoable: bool,
    status: RevealStatus)

  /** `vetoable` is the literal `true`: Standards & Practices may always block a reveal. */
  predicate RevealPlanWF(p: RevealPlan) {
    p.vetoable
  }

  // ---------------------------------------------------------------------------
  // Earpiece feed: Control Room to host
  // ---------------------------------------------------------------------------

  datatype Posture = LeanIn | LeanBack | Silence | ConfrontSoft | ConfrontFirm

  datatype Tone = WarmAuthority | GentleCuriosity | SkepticalPrecision

  datatype RiskLevel = Low | Elevated | Critical

  datatype SafetyMode = Normal | Cautious | StopAndGround

  datatype FeedStatus = Live | CommercialBreak | Wrap

  datatype MoveChoice = MoveChoice(move: HostMove, instruction: string)

  datatype FeedPressureCaps = FeedPressureCaps(maxFollowupsOnTopic: int, recursionLimit: int)

  datatype Guardrails = Guardrails(
    forbiddenInitiations: seq<string>,
    permissionRequiredTopics: seq<string>,
    riskLevel: RiskLevel,
    safetyMode: SafetyMode)

  datatype PatternState = PatternState(
    detected: seq<PatternSignal>,
    disclosureAllowed: bool,
    disclosureReason: Option<string>)

  datatype FeedInevitability = FeedInevitability(score: real, rationale: string, thresholdForReveal: real)

  datatype EarpieceFeed = EarpieceFeed(
    status: FeedStatus,
    act: string,
    move: HostMove,
    posture: Posture,
    tone: Tone,
    instruction: string,
    alternates: seq<MoveChoice>,
    pressureCaps: FeedPressureCaps,
    guardrails: Guardrails,
    patternState: PatternState,
    inevitability: FeedInevitability,
    revealPlan: Option<RevealPlan>,
    jumbotronCue: Option<JumbotronCue>)

  /** The schema's bounds on a feed: at most two alternates, a score in [0,1], detected
      signals with confidences in [0,1], and a well-formed reveal plan if any. */
  predicate FeedWF(f: EarpieceFeed) {
    && |f.alternates| <= 2
    && 0.0 <= f.inevitability.score <= 1.0
    && (forall s | s in f.patternState.detected :: PatternSignalWF(s))
    && (f.revealPlan.Some? ==> RevealPlanWF(f.revealPlan.value))
  }

  // ---------------------------------------------------------------------------
  // Episode state: the Control Room's memory
  // ---------------------------------------------------------------------------

  datatype Mention = Mention(turnId: string, context: string)

  datatype Character = Character(id: string, name: string, relationship: Option<string>, mentions: seq<Mention>)

  datatype Place = Place(id: string, name: string, significance: Option<string>, mentions: seq<string>)

  datatype Moment = Moment(
    id: string,
    description: string,
    date: Option<string>,
    emotionalWeight: real,
    turnIds: seq<string>)

  datatype StoryMap = StoryMap(characters: seq<Character>, places: seq<Place>, moments: seq<Moment>)

  datatype EventConfidence = Confirmed | Stated | Inferred

  /** A dated event. `day` is the day number that the date text denotes; the model
      takes it from the caller instead of parsing `date`. */
  datatype TimelineEvent = TimelineEvent(
    id: string,
    date: string,
    day: int,
    description: string,
    evidenceRefs: seq<string>,
    confidence: EventConfidence)

  datatype LoopStatus = Open | PartiallyAddressed | Closed

  datatype OpenLoop = OpenLoop(
    id: string,
    topic: string,
    openedAtTurn: int,
    priority: int,
    status: LoopStatus,
    relatedPatterns: seq<PatternKind>)

  predicate OpenLoopWF(l: OpenLoop) {
    1 <= l.priority <= 10
  }

  datatype EchoCategory = Minimizer | Inevitability | Shame | Agency | Freeze

  datatype EchoPhrase = EchoPhrase(
    id: string,
    phrase: string,
    turnId: string,
    category: EchoCategory,
    eligibleAfterAct: int,
    eligibleAfterTurn: int,
    used: bool)

  datatype SupportLevel = Supported | Unsupported | Unclear | Contradicted

  datatype Claim = Claim(
    id: string,
    statement: string,
    turnId: string,
    supportLevel: SupportLevel,
    evidenceRefs: seq<string>)

  datatype ContradictionType = UserVsUser | UserVsDocs

  datatype Severity = Minor | Significant | Major

  datatype Contradiction = Contradiction(
    id: string,
    claimAId: string,
    claimBId: string,
    contradictionType: ContradictionType,
    severity: Severity,
    addressed: bool)

  datatype EpisodeMetrics = EpisodeMetrics(
    questionDensity: real,
    silenceUtilization: real,
    callbackRate: real,
    earnedRevealRate: real,
    pressureViolations: real,
    currentAct: int,
    currentTurn: int)

  datatype SafetyIncident = SafetyIncident(turnId: string, incidentType: string, response: string)

  datatype EpisodeState = EpisodeState(
    sessionId: string,
    userId: string,
    storyMap: StoryMap,
    timeline: seq<TimelineEvent>,
    openLoops: seq<OpenLoop>,
    echoPhrases: seq<EchoPhrase>,
    claimsLedger: seq<Claim>,
    contradictionIndex: seq<Contradiction>,
    metrics: EpisodeMetrics,
    patternSignals: seq<PatternSignal>,
    revealPlans: seq<RevealPlan>,
    safetyIncidents: seq<SafetyIncident>)

  /** The schema's bounds on an episode state, plus the one-signal-per-kind invariant. */
  predicate EpisodeWF(e: EpisodeState) {
    && (forall l | l in e.openLoops :: OpenLoopWF(l))
    && (forall m | m in e.storyMap.moments :: 0.0 <= m.emotionalWeight <= 1.0)
    && (forall s | s in e.patternSignals :: PatternSignalWF(s))
    && UniqueKinds(e.patternSignals)
    && (forall p | p in e.revealPlans :: RevealPlanWF(p))
  }

  // ---------------------------------------------------------------------------
  // Safety signals: deterministic detection
  // ---------------------------------------------------------------------------

  datatype SafetyType =
    | ImminentSelfHarm
    | ImminentHarmToOthers
    | ChildExploitationDisclosure
    | AcuteCrisis

  function SafetyTypeName(t: SafetyType): string {
    match t
    case ImminentSelfHarm => "imminent_self_harm"
    case ImminentHarmToOthers => "imminent_harm_to_others"
    case ChildExploitationDisclosure => "child_exploitation_disclosure"
    case AcuteCrisis => "acute_crisis"
  }

  datatype SafetySignal = SafetySignal(
    signalType: SafetyType,
    confidence: real,
    evidenceTurnId: string,
    triggeredAt: string)

  predicate SafetySignalWF(s: SafetySignal) {
    0.0 <= s.confidence <= 1.0
  }

  // ---------------------------------------------------------------------------
  // Audit events and the commercial-break payload
  // ---------------------------------------------------------------------------

  datatype AuditEventType =
    | SessionStart | TurnReceived | PatternDetected | PatternDisclosed
    | MoveSelected | MoveExecuted | RevealTeased | RevealPermissionAsked
    | RevealPermissionGranted | RevealPermissionDeclined | RevealExecuted | RevealVetoed
    | SafetyTriggered | SpVeto | CommercialBreak | ActTransition | SessionEnd
}
