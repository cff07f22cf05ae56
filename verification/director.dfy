/** The Director: the episode-level state machine. It owns the per-state table of
    legal moves, the pressure caps, the pattern-disclosure policy and the guarded
    transition table, and keeps a mutable context that the Control Room updates
    once per turn. */
module DirectorFsm {
  import opened Basics
  import opened Schemas

  datatype DirectorState =
    | GreenRoom         // pre-interview warm-up
    | ActLive           // active interview
    | CommercialBreak   // synthesis pause
    | RevealSequence    // executing an approved reveal
    | Wrap              // episode conclusion
    | SafetyHold        // safety escalation override

  datatype DirectorContext = DirectorContext(
    currentState: DirectorState,
    currentAct: int,
    currentTurn: int,
    turnsInAct: int,
    consecutiveFollowupsOnTopic: int,
    lastTopicId: Option<string>,
    pendingReveal: Option<RevealPlan>,
    safetyOverride: bool)

  // ---------------------------------------------------------------------------
  // Move availability per state
  // ---------------------------------------------------------------------------

  /** The moves legal in each state. Every list is non-empty, and `SafetyGround`
      is legal in exactly one state, the safety hold, where it is the only move. */
  function MoveAvailability(s: DirectorState): (moves: seq<HostMove>)
    ensures |moves| > 0
    ensures s == SafetyHold <==> moves == [SafetyGround]
    ensures SafetyGround in moves <==> s == SafetyHold
  {
    match s
    case GreenRoom => [MirrorLanguage, OfferFork, HostMove.Silence]
    case ActLive =>
      [ PinToSpecifics, MirrorLanguage, NameTheShift, StateAndStop, OfferFork,
        ReturnToOpenLoop, BridgeThread, LightPress, UtilitarianCheck, PatternPause,
        HostMove.Silence ]
    case CommercialBreak => [HostMove.CommercialBreak]
    case RevealSequence => [EarnedReveal, OfferFork, HostMove.Silence]
    case Wrap => [HostMove.Wrap, OfferFork]
    case SafetyHold => [SafetyGround]
  }

  // ---------------------------------------------------------------------------
  // Pressure caps and pattern-disclosure policy
  // ---------------------------------------------------------------------------

  datatype PressureCaps = PressureCaps(
    maxFollowupsOnTopic: int,
    recursionLimit: int,
    minTurnsBetweenReveals: int,
    maxPatternsPerAct: int,
    silenceAfterHeavyTopic: bool)

  const DefaultPressureCaps := PressureCaps(3, 2, 5, 2, true)

  datatype PatternDisclosurePolicy = PatternDisclosurePolicy(
    minObservations: int,
    minTurnSpan: int,
    requireActBoundary: bool,
    requireCostHint: bool,
    blockIfCriticalRisk: bool)

  const DefaultPatternDisclosurePolicy := PatternDisclosurePolicy(2, 3, false, true, true)

  /** JavaScript truthiness of `cost_hint`: absent and empty hints both count as missing. */
  predicate HasCostHint(s: PatternSignal) {
    s.costHint.Some? && s.costHint.value != ""
  }

  /** The Director's disclosure query, over its (never reassigned) policy. A pattern
      may be surfaced only when all four conditions hold. */
  function IsPatternDisclosureAllowed(policy: PatternDisclosurePolicy, signal: PatternSignal, riskLevel: RiskLevel): (allowed: bool)
    ensures allowed <==>
      && !(policy.blockIfCriticalRisk && riskLevel == Critical)
      && signal.occurrenceCount >= policy.minObservations
      && signal.lastSeenTurn - signal.firstSeenTurn >= policy.minTurnSpan
      && (policy.requireCostHint ==> HasCostHint(signal))
  {
    if policy.blockIfCriticalRisk && riskLevel == Critical then false
    else if signal.occurrenceCount < policy.minObservations then false
    else if signal.lastSeenTurn - signal.firstSeenTurn < policy.minTurnSpan then false
    else if policy.requireCostHint && !HasCostHint(signal) then false
    else true
  }

  /** Under the default policy: not at critical risk, seen at least twice, over a span
      of at least three turns, with a non-empty cost hint. */
  lemma DefaultDisclosurePolicy(signal: PatternSignal, riskLevel: RiskLevel)
    ensures IsPatternDisclosureAllowed(DefaultPatternDisclosurePolicy, signal, riskLevel) <==>
      && riskLevel != Critical
      && signal.occurrenceCount >= 2
      && signal.lastSeenTurn - signal.firstSeenTurn >= 3
      && HasCostHint(signal)
  {
  }

  // ---------------------------------------------------------------------------
  // Transition table
  // ---------------------------------------------------------------------------

  /** The guards that occur in the table; none of them reads the episode state. */
  datatype Guard = Unguarded | MinTurnsInAct(turns: int) | PendingRevealPresent | MinAct(act: int)

  predicate GuardHolds(g: Guard, ctx: DirectorContext) {
    match g
    case Unguarded => true
    case MinTurnsInAct(n) => ctx.turnsInAct >= n
    case PendingRevealPresent => ctx.pendingReveal.Some?
    case MinAct(n) => ctx.currentAct >= n
  }

  datatype Transition = Transition(from: DirectorState, to: DirectorState, trigger: string, guard: Guard)

  const DirectorTransitions: seq<Transition> := [
    Transition(GreenRoom, ActLive, "user_engaged", MinTurnsInAct(2)),
    Transition(ActLive, DirectorState.CommercialBreak, "act_complete", MinTurnsInAct(8)),
    Transition(DirectorState.CommercialBreak, ActLive, "user_ready", Unguarded),
    Transition(ActLive, RevealSequence, "reveal_approved", PendingRevealPresent),
    Transition(RevealSequence, ActLive, "reveal_complete", Unguarded),
    Transition(ActLive, DirectorState.Wrap, "episode_complete", MinAct(3)),
    Transition(ActLive, SafetyHold, "safety_signal", Unguarded),
    Transition(RevealSequence, SafetyHold, "safety_signal", Unguarded)
  ]

  predicate Enabled(t: Transition, ctx: DirectorContext, trigger: string) {
    t.from == ctx.currentState && t.trigger == trigger && GuardHolds(t.guard, ctx)
  }

  /** `find` over a transition table, from position `from` on: the index of the first
      entry for the current state and trigger whose guard holds, or -1. */
  function FirstEnabled(table: seq<Transition>, ctx: DirectorContext, trigger: string, from: nat): (i: int)
    requires from <= |table|
    ensures i == -1 || from <= i < |table|
    ensures i >= 0 ==> Enabled(table[i], ctx, trigger)
    ensures i >= 0 ==> forall j | from <= j < i :: !Enabled(table[j], ctx, trigger)
    ensures i == -1 <==> forall j | from <= j < |table| :: !Enabled(table[j], ctx, trigger)
    decreases |table| - from
  {
    if from == |table| then -1
    else if Enabled(table[from], ctx, trigger) then from
    else FirstEnabled(table, ctx, trigger, from + 1)
  }

  /** The first enabled entry of a table, if any. */
  function FindTransition(table: seq<Transition>, ctx: DirectorContext, trigger: string): (r: Option<Transition>)
    ensures r.Some? ==> r.value in table && Enabled(r.value, ctx, trigger)
    ensures r.None? <==> forall j | 0 <= j < |table| :: !Enabled(table[j], ctx, trigger)
  {
    var i := FirstEnabled(table, ctx, trigger, 0);
    if i == -1 then None else Some(table[i])
  }

  /** No two entries share a source state and a trigger, so at most one entry can match. */
  lemma TransitionTableDeterministic()
    ensures forall i, j | 0 <= i < j < |DirectorTransitions| ::
      DirectorTransitions[i].from == DirectorTransitions[j].from ==>
      DirectorTransitions[i].trigger != DirectorTransitions[j].trigger
  {
  }

  /** The state machine written as a case analysis on the current state: the
      reference against which the table is checked. */
  function Step(ctx: DirectorContext, trigger: string): Option<DirectorState> {
    match ctx.currentState
    case GreenRoom =>
      if trigger == "user_engaged" && ctx.turnsInAct >= 2 then Some(ActLive) else None
    case ActLive =>
      if trigger == "act_complete" && ctx.turnsInAct >= 8 then Some(DirectorState.CommercialBreak)
      else if trigger == "reveal_approved" && ctx.pendingReveal.Some? then Some(RevealSequence)
      else if trigger == "episode_complete" && ctx.currentAct >= 3 then Some(DirectorState.Wrap)
      else if trigger == "safety_signal" then Some(SafetyHold)
      else None
    case CommercialBreak =>
      if trigger == "user_ready" then Some(ActLive) else None
    case RevealSequence =>
      if trigger == "reveal_complete" then Some(ActLive)
      else if trigger == "safety_signal" then Some(SafetyHold)
      else None
    case Wrap => None
    case SafetyHold => None
  }

  /** The table and the case analysis define the same machine. */
  lemma TableAgreesWithStep(ctx: DirectorContext, trigger: string)
    ensures FindTransition(DirectorTransitions, ctx, trigger).Some? <==> Step(ctx, trigger).Some?
    ensures FindTransition(DirectorTransitions, ctx, trigger).Some? ==>
      FindTransition(DirectorTransitions, ctx, trigger).value.to == Step(ctx, trigger).value
      && FindTransition(DirectorTransitions, ctx, trigger).value.from == ctx.currentState
  {
    var i := FirstEnabled(DirectorTransitions, ctx, trigger, 0);
    if i >= 0 {
      EntryAgreesWithStep(ctx, trigger, i);
    } else if Step(ctx, trigger).Some? {
      StepHasEntry(ctx, trigger);
    }
  }

  /** Any enabled entry moves where the reference machine moves. */
  lemma EntryAgreesWithStep(ctx: DirectorContext, trigger: string, k: int)
    requires 0 <= k < |DirectorTransitions| && Enabled(DirectorTransitions[k], ctx, trigger)
    ensures Step(ctx, trigger) == Some(DirectorTransitions[k].to)
  {
  }

  /** Every step of the reference machine is enabled by some entry of the table. */
  lemma StepHasEntry(ctx: DirectorContext, trigger: string)
    requires Step(ctx, trigger).Some?
    ensures FindTransition(DirectorTransitions, ctx, trigger).Some?
  {
    var T := DirectorTransitions;
    var k := match ctx.currentState
      case GreenRoom => 0
      case ActLive =>
        if trigger == "act_complete" then 1
        else if trigger == "reveal_approved" then 3
        else if trigger == "episode_complete" then 5
        else 6
      case CommercialBreak => 2
      case RevealSequence => if trigger == "reveal_complete" then 4 else 7
      case _ => 0;
    assert Enabled(T[k], ctx, trigger);
  }

  /** Wrap and the safety hold are terminal: no entry leaves them, whatever the trigger. */
  lemma {:induction false} TerminalStates(ctx: DirectorContext, trigger: string)
    requires ctx.currentState == DirectorState.Wrap || ctx.currentState == SafetyHold
    ensures FindTransition(DirectorTransitions, ctx, trigger).None?
  {
    TableAgreesWithStep(ctx, trigger);
  }

  // ---------------------------------------------------------------------------
  // Turn bookkeeping
  // ---------------------------------------------------------------------------

  /** The context after one more turn on `topicId`: one more turn in the act and
      overall; the follow-up counter grows on the same topic and restarts on a new one,
      which becomes the last topic. The state, act, pending reveal and override stay. */
  function Recorded(ctx: DirectorContext, topicId: Option<string>): (r: DirectorContext)
    ensures r.currentState == ctx.currentState && r.currentAct == ctx.currentAct
    ensures r.currentTurn == ctx.currentTurn + 1 && r.turnsInAct == ctx.turnsInAct + 1
    ensures r.lastTopicId == topicId
    ensures r.pendingReveal == ctx.pendingReveal && r.safetyOverride == ctx.safetyOverride
  {
    if topicId == ctx.lastTopicId then
      ctx.(currentTurn := ctx.currentTurn + 1, turnsInAct := ctx.turnsInAct + 1,
           consecutiveFollowupsOnTopic := ctx.consecutiveFollowupsOnTopic + 1)
    else
      ctx.(currentTurn := ctx.currentTurn + 1, turnsInAct := ctx.turnsInAct + 1,
           consecutiveFollowupsOnTopic := 0, lastTopicId := topicId)
  }

  /** The context after a run of turns, recorded in order. */
  function RecordedAll(ctx: DirectorContext, topics: seq<Option<string>>): (r: DirectorContext)
    ensures r.currentState == ctx.currentState
    ensures r.currentTurn == ctx.currentTurn + |topics|
    ensures |topics| > 0 ==> r.lastTopicId == topics[|topics| - 1]
    decreases |topics|
  {
    if |topics| == 0 then ctx
    else RecordedAll(Recorded(ctx, topics[0]), topics[1..])
  }

  /** The follow-up counter counts the turns after the first in a run on one topic:
      `n + 1` turns in a row on a topic that was not the last one leave it at `n`. A run of
      turns without a topic (`null`) counts the same way. */
  lemma {:induction false} FollowupsCountRun(ctx: DirectorContext, topic: Option<string>, n: nat)
    requires ctx.lastTopicId != topic
    ensures RecordedAll(ctx, seq(n + 1, _ => topic)).consecutiveFollowupsOnTopic == n
    ensures RecordedAll(ctx, seq(n + 1, _ => topic)).lastTopicId == topic
  {
    var first := Recorded(ctx, topic);
    assert seq(n + 1, _ => topic)[1..] == seq(n, _ => topic);
    SameTopicRun(first, topic, n);
  }

  /** Each further turn on the last topic adds one to the follow-up counter. */
  lemma {:induction false} SameTopicRun(ctx: DirectorContext, topic: Option<string>, n: nat)
    requires ctx.lastTopicId == topic
    ensures RecordedAll(ctx, seq(n, _ => topic)).consecutiveFollowupsOnTopic
      == ctx.consecutiveFollowupsOnTopic + n
    ensures RecordedAll(ctx, seq(n, _ => topic)).lastTopicId == topic
    decreases n
  {
    if n > 0 {
      assert seq(n, _ => topic)[1..] == seq(n - 1, _ => topic);
      SameTopicRun(Recorded(ctx, topic), topic, n - 1);
    }
  }

  // ---------------------------------------------------------------------------
  // The Director
  // ---------------------------------------------------------------------------

  class Director {
    var context: DirectorContext
    const pressureCaps: PressureCaps
    const patternPolicy: PatternDisclosurePolicy

    /** A new episode starts in the green room, in act 1, before any turn. */
    constructor (pressureCaps: PressureCaps := DefaultPressureCaps,
                 patternPolicy: PatternDisclosurePolicy := DefaultPatternDisclosurePolicy)
      ensures this.pressureCaps == pressureCaps && this.patternPolicy == patternPolicy
      ensures context == DirectorContext(GreenRoom, 1, 0, 0, 0, None, None, false)
    {
      this.pressureCaps := pressureCaps;
      this.patternPolicy := patternPolicy;
      context := DirectorContext(GreenRoom, 1, 0, 0, 0, None, None, false);
    }

    function GetAvailableMoves(): (moves: seq<HostMove>)
      reads this
    {
      MoveAvailability(context.currentState)
    }

    /** Follow-ups on `topicId` have reached the cap. */
    predicate PressureCapped(topicId: string)
      reads this
    {
      context.lastTopicId == Some(topicId)
      && context.consecutiveFollowupsOnTopic >= pressureCaps.maxFollowupsOnTopic
    }

    /** Safety grounding is always allowed; any other move must be legal in the current
        state, and once the pressure cap on the topic is reached only a fork or silence. */
    function IsMoveAllowed(move: HostMove, topicId: string): (allowed: bool)
      reads this
      ensures move == SafetyGround ==> allowed
      ensures move != SafetyGround && move !in MoveAvailability(context.currentState) ==> !allowed
      ensures move != SafetyGround && PressureCapped(topicId) ==>
        (allowed <==> move in MoveAvailability(context.currentState) && (move == OfferFork || move == HostMove.Silence))
      ensures !PressureCapped(topicId) ==>
        (allowed <==> move == SafetyGround || move in MoveAvailability(context.currentState))
    {
      if move == SafetyGround then true
      else if move !in GetAvailableMoves() then false
      else if topicId == (if context.lastTopicId.Some? then context.lastTopicId.value else topicId + "?")
              && context.consecutiveFollowupsOnTopic >= pressureCaps.maxFollowupsOnTopic
      then move == OfferFork || move == HostMove.Silence
      else true
    }

    /** Moves to the target of the matching table entry, if any; only the return from a
        commercial break touches the act counters. */
    method Transition(trigger: string) returns (ok: bool)
      modifies this
      ensures ok <==> Step(old(context), trigger).Some?
      ensures !ok ==> context == old(context)
      ensures ok && old(context.currentState) == DirectorState.CommercialBreak ==>
        context == old(context).(currentState := ActLive, currentAct := old(context.currentAct) + 1, turnsInAct := 0)
      ensures ok && old(context.currentState) != DirectorState.CommercialBreak ==>
        context == old(context).(currentState := Step(old(context), trigger).value)
    {
      var found := FindTransition(DirectorTransitions, context, trigger);
      TableAgreesWithStep(context, trigger);
      if found.Some? {
        var t := found.value;
        context := context.(currentState := t.to);
        if t.to == ActLive && t.from == DirectorState.CommercialBreak {
          context := context.(currentAct := context.currentAct + 1, turnsInAct := 0);
        }
        return true;
      }
      return false;
    }

    /** One more turn, in the act and overall; the follow-up counter grows on the same
        topic and restarts on a new one, which becomes the last topic. */
    method RecordTurn(topicId: Option<string>)
      modifies this
      ensures context == Recorded(old(context), topicId)
    {
      context := context.(currentTurn := context.currentTurn + 1, turnsInAct := context.turnsInAct + 1);
      if topicId == context.lastTopicId {
        context := context.(consecutiveFollowupsOnTopic := context.consecutiveFollowupsOnTopic + 1);
      } else {
        context := context.(consecutiveFollowupsOnTopic := 0, lastTopicId := topicId);
      }
    }

    method SetPendingReveal(plan: Option<RevealPlan>)
      modifies this
      ensures context == old(context).(pendingReveal := plan)
    {
      context := context.(pendingReveal := plan);
    }

    /** The sticky safety override: any state, guards or not, goes to the safety hold. */
    method TriggerSafety()
      modifies this
      ensures context == old(context).(currentState := SafetyHold, safetyOverride := true)
    {
      context := context.(safetyOverride := true, currentState := SafetyHold);
    }
  }
}
