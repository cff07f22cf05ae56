/** Standards & Practices: the veto gate every proposed move and every reveal passes
    before it reaches the host. */
module SPGovernor {
  import opened Basics
  import opened Schemas
  import opened Lexicon
  import opened DirectorFsm
  import opened RevealEngine

  datatype SPVeto = SPVeto(vetoed: bool, reason: Option<string>, alternativeMove: Option<HostMove>)

  const Approved: SPVeto := SPVeto(false, None, None)

  const CriticalRiskReason: string := "Critical risk level - safety protocol required"
  const BannedBehaviorReason: string := "Instruction contains banned behavior"
  const PressureCapReason: string := "Pressure cap reached on topic"
  const UngatedQuoteReason: string := "Quote reveals require permission gate"
  const NotInevitableReason: string := "Truth not yet inevitable - more groundwork needed"

  /** The follow-up count at which the governor stops a light press, whatever the topic. */
  const GovernorFollowupCap: int := 3

  /** The score below which a reveal is premature. */
  const RevealScoreFloor: real := 0.5

  /** `containsBannedBehavior`: some blacklist expression matches the text. */
  predicate ContainsBannedBehavior(m: Matcher, text: string) {
    exists i | 0 <= i < |BannedPatterns| :: m.bannedMatches(BannedPatterns[i], text)
  }

  predicate CriticalVeto(move: HostMove, riskLevel: RiskLevel) {
    riskLevel == Critical && move != SafetyGround
  }

  predicate PressureVeto(move: HostMove, ctx: DirectorContext) {
    ctx.consecutiveFollowupsOnTopic >= GovernorFollowupCap && move == LightPress
  }

  /** `reviewMove`: three checks in priority order — critical risk, banned wording,
      pressure — each with its reason and the move to fall back on; a move that passes
      all three is approved without reason or alternative. */
  function ReviewMove(m: Matcher, move: HostMove, instruction: string, ctx: DirectorContext, riskLevel: RiskLevel): (v: SPVeto)
    ensures v.vetoed <==>
      CriticalVeto(move, riskLevel) || ContainsBannedBehavior(m, instruction) || PressureVeto(move, ctx)
    ensures v.vetoed <==> v.reason.Some?
    ensures v.vetoed ==> v.alternativeMove.Some?
    ensures !v.vetoed ==> v == Approved
    ensures CriticalVeto(move, riskLevel) ==>
      v.reason == Some(CriticalRiskReason) && v.alternativeMove == Some(SafetyGround)
    ensures !CriticalVeto(move, riskLevel) && ContainsBannedBehavior(m, instruction) ==>
      v.reason == Some(BannedBehaviorReason) && v.alternativeMove == Some(MirrorLanguage)
    ensures !CriticalVeto(move, riskLevel) && !ContainsBannedBehavior(m, instruction) && PressureVeto(move, ctx) ==>
      v.reason == Some(PressureCapReason) && v.alternativeMove == Some(OfferFork)
  {
    if CriticalVeto(move, riskLevel) then
      SPVeto(true, Some(CriticalRiskReason), Some(SafetyGround))
    else if ContainsBannedBehavior(m, instruction) then
      SPVeto(true, Some(BannedBehaviorReason), Some(MirrorLanguage))
    else if PressureVeto(move, ctx) then
      SPVeto(true, Some(PressureCapReason), Some(OfferFork))
    else
      Approved
  }

  /** At critical risk only safety grounding gets through, and a vetoed move is
      replaced by safety grounding unless the instruction itself is at fault. */
  lemma CriticalRiskGrounds(m: Matcher, move: HostMove, instruction: string, ctx: DirectorContext)
    ensures !ReviewMove(m, move, instruction, ctx, Critical).vetoed ==> move == SafetyGround
    ensures move != SafetyGround ==> ReviewMove(m, move, instruction, ctx, Critical).alternativeMove == Some(SafetyGround)
    ensures move == SafetyGround ==>
      (ReviewMove(m, move, instruction, ctx, Critical).vetoed <==> ContainsBannedBehavior(m, instruction))
  {
  }

  /** A veto never offers the vetoed move back, except that a mirror with banned
      wording is "replaced" by a mirror. */
  lemma {:induction false} AlternativeDiffers(m: Matcher, move: HostMove, instruction: string, ctx: DirectorContext, riskLevel: RiskLevel)
    ensures var v := ReviewMove(m, move, instruction, ctx, riskLevel);
      v.vetoed && v.alternativeMove == Some(move) <==>
        !CriticalVeto(move, riskLevel) && ContainsBannedBehavior(m, instruction) && move == MirrorLanguage
  {
    var v := ReviewMove(m, move, instruction, ctx, riskLevel);
    if PressureVeto(move, ctx) {
      assert move == LightPress;
    }
  }

  /** Below critical risk and with clean wording, the governor stops a light press
      exactly when the Director with default caps refuses it on the last topic: both
      cap follow-ups at three. */
  lemma PressureCapAgreesWithDirector(m: Matcher, instruction: string, riskLevel: RiskLevel, d: Director, topicId: string)
    requires d.pressureCaps == DefaultPressureCaps
    requires d.context.currentState == ActLive && d.context.lastTopicId == Some(topicId)
    requires riskLevel != Critical && !ContainsBannedBehavior(m, instruction)
    ensures ReviewMove(m, LightPress, instruction, d.context, riskLevel).vetoed <==> !d.IsMoveAllowed(LightPress, topicId)
  {
    assert LightPress in MoveAvailability(ActLive);
  }

  /** `reviewReveal`: an ungated quote is vetoed with no alternative; otherwise a score
      below 0.5 is vetoed with a return to the open loop as the alternative. */
  function ReviewReveal(plan: RevealPlan, inevitabilityScore: real): (v: SPVeto)
    ensures v.vetoed <==>
      (!plan.permissionGate.required && plan.payload.cardType == Quote) || inevitabilityScore < RevealScoreFloor
    ensures !v.vetoed ==> v == Approved
    ensures !plan.permissionGate.required && plan.payload.cardType == Quote ==>
      v.reason == Some(UngatedQuoteReason) && v.alternativeMove.None?
    ensures !(!plan.permissionGate.required && plan.payload.cardType == Quote) && inevitabilityScore < RevealScoreFloor ==>
      v.reason == Some(NotInevitableReason) && v.alternativeMove == Some(ReturnToOpenLoop)
  {
    if !plan.permissionGate.required && plan.payload.cardType == Quote then
      SPVeto(true, Some(UngatedQuoteReason), None)
    else if inevitabilityScore < RevealScoreFloor then
      SPVeto(true, Some(NotInevitableReason), Some(ReturnToOpenLoop))
    else
      Approved
  }

  /** For plans made by the Reveal Engine: a gated plan, or any plan that is not a
      quote, passes exactly when the score reaches 0.5; an ungated quote never passes. */
  lemma ReviewOfCreatedPlans(id: string, receipt: ReceiptCard, topic: string, requirePermission: bool, score: real)
    ensures var v := ReviewReveal(CreateRevealPlan(id, receipt, topic, requirePermission), score);
      && (requirePermission || receipt.cardType != Quote ==> (v.vetoed <==> score < RevealScoreFloor))
      && (!requirePermission && receipt.cardType == Quote ==> v.vetoed && v.alternativeMove.None?)
  {
  }
}
