/** The Safety Engine: crisis language is checked before anything else, in a fixed
    order of urgency, and answered with a fixed grounding response. */
module SafetyDetection {
  import opened Basics
  import opened Schemas
  import opened Lexicon

  /** The order in which the crisis expressions are tried; the first match wins. */
  const CrisisOrder: seq<SafetyType> :=
    [ImminentSelfHarm, ImminentHarmToOthers, ChildExploitationDisclosure, AcuteCrisis]

  /** A safety type's position in the crisis order. */
  function Rank(t: SafetyType): (r: nat)
    ensures r < |CrisisOrder| && CrisisOrder[r] == t
  {
    match t
    case ImminentSelfHarm => 0
    case ImminentHarmToOthers => 1
    case ChildExploitationDisclosure => 2
    case AcuteCrisis => 3
  }

  const DetectionConfidence: real := 0.8

  /** The position of the first crisis expression at or after `from` that matches,
      or -1. */
  function FirstMatchFrom(m: Matcher, text: string, from: nat): (i: int)
    requires from <= |CrisisOrder|
    ensures i == -1 || from <= i < |CrisisOrder|
    ensures i == -1 <==> forall j | from <= j < |CrisisOrder| :: !m.crisisMatches(CrisisOrder[j], text)
    ensures i != -1 ==> m.crisisMatches(CrisisOrder[i], text)
    ensures i != -1 ==> forall j | from <= j < i :: !m.crisisMatches(CrisisOrder[j], text)
    decreases |CrisisOrder| - from
  {
    if from == |CrisisOrder| then -1
    else if m.crisisMatches(CrisisOrder[from], text) then from
    else FirstMatchFrom(m, text, from + 1)
  }

  /** The crisis the text shows, if any: a matching type that outranks every other
      matching type. */
  function FirstCrisis(m: Matcher, text: string): (r: Option<SafetyType>)
    ensures r.None? <==> forall t: SafetyType :: !m.crisisMatches(t, text)
    ensures r.Some? ==> m.crisisMatches(r.value, text)
    ensures r.Some? ==> forall t: SafetyType | Rank(t) < Rank(r.value) :: !m.crisisMatches(t, text)
  {
    var i := FirstMatchFrom(m, text, 0);
    if i == -1 then
      assert forall t: SafetyType :: !m.crisisMatches(t, text) by {
        forall t: SafetyType ensures !m.crisisMatches(t, text) {
          assert CrisisOrder[Rank(t)] == t;
        }
      }
      None
    else
      assert Rank(CrisisOrder[i]) == i;
      assert forall t: SafetyType :: CrisisOrder[Rank(t)] == t;
      Some(CrisisOrder[i])
  }

  /** `detect`: the expressions are tried in crisis order and the first that matches
      yields a signal of its type with confidence 0.8, naming the turn and stamped with
      the current time `now`. */
  method Detect(m: Matcher, text: string, turnId: string, now: string) returns (signal: Option<SafetySignal>)
    ensures signal.None? <==> FirstCrisis(m, text).None?
    ensures signal.Some? ==>
      && signal.value.signalType == FirstCrisis(m, text).value
      && signal.value.confidence == DetectionConfidence
      && signal.value.evidenceTurnId == turnId
      && signal.value.triggeredAt == now
      && SafetySignalWF(signal.value)
  {
    for i := 0 to |CrisisOrder|
      invariant forall j | 0 <= j < i :: !m.crisisMatches(CrisisOrder[j], text)
    {
      if m.crisisMatches(CrisisOrder[i], text) {
        assert FirstMatchFrom(m, text, 0) == i;
        return Some(SafetySignal(CrisisOrder[i], DetectionConfidence, turnId, now));
      }
    }
    assert FirstMatchFrom(m, text, 0) == -1;
    return None;
  }

  /** The crisis lines the responses point to. */
  const CrisisLine: string := "988"
  const ChildhelpHotline: string := "1-800-422-4453"
  const EmergencyServices: string := "emergency services"

  const SelfHarmOpening: string :=
    "I want to pause here. What you're sharing sounds really heavy. If you're having thoughts of hurting yourself, please reach out to a crisis line: "
  const SelfHarmClosing: string :=
    " (US) or text HOME to 741741. I'm here to listen, but your safety matters most right now."
  const HarmToOthersOpening: string :=
    "I need to pause. If you or someone else is in immediate danger, please contact "
  const HarmToOthersClosing: string := ". We can continue when you're safe."
  const ChildDisclosureOpening: string :=
    "I need to pause here. What you're describing is serious. If a child is in danger, please contact local authorities or the Childhelp National Child Abuse Hotline: "
  const ChildDisclosureClosing: string := "."
  const AcuteCrisisOpening: string :=
    "I hear that you're struggling. That takes courage to share. If you're in crisis, please know that support is available: "
  const AcuteCrisisClosing: string := " Suicide & Crisis Lifeline. I'm here when you're ready to continue."

  /** `getResponse`: the fixed grounding response for each type of crisis. */
  function GetResponse(signal: SafetySignal): string {
    match signal.signalType
    case ImminentSelfHarm => SelfHarmOpening + CrisisLine + SelfHarmClosing
    case ImminentHarmToOthers => HarmToOthersOpening + EmergencyServices + HarmToOthersClosing
    case ChildExploitationDisclosure => ChildDisclosureOpening + ChildhelpHotline + ChildDisclosureClosing
    case AcuteCrisis => AcuteCrisisOpening + CrisisLine + AcuteCrisisClosing
  }

  /** Every response points somewhere for help: the 988 line for thoughts of self-harm
      and acute crisis, emergency services for danger to others, the Childhelp hotline
      for a child in danger. */
  lemma {:induction false} ResponsesPointToHelp(signal: SafetySignal)
    ensures signal.signalType == ImminentSelfHarm || signal.signalType == AcuteCrisis ==>
      Includes(GetResponse(signal), CrisisLine)
    ensures signal.signalType == ImminentHarmToOthers ==> Includes(GetResponse(signal), EmergencyServices)
    ensures signal.signalType == ChildExploitationDisclosure ==> Includes(GetResponse(signal), ChildhelpHotline)
  {
    match signal.signalType
    case ImminentSelfHarm =>
      IncludesMiddle(SelfHarmOpening, CrisisLine, SelfHarmClosing);
    case ImminentHarmToOthers =>
      IncludesMiddle(HarmToOthersOpening, EmergencyServices, HarmToOthersClosing);
    case ChildExploitationDisclosure =>
      IncludesMiddle(ChildDisclosureOpening, ChildhelpHotline, ChildDisclosureClosing);
    case AcuteCrisis =>
      IncludesMiddle(AcuteCrisisOpening, CrisisLine, AcuteCrisisClosing);
  }
}
