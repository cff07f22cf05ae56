/** The Reveal Engine: turns a receipt card into a reveal plan — a tease line, an
    optional permission gate, the payload and an integration prompt — that always
    starts pending and can always be vetoed. */
module RevealEngine {
  import opened Basics
  import opened Schemas

  const AskCopy: string :=
    "There's something here that might help us understand this better. Would you like me to share it?"

  /** The line that announces a reveal without showing it; only a quote names the topic. */
  function TeaseLine(card: ReceiptCard, topic: string): string {
    match card.cardType
    case Quote => "Earlier, you said something about " + topic + " that I've been thinking about."
    case TimelineSnap => "I notice there's a period we haven't explored yet."
    case MissingTape => "There's a gap in the timeline I'm curious about."
    case Photo => "There's an image here that connects to what you're saying."
  }

  /** The question that follows a reveal; timeline snaps and missing tapes share one. */
  function IntegrationPrompt(card: ReceiptCard): string {
    match card.cardType
    case Quote => "What comes up for you hearing that now?"
    case TimelineSnap | MissingTape => "What was happening during that time?"
    case Photo => "What do you remember about this?"
  }

  /** `createRevealPlan`: the plan is pending and vetoable, carries the card unchanged,
      fires on the user's permission, and asks for permission exactly when required. */
  function CreateRevealPlan(id: string, receipt: ReceiptCard, topic: string, requirePermission: bool): (p: RevealPlan)
    ensures p.id == id && p.payload == receipt
    ensures p.status == Pending && p.vetoable && RevealPlanWF(p)
    ensures p.trigger == "user_permission"
    ensures p.permissionGate.required == requirePermission
    ensures p.permissionGate.askCopy != "" <==> requirePermission
    ensures p.teaseLine == TeaseLine(receipt, topic)
    ensures p.integrationPrompt == IntegrationPrompt(receipt)
  {
    RevealPlan(
      id,
      TeaseLine(receipt, topic),
      PermissionGate(requirePermission, if requirePermission then AskCopy else ""),
      "user_permission",
      receipt,
      IntegrationPrompt(receipt),
      true,
      Pending)
  }

  /** A quote's tease names the topic; every other tease line is the same whatever
      the topic. */
  lemma {:induction false} TeaseMentionsTopic(card: ReceiptCard, topic: string, other: string)
    ensures card.cardType == Quote ==> Includes(TeaseLine(card, topic), topic)
    ensures card.cardType != Quote ==> TeaseLine(card, topic) == TeaseLine(card, other)
  {
    if card.cardType == Quote {
      var pre := "Earlier, you said something about ";
      var post := " that I've been thinking about.";
      assert TeaseLine(card, topic) == pre + topic + post;
      IncludesMiddle(pre, topic, post);
    }
  }
}
