# Interview governance engine — a Dafny model

This project models the policy core of an interview host, the code under `src/engine/`.
Each user turn, together with the running `EpisodeState`, goes through that core, which returns one
`EarpieceFeed`. The feed names the host's next move, a posture and a tone, one instruction, at most
two alternates and the guardrails for the turn. The core also returns the updated episode state.

The core has these parts:

- **Director** (`DirectorFsm`). A six-state machine: green room, act live, commercial break,
  reveal sequence, wrap and safety hold.
  - A per-state table of legal host moves.
  - A guarded transition table.
  - A sticky safety override.
  - Per-topic follow-up counting with a pressure cap.
  - A four-condition pattern-disclosure policy.
  - The `Director` is a `class` whose `context` field the methods `Transition`, `RecordTurn`,
    `SetPendingReveal` and `TriggerSafety` update in place.
- **Pattern Engine** (`PatternEngine`). Twelve detectors run over a turn. Their results merge into
  the episode's list of signals, which holds one signal per kind.
- **Inevitability Engine** (`InevitabilityEngine`). A score for the top open topic: five additive
  factors, capped at 1.
- **Echo Phrase Engine** (`EchoPhraseEngine`). It captures the user's own phrases, each with a delay
  before it may be called back.
- **Reveal Engine** (`RevealEngine`). It builds reveal plans from receipt cards.
- **Missing Tapes Engine** (`MissingTapesEngine`). It finds silences of 180 days or more between
  consecutive timeline events and reports them largest first.
- **Standards & Practices governor** (`SPGovernor`). The veto gate for proposed moves and reveals.
- **Safety Engine** (`SafetyDetection`). Crisis detection with a fixed order of urgency, plus fixed
  grounding responses.
- **Control Room** (`Orchestrator`). The per-turn pipeline:
  - the safety gate;
  - detect and merge patterns;
  - capture echoes;
  - score inevitability;
  - find eligible echoes;
  - the top-down move-proposal ladder;
  - risk assessment;
  - move review;
  - the disclosure filter;
  - turn bookkeeping;
  - feed assembly;
  - the state update.

  `ControlRoom` is a `class` that holds a `Director`. `ProcessTurn` changes the Director's context
  in place.

Two modules hold the shared definitions:

- `Schemas` holds the closed enumerations: 15 host moves, 12 pattern kinds and 4 safety types. It
  also holds the records and, as well-formedness predicates, the range and size bounds the schema
  puts on them.
- `Lexicon` stands in for the regular expressions. A `Matcher` value reports what each expression
  finds in a text. Every rule built on top of those reports is modelled exactly:
  - confidences and their caps;
  - the order in which expressions are tried;
  - the order of captures;
  - the cooldowns.

`Basics` and `Sorting` hold the JavaScript behaviour the core relies on:

- `Math.min` and `Math.round`;
- number-to-string conversion;
- `Array.join`;
- `String.includes`;
- `split(/\s+/).length`;
- a stable sort.

## Behaviour of the code worth knowing

- Only the first three rungs of the move ladder check the Director's legal-move list. The
  STATE_AND_STOP and MIRROR_LANGUAGE rungs do not, and a vetoed move's alternative is substituted
  unchecked. So the feed's move is not always legal for the Director's state.
  `Orchestrator.LadderInSafetyHold` shows that in the safety hold the ladder always proposes a move
  outside the hold's list.
- `processTurn` never calls `transition`. Over a turn, the Director's state changes only through
  `triggerSafety`.
- `triggerSafety` enters the safety hold from every state, including `wrap` and the hold itself.
- Under the pressure cap, `isMoveAllowed` allows OFFER_FORK or SILENCE only when the current
  state's list contains them, and it allows SAFETY_GROUND in every state.
- The governor's pressure check stops LIGHT_PRESS at three follow-ups on whatever the last topic
  was. It is the third check: at critical risk the alternative is SAFETY_GROUND, and with banned
  wording it is MIRROR_LANGUAGE.
- The contradiction factor counts every unaddressed contradiction of the episode, and the
  open-loop factor counts every open loop of priority 7 or more; neither looks at the topic. The
  echo factor counts unused echoes whose turn cooldown has passed, measured against the turn
  counter before this turn.
- The merged confidence `min((old+new)/2+0.1, 0.95)` can fall on a repetition:
  `PatternEngine.ConfidenceCanFall` gives the case 0.9 then 0.4, which yields 0.75.
- On the normal path the risk level is never critical, because a safety signal returns earlier.
  Disclosure at the assessed risk is therefore the same as disclosure at low risk
  (`Orchestrator.TurnFeedShape`).

## Model

| member | source | states |
|---|---|---|
| Schemas.HostMoveRegistryClosed | src/engine/schemas.ts:16-32 | There are exactly 15 host moves, pairwise distinct, and every move is one of them. |
| Schemas.PatternKindsClosed | src/engine/schemas.ts:40-53 | There are exactly 12 pattern kinds, pairwise distinct, and every kind is one of them. |
| DirectorFsm.MoveAvailability | src/engine/director.ts:46-80 | Every state's move list is non-empty. The safety hold's list is exactly [SAFETY_GROUND], and SAFETY_GROUND is legal in no other state. |
| DirectorFsm.IsPatternDisclosureAllowed | src/engine/director.ts:285-308 | Disclosure is allowed iff all four conditions hold: not (blocking at critical risk and the risk is critical), count ≥ minObservations, last − first seen ≥ minTurnSpan, and a cost hint is present or not required. |
| DirectorFsm.DefaultDisclosurePolicy | src/engine/director.ts:114-120 | Under the default policy, disclosure holds iff risk is not critical, count ≥ 2, span ≥ 3 and a cost hint is present. |
| DirectorFsm.FirstEnabled | src/engine/director.ts:314-318 | Returns the first table entry whose source state, trigger and guard match, or −1 exactly when none matches. |
| DirectorFsm.FindTransition | src/engine/director.ts:314-318 | The transition found is an enabled table entry. There is none iff no entry is enabled. |
| DirectorFsm.TransitionTableDeterministic | src/engine/director.ts:160-218 | No two table entries share a source state and a trigger. |
| DirectorFsm.TableAgreesWithStep | src/engine/director.ts:160-218 | The table defines the same machine as an independent case analysis of the four guards: user_engaged needs ≥ 2 turns in the act, act_complete ≥ 8, reveal_approved a pending reveal, episode_complete act ≥ 3. The two agree on whether a step exists and on its target. |
| DirectorFsm.EntryAgreesWithStep | src/engine/director.ts:160-218 | Any enabled table entry leads where the reference machine leads. |
| DirectorFsm.StepHasEntry | src/engine/director.ts:160-218 | Every step of the reference machine has an enabled table entry. |
| DirectorFsm.TerminalStates | src/engine/director.ts:160-218 | From wrap and from the safety hold, no trigger finds a transition. |
| DirectorFsm.Recorded | src/engine/director.ts:338-348 | Recording a turn adds exactly one to the turn and turns-in-act counters and makes the topic the last topic. It keeps the state, act, pending reveal and override. |
| DirectorFsm.RecordedAll | src/engine/director.ts:338-348 | Over a run of turns, the turn counter grows by the run's length, the state is kept, and the last topic is the run's last. |
| DirectorFsm.FollowupsCountRun | src/engine/director.ts:341-347 | n + 1 turns on a new topic leave the follow-up counter at n: it restarts at 0, then counts the repeats. The topic may be absent (`null`), which repeats like any other. |
| DirectorFsm.SameTopicRun | src/engine/director.ts:341-344 | n more turns on the last topic raise the follow-up counter by exactly n, including a run of turns without a topic. |
| DirectorFsm.Director.constructor | src/engine/director.ts:229-245 | A new Director holds the given caps and policy and starts in green_room: act 1, turn 0, turnsInAct 0, no follow-ups, no last topic, no pending reveal, no override. |
| DirectorFsm.Director.IsMoveAllowed | src/engine/director.ts:262-280 | SAFETY_GROUND is always allowed. A move outside the state's list is refused. Under the pressure cap on the same topic, only OFFER_FORK and SILENCE from the list are allowed. Otherwise exactly the listed moves are allowed. |
| DirectorFsm.Director.Transition | src/engine/director.ts:313-333 | Succeeds iff a table entry for the current state and trigger has its guard satisfied. On failure the context is unchanged. Leaving a commercial break raises the act by one and resets turnsInAct; any other success changes only the state. |
| DirectorFsm.Director.RecordTurn | src/engine/director.ts:338-348 | The new context is the old one with one turn recorded on the given topic. |
| DirectorFsm.Director.SetPendingReveal | src/engine/director.ts:353-355 | Only the pending reveal changes. |
| DirectorFsm.Director.TriggerSafety | src/engine/director.ts:360-363 | From any state: the state becomes safety_hold and the override is set. Nothing else changes. |
| PatternEngine.LexicalConfidenceMonotone | src/engine/control-room.ts:42-66 | Lexical confidence never falls as matches grow. It lies in (0.4, 0.9], and it reaches its caps of 0.9 for minimization and 0.85 for absolutist language. |
| PatternEngine.Detect | src/engine/control-room.ts:41-172 | A detection carries its kind, with confidence in (0, 0.9]. The three detectors that need context never fire. Brevity fires iff the word count is under 5, with confidence 0.4 and evidence "N words". A lexical detector fires iff its expression matches, with its confidence formula and the matches joined by ", ". |
| PatternEngine.CostHint | src/engine/control-room.ts:225-234 | Exactly the five hinted kinds have a cost hint, and it is non-empty. |
| PatternEngine.SignalsForFresh | src/engine/control-room.ts:179-197 | Every emitted signal is of a tried kind and is built fresh from its detection for this turn. |
| PatternEngine.SignalsForComplete | src/engine/control-room.ts:179-197 | Every tried kind that is detected is emitted. |
| PatternEngine.SignalsForUnique | src/engine/control-room.ts:179-197 | With distinct kinds tried, the signals have distinct kinds. |
| PatternEngine.DetectedSignalsShape | src/engine/control-room.ts:179-197 | Each emitted signal has evidence [turnId], count 1, first = last seen = turnNumber, a confidence in [0,1], the canonical cost hint, and a kind that needs no context. A kind is present iff its detector fires. There is at most one signal per kind. |
| PatternEngine.DetectPatterns | src/engine/control-room.ts:179-198 | The loop returns exactly the detected signals, in kind order. |
| PatternEngine.FindKindIndex | src/engine/control-room.ts:207 | The index is that of a signal of the kind, or −1 exactly when no signal has the kind. |
| PatternEngine.MergedConfidence | src/engine/control-room.ts:213 | The merged confidence is at most 0.95 and at least 0.1 from non-negative inputs. It does not fall below the old value unless the new one is more than 0.2 lower. |
| PatternEngine.MergePatterns | src/engine/control-room.ts:203-223 | The loop returns the fold of the new signals into the existing ones. |
| PatternEngine.MergeOnePositions | src/engine/control-room.ts:206-220 | Merging one signal keeps every existing position's kind, first-seen turn and cost hint. It grows the list by at most one, appending the signal itself. |
| PatternEngine.MergeOneKinds | src/engine/control-room.ts:206-220 | After a merge, the kinds present are the old kinds plus the signal's kind. |
| PatternEngine.MergeOneUnique | src/engine/control-room.ts:206-220 | Merging keeps one signal per kind. |
| PatternEngine.MergeOneOccurrences | src/engine/control-room.ts:206-220 | The signal's kind gains exactly one occurrence if present, or takes the signal's count if new. Other kinds keep their counts. |
| PatternEngine.MergeAllOccurrences | src/engine/control-room.ts:206-220 | Across the whole merge, a kind already present gains one occurrence per new signal of its kind. When every new signal is a single sighting, every kind ends with its old count plus its number of new sightings. |
| PatternEngine.MergeOneWellFormed | src/engine/control-room.ts:206-220 | Merging keeps confidences within [0,1] and cost hints canonical. |
| PatternEngine.MergeAllPositions | src/engine/control-room.ts:203-223 | The merged list extends the existing one position by position: kind, first-seen turn and cost hint are kept. |
| PatternEngine.MergeAllKinds | src/engine/control-room.ts:203-223 | A kind is present after the merge iff it was present before or among the new signals. |
| PatternEngine.MergeAllUnique | src/engine/control-room.ts:203-223 | Merging preserves one signal per kind. |
| PatternEngine.MergeAllWellFormed | src/engine/control-room.ts:203-223 | Merging preserves schema-valid confidences and canonical hints. |
| PatternEngine.TwoSightings | src/engine/control-room.ts:179-223 | A kind detected in two turns, merged in order, has count 2, first seen at the first turn, last seen at the second, and evidence from both turn ids. |
| PatternEngine.DetectedAt | src/engine/control-room.ts:179-197 | A detected kind sits at some index of the emitted list, with evidence [turnId], count 1 and first = last seen. |
| PatternEngine.MergeIntoEmpty | src/engine/control-room.ts:203-223 | Merging distinct-kind signals into an empty list returns them unchanged. |
| PatternEngine.MergeSingleRepeat | src/engine/control-room.ts:206-217 | A kind present once on each side ends at its old index, combined with the new signal. |
| PatternEngine.UntouchedByOthers | src/engine/control-room.ts:206-220 | Signals of other kinds leave a kind's entry untouched. |
| InevitabilityEngine.Compute | src/engine/control-room.ts:253-316 | The score is min(sum of the five factor weights, 1.0) and lies in [0,1]. The rationale is "No convergence signals" iff the score is 0. The thresholds are 0.7, 0.5 and 0.8. |
| InevitabilityEngine.Describe | src/engine/control-room.ts:267-303 | Every factor description is non-empty, and starts with its count or with "High". |
| InevitabilityEngine.TotalWeightAppend | src/engine/control-room.ts:257-307 | The weight of the factors is additive over concatenation. |
| InevitabilityEngine.TotalWeightIsClosedForm | src/engine/control-room.ts:257-307 | The accumulated score equals the closed form 0.2·[anchors ≥ 2] + 0.15·min(unaddressed, 2) + 0.1·avoidance kinds + 0.1·[eligible echo] + 0.15·[urgent loop]. |
| InevitabilityEngine.PartWeights | src/engine/control-room.ts:259-304 | Each of the five factors contributes its stated weight. |
| InevitabilityEngine.TotalWeightOfFive | src/engine/control-room.ts:257-307 | The weight of the five factor groups is the sum of their weights. |
| InevitabilityEngine.SingleWeight | src/engine/control-room.ts:257-307 | The weight of zero factors is 0, and of one factor is its own weight. |
| InevitabilityEngine.ClosedFormZero | src/engine/control-room.ts:307-311 | The sum is never negative, and it is 0 iff no factor fired. |
| InevitabilityEngine.ScoreMonotone | src/engine/control-room.ts:259-307 | More evidence on any factor tally never lowers the capped score. |
| InevitabilityEngine.ContradictionNeverLowers | src/engine/control-room.ts:270-275 | Adding one unaddressed contradiction to an episode never lowers `compute`'s score, for any topic. |
| InevitabilityEngine.NoSingleFactorConfronts | src/engine/control-room.ts:253-316 | With one signal per kind, no factor weighs more than 0.3, and a single factor alone stays below the confront-soft threshold 0.5. |
| InevitabilityEngine.FactorsWeighLittle | src/engine/control-room.ts:259-304 | With at most three avoidance kinds, each factor weighs at most 0.3. |
| InevitabilityEngine.OneFactorScore | src/engine/control-room.ts:257-307 | With at most one factor, the sum is below 0.5. |
| InevitabilityEngine.AvoidanceAtMostThree | src/engine/control-room.ts:278-285 | With one signal per kind, at most three signals are repeated avoidance kinds. |
| InevitabilityEngine.KindsCounted | src/engine/control-room.ts:278-285 | With one signal per kind, the number of matching signals equals the number of their kinds. |
| EchoPhraseEngine.CapturesOf | src/engine/control-room.ts:360-370 | An expression yields one capture per match. |
| EchoPhraseEngine.Capture | src/engine/control-room.ts:338-374 | The loops return every match of every expression, in expression order and then in match order. |
| EchoPhraseEngine.CapturedForCount | src/engine/control-room.ts:358-371 | The number of captures is the total number of matches. |
| EchoPhraseEngine.CapturedForSource | src/engine/control-room.ts:358-371 | Every capture comes from one of the expressions: it is a match of that expression, in its category, from this turn, with eligibility at act + 1 and turn + 5. |
| EchoPhraseEngine.GetEligible | src/engine/control-room.ts:379-388 | Returns exactly the unused phrases whose act or turn threshold has been reached, as many as there are in the input. |
| EchoPhraseEngine.GetEligibleFirst | src/engine/control-room.ts:384-387 | The first eligible phrase, which the callback rung quotes, is the earliest eligible phrase of the stored list. |
| EchoPhraseEngine.GetEligibleSnoc | src/engine/control-room.ts:384-387 | The last phrase is kept, at the end, iff it is eligible. |
| EchoPhraseEngine.GetEligibleAppend | src/engine/control-room.ts:384-387 | Filtering distributes over concatenation, so the eligible phrases keep the stored order and their repeats. |
| EchoPhraseEngine.GetEligibleOne | src/engine/control-room.ts:384-387 | A single phrase is kept iff it is eligible. |
| EchoPhraseEngine.ToEchoPhrases | src/engine/control-room.ts:813-821 | Each captured echo becomes a stored phrase with the same text, turn, category and thresholds, unused, with id echo-T-i. |
| EchoPhraseEngine.EchoIdsDistinctInTurn | src/engine/control-room.ts:814 | Within a turn, echo ids are distinct. |
| EchoPhraseEngine.EchoIdsDistinctAcrossTurns | src/engine/control-room.ts:814 | For non-negative turn numbers, echo ids never collide across turns. |
| EchoPhraseEngine.EchoIdAfterPrefix | src/engine/control-room.ts:814 | An echo id is "echo-" followed by the turn number, "-" and the index. |
| EchoPhraseEngine.Cooldown | src/engine/control-room.ts:366-367 | A freshly captured echo becomes eligible iff the act has advanced by one or five turns have passed. |
| RevealEngine.CreateRevealPlan | src/engine/control-room.ts:399-423 | The plan has the given id, the receipt as payload, status pending, vetoable, trigger user_permission, and the permission requirement as given. The ask copy is non-empty iff permission is required. The plan is schema-valid. |
| RevealEngine.TeaseMentionsTopic | src/engine/control-room.ts:425-438 | A quote's tease mentions the topic. Other tease lines do not depend on the topic. |
| MissingTapesEngine.RoundingAgreesWithMathRound | src/engine/control-room.ts:516-519 | The whole-number month and year counts equal Math.round of the real quotients; the same month rounding is used for the gap description (line 493). |
| MissingTapesEngine.SpanOfGap | src/engine/control-room.ts:516-523 | For a reported gap, the tease speaks in years iff the gap is 345 days or more. Months range from 6 to 11. It says one year iff 345 ≤ days < 525. |
| MissingTapesEngine.TeaseWording | src/engine/control-room.ts:516-523 | Below twelve rounded months the tease opens "There's about N months between …". From twelve, it opens "There's about N year(s) between …", singular only for one year. |
| MissingTapesEngine.Chronological | src/engine/control-room.ts:477-479 | The sorted timeline is a permutation of the input in non-decreasing date order. |
| MissingTapesEngine.LargestFirst | src/engine/control-room.ts:500 | The gaps are reordered, nothing added or lost, with non-increasing gapDays. |
| MissingTapesEngine.Gaps | src/engine/control-room.ts:473-501 | There are no gaps for fewer than two events, and at most one per consecutive pair. The gaps are ordered largest first. |
| MissingTapesEngine.FindGaps | src/engine/control-room.ts:473-501 | The method returns exactly the gaps of the sorted timeline, largest first. |
| MissingTapesEngine.WalkPairs | src/engine/control-room.ts:483-497 | The loop over consecutive pairs collects the gap of each pair at least 180 days apart, in timeline order. |
| MissingTapesEngine.AdjacentGapsSound | src/engine/control-room.ts:483-497 | Everything collected comes from a consecutive pair at least 180 days apart. |
| MissingTapesEngine.AdjacentGapsComplete | src/engine/control-room.ts:483-497 | Every consecutive pair at least 180 days apart is collected. |
| MissingTapesEngine.AdjacentInDateOrder | src/engine/control-room.ts:477-486 | No event falls strictly between two consecutive events of the sorted timeline. |
| MissingTapesEngine.PairIsEmptyStretch | src/engine/control-room.ts:483-497 | The gap of a qualifying consecutive pair spans at least 180 days with no event strictly inside. |
| MissingTapesEngine.GapsAreEmptyStretches | src/engine/control-room.ts:473-501 | Every reported gap is a stretch of 180 days or more with no event inside. |
| MissingTapesEngine.GapIsEmptyStretch | src/engine/control-room.ts:473-501 | Any one reported gap is such an empty stretch. |
| MissingTapesEngine.GapPosition | src/engine/control-room.ts:483-497 | Every reported gap is the gap of some consecutive pair of the sorted timeline. |
| MissingTapesEngine.EmptyStretchesAreReported | src/engine/control-room.ts:473-501 | Conversely, any two events 180 days or more apart with nothing between them are reported, up to events on the same days. |
| MissingTapesEngine.AdjacentGapReported | src/engine/control-room.ts:483-500 | Every qualifying consecutive pair of the sorted timeline is among the reported gaps. |
| MissingTapesEngine.AdjacentPairFor | src/engine/control-room.ts:477-486 | Two events with nothing between them fall on the days of some consecutive pair of the sorted timeline. |
| MissingTapesEngine.FirstOfDay | src/engine/control-room.ts:477-479 | In a date-sorted timeline, every day that occurs has a first position. |
| MissingTapesEngine.CreateReceiptCard | src/engine/control-room.ts:506-514 | The card is a missing tape marked as a gap, with the gap's dates and description, and nothing else set. |
| MissingTapesEngine.GapRevealPlan | src/engine/control-room.ts:399-452 | A reveal plan for a missing tape teases the gap in the timeline, asks what was happening then, and carries the gap description of the receipt card built at lines 506-514. |
| SPGovernor.ReviewMove | src/engine/control-room.ts:540-574 | A veto happens iff critical risk without SAFETY_GROUND, or banned wording, or ≥ 3 follow-ups with LIGHT_PRESS. The first that applies sets the reason and the alternative: SAFETY_GROUND, MIRROR_LANGUAGE or OFFER_FORK. An approval carries no reason and no alternative. |
| SPGovernor.CriticalRiskGrounds | src/engine/control-room.ts:546-553 | At critical risk only SAFETY_GROUND can pass, and any other move is replaced by SAFETY_GROUND. |
| SPGovernor.AlternativeDiffers | src/engine/control-room.ts:540-574 | A veto offers back the vetoed move only when MIRROR_LANGUAGE itself has banned wording. |
| SPGovernor.PressureCapAgreesWithDirector | src/engine/control-room.ts:564-571 | Below critical risk and with clean wording, the governor vetoes LIGHT_PRESS on the last topic iff a default-capped live Director refuses it. |
| SPGovernor.ReviewReveal | src/engine/control-room.ts:579-601 | A quote without a permission gate is vetoed with no alternative. Otherwise a score below 0.5 is vetoed with RETURN_TO_OPEN_LOOP. Everything else is approved. |
| SPGovernor.ReviewOfCreatedPlans | src/engine/control-room.ts:579-601 | A gated plan, or one that is not a quote, passes iff the score reaches 0.5. An ungated quote never passes. |
| SafetyDetection.Rank | src/engine/control-room.ts:625-630 | Each crisis type has its own place in the fixed order. |
| SafetyDetection.FirstMatchFrom | src/engine/control-room.ts:636-645 | Returns the first matching crisis expression at or after a position, or −1 exactly when none matches. |
| SafetyDetection.FirstCrisis | src/engine/control-room.ts:635-647 | There is no crisis iff no expression matches. Otherwise it is a matching type that outranks every other matching type. |
| SafetyDetection.Detect | src/engine/control-room.ts:635-647 | Fires iff some crisis matches, with the first match's type, confidence 0.8, the turn id and the given time. The signal is schema-valid. |
| SafetyDetection.ResponsesPointToHelp | src/engine/control-room.ts:652-663 | The self-harm and acute responses name 988, the harm-to-others response names emergency services, and the child-disclosure response names the Childhelp hotline. |
| Orchestrator.FirstDisclosable | src/engine/control-room.ts:871-873 | The pattern found is disclosable at low risk, and there is none iff no pattern is. |
| Orchestrator.ProposeMove | src/engine/control-room.ts:832-912 | The ladder is evaluated top-down. PIN_TO_SPECIFICS iff under 10 words and legal. Else RETURN_TO_OPEN_LOOP iff an echo is eligible and the move is legal. Else PATTERN_PAUSE iff a pattern is disclosable and the move is legal. Else STATE_AND_STOP iff the score reaches the soft threshold. Else MIRROR_LANGUAGE. A callback quotes the first eligible echo, and a pattern pause names the first disclosable pattern. There are exactly two alternates, each different from the primary. Every rung's two alternates are fixed moves with fixed instructions: MIRROR_LANGUAGE and SILENCE for a pin, MIRROR_LANGUAGE and BRIDGE_THREAD for a callback, STATE_AND_STOP and OFFER_FORK for a pattern pause, UTILITARIAN_CHECK and LIGHT_PRESS for an observation, SILENCE and OFFER_FORK for mirroring. The pin, observation and mirror rungs carry their fixed instructions. |
| Orchestrator.LadderLegality | src/engine/control-room.ts:842-885 | The first three rungs only ever propose legal moves. |
| Orchestrator.LadderInSafetyHold | src/engine/control-room.ts:887-912 | In the safety hold the ladder always proposes STATE_AND_STOP or MIRROR_LANGUAGE, and neither is legal there. |
| Orchestrator.LadderInGreenRoom | src/engine/control-room.ts:887-912 | In the green room only the last two rungs can fire: STATE_AND_STOP iff the score reaches 0.5, else MIRROR_LANGUAGE. |
| Orchestrator.AssessRiskLevel | src/engine/control-room.ts:914-923 | Critical iff a safety signal is given. Elevated iff there is none and some shame or freeze signal has confidence over 0.7. |
| Orchestrator.DeterminePosture | src/engine/control-room.ts:925-931 | SILENCE gives silence, STATE_AND_STOP lean-back, LIGHT_PRESS or PIN lean-in. Confront-soft appears iff another move meets a score over 0.7. Any other move at a score of at most 0.7 gives lean-in, so lean-in appears iff the move is a press or a pin, or another move meets a score of at most 0.7. Confront-firm never appears. |
| Orchestrator.DetermineTone | src/engine/control-room.ts:933-937 | Gentle curiosity iff risk is elevated. Otherwise skeptical precision iff the move is PIN_TO_SPECIFICS or UTILITARIAN_CHECK. |
| Orchestrator.CreateSafetyFeed | src/engine/control-room.ts:939-960 | The safety feed is live SAFETY_GROUND with the crisis response as instruction. It has lean-back posture, warm authority, no alternates, zero pressure caps, critical risk, stop_and_ground, no detected patterns, no reveal or cue. Its act is "Safety Hold", it forbids all initiations (`["all"]`), and its inevitability is score 0 with rationale "Safety override" and reveal threshold 1. It is schema-valid. |
| Orchestrator.TopOpenLoop | src/engine/control-room.ts:732 | The top loop is the first loop whose status is open. There is none iff no loop is open. |
| Orchestrator.ActLabelParts | src/engine/control-room.ts:773 | The act label is "Act ", the act number, ": " and then the top loop's topic, or "Opening" when there is no open loop or its topic is empty. Distinct acts give distinct opening labels. |
| Orchestrator.TopicKey | src/engine/control-room.ts:766 | The recorded topic is the top loop's id, and is absent when there is no loop or its id is empty. |
| Orchestrator.TurnInevitability | src/engine/control-room.ts:733-735 | With an open loop the score is the engine's score for its topic. Otherwise it is 0 with "No open loops". It always lies in [0,1]. |
| Orchestrator.PermissionRequiredTopics | src/engine/control-room.ts:785-787 | The permission-required topics are exactly those of loops with priority ≥ 8, one per such loop. |
| Orchestrator.PermissionRequiredTopicsAppend | src/engine/control-room.ts:785-787 | The topic list distributes over concatenation of the loops, so it keeps their order and repeats. |
| Orchestrator.PermissionRequiredTopicsOne | src/engine/control-room.ts:785-787 | A single loop contributes its topic iff its priority is at least 8. |
| Orchestrator.Disclosable | src/engine/control-room.ts:761-763 | Exactly the merged patterns the policy allows at the given risk, and the first of them is the earliest such pattern. |
| Orchestrator.DisclosableIgnoresNonCriticalRisk | src/engine/control-room.ts:761-763 | Below critical risk, the disclosure filter does not depend on the risk level. |
| Orchestrator.FinalMove | src/engine/control-room.ts:756-758 | A veto with an alternative substitutes that move with the pivot instruction. Otherwise the proposal's primary stands. |
| Orchestrator.SafetyState | src/engine/control-room.ts:711-721 | The episode gains exactly one safety incident naming the turn, the crisis type and the response. Nothing else changes, and well-formedness is kept. |
| Orchestrator.TurnStateChanges | src/engine/control-room.ts:807-827 | On the normal path the turn counter rises by exactly one and the other metrics stay. The earlier echoes are kept, with one unused echo of this turn appended per match. A kind is present iff it was before or is detected now. Nothing else changes. |
| Orchestrator.TurnStateWellFormed | src/engine/control-room.ts:807-827 | The updated episode stays schema-valid with one signal per kind. |
| Orchestrator.TurnFeedShape | src/engine/control-room.ts:768-805 | A normal feed is schema-valid, with exactly two alternates, risk not critical, normal safety mode, caps (3, 2) and no reveal plan. Its disclosure matches disclosure at low risk. |
| Orchestrator.TurnPipeline | src/engine/control-room.ts:724-829 | Steps 2 to 11 produce the feed computed from the merged patterns and the Director's context before the turn is recorded, and the updated episode. |
| Orchestrator.ControlRoom.constructor | src/engine/control-room.ts:685-694 | The control room owns a fresh Director in its initial context, with the default caps and policy. |
| Orchestrator.ControlRoom.ProcessTurn | src/engine/control-room.ts:699-830 | With a crisis match, the Director enters the safety hold with the override set, the feed is the safety feed of the first crisis, and the episode gains one incident. Otherwise the feed is the normal feed, the episode is the normal update, and the Director records one turn on the top open loop's id. A well-formed episode yields a well-formed feed and episode. |
| Basics.JsRound | src/engine/control-room.ts:492 | The integer returned is within one half of the argument, as Math.round's is. |
| Basics.WordCount | src/engine/control-room.ts:839 | split(/\s+/).length is at least one. |
| Basics.NatToStringInjective | src/engine/control-room.ts:814 | Distinct turn numbers and indices print differently. |
| Basics.IntToStringInjective | src/engine/control-room.ts:773 | Distinct act numbers print differently, negative ones included. |
| Sorting.SortBy | src/engine/control-room.ts:477-479 | The sort returns a permutation of the input, ordered by the key. |

## Left out

- Regular-expression semantics are not modelled: word boundaries, case folding and the match list of
  a global expression. A `Matcher` value supplies each expression's outcome on a text.
  `toLowerCase` in the anchor factor is a field of the same value.
- Dates are day numbers supplied with each timeline event. `new Date` parsing and millisecond
  arithmetic are not modelled, so `gapDays` is a whole number of days.
- The timestamp `new Date().toISOString()` of a safety signal is the parameter `now`.
- The `async` wrapper of `processTurn` has no awaits and is modelled as a synchronous method.
- Confidences and scores are exact reals. IEEE double rounding is not reproduced.
- Sort stability is not proved. The models of `sort` are an insertion sort, which is stable, but
  only order and permutation are stated.
- The audit logger and the PRISM processor are not part of this model.
- `proposeMove`'s `state` parameter, which it never reads, is dropped. So is `transition`'s
  episode-state parameter, because no guard reads it. The legal moves and the disclosure policy are
  passed in instead of being read from the Director.
- `getContext` and `getCurrentState` are plain reads of the Director's `context` field.
- Orchestrator.ControlRoom.ProcessTurn: the feed is computed before the turn is recorded, while the
  source computes it after. Recording a turn never changes the Director's state, which is all the
  feed reads, so the result is the same.
- EchoPhraseEngine.EchoIdsDistinctAcrossTurns: stated only for non-negative turn numbers, because a
  negative number prints with a sign.
- `generateTeaseLine`, `generateIntegrationPrompt`, `getResponse` and `generateTease` produce fixed
  texts. Their contents are pinned by `TeaseMentionsTopic`, `GapRevealPlan`,
  `ResponsesPointToHelp` and `TeaseWording` rather than by the full wording. The feed's act label is
  stated in full by `Orchestrator.ActLabelParts`.
- The commercial-break payload schema (src/engine/schemas.ts:386-397) is not modelled, because no
  operation of the engine builds or reads one.
