/** The Pattern Engine: twelve per-turn detectors, the signals they produce, and the
    merge of a turn's signals into the episode's running pattern list. */
module PatternEngine {
  import opened Basics
  import opened Schemas
  import opened Lexicon

  datatype PatternDetection = PatternDetection(kind: PatternKind, confidence: real, evidence: string)

  /** The three kinds whose detectors need context the engine does not have
      (timeline, topic classification, conversation history); they never fire. */
  predicate NeedsContext(k: PatternKind) {
    k == ChronologySkip || k == OverPrecisionInSafeTopics || k == RepetitionLoop
  }

  /** The eight kinds detected by a regular expression over the turn's text. */
  predicate IsLexical(k: PatternKind) {
    !NeedsContext(k) && k != BrevitySpike
  }

  /** The confidence a lexical detector reports for `n` matches: growing with the
      match count for minimization and absolutist language, fixed for the others. */
  function LexicalConfidence(k: PatternKind, n: nat): real
    requires IsLexical(k)
  {
    match k
    case MinimizationLanguage => MinReal(0.5 + n as real * 0.1, 0.9)
    case AbsolutistLanguage => MinReal(0.4 + n as real * 0.15, 0.85)
    case AgencyShiftActiveToPassive => 0.6
    case ActorOmission => 0.55
    case HumorDeflection => 0.5
    case InevitabilityLanguage => 0.7
    case ShameCue => 0.75
    case FreezeCue => 0.8
  }

  /** More matches never lower a detector's confidence, which stays within (0.4, 0.9];
      minimization saturates at 0.9 from four matches, absolutism at 0.85 from three. */
  lemma LexicalConfidenceMonotone(k: PatternKind, n1: nat, n2: nat)
    requires IsLexical(k) && 1 <= n1 <= n2
    ensures LexicalConfidence(k, n1) <= LexicalConfidence(k, n2)
    ensures 0.4 < LexicalConfidence(k, n1) <= 0.9
    ensures k == MinimizationLanguage && n1 >= 4 ==> LexicalConfidence(k, n1) == 0.9
    ensures k == AbsolutistLanguage && n1 >= 3 ==> LexicalConfidence(k, n1) == 0.85
  {
  }

  /** One detector applied to one turn. A lexical detector fires exactly when its
      expression matches, the brevity detector exactly when the turn has fewer than
      five words, and the three context detectors never. */
  function Detect(m: Matcher, kind: PatternKind, text: string): (d: Option<PatternDetection>)
    ensures d.Some? ==> d.value.kind == kind && 0.0 < d.value.confidence <= 0.9
    ensures NeedsContext(kind) ==> d.None?
    ensures kind == BrevitySpike ==> (d.Some? <==> WordCount(text) < 5)
    ensures kind == BrevitySpike && d.Some? ==>
      d.value.confidence == 0.4 && d.value.evidence == IntToString(WordCount(text)) + " words"
    ensures IsLexical(kind) ==> (d.Some? <==> |m.detectorMatches(kind, text)| > 0)
    ensures IsLexical(kind) && d.Some? ==>
      && d.value.confidence == LexicalConfidence(kind, |m.detectorMatches(kind, text)|)
      && d.value.evidence == Join(m.detectorMatches(kind, text), ", ")
  {
    if NeedsContext(kind) then None
    else if kind == BrevitySpike then
      var wordCount := WordCount(text);
      if wordCount < 5 then Some(PatternDetection(kind, 0.4, IntToString(wordCount) + " words")) else None
    else
      var matches := m.detectorMatches(kind, text);
      if |matches| > 0 then
        LexicalConfidenceMonotone(kind, |matches|, |matches|);
        Some(PatternDetection(kind, LexicalConfidence(kind, |matches|), Join(matches, ", ")))
      else None
  }

  /** The five kinds that carry a cost hint. */
  predicate IsHinted(k: PatternKind) {
    k == MinimizationLanguage || k == AgencyShiftActiveToPassive || k == ShameCue
    || k == FreezeCue || k == InevitabilityLanguage
  }

  /** What a pattern may be costing the user, in words the host can say. */
  function CostHint(kind: PatternKind): (h: Option<string>)
    ensures h.Some? <==> IsHinted(kind)
    ensures h.Some? ==> h.value != ""
  {
    match kind
    case MinimizationLanguage => Some("May be protecting yourself from the weight of what happened")
    case AgencyShiftActiveToPassive => Some("The language shifts away from who did what")
    case ShameCue => Some("Carrying responsibility that may not be yours")
    case FreezeCue => Some("A survival response, not a choice")
    case InevitabilityLanguage => Some("Framing removes the possibility of alternatives")
    case _ => None
  }

  // ---------------------------------------------------------------------------
  // Per-turn detection
  // ---------------------------------------------------------------------------

  /** A fresh signal: one observation, in this turn. */
  function NewSignal(d: PatternDetection, turnId: string, turnNumber: int): PatternSignal {
    PatternSignal(d.kind, [turnId], d.confidence, CostHint(d.kind), turnNumber, turnNumber, 1)
  }

  /** The signals of the detectors for `kinds`, run in order. */
  function SignalsFor(m: Matcher, kinds: seq<PatternKind>, text: string, turnId: string, turnNumber: int): seq<PatternSignal>
  {
    if |kinds| == 0 then []
    else
      var d := Detect(m, kinds[|kinds| - 1], text);
      SignalsFor(m, kinds[..|kinds| - 1], text, turnId, turnNumber)
        + (if d.Some? then [NewSignal(d.value, turnId, turnNumber)] else [])
  }

  /** All twelve detectors, in registry order. */
  function DetectedSignals(m: Matcher, text: string, turnId: string, turnNumber: int): seq<PatternSignal> {
    SignalsFor(m, AllPatternKinds, text, turnId, turnNumber)
  }

  predicate HasKind(signals: seq<PatternSignal>, k: PatternKind) {
    exists i | 0 <= i < |signals| :: signals[i].kind == k
  }

  /** Every signal carries the cost hint of its kind. */
  predicate CanonicalHints(signals: seq<PatternSignal>) {
    forall i | 0 <= i < |signals| :: signals[i].costHint == CostHint(signals[i].kind)
  }

  /** A fresh signal from this turn, of a detector that fired. */
  predicate FreshSignal(s: PatternSignal, m: Matcher, text: string, turnId: string, turnNumber: int) {
    && Detect(m, s.kind, text).Some?
    && s == NewSignal(Detect(m, s.kind, text).value, turnId, turnNumber)
  }

  /** The detectors for `kinds` produce only fresh signals of those kinds. */
  lemma {:induction false} SignalsForFresh(m: Matcher, kinds: seq<PatternKind>, text: string, turnId: string, turnNumber: int)
    ensures forall i | 0 <= i < |SignalsFor(m, kinds, text, turnId, turnNumber)| ::
      var s := SignalsFor(m, kinds, text, turnId, turnNumber)[i];
      s.kind in kinds && FreshSignal(s, m, text, turnId, turnNumber)
  {
    if |kinds| > 0 {
      var init := kinds[..|kinds| - 1];
      SignalsForFresh(m, init, text, turnId, turnNumber);
      assert forall k | k in init :: k in kinds;
    }
  }

  /** Every kind of `kinds` whose detector fired has a signal. */
  lemma {:induction false} SignalsForComplete(m: Matcher, kinds: seq<PatternKind>, text: string, turnId: string, turnNumber: int)
    ensures forall k | k in kinds && Detect(m, k, text).Some? ::
      HasKind(SignalsFor(m, kinds, text, turnId, turnNumber), k)
  {
    if |kinds| > 0 {
      var init := kinds[..|kinds| - 1];
      var last := kinds[|kinds| - 1];
      SignalsForComplete(m, init, text, turnId, turnNumber);
      var prev := SignalsFor(m, init, text, turnId, turnNumber);
      var r := SignalsFor(m, kinds, text, turnId, turnNumber);
      var d := Detect(m, last, text);
      assert r == prev + (if d.Some? then [NewSignal(d.value, turnId, turnNumber)] else []);
      forall k | k in kinds && Detect(m, k, text).Some?
        ensures HasKind(r, k)
      {
        if k == last {
          assert r[|r| - 1].kind == k;
        } else {
          assert k in init;
          var i :| 0 <= i < |prev| && prev[i].kind == k;
          assert r[i] == prev[i];
        }
      }
    }
  }

  /** Distinct kinds give signals of distinct kinds. */
  lemma {:induction false} SignalsForUnique(m: Matcher, kinds: seq<PatternKind>, text: string, turnId: string, turnNumber: int)
    requires forall i, j | 0 <= i < j < |kinds| :: kinds[i] != kinds[j]
    ensures UniqueKinds(SignalsFor(m, kinds, text, turnId, turnNumber))
  {
    if |kinds| > 0 {
      var init := kinds[..|kinds| - 1];
      var last := kinds[|kinds| - 1];
      assert forall i, j | 0 <= i < j < |init| :: init[i] != init[j] by {
        forall i, j | 0 <= i < j < |init| ensures init[i] != init[j] {
          assert init[i] == kinds[i] && init[j] == kinds[j];
        }
      }
      assert last !in init by {
        forall i | 0 <= i < |init| ensures init[i] != last {
          assert init[i] == kinds[i];
        }
      }
      SignalsForUnique(m, init, text, turnId, turnNumber);
      SignalsForFresh(m, init, text, turnId, turnNumber);
    }
  }

  /** One turn's detection: one fresh signal for each kind whose detector fired, with
      the kind's cost hint, never two of a kind and never one of a context kind. */
  lemma DetectedSignalsShape(m: Matcher, text: string, turnId: string, turnNumber: int)
    ensures forall i | 0 <= i < |DetectedSignals(m, text, turnId, turnNumber)| ::
      var s := DetectedSignals(m, text, turnId, turnNumber)[i];
      && FreshSignal(s, m, text, turnId, turnNumber)
      && s.evidenceTurnIds == [turnId]
      && s.firstSeenTurn == turnNumber && s.lastSeenTurn == turnNumber
      && s.occurrenceCount == 1
      && PatternSignalWF(s)
      && !NeedsContext(s.kind)
    ensures forall k: PatternKind :: HasKind(DetectedSignals(m, text, turnId, turnNumber), k) <==> Detect(m, k, text).Some?
    ensures UniqueKinds(DetectedSignals(m, text, turnId, turnNumber))
    ensures CanonicalHints(DetectedSignals(m, text, turnId, turnNumber))
  {
    PatternKindsClosed();
    SignalsForFresh(m, AllPatternKinds, text, turnId, turnNumber);
    SignalsForComplete(m, AllPatternKinds, text, turnId, turnNumber);
    SignalsForUnique(m, AllPatternKinds, text, turnId, turnNumber);
    var r := DetectedSignals(m, text, turnId, turnNumber);
    forall k: PatternKind ensures HasKind(r, k) ==> Detect(m, k, text).Some? {
      if HasKind(r, k) {
        var i :| 0 <= i < |r| && r[i].kind == k;
        assert FreshSignal(r[i], m, text, turnId, turnNumber);
      }
    }
  }

  /** `detectPatterns`: runs every detector over the turn's text, in registry order. */
  method DetectPatterns(m: Matcher, text: string, turnId: string, turnNumber: int) returns (signals: seq<PatternSignal>)
    ensures signals == DetectedSignals(m, text, turnId, turnNumber)
  {
    signals := [];
    for i := 0 to |AllPatternKinds|
      invariant signals == SignalsFor(m, AllPatternKinds[..i], text, turnId, turnNumber)
    {
      var kind := AllPatternKinds[i];
      var detection := Detect(m, kind, text);
      if detection.Some? {
        signals := signals + [NewSignal(detection.value, turnId, turnNumber)];
      }
      assert AllPatternKinds[..i + 1][..i] == AllPatternKinds[..i];
    }
    assert AllPatternKinds[..|AllPatternKinds|] == AllPatternKinds;
  }

  // ---------------------------------------------------------------------------
  // Merging into the episode's pattern list
  // ---------------------------------------------------------------------------

  /** `findIndex` by kind from position `from` on: the first index holding `kind`, or -1. */
  function FindKindFrom(signals: seq<PatternSignal>, kind: PatternKind, from: nat): (i: int)
    requires from <= |signals|
    ensures i == -1 || from <= i < |signals|
    ensures i >= 0 ==> signals[i].kind == kind
    ensures i >= 0 ==> forall j | from <= j < i :: signals[j].kind != kind
    ensures i == -1 <==> forall j | from <= j < |signals| :: signals[j].kind != kind
    decreases |signals| - from
  {
    if from == |signals| then -1
    else if signals[from].kind == kind then from
    else FindKindFrom(signals, kind, from + 1)
  }

  function FindKindIndex(signals: seq<PatternSignal>, kind: PatternKind): (i: int)
    ensures -1 <= i < |signals|
    ensures i >= 0 ==> signals[i].kind == kind
    ensures i == -1 <==> !HasKind(signals, kind)
  {
    FindKindFrom(signals, kind, 0)
  }

  /** The confidence of a repeated pattern: the mean of old and new, plus 0.1, capped
      at 0.95. From well-formed inputs it is at least 0.1, and it never falls below
      the old confidence unless the new one is more than 0.2 lower. */
  function MergedConfidence(oldConf: real, newConf: real): (c: real)
    ensures c <= 0.95
    ensures 0.0 <= oldConf && 0.0 <= newConf ==> 0.1 <= c
    ensures oldConf <= 0.95 && newConf + 0.2 >= oldConf ==> c >= oldConf
  {
    MinReal((oldConf + newConf) / 2.0 + 0.1, 0.95)
  }

  /** The blend does not always rise: a strong signal seen again at a detector's lowest
      confidence drops, e.g. from 0.9 to 0.75 after a repeat seen at 0.4. */
  lemma ConfidenceCanFall()
    ensures MergedConfidence(0.9, 0.4) == 0.75
  {
  }

  /** A repeat observation folded into an existing signal: evidence accumulates,
      confidence is blended, the last-seen turn moves and the count grows by one. */
  function Combine(existing: PatternSignal, s: PatternSignal): PatternSignal {
    existing.(
      evidenceTurnIds := existing.evidenceTurnIds + s.evidenceTurnIds,
      confidence := MergedConfidence(existing.confidence, s.confidence),
      lastSeenTurn := s.lastSeenTurn,
      occurrenceCount := existing.occurrenceCount + 1)
  }

  /** One new signal merged into the list: combined into the first signal of its kind,
      or appended when the kind is new. */
  function MergeOne(merged: seq<PatternSignal>, s: PatternSignal): seq<PatternSignal> {
    var i := FindKindIndex(merged, s.kind);
    if i >= 0 then merged[i := Combine(merged[i], s)] else merged + [s]
  }

  /** `mergePatterns` as a left fold of `MergeOne`. */
  function MergeAll(existing: seq<PatternSignal>, newSignals: seq<PatternSignal>): seq<PatternSignal> {
    if |newSignals| == 0 then existing
    else MergeOne(MergeAll(existing, newSignals[..|newSignals| - 1]), newSignals[|newSignals| - 1])
  }

  /** `mergePatterns`: folds the new signals into a copy of the existing list, in order. */
  method MergePatterns(existing: seq<PatternSignal>, newSignals: seq<PatternSignal>) returns (merged: seq<PatternSignal>)
    ensures merged == MergeAll(existing, newSignals)
  {
    merged := existing;
    for i := 0 to |newSignals|
      invariant merged == MergeAll(existing, newSignals[..i])
    {
      var signal := newSignals[i];
      var existingIndex := FindKindIndex(merged, signal.kind);
      if existingIndex >= 0 {
        merged := merged[existingIndex := Combine(merged[existingIndex], signal)];
      } else {
        merged := merged + [signal];
      }
      assert newSignals[..i + 1][..i] == newSignals[..i];
    }
    assert newSignals[..|newSignals|] == newSignals;
  }

  /** The occurrence count recorded for kind `k`, or 0 when no signal has that kind. */
  function OccurrencesOf(signals: seq<PatternSignal>, k: PatternKind): int {
    var i := FindKindIndex(signals, k);
    if i >= 0 then signals[i].occurrenceCount else 0
  }

  /** One merge step keeps every existing signal in place, with its kind, first-seen
      turn and cost hint, and adds at most one signal, at the end. */
  lemma MergeOnePositions(merged: seq<PatternSignal>, s: PatternSignal)
    ensures |merged| <= |MergeOne(merged, s)| <= |merged| + 1
    ensures forall i | 0 <= i < |merged| ::
      && MergeOne(merged, s)[i].kind == merged[i].kind
      && MergeOne(merged, s)[i].firstSeenTurn == merged[i].firstSeenTurn
      && MergeOne(merged, s)[i].costHint == merged[i].costHint
    ensures |MergeOne(merged, s)| == |merged| + 1 ==> MergeOne(merged, s)[|merged|] == s
  {
  }

  /** The kinds after one merge step are the kinds before, plus the new signal's. */
  lemma MergeOneKinds(merged: seq<PatternSignal>, s: PatternSignal)
    ensures forall k :: HasKind(MergeOne(merged, s), k) <==> HasKind(merged, k) || k == s.kind
  {
    var r := MergeOne(merged, s);
    MergeOnePositions(merged, s);
    forall k ensures HasKind(r, k) <==> HasKind(merged, k) || k == s.kind {
      if HasKind(merged, k) {
        var j :| 0 <= j < |merged| && merged[j].kind == k;
        assert r[j].kind == k;
      }
      if HasKind(r, k) {
        var j :| 0 <= j < |r| && r[j].kind == k;
        if j < |merged| {
          assert merged[j].kind == k;
        }
      }
      if k == s.kind && !HasKind(merged, k) {
        assert r[|merged|].kind == k;
      }
    }
  }

  /** One merge step never repeats a kind. */
  lemma MergeOneUnique(merged: seq<PatternSignal>, s: PatternSignal)
    requires UniqueKinds(merged)
    ensures UniqueKinds(MergeOne(merged, s))
  {
    MergeOnePositions(merged, s);
    var r := MergeOne(merged, s);
    if |r| == |merged| + 1 {
      assert !HasKind(merged, s.kind);
    }
  }

  /** One merge step: the merged kind's count grows by one (or starts at the new
      signal's count), and every other kind's count is untouched. */
  lemma MergeOneOccurrences(merged: seq<PatternSignal>, s: PatternSignal)
    requires UniqueKinds(merged)
    ensures OccurrencesOf(MergeOne(merged, s), s.kind) ==
      if HasKind(merged, s.kind) then OccurrencesOf(merged, s.kind) + 1 else s.occurrenceCount
    ensures forall k | k != s.kind :: OccurrencesOf(MergeOne(merged, s), k) == OccurrencesOf(merged, k)
  {
    var r := MergeOne(merged, s);
    MergeOnePositions(merged, s);
    MergeOneUnique(merged, s);
    MergeOneKinds(merged, s);
    var i := FindKindIndex(merged, s.kind);
    if i >= 0 {
      assert r[i].kind == s.kind;
      assert FindKindIndex(r, s.kind) == i;
    } else {
      assert r[|merged|].kind == s.kind;
      assert FindKindIndex(r, s.kind) == |merged|;
    }
    forall k | k != s.kind ensures OccurrencesOf(r, k) == OccurrencesOf(merged, k) {
      var b := FindKindIndex(merged, k);
      if b >= 0 {
        assert r[b].kind == k;
        assert FindKindIndex(r, k) == b;
      } else {
        assert FindKindIndex(r, k) == -1;
      }
    }
  }

  /** One merge step keeps confidences within [0, 1] and cost hints canonical. */
  lemma MergeOneWellFormed(merged: seq<PatternSignal>, s: PatternSignal)
    ensures (forall x | x in merged :: PatternSignalWF(x)) && PatternSignalWF(s) ==>
      forall x | x in MergeOne(merged, s) :: PatternSignalWF(x)
    ensures CanonicalHints(merged) && s.costHint == CostHint(s.kind) ==> CanonicalHints(MergeOne(merged, s))
  {
    MergeOnePositions(merged, s);
    var i := FindKindIndex(merged, s.kind);
    if i >= 0 {
      assert merged[i] in merged;
    }
  }

  /** Merging only adds signals: every existing signal keeps its place, kind,
      first-seen turn and cost hint. */
  lemma {:induction false} MergeAllPositions(existing: seq<PatternSignal>, newSignals: seq<PatternSignal>)
    ensures |existing| <= |MergeAll(existing, newSignals)|
    ensures forall i | 0 <= i < |existing| ::
      && MergeAll(existing, newSignals)[i].kind == existing[i].kind
      && MergeAll(existing, newSignals)[i].firstSeenTurn == existing[i].firstSeenTurn
      && MergeAll(existing, newSignals)[i].costHint == existing[i].costHint
  {
    if |newSignals| > 0 {
      var init := newSignals[..|newSignals| - 1];
      MergeAllPositions(existing, init);
      MergeOnePositions(MergeAll(existing, init), newSignals[|newSignals| - 1]);
    }
  }

  /** The kinds after merging are the existing kinds plus the new ones. */
  lemma {:induction false} MergeAllKinds(existing: seq<PatternSignal>, newSignals: seq<PatternSignal>)
    ensures forall k :: HasKind(MergeAll(existing, newSignals), k) <==> HasKind(existing, k) || HasKind(newSignals, k)
  {
    if |newSignals| > 0 {
      var init := newSignals[..|newSignals| - 1];
      var s := newSignals[|newSignals| - 1];
      MergeAllKinds(existing, init);
      MergeOneKinds(MergeAll(existing, init), s);
      forall k ensures HasKind(init, k) || k == s.kind <==> HasKind(newSignals, k) {
        if HasKind(init, k) {
          var j :| 0 <= j < |init| && init[j].kind == k;
          assert newSignals[j].kind == k;
        }
        if HasKind(newSignals, k) && k != s.kind {
          var j :| 0 <= j < |newSignals| && newSignals[j].kind == k;
          assert init[j].kind == k;
        }
      }
    }
  }

  /** The number of signals of kind `k` among `signals`. */
  function SightingsOf(signals: seq<PatternSignal>, k: PatternKind): nat {
    Count(signals, (x: PatternSignal) => x.kind == k)
  }

  /** Over the whole merge, a kind that was already present gains one occurrence per
      new signal of that kind; when every new signal is a single sighting, as detection
      produces them, every kind ends with its old count plus its new sightings. */
  lemma {:induction false} MergeAllOccurrences(existing: seq<PatternSignal>, newSignals: seq<PatternSignal>, k: PatternKind)
    requires UniqueKinds(existing)
    ensures HasKind(existing, k) ==>
      OccurrencesOf(MergeAll(existing, newSignals), k) == OccurrencesOf(existing, k) + SightingsOf(newSignals, k)
    ensures (forall x | x in newSignals :: x.occurrenceCount == 1) ==>
      OccurrencesOf(MergeAll(existing, newSignals), k) == OccurrencesOf(existing, k) + SightingsOf(newSignals, k)
  {
    if |newSignals| > 0 {
      var init := newSignals[..|newSignals| - 1];
      var s := newSignals[|newSignals| - 1];
      var merged := MergeAll(existing, init);
      MergeAllOccurrences(existing, init, k);
      MergeAllUnique(existing, init);
      MergeAllKinds(existing, init);
      MergeOneOccurrences(merged, s);
      assert SightingsOf(newSignals, k) == SightingsOf(init, k) + (if s.kind == k then 1 else 0);
      assert forall x | x in init :: x in newSignals;
      if s.kind == k && !HasKind(merged, k) {
        assert !HasKind(init, k) && !HasKind(existing, k);
        assert forall i | 0 <= i < |init| :: init[i].kind != k;
        assert SightingsOf(init, k) == 0;
      }
    }
  }

  /** Merging keeps the episode's pattern list free of repeated kinds. */
  lemma {:induction false} MergeAllUnique(existing: seq<PatternSignal>, newSignals: seq<PatternSignal>)
    requires UniqueKinds(existing)
    ensures UniqueKinds(MergeAll(existing, newSignals))
  {
    if |newSignals| > 0 {
      var init := newSignals[..|newSignals| - 1];
      MergeAllUnique(existing, init);
      MergeOneUnique(MergeAll(existing, init), newSignals[|newSignals| - 1]);
    }
  }

  /** Merging well-formed signals keeps every confidence within [0, 1] and every cost
      hint canonical. */
  lemma {:induction false} MergeAllWellFormed(existing: seq<PatternSignal>, newSignals: seq<PatternSignal>)
    ensures (forall x | x in existing :: PatternSignalWF(x)) && (forall x | x in newSignals :: PatternSignalWF(x)) ==>
      forall x | x in MergeAll(existing, newSignals) :: PatternSignalWF(x)
    ensures CanonicalHints(existing) && CanonicalHints(newSignals) ==> CanonicalHints(MergeAll(existing, newSignals))
  {
    if |newSignals| > 0 {
      var init := newSignals[..|newSignals| - 1];
      var s := newSignals[|newSignals| - 1];
      MergeAllWellFormed(existing, init);
      MergeOneWellFormed(MergeAll(existing, init), s);
      assert forall x | x in init :: x in newSignals;
      assert s in newSignals;
      if CanonicalHints(newSignals) {
        assert CanonicalHints(init) by {
          forall j | 0 <= j < |init| ensures init[j].costHint == CostHint(init[j].kind) {
            assert init[j] == newSignals[j];
          }
        }
        assert s == newSignals[|newSignals| - 1];
      }
    }
  }

  /** A pattern seen on two distinct turns is recorded as observed twice, with the
      first sighting's turn and the second's as its span. */
  lemma {:induction false} TwoSightings(m: Matcher, kind: PatternKind, text1: string, text2: string, t1: int, t2: int)
    requires Detect(m, kind, text1).Some? && Detect(m, kind, text2).Some?
    ensures
      var first := DetectedSignals(m, text1, "turn-a", t1);
      var second := DetectedSignals(m, text2, "turn-b", t2);
      var merged := MergeAll(MergeAll([], first), second);
      && OccurrencesOf(merged, kind) == 2
      && merged[FindKindIndex(merged, kind)].firstSeenTurn == t1
      && merged[FindKindIndex(merged, kind)].lastSeenTurn == t2
      && merged[FindKindIndex(merged, kind)].evidenceTurnIds == ["turn-a", "turn-b"]
  {
    var first := DetectedSignals(m, text1, "turn-a", t1);
    var second := DetectedSignals(m, text2, "turn-b", t2);
    var i := DetectedAt(m, kind, text1, "turn-a", t1);
    var j := DetectedAt(m, kind, text2, "turn-b", t2);
    MergeIntoEmpty(first);
    MergeSingleRepeat(first, second, kind, i, j);
  }

  /** Where a detector that fired put its signal in the turn's list. */
  lemma DetectedAt(m: Matcher, kind: PatternKind, text: string, turnId: string, turnNumber: int) returns (i: int)
    requires Detect(m, kind, text).Some?
    ensures UniqueKinds(DetectedSignals(m, text, turnId, turnNumber))
    ensures 0 <= i < |DetectedSignals(m, text, turnId, turnNumber)|
    ensures var s := DetectedSignals(m, text, turnId, turnNumber)[i];
      && s.kind == kind && s.evidenceTurnIds == [turnId] && s.occurrenceCount == 1
      && s.firstSeenTurn == turnNumber && s.lastSeenTurn == turnNumber
  {
    DetectedSignalsShape(m, text, turnId, turnNumber);
    assert HasKind(DetectedSignals(m, text, turnId, turnNumber), kind);
    i := FindKindIndex(DetectedSignals(m, text, turnId, turnNumber), kind);
  }

  /** Merging a repeat-free list into nothing gives the list back. */
  lemma {:induction false} MergeIntoEmpty(signals: seq<PatternSignal>)
    requires UniqueKinds(signals)
    ensures MergeAll([], signals) == signals
  {
    if |signals| > 0 {
      var init := signals[..|signals| - 1];
      var s := signals[|signals| - 1];
      assert UniqueKinds(init);
      MergeIntoEmpty(init);
      assert !HasKind(init, s.kind) by {
        forall j | 0 <= j < |init| ensures init[j].kind != s.kind {
          assert init[j] == signals[j];
        }
      }
      assert init + [s] == signals;
    }
  }

  /** Folding a repeat-free list `second`, whose j-th signal has kind `kind`, into a
      repeat-free list `first` holding that kind at i, combines exactly that one signal
      into first[i]. */
  lemma {:induction false} MergeSingleRepeat(first: seq<PatternSignal>, second: seq<PatternSignal>, kind: PatternKind, i: int, j: int)
    requires UniqueKinds(first) && UniqueKinds(second)
    requires 0 <= i < |first| && first[i].kind == kind
    requires 0 <= j < |second| && second[j].kind == kind
    ensures
      var merged := MergeAll(first, second);
      && FindKindIndex(merged, kind) == i
      && merged[i] == Combine(first[i], second[j])
    decreases |second|
  {
    var merged := MergeAll(first, second);
    var init := second[..|second| - 1];
    var s := second[|second| - 1];
    var prev := MergeAll(first, init);
    MergeAllPositions(first, second);
    MergeAllUnique(first, second);
    MergeAllPositions(first, init);
    MergeAllUnique(first, init);
    assert FindKindIndex(merged, kind) == i by {
      assert merged[i].kind == kind;
      assert forall a | 0 <= a < |merged| && a != i :: merged[a].kind != kind;
    }
    assert FindKindIndex(prev, kind) == i by {
      assert prev[i].kind == kind;
      assert forall a | 0 <= a < |prev| && a != i :: prev[a].kind != kind;
    }
    if j == |second| - 1 {
      UntouchedByOthers(first, init, kind);
      assert prev[i] == first[i];
    } else {
      assert UniqueKinds(init);
      assert init[j] == second[j];
      MergeSingleRepeat(first, init, kind, i, j);
      assert s.kind != kind;
    }
  }

  /** Signals of other kinds leave the signal of `kind` as it was. */
  lemma {:induction false} UntouchedByOthers(first: seq<PatternSignal>, others: seq<PatternSignal>, kind: PatternKind)
    requires UniqueKinds(first)
    requires forall a | 0 <= a < |others| :: others[a].kind != kind
    ensures |first| <= |MergeAll(first, others)|
    ensures forall a | 0 <= a < |first| && first[a].kind == kind :: MergeAll(first, others)[a] == first[a]
  {
    MergeAllPositions(first, others);
    if |others| > 0 {
      var init := others[..|others| - 1];
      UntouchedByOthers(first, init, kind);
      MergeAllPositions(first, init);
      MergeAllUnique(first, init);
    }
  }
}
