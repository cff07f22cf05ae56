/** The Echo Phrase Engine: phrases worth calling back to later, captured with a
    cooldown of one act or five turns, and the filter that decides which of them the
    host may use now. */
module EchoPhraseEngine {
  import opened Basics
  import opened Schemas
  import opened Lexicon

  datatype CapturedEcho = CapturedEcho(
    phrase: string,
    turnId: string,
    category: EchoCategory,
    eligibleAfterAct: int,
    eligibleAfterTurn: int)

  /** The captures of one expression: one per match, in match order. */
  function CapturesOf(m: Matcher, p: EchoPattern, text: string, turnId: string, currentAct: int, currentTurn: int): (cs: seq<CapturedEcho>)
    ensures |cs| == |m.echoMatches(p, text)|
  {
    var matches := m.echoMatches(p, text);
    seq(|matches|, i requires 0 <= i < |matches| =>
      CapturedEcho(matches[i], turnId, EchoCategoryOf(p), currentAct + 1, currentTurn + 5))
  }

  /** The captures of the expressions `ps`, tried in order. */
  function CapturedFor(m: Matcher, ps: seq<EchoPattern>, text: string, turnId: string, currentAct: int, currentTurn: int): seq<CapturedEcho> {
    if |ps| == 0 then []
    else CapturedFor(m, ps[..|ps| - 1], text, turnId, currentAct, currentTurn)
         + CapturesOf(m, ps[|ps| - 1], text, turnId, currentAct, currentTurn)
  }

  function Captured(m: Matcher, text: string, turnId: string, currentAct: int, currentTurn: int): seq<CapturedEcho> {
    CapturedFor(m, EchoPatterns, text, turnId, currentAct, currentTurn)
  }

  /** `capture`: every match of every expression, in expression order and then in
      match order. */
  method Capture(m: Matcher, text: string, turnId: string, currentAct: int, currentTurn: int) returns (captured: seq<CapturedEcho>)
    ensures captured == Captured(m, text, turnId, currentAct, currentTurn)
  {
    captured := [];
    for i := 0 to |EchoPatterns|
      invariant captured == CapturedFor(m, EchoPatterns[..i], text, turnId, currentAct, currentTurn)
    {
      var pattern := EchoPatterns[i];
      var matches := m.echoMatches(pattern, text);
      ghost var before := captured;
      for j := 0 to |matches|
        invariant captured == before + CapturesOf(m, pattern, text, turnId, currentAct, currentTurn)[..j]
      {
        captured := captured + [CapturedEcho(matches[j], turnId, EchoCategoryOf(pattern), currentAct + 1, currentTurn + 5)];
        assert CapturesOf(m, pattern, text, turnId, currentAct, currentTurn)[..j + 1]
            == CapturesOf(m, pattern, text, turnId, currentAct, currentTurn)[..j]
               + [CapturesOf(m, pattern, text, turnId, currentAct, currentTurn)[j]];
      }
      assert CapturesOf(m, pattern, text, turnId, currentAct, currentTurn)[..|matches|]
          == CapturesOf(m, pattern, text, turnId, currentAct, currentTurn);
      assert EchoPatterns[..i + 1][..i] == EchoPatterns[..i];
    }
    assert EchoPatterns[..|EchoPatterns|] == EchoPatterns;
  }

  /** The total number of matches of the expressions `ps`. */
  function MatchCount(m: Matcher, ps: seq<EchoPattern>, text: string): nat {
    if |ps| == 0 then 0 else MatchCount(m, ps[..|ps| - 1], text) + |m.echoMatches(ps[|ps| - 1], text)|
  }

  /** A capture of expression p: a match of p, from this turn, in p's category, with
      the cooldown of one act or five turns. */
  predicate CapturedBy(c: CapturedEcho, m: Matcher, p: EchoPattern, text: string, turnId: string, currentAct: int, currentTurn: int) {
    && c.phrase in m.echoMatches(p, text)
    && c.turnId == turnId
    && c.category == EchoCategoryOf(p)
    && c.eligibleAfterAct == currentAct + 1
    && c.eligibleAfterTurn == currentTurn + 5
  }

  /** One capture per match. */
  lemma {:induction false} CapturedForCount(m: Matcher, ps: seq<EchoPattern>, text: string, turnId: string, currentAct: int, currentTurn: int)
    ensures |CapturedFor(m, ps, text, turnId, currentAct, currentTurn)| == MatchCount(m, ps, text)
  {
    if |ps| > 0 {
      CapturedForCount(m, ps[..|ps| - 1], text, turnId, currentAct, currentTurn);
    }
  }

  /** Each capture is the match of some expression `ps[k]`, carrying that expression's
      category and the turn's cooldown. */
  lemma {:induction false} CapturedForSource(m: Matcher, ps: seq<EchoPattern>, text: string, turnId: string, currentAct: int, currentTurn: int, i: nat)
    returns (k: nat)
    requires i < |CapturedFor(m, ps, text, turnId, currentAct, currentTurn)|
    ensures k < |ps|
    ensures CapturedBy(CapturedFor(m, ps, text, turnId, currentAct, currentTurn)[i], m, ps[k], text, turnId, currentAct, currentTurn)
  {
    var init := ps[..|ps| - 1];
    var prev := CapturedFor(m, init, text, turnId, currentAct, currentTurn);
    var tail := CapturesOf(m, ps[|ps| - 1], text, turnId, currentAct, currentTurn);
    assert CapturedFor(m, ps, text, turnId, currentAct, currentTurn) == prev + tail;
    if i < |prev| {
      k := CapturedForSource(m, init, text, turnId, currentAct, currentTurn, i);
      assert init[k] == ps[k];
    } else {
      k := |ps| - 1;
      assert tail[i - |prev|].phrase == m.echoMatches(ps[k], text)[i - |prev|];
    }
  }

  // ---------------------------------------------------------------------------
  // Eligibility
  // ---------------------------------------------------------------------------

  /** Unused, and past its act cooldown or its turn cooldown. */
  predicate Eligible(e: EchoPhrase, currentAct: int, currentTurn: int) {
    !e.used && (e.eligibleAfterAct <= currentAct || e.eligibleAfterTurn <= currentTurn)
  }

  /** `getEligible`: the eligible phrases, in their original order. */
  function GetEligible(phrases: seq<EchoPhrase>, currentAct: int, currentTurn: int): (r: seq<EchoPhrase>)
    ensures |r| == Count(phrases, (e: EchoPhrase) => Eligible(e, currentAct, currentTurn))
    ensures forall e | e in r :: e in phrases && Eligible(e, currentAct, currentTurn)
    ensures forall e | e in phrases && Eligible(e, currentAct, currentTurn) :: e in r
  {
    if |phrases| == 0 then []
    else
      var init := phrases[..|phrases| - 1];
      var prev := GetEligible(init, currentAct, currentTurn);
      var last := phrases[|phrases| - 1];
      assert phrases == init + [last];
      if Eligible(last, currentAct, currentTurn) then prev + [last] else prev
  }

  /** The first eligible phrase comes first: `eligibleEchoes[0]`, the phrase the
      callback quotes, is the earliest eligible phrase of the stored list. */
  lemma {:induction false} GetEligibleFirst(phrases: seq<EchoPhrase>, currentAct: int, currentTurn: int)
    ensures var r := GetEligible(phrases, currentAct, currentTurn);
      |r| > 0 ==> exists i :: Earliest(phrases, r[0], i, currentAct, currentTurn)
    decreases |phrases|
  {
    if |phrases| > 0 {
      var head, tail := [phrases[0]], phrases[1..];
      assert phrases == head + tail;
      GetEligibleAppend(head, tail, currentAct, currentTurn);
      GetEligibleOne(phrases[0], currentAct, currentTurn);
      var r := GetEligible(phrases, currentAct, currentTurn);
      var rest := GetEligible(tail, currentAct, currentTurn);
      if Eligible(phrases[0], currentAct, currentTurn) {
        assert r[0] == phrases[0];
        assert Earliest(phrases, r[0], 0, currentAct, currentTurn);
      } else if |rest| > 0 {
        assert r == rest;
        GetEligibleFirst(tail, currentAct, currentTurn);
        var k :| Earliest(tail, rest[0], k, currentAct, currentTurn);
        EarliestShift(phrases, rest[0], k, currentAct, currentTurn);
      }
    }
  }

  /** Behind a phrase that is not eligible, the earliest eligible phrase moves up one. */
  lemma EarliestShift(phrases: seq<EchoPhrase>, e: EchoPhrase, k: int, currentAct: int, currentTurn: int)
    requires |phrases| > 0 && !Eligible(phrases[0], currentAct, currentTurn)
    requires Earliest(phrases[1..], e, k, currentAct, currentTurn)
    ensures Earliest(phrases, e, k + 1, currentAct, currentTurn)
  {
    assert forall j | 0 < j < k + 1 :: phrases[j] == phrases[1..][j - 1];
  }

  /** `e` sits at index `i` and no phrase before it is eligible. */
  predicate Earliest(phrases: seq<EchoPhrase>, e: EchoPhrase, i: int, currentAct: int, currentTurn: int) {
    && 0 <= i < |phrases| && e == phrases[i]
    && forall j | 0 <= j < i :: !Eligible(phrases[j], currentAct, currentTurn)
  }

  /** Filtering distributes over concatenation: the eligible phrases keep the order
      of the stored list, and a repeated phrase is kept as often as it occurs. */
  lemma {:induction false} GetEligibleAppend(a: seq<EchoPhrase>, b: seq<EchoPhrase>, currentAct: int, currentTurn: int)
    ensures GetEligible(a + b, currentAct, currentTurn)
            == GetEligible(a, currentAct, currentTurn) + GetEligible(b, currentAct, currentTurn)
    decreases |b|
  {
    if |b| == 0 {
      assert a + b == a;
    } else {
      var init := b[..|b| - 1];
      assert (a + b)[..|a + b| - 1] == a + init;
      assert (a + b)[|a + b| - 1] == b[|b| - 1];
      GetEligibleAppend(a, init, currentAct, currentTurn);
      GetEligibleSnoc(b, currentAct, currentTurn);
      GetEligibleSnoc(a + b, currentAct, currentTurn);
    }
  }

  /** The last phrase is kept at the end exactly when it is eligible. */
  lemma GetEligibleSnoc(s: seq<EchoPhrase>, currentAct: int, currentTurn: int)
    requires |s| > 0
    ensures GetEligible(s, currentAct, currentTurn)
            == GetEligible(s[..|s| - 1], currentAct, currentTurn)
               + if Eligible(s[|s| - 1], currentAct, currentTurn) then [s[|s| - 1]] else []
  {
  }

  /** A single phrase is kept exactly when it is eligible. */
  lemma GetEligibleOne(e: EchoPhrase, currentAct: int, currentTurn: int)
    ensures GetEligible([e], currentAct, currentTurn) == if Eligible(e, currentAct, currentTurn) then [e] else []
  {
    assert [e][..0] == [];
  }

  // ---------------------------------------------------------------------------
  // Stored echo phrases
  // ---------------------------------------------------------------------------

  /** The identifier of the i-th phrase captured in turn `turnNumber`. */
  function EchoId(turnNumber: int, i: nat): string {
    "echo-" + IntToString(turnNumber) + "-" + NatToString(i)
  }

  /** The captures of a turn as stored phrases, numbered in capture order and unused. */
  function ToEchoPhrases(captured: seq<CapturedEcho>, turnNumber: int): (r: seq<EchoPhrase>)
    ensures |r| == |captured|
    ensures forall i | 0 <= i < |r| ::
      && r[i].phrase == captured[i].phrase && r[i].turnId == captured[i].turnId
      && r[i].category == captured[i].category
      && r[i].eligibleAfterAct == captured[i].eligibleAfterAct
      && r[i].eligibleAfterTurn == captured[i].eligibleAfterTurn
      && !r[i].used
      && r[i].id == EchoId(turnNumber, i)
  {
    seq(|captured|, i requires 0 <= i < |captured| =>
      EchoPhrase(EchoId(turnNumber, i), captured[i].phrase, captured[i].turnId, captured[i].category,
                 captured[i].eligibleAfterAct, captured[i].eligibleAfterTurn, false))
  }

  /** Phrases stored in one turn get distinct identifiers. */
  lemma EchoIdsDistinctInTurn(turnNumber: int, i: nat, j: nat)
    requires EchoId(turnNumber, i) == EchoId(turnNumber, j)
    ensures i == j
  {
    var prefix := "echo-" + IntToString(turnNumber) + "-";
    assert EchoId(turnNumber, i) == prefix + NatToString(i);
    assert EchoId(turnNumber, j) == prefix + NatToString(j);
    assert NatToString(i) == EchoId(turnNumber, i)[|prefix|..];
    assert NatToString(j) == EchoId(turnNumber, j)[|prefix|..];
    NatToStringInjective(i, j);
  }

  /** Across turns numbered from zero, an identifier names one turn and one position. */
  lemma EchoIdsDistinctAcrossTurns(t1: nat, i1: nat, t2: nat, i2: nat)
    requires EchoId(t1, i1) == EchoId(t2, i2)
    ensures t1 == t2 && i1 == i2
  {
    var a, b := NatToString(t1), NatToString(t2);
    var x, y := NatToString(i1), NatToString(i2);
    EchoIdAfterPrefix(t1, i1);
    EchoIdAfterPrefix(t2, i2);
    DigitPrefixSplit(a, x, b, y, '-');
    NatToStringInjective(t1, t2);
    NatToStringInjective(i1, i2);
  }

  /** After its five-character prefix, the identifier of a phrase from a turn numbered
      from zero is the turn's digits, a dash and the position's digits. */
  lemma EchoIdAfterPrefix(t: nat, i: nat)
    ensures |EchoId(t, i)| >= 5
    ensures EchoId(t, i)[5..] == NatToString(t) + ['-'] + NatToString(i)
  {
    var a, x := NatToString(t), NatToString(i);
    assert IntToString(t) == a;
    assert EchoId(t, i) == "echo-" + (a + ['-'] + x);
  }

  /** The cooldown: a phrase captured in act a, turn t and stored unused becomes
      eligible exactly from act a + 1 or from turn t + 5, whichever comes first. */
  lemma {:induction false} Cooldown(m: Matcher, text: string, turnId: string, act: int, turn: int, turnNumber: int, nowAct: int, nowTurn: int)
    ensures forall e | e in ToEchoPhrases(Captured(m, text, turnId, act, turn), turnNumber) ::
      Eligible(e, nowAct, nowTurn) <==> nowAct >= act + 1 || nowTurn >= turn + 5
  {
    var cs := Captured(m, text, turnId, act, turn);
    var es := ToEchoPhrases(cs, turnNumber);
    forall e | e in es ensures Eligible(e, nowAct, nowTurn) <==> nowAct >= act + 1 || nowTurn >= turn + 5 {
      var i :| 0 <= i < |es| && es[i] == e;
      var k := CapturedForSource(m, EchoPatterns, text, turnId, act, turn, i);
    }
  }
}
