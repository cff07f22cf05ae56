/** The Missing Tapes Engine: long silences in the user's timeline — six months or
    more between consecutive events — reported largest first, each with a gentle
    tease, and packaged as missing-tape receipt cards for the Reveal Engine. */
module MissingTapesEngine {
  import opened Basics
  import opened Schemas
  import opened Sorting
  import opened RevealEngine

  datatype TimelineGap = TimelineGap(
    startDate: string,
    endDate: string,
    gapDays: int,
    description: string,
    suggestedTease: string)

  /** Six months. */
  const GapThresholdDays: int := 180

  /** How a tease speaks of a gap: in months below a year's worth, else in years. */
  datatype GapSpan = Months(months: int) | Years(years: int)

  /** `Math.round(diffDays / 30)`, in whole numbers: the floor of d / 30 + 1/2 is the
      floor of (d + 15) / 30. */
  function MonthsIn(diffDays: int): int {
    (diffDays + 15) / 30
  }

  /** `Math.round(months / 12)`, in whole numbers. */
  function YearsIn(months: int): int {
    (months + 6) / 12
  }

  /** The whole-number forms agree with `Math.round` on the real quotients. */
  lemma RoundingAgreesWithMathRound(n: int)
    ensures MonthsIn(n) == JsRound(n as real / 30.0)
    ensures YearsIn(n) == JsRound(n as real / 12.0)
  {
    var m, y := MonthsIn(n), YearsIn(n);
    assert m * 30 <= n + 15 < (m + 1) * 30;
    assert m as real - 0.5 <= n as real / 30.0 < m as real + 0.5;
    assert y * 12 <= n + 6 < (y + 1) * 12;
    assert y as real - 0.5 <= n as real / 12.0 < y as real + 0.5;
  }

  function SpanOf(diffDays: int): GapSpan {
    var months := MonthsIn(diffDays);
    if months >= 12 then Years(YearsIn(months)) else Months(months)
  }

  /** For a reported gap (180 days or more): from 345 days the tease speaks in years,
      and says "year" in the singular up to 524 days; below 345 days it speaks of six
      to eleven months. */
  lemma SpanOfGap(diffDays: int)
    requires diffDays >= GapThresholdDays
    ensures SpanOf(diffDays).Years? <==> diffDays >= 345
    ensures SpanOf(diffDays).Months? ==> 6 <= SpanOf(diffDays).months <= 11
    ensures SpanOf(diffDays).Years? ==> SpanOf(diffDays).years >= 1
    ensures SpanOf(diffDays) == Years(1) <==> 345 <= diffDays < 525
  {
  }

  function GenerateTease(diffDays: int, before: string, after: string): string {
    match SpanOf(diffDays)
    case Years(years) =>
      Join(["There's about ", IntToString(years), if years > 1 then " years" else " year",
            " between ", before, " and ", after, ". I'm curious what was happening then."], "")
    case Months(months) =>
      Join(["There's about ", IntToString(months), " months between ", before, " and ", after,
            ". What was that time like?"], "")
  }

  /** The tease opens with the span: a rounded year count with "year" in the singular
      only for one year, once the rounded months reach twelve; else the rounded months. */
  lemma {:induction false} TeaseWording(diffDays: int, before: string, after: string)
    ensures var months := MonthsIn(diffDays);
      months < 12 ==> StartsWith(GenerateTease(diffDays, before, after),
        "There's about " + IntToString(months) + " months between " + before + " and " + after)
    ensures var years := YearsIn(MonthsIn(diffDays));
      MonthsIn(diffDays) >= 12 ==> StartsWith(GenerateTease(diffDays, before, after),
        "There's about " + IntToString(years) + (if years > 1 then " years" else " year")
        + " between " + before + " and " + after)
  {
    match SpanOf(diffDays)
    case Years(years) =>
      SevenLead("There's about ", IntToString(years), if years > 1 then " years" else " year",
                " between ", before, " and ", after, ". I'm curious what was happening then.");
    case Months(months) =>
      SixLead("There's about ", IntToString(months), " months between ", before, " and ", after,
              ". What was that time like?");
  }

  /** Joined without a separator, seven parts begin with the first six. */
  lemma {:induction false} SixLead(a: string, b: string, c: string, d: string, e: string, f: string, g: string)
    ensures StartsWith(Join([a, b, c, d, e, f, g], ""), a + b + c + d + e + f)
  {
    var p1 := [a];
    var p2 := p1 + [b];
    var p3 := p2 + [c];
    var p4 := p3 + [d];
    var p5 := p4 + [e];
    var p6 := p5 + [f];
    JoinSnoc(p1, b);
    JoinSnoc(p2, c);
    JoinSnoc(p3, d);
    JoinSnoc(p4, e);
    JoinSnoc(p5, f);
    assert [a, b, c, d, e, f, g][..6] == p6;
    JoinPrefix([a, b, c, d, e, f, g], 6);
  }

  /** Joined without a separator, eight parts begin with the first seven. */
  lemma {:induction false} SevenLead(a: string, b: string, c: string, d: string, e: string, f: string, g: string, h: string)
    ensures StartsWith(Join([a, b, c, d, e, f, g, h], ""), a + b + c + d + e + f + g)
  {
    var p1 := [a];
    var p2 := p1 + [b];
    var p3 := p2 + [c];
    var p4 := p3 + [d];
    var p5 := p4 + [e];
    var p6 := p5 + [f];
    var p7 := p6 + [g];
    JoinSnoc(p1, b);
    JoinSnoc(p2, c);
    JoinSnoc(p3, d);
    JoinSnoc(p4, e);
    JoinSnoc(p5, f);
    JoinSnoc(p6, g);
    assert [a, b, c, d, e, f, g, h][..7] == p7;
    JoinPrefix([a, b, c, d, e, f, g, h], 7);
  }

  /** The gap between two events, measured in whole days. */
  function GapBetween(a: TimelineEvent, b: TimelineEvent): TimelineGap {
    var diffDays := b.day - a.day;
    TimelineGap(
      a.date,
      b.date,
      diffDays,
      Join([IntToString(MonthsIn(diffDays)), " months between \"", a.description, "\" and \"", b.description, "\""], ""),
      GenerateTease(diffDays, a.description, b.description))
  }

  /** The timeline in date order (a stable sort by day). */
  function Chronological(timeline: seq<TimelineEvent>): (sorted: seq<TimelineEvent>)
    ensures |sorted| == |timeline|
    ensures multiset(sorted) == multiset(timeline)
    ensures forall i, j | 0 <= i < j < |sorted| :: sorted[i].day <= sorted[j].day
  {
    SortBy(timeline, (e: TimelineEvent) => e.day)
  }

  predicate GapAfter(sorted: seq<TimelineEvent>, i: int)
    requires 0 <= i < |sorted| - 1
  {
    sorted[i + 1].day - sorted[i].day >= GapThresholdDays
  }

  /** What `make` builds from each of the first n consecutive pairs that are six
      months or more apart, in timeline order. */
  function AdjacentGaps<T>(sorted: seq<TimelineEvent>, n: int, make: (TimelineEvent, TimelineEvent) -> T): (r: seq<T>)
    requires 0 <= n <= |sorted| - 1
    ensures |r| <= n
  {
    if n == 0 then []
    else AdjacentGaps(sorted, n - 1, make)
         + (if GapAfter(sorted, n - 1) then [make(sorted[n - 1], sorted[n])] else [])
  }

  /** The gaps among the first n consecutive pairs, in timeline order. */
  function GapsAmong(sorted: seq<TimelineEvent>, n: int): seq<TimelineGap>
    requires 0 <= n <= |sorted| - 1
  {
    AdjacentGaps(sorted, n, GapBetween)
  }

  /** Largest first (a stable sort on the negated size): the same gaps, reordered. */
  function LargestFirst(gaps: seq<TimelineGap>): (r: seq<TimelineGap>)
    ensures |r| == |gaps| && multiset(r) == multiset(gaps)
    ensures forall g :: g in r <==> g in gaps
    ensures forall i, j | 0 <= i < j < |r| :: r[i].gapDays >= r[j].gapDays
  {
    var r := SortBy(gaps, (g: TimelineGap) => -g.gapDays);
    SortByKeepsMembers(gaps, (g: TimelineGap) => -g.gapDays);
    r
  }

  /** At most one gap per consecutive pair, none for fewer than two events, largest
      first. */
  function Gaps(timeline: seq<TimelineEvent>): (gaps: seq<TimelineGap>)
    ensures |timeline| < 2 ==> gaps == []
    ensures |timeline| >= 2 ==> |gaps| <= |timeline| - 1
    ensures forall i, j | 0 <= i < j < |gaps| :: gaps[i].gapDays >= gaps[j].gapDays
  {
    if |timeline| < 2 then []
    else
      var sorted := Chronological(timeline);
      LargestFirst(GapsAmong(sorted, |sorted| - 1))
  }

  /** `findGaps`: sorts the timeline, walks its consecutive pairs, and returns the
      gaps of six months or more, largest first. */
  method FindGaps(timeline: seq<TimelineEvent>) returns (gaps: seq<TimelineGap>)
    ensures gaps == Gaps(timeline)
  {
    if |timeline| < 2 {
      return [];
    }
    var sorted := Chronological(timeline);
    var found := WalkPairs(sorted);
    gaps := LargestFirst(found);
  }

  /** The walk over consecutive pairs of the sorted timeline, in timeline order. */
  method WalkPairs(sorted: seq<TimelineEvent>) returns (found: seq<TimelineGap>)
    requires |sorted| >= 2
    ensures found == GapsAmong(sorted, |sorted| - 1)
  {
    found := [];
    for i := 0 to |sorted| - 1
      invariant found == GapsAmong(sorted, i)
    {
      var diffDays := sorted[i + 1].day - sorted[i].day;
      if diffDays >= GapThresholdDays {
        found := found + [GapBetween(sorted[i], sorted[i + 1])];
      }
      assert found == AdjacentGaps(sorted, i + 1, GapBetween);
    }
  }

  /** Everything built among the first n pairs comes from a pair at least six months
      apart. */
  lemma {:induction false} AdjacentGapsSound<T>(sorted: seq<TimelineEvent>, n: int, make: (TimelineEvent, TimelineEvent) -> T, x: T)
    returns (i: int)
    requires 0 <= n <= |sorted| - 1 && x in AdjacentGaps(sorted, n, make)
    ensures 0 <= i < n && GapAfter(sorted, i) && x == make(sorted[i], sorted[i + 1])
  {
    assert n > 0;
    var prev := AdjacentGaps(sorted, n - 1, make);
    if x in prev {
      i := AdjacentGapsSound(sorted, n - 1, make, x);
    } else {
      i := n - 1;
    }
  }

  /** Every pair among the first n that is at least six months apart is built. */
  lemma {:induction false} AdjacentGapsComplete<T>(sorted: seq<TimelineEvent>, n: int, make: (TimelineEvent, TimelineEvent) -> T, i: int)
    requires 0 <= i < n <= |sorted| - 1 && GapAfter(sorted, i)
    ensures make(sorted[i], sorted[i + 1]) in AdjacentGaps(sorted, n, make)
  {
    if i < n - 1 {
      AdjacentGapsComplete(sorted, n - 1, make, i);
    }
  }

  /** Two events adjacent in date order have no event of the timeline dated strictly
      between them. */
  lemma {:induction false} AdjacentInDateOrder(timeline: seq<TimelineEvent>, sorted: seq<TimelineEvent>, i: int)
    requires multiset(sorted) == multiset(timeline)
    requires forall j, k | 0 <= j < k < |sorted| :: sorted[j].day <= sorted[k].day
    requires 0 <= i < |sorted| - 1
    ensures forall e | e in timeline :: !(sorted[i].day < e.day < sorted[i + 1].day)
  {
    forall e | e in timeline ensures !(sorted[i].day < e.day < sorted[i + 1].day) {
      assert e in multiset(sorted);
      var k :| 0 <= k < |sorted| && sorted[k] == e;
      if k <= i {
        assert e.day <= sorted[i].day;
      } else {
        assert e.day >= sorted[i + 1].day;
      }
    }
  }

  /** A property of one reported gap: it spans two events of the timeline at least six
      months apart, with no event of the timeline dated strictly between them. */
  predicate IsEmptyStretch(g: TimelineGap, timeline: seq<TimelineEvent>) {
    && g.gapDays >= GapThresholdDays
    && exists a, b | a in timeline && b in timeline ::
         && g == GapBetween(a, b)
         && forall e | e in timeline :: !(a.day < e.day < b.day)
  }

  lemma {:induction false} PairIsEmptyStretch(timeline: seq<TimelineEvent>, sorted: seq<TimelineEvent>, i: int)
    requires multiset(sorted) == multiset(timeline)
    requires forall j, k | 0 <= j < k < |sorted| :: sorted[j].day <= sorted[k].day
    requires 0 <= i < |sorted| - 1 && GapAfter(sorted, i)
    ensures IsEmptyStretch(GapBetween(sorted[i], sorted[i + 1]), timeline)
  {
    var a, b := sorted[i], sorted[i + 1];
    assert a in multiset(sorted) && b in multiset(sorted);
    AdjacentInDateOrder(timeline, sorted, i);
    assert GapBetween(a, b).gapDays == b.day - a.day;
  }

  /** Every reported gap spans two events of the timeline at least six months apart,
      with no event of the timeline dated strictly between them. */
  lemma {:induction false} GapsAreEmptyStretches(timeline: seq<TimelineEvent>)
    ensures forall g | g in Gaps(timeline) :: IsEmptyStretch(g, timeline)
  {
    forall g | g in Gaps(timeline) ensures IsEmptyStretch(g, timeline) {
      GapIsEmptyStretch(timeline, g);
    }
  }

  lemma {:induction false} GapIsEmptyStretch(timeline: seq<TimelineEvent>, g: TimelineGap)
    requires g in Gaps(timeline)
    ensures IsEmptyStretch(g, timeline)
  {
    var i := GapPosition(timeline, g);
    PairIsEmptyStretch(timeline, Chronological(timeline), i);
  }

  /** A reported gap is the gap after some position of the sorted timeline. */
  lemma {:induction false} GapPosition(timeline: seq<TimelineEvent>, g: TimelineGap) returns (i: int)
    requires g in Gaps(timeline)
    ensures 0 <= i < |timeline| - 1
    ensures GapAfter(Chronological(timeline), i)
    ensures g == GapBetween(Chronological(timeline)[i], Chronological(timeline)[i + 1])
  {
    i := AdjacentGapsSound(Chronological(timeline), |timeline| - 1, GapBetween, g);
  }

  /** Every stretch of six months or more between two events of the timeline with no
      event dated in between is reported, as the gap between two events of those very
      days (the same events, unless another event shares one of the two days). */
  lemma {:induction false} EmptyStretchesAreReported(timeline: seq<TimelineEvent>, a: TimelineEvent, b: TimelineEvent)
    requires a in timeline && b in timeline
    requires b.day - a.day >= GapThresholdDays
    requires forall e | e in timeline :: !(a.day < e.day < b.day)
    ensures exists a', b' | a' in timeline && b' in timeline ::
      a'.day == a.day && b'.day == b.day && GapBetween(a', b') in Gaps(timeline)
  {
    var sorted := Chronological(timeline);
    var i := AdjacentPairFor(timeline, sorted, a, b);
    var a', b' := sorted[i], sorted[i + 1];
    assert a' in multiset(sorted) && b' in multiset(sorted);
    AdjacentGapReported(timeline, i);
    assert a' in timeline && b' in timeline && a'.day == a.day && b'.day == b.day && GapBetween(a', b') in Gaps(timeline);
  }

  /** The gap after any pair of the sorted timeline at least six months apart is
      reported. */
  lemma {:induction false} AdjacentGapReported(timeline: seq<TimelineEvent>, i: int)
    requires 0 <= i < |timeline| - 1 && GapAfter(Chronological(timeline), i)
    ensures GapBetween(Chronological(timeline)[i], Chronological(timeline)[i + 1]) in Gaps(timeline)
  {
    AdjacentGapsComplete(Chronological(timeline), |timeline| - 1, GapBetween, i);
  }

  /** Two events with no event dated between them, on different days, have events of
      their two days adjacent in date order. */
  lemma {:induction false} AdjacentPairFor(timeline: seq<TimelineEvent>, sorted: seq<TimelineEvent>, a: TimelineEvent, b: TimelineEvent)
    returns (i: int)
    requires multiset(sorted) == multiset(timeline)
    requires forall j, k | 0 <= j < k < |sorted| :: sorted[j].day <= sorted[k].day
    requires a in timeline && b in timeline && a.day < b.day
    requires forall e | e in timeline :: !(a.day < e.day < b.day)
    ensures 0 <= i < |sorted| - 1 && sorted[i].day == a.day && sorted[i + 1].day == b.day
  {
    assert a in multiset(sorted) && b in multiset(sorted);
    var q :| 0 <= q < |sorted| && sorted[q] == b;
    var j := FirstOfDay(sorted, b.day, q);
    var p :| 0 <= p < |sorted| && sorted[p] == a;
    assert p < j;
    i := j - 1;
    assert sorted[i] in multiset(timeline);
  }

  /** The first position of a sorted timeline holding day `day`, at or before q. */
  lemma {:induction false} FirstOfDay(sorted: seq<TimelineEvent>, day: int, q: int) returns (j: int)
    requires forall i, k | 0 <= i < k < |sorted| :: sorted[i].day <= sorted[k].day
    requires 0 <= q < |sorted| && sorted[q].day == day
    ensures 0 <= j <= q && sorted[j].day == day
    ensures forall k | 0 <= k < j :: sorted[k].day < day
    decreases q
  {
    if q > 0 && sorted[q - 1].day == day {
      j := FirstOfDay(sorted, day, q - 1);
    } else {
      j := q;
    }
  }

  // ---------------------------------------------------------------------------
  // Missing-tape receipts
  // ---------------------------------------------------------------------------

  /** `createReceiptCard`: a missing-tape card marked as a gap, carrying the gap's
      dates and description and nothing else. */
  function CreateReceiptCard(gap: TimelineGap): (card: ReceiptCard)
    ensures card.cardType == MissingTape && card.isGap == Some(true)
    ensures card.dateStart == Some(gap.startDate) && card.dateEnd == Some(gap.endDate)
    ensures card.gapDescription == Some(gap.description)
    ensures card.docRef.None? && card.excerpt.None? && card.highlightSpans.None?
    ensures card.eventDescription.None? && card.url.None? && card.caption.None? && card.tag.None?
  {
    ReceiptCard(MissingTape, None, None, None, Some(gap.startDate), Some(gap.endDate), None,
                Some(true), None, None, None, Some(gap.description))
  }

  /** A missing tape revealed through the Reveal Engine is teased as a gap and followed
      up by asking what was happening at the time, whatever the topic. */
  lemma GapRevealPlan(gap: TimelineGap, id: string, topic: string, requirePermission: bool)
    ensures
      var plan := CreateRevealPlan(id, CreateReceiptCard(gap), topic, requirePermission);
      && plan.teaseLine == "There's a gap in the timeline I'm curious about."
      && plan.integrationPrompt == "What was happening during that time?"
      && plan.payload.gapDescription == Some(gap.description)
  {
  }
}
