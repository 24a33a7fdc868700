/** The clinician's view of a patient (src/pages/PatientDetailsPage.tsx):
    generateClinicalInsights, an ordered list of rules over the averages of
    the patient's sessions, and the clamps and colour bands of the charts and
    the session table. Sessions come from the server newest first. */
module Insights {
  import opened Basics

  /** The fields of a stored session that the page reads: the reported
      pain, the session quality, the form score, the completion percentage
      and the creation time (ms). */
  datatype SessionRecord = SessionRecord(pain: real, quality: real, form: real, completion: real, createdAt: int)

  datatype Metric = Pain | Quality | Form | Completion

  function Value(s: SessionRecord, m: Metric): real
  {
    match m
    case Pain => s.pain
    case Quality => s.quality
    case Form => s.form
    case Completion => s.completion
  }

  /** `sessions.reduce((acc, s) => acc + <metric>, 0)` */
  function Total(sessions: seq<SessionRecord>, m: Metric): real
    decreases |sessions|
  {
    if sessions == [] then 0.0
    else Total(sessions[..|sessions| - 1], m) + Value(sessions[|sessions| - 1], m)
  }

  /** The mean of a metric over a non-empty list. */
  function Average(sessions: seq<SessionRecord>, m: Metric): real
    requires |sessions| > 0
  {
    Total(sessions, m) / |sessions| as real
  }

  /** Totals of a list split in two add up. */
  lemma {:induction false} TotalAppend(a: seq<SessionRecord>, b: seq<SessionRecord>, m: Metric)
    ensures Total(a + b, m) == Total(a, m) + Total(b, m)
    decreases |b|
  {
    if b == [] {
      assert a + b == a;
    } else {
      var n := |b| - 1;
      assert (a + b)[..|a + b| - 1] == a + b[..n];
      TotalAppend(a, b[..n], m);
    }
  }

  /** Every value of the metric lies in [lo, hi] ... */
  predicate AllWithin(sessions: seq<SessionRecord>, m: Metric, lo: real, hi: real)
  {
    forall i :: 0 <= i < |sessions| ==> lo <= Value(sessions[i], m) <= hi
  }

  lemma {:induction false} TotalWithin(sessions: seq<SessionRecord>, m: Metric, lo: real, hi: real)
    requires AllWithin(sessions, m, lo, hi)
    ensures |sessions| as real * lo <= Total(sessions, m) <= |sessions| as real * hi
  {
    TotalWithinScaled(sessions, m, lo, hi);
    ScaledIsProduct(|sessions|, lo);
    ScaledIsProduct(|sessions|, hi);
  }

  /** `x` added up `n` times. */
  function Scaled(n: nat, x: real): real
  {
    if n == 0 then 0.0 else Scaled(n - 1, x) + x
  }

  lemma {:induction false} ScaledIsProduct(n: nat, x: real)
    ensures Scaled(n, x) == n as real * x
  {
    if n > 0 {
      ScaledIsProduct(n - 1, x);
      assert n as real * x == (n - 1) as real * x + x;
    }
  }

  lemma {:induction false} TotalWithinScaled(sessions: seq<SessionRecord>, m: Metric, lo: real, hi: real)
    requires AllWithin(sessions, m, lo, hi)
    ensures Scaled(|sessions|, lo) <= Total(sessions, m) <= Scaled(|sessions|, hi)
    decreases |sessions|
  {
    if sessions != [] {
      var n := |sessions| - 1;
      assert AllWithin(sessions[..n], m, lo, hi) by {
        forall i | 0 <= i < n ensures lo <= Value(sessions[..n][i], m) <= hi {
          assert sessions[..n][i] == sessions[i];
        }
      }
      TotalWithinScaled(sessions[..n], m, lo, hi);
    }
  }

  /** ... then so does their average: a patient whose every report is
      within the slider's 1..10 has an average pain within 1..10. */
  lemma AverageWithin(sessions: seq<SessionRecord>, m: Metric, lo: real, hi: real)
    requires |sessions| > 0 && AllWithin(sessions, m, lo, hi)
    ensures lo <= Average(sessions, m) <= hi
  {
    TotalWithin(sessions, m, lo, hi);
    var n := |sessions| as real;
    var a := Average(sessions, m);
    assert a * n == Total(sessions, m);
    assert (a - lo) * n >= 0.0 && (hi - a) * n >= 0.0;
  }

  /** The messages of the insights list (the text of each is given beside it,
      without its leading emoji). */
  datatype Insight =
    | NoData               // No session data available for analysis.
    | HighPain             // High pain levels detected - consider reducing exercise intensity or frequency
    | LowPain              // Excellent pain management - patient is responding well to treatment
    | ModeratePain         // Moderate pain levels - monitor for improvement trends
    | OutstandingQuality   // Outstanding session quality - patient is highly engaged and motivated
    | LowQuality           // Session quality below target - consider additional support or motivation strategies
    | ExcellentForm        // Excellent form consistency - technique is well-established
    | PoorForm             // Form needs improvement - consider additional coaching or modified exercises
    | HighAdherence        // High adherence rate - patient is committed to rehabilitation program
    | LowAdherence         // Adherence below target - consider discussing barriers to completion
    | PainDecreasing       // Positive trend: Pain levels are decreasing over time
    | PainIncreasing       // Concerning trend: Pain levels are increasing - review treatment plan
    | PainManagementFirst  // Recommendation: Consider pain management strategies before increasing exercise intensity
    | FormReview           // Recommendation: Patient is motivated but needs form correction - schedule technique review
    | ProgressingWell      // Patient is progressing well with current treatment plan

  /** The rule an insight comes from, in the order the rules run. */
  function Group(i: Insight): nat
  {
    match i
    case NoData => 0
    case HighPain => 0
    case LowPain => 0
    case ModeratePain => 0
    case OutstandingQuality => 1
    case LowQuality => 1
    case ExcellentForm => 2
    case PoorForm => 2
    case HighAdherence => 3
    case LowAdherence => 3
    case PainDecreasing => 4
    case PainIncreasing => 4
    case PainManagementFirst => 5
    case FormReview => 6
    case ProgressingWell => 7
  }

  /** `sessions.slice(-3)`: the last three, which are the three OLDEST
      sessions since the list is newest first. */
  function RecentSessions(sessions: seq<SessionRecord>): (r: seq<SessionRecord>)
    ensures |r| == if |sessions| < 3 then |sessions| else 3
    ensures r == sessions[|sessions| - |r|..]
  {
    if |sessions| < 3 then sessions else sessions[|sessions| - 3..]
  }

  /** `sessions.slice(0, -3)`: all but the last three. */
  function OlderSessions(sessions: seq<SessionRecord>): (r: seq<SessionRecord>)
    ensures |r| == if |sessions| < 3 then 0 else |sessions| - 3
    ensures r == sessions[..|r|]
  {
    if |sessions| < 3 then [] else sessions[..|sessions| - 3]
  }

  /** The trend rule: with three "recent" and at least one older session,
      a recent average pain more than one point below the older one is a
      positive trend and more than one above a concerning one. */
  function Trend(sessions: seq<SessionRecord>): (r: Option<Insight>)
    ensures r.Some? ==> |sessions| >= 4 && (r.value == PainDecreasing || r.value == PainIncreasing)
  {
    var recent := RecentSessions(sessions);
    if |recent| >= 3 then
      var older := OlderSessions(sessions);
      if |older| > 0 then
        var recentPain := Average(recent, Pain);
        var olderPain := Average(older, Pain);
        if recentPain < olderPain - 1.0 then Some(PainDecreasing)
        else if recentPain > olderPain + 1.0 then Some(PainIncreasing)
        else None
      else None
    else None
  }

  function PainInsight(avgPain: real): Insight
  {
    if avgPain > 7.0 then HighPain else if avgPain < 3.0 then LowPain else ModeratePain
  }

  function QualityInsight(avgQuality: real): Option<Insight>
  {
    if avgQuality > 85.0 then Some(OutstandingQuality) else if avgQuality < 60.0 then Some(LowQuality) else None
  }

  function FormInsight(avgForm: real): Option<Insight>
  {
    if avgForm > 90.0 then Some(ExcellentForm) else if avgForm < 70.0 then Some(PoorForm) else None
  }

  function CompletionInsight(avgCompletion: real): Option<Insight>
  {
    if avgCompletion > 90.0 then Some(HighAdherence) else if avgCompletion < 70.0 then Some(LowAdherence) else None
  }

  /** The averages the rules read. */
  datatype Averages = Averages(pain: real, quality: real, form: real, completion: real)

  function AveragesOf(sessions: seq<SessionRecord>): Averages
    requires |sessions| > 0
  {
    Averages(Average(sessions, Pain), Average(sessions, Quality), Average(sessions, Form), Average(sessions, Completion))
  }

  /** What each rule contributes, in the order the rules run: the pain rule
      always, every other rule at most one message; `trend` is what the
      trend rule gives. */
  function Rules(a: Averages, trend: Option<Insight>): (slots: seq<Option<Insight>>)
    ensures |slots| == 7
    ensures slots[0].Some? && slots[0].value in {HighPain, LowPain, ModeratePain}
  {
    [Some(PainInsight(a.pain)), QualityInsight(a.quality), FormInsight(a.form), CompletionInsight(a.completion), trend,
     if a.pain > 6.0 && a.completion < 80.0 then Some(PainManagementFirst) else None,
     if a.form < 75.0 && a.quality > 80.0 then Some(FormReview) else None]
  }

  /** Every message a rule can give belongs to that rule's position. */
  lemma RulesInOrder(a: Averages, trend: Option<Insight>)
    requires trend.Some? ==> Group(trend.value) == 4
    ensures RuleSlots(Rules(a, trend), 0)
  {
    var slots := Rules(a, trend);
    forall i | 0 <= i < 7 && slots[i].Some? ensures Group(slots[i].value) == i {
      if i == 0 {
      } else if i == 1 {
      } else if i == 2 {
      } else if i == 3 {
      } else if i == 4 {
      } else if i == 5 {
      } else {
      }
    }
  }

  /** The messages of the rules that fired, in order (the `push` calls). */
  function Fired(slots: seq<Option<Insight>>): (r: seq<Insight>)
    ensures |r| <= |slots|
  {
    if slots == [] then []
    else (if slots[0].Some? then [slots[0].value] else []) + Fired(slots[1..])
  }

  /** A message is among those fired exactly when some rule gave it. */
  lemma {:induction false} FiredMembership(slots: seq<Option<Insight>>, x: Insight)
    ensures x in Fired(slots) <==> Some(x) in slots
  {
    if slots != [] {
      FiredMembership(slots[1..], x);
      assert slots == [slots[0]] + slots[1..];
    }
  }

  /** A fired message comes from one of the rules, and so belongs to one of
      their positions. */
  lemma {:induction false} FiredGroupsWithin(slots: seq<Option<Insight>>, base: nat, x: Insight)
    requires RuleSlots(slots, base)
    requires x in Fired(slots)
    ensures base <= Group(x) < base + |slots|
  {
    FiredMembership(slots, x);
    var i :| 0 <= i < |slots| && slots[i] == Some(x);
  }

  /** Messages listed in strictly increasing rule order. */
  predicate Ascending(r: seq<Insight>)
  {
    forall i, j :: 0 <= i < j < |r| ==> Group(r[i]) < Group(r[j])
  }

  /** Slot i holds, if anything, a message of rule base + i. */
  predicate RuleSlots(slots: seq<Option<Insight>>, base: nat)
  {
    forall i :: 0 <= i < |slots| && slots[i].Some? ==> Group(slots[i].value) == base + i
  }

  /** Rules whose messages belong to their own position keep that order
      once the silent ones are dropped. */
  lemma {:induction false} FiredInRuleOrder(slots: seq<Option<Insight>>, base: nat)
    requires RuleSlots(slots, base)
    ensures Ascending(Fired(slots))
  {
    if slots != [] {
      var rest := slots[1..];
      assert RuleSlots(rest, base + 1) by {
        forall i | 0 <= i < |rest| && rest[i].Some? ensures Group(rest[i].value) == base + 1 + i {
          assert rest[i] == slots[i + 1];
        }
      }
      FiredInRuleOrder(rest, base + 1);
      if slots[0].Some? {
        forall x | x in Fired(rest) ensures Group(slots[0].value) < Group(x) {
          FiredGroupsWithin(rest, base + 1, x);
        }
        AscendingCons(slots[0].value, Fired(rest));
      }
    }
  }

  /** A message ranked before every message of an ascending list can be put
      in front of it. */
  lemma AscendingCons(x: Insight, r: seq<Insight>)
    requires Ascending(r) && forall y :: y in r ==> Group(x) < Group(y)
    ensures Ascending([x] + r)
  {
    var r' := [x] + r;
    forall i, j | 0 <= i < j < |r'| ensures Group(r'[i]) < Group(r'[j]) {
      assert r'[j] == r[j - 1];
      if i > 0 {
        assert r'[i] == r[i - 1];
      }
    }
  }

  /** generateClinicalInsights: for no sessions only the no-data message;
      otherwise a pain message first, then at most one quality, form,
      completion and trend message and the two combined recommendations, in
      that order. The closing "progressing well" message is never reached. */
  function ClinicalInsights(sessions: seq<SessionRecord>): (r: seq<Insight>)
    ensures |sessions| == 0 <==> r == [NoData]
    ensures 1 <= |r| <= 7
    ensures |sessions| > 0 ==> r[0] == PainInsight(Average(sessions, Pain))
    ensures ProgressingWell !in r
    ensures Ascending(r)
  {
    if |sessions| == 0 then [NoData]
    else
      var slots := Rules(AveragesOf(sessions), Trend(sessions));
      var insights := Fired(slots);
      RulesInOrder(AveragesOf(sessions), Trend(sessions));
      FiredInRuleOrder(slots, 0);
      NoClosingMessage(slots);
      assert insights[0] == slots[0].value;
      if |insights| == 0 then [ProgressingWell] else insights
  }

  /** The closing message belongs to none of the seven rules, so the rules
      never give it. */
  lemma NoClosingMessage(slots: seq<Option<Insight>>)
    requires |slots| == 7 && RuleSlots(slots, 0)
    ensures ProgressingWell !in Fired(slots)
  {
    FiredMembership(slots, ProgressingWell);
    forall i | 0 <= i < |slots| ensures slots[i] != Some(ProgressingWell) {
      if slots[i].Some? {
        assert Group(slots[i].value) == i;
      }
    }
  }

  /** For a non-empty history the list is what the rules gave, in order. */
  lemma InsightsAreFiredRules(sessions: seq<SessionRecord>)
    requires |sessions| > 0
    ensures ClinicalInsights(sessions) == Fired(Rules(AveragesOf(sessions), Trend(sessions)))
  {
    var slots := Rules(AveragesOf(sessions), Trend(sessions));
    assert Fired(slots)[0] == slots[0].value;
  }

  /** A message is fired exactly when the rule at its own position gave it. */
  lemma InsightFromItsRule(a: Averages, trend: Option<Insight>, x: Insight)
    requires trend.Some? ==> Group(trend.value) == 4
    requires Group(x) < 7
    ensures x in Fired(Rules(a, trend)) <==> Rules(a, trend)[Group(x)] == Some(x)
  {
    var slots := Rules(a, trend);
    RulesInOrder(a, trend);
    FiredMembership(slots, x);
    if x in Fired(slots) {
      var i :| 0 <= i < |slots| && slots[i] == Some(x);
    }
  }

  /** The quality and form messages are in the list exactly when their
      rule fires: quality above 85 or below 60, form above 90 or below 70. */
  lemma QualityFormRules(a: Averages, trend: Option<Insight>)
    requires trend.Some? ==> Group(trend.value) == 4
    ensures var r := Fired(Rules(a, trend));
            && (OutstandingQuality in r <==> a.quality > 85.0)
            && (LowQuality in r <==> a.quality < 60.0)
            && (ExcellentForm in r <==> a.form > 90.0)
            && (PoorForm in r <==> a.form < 70.0)
  {
    InsightFromItsRule(a, trend, OutstandingQuality);
    InsightFromItsRule(a, trend, LowQuality);
    InsightFromItsRule(a, trend, ExcellentForm);
    InsightFromItsRule(a, trend, PoorForm);
  }

  /** The adherence messages are in the list exactly when the average
      completion is above 90 or below 70. */
  lemma AdherenceRules(a: Averages, trend: Option<Insight>)
    requires trend.Some? ==> Group(trend.value) == 4
    ensures var r := Fired(Rules(a, trend));
            && (HighAdherence in r <==> a.completion > 90.0)
            && (LowAdherence in r <==> a.completion < 70.0)
  {
    InsightFromItsRule(a, trend, HighAdherence);
    InsightFromItsRule(a, trend, LowAdherence);
  }

  /** The trend message is in the list exactly when the trend rule gave it;
      the combined recommendations exactly for pain above 6 with completion
      below 80, and for form below 75 with quality above 80. */
  lemma TrendAndRecommendationRules(a: Averages, trend: Option<Insight>)
    requires trend.Some? ==> Group(trend.value) == 4
    ensures var r := Fired(Rules(a, trend));
            && (PainDecreasing in r <==> trend == Some(PainDecreasing))
            && (PainIncreasing in r <==> trend == Some(PainIncreasing))
            && (PainManagementFirst in r <==> a.pain > 6.0 && a.completion < 80.0)
            && (FormReview in r <==> a.form < 75.0 && a.quality > 80.0)
  {
    InsightFromItsRule(a, trend, PainDecreasing);
    InsightFromItsRule(a, trend, PainIncreasing);
    InsightFromItsRule(a, trend, PainManagementFirst);
    InsightFromItsRule(a, trend, FormReview);
  }

  /** The trend rule fires exactly with four or more sessions and the
      average pain of the last three in the list more than one point below
      (positive) or above (concerning) the average of the rest. */
  lemma TrendRule(sessions: seq<SessionRecord>)
    ensures Trend(sessions) == Some(PainDecreasing) <==>
              |sessions| >= 4
              && Average(RecentSessions(sessions), Pain) < Average(OlderSessions(sessions), Pain) - 1.0
    ensures Trend(sessions) == Some(PainIncreasing) <==>
              |sessions| >= 4
              && Average(RecentSessions(sessions), Pain) > Average(OlderSessions(sessions), Pain) + 1.0
  {
  }

  /** Sessions listed newest first. */
  predicate NewestFirst(sessions: seq<SessionRecord>)
  {
    forall i, j :: 0 <= i < j < |sessions| ==> sessions[i].createdAt >= sessions[j].createdAt
  }

  /** On a newest-first list the "recent" sessions of the trend rule are
      never newer than any of the "older" ones. */
  lemma {:induction false} RecentAreOldest(sessions: seq<SessionRecord>, i: nat, j: nat)
    requires NewestFirst(sessions)
    requires i < |RecentSessions(sessions)| && j < |OlderSessions(sessions)|
    ensures RecentSessions(sessions)[i].createdAt <= OlderSessions(sessions)[j].createdAt
  {
    var k := |sessions| - 3 + i;
    assert RecentSessions(sessions)[i] == sessions[k];
    assert OlderSessions(sessions)[j] == sessions[j];
  }

  /** The list in the opposite order: oldest first for a newest-first list. */
  function Reverse(sessions: seq<SessionRecord>): (r: seq<SessionRecord>)
    ensures |r| == |sessions|
    ensures forall i :: 0 <= i < |r| ==> r[i] == sessions[|sessions| - 1 - i]
  {
    seq(|sessions|, i requires 0 <= i < |sessions| => sessions[|sessions| - 1 - i])
  }

  /** Reversing a list keeps its totals. */
  lemma {:induction false} TotalReverse(sessions: seq<SessionRecord>, m: Metric)
    ensures Total(Reverse(sessions), m) == Total(sessions, m)
    decreases |sessions|
  {
    if sessions != [] {
      var n := |sessions| - 1;
      var init := sessions[..n];
      TotalReverse(init, m);
      assert Reverse(sessions) == [sessions[n]] + Reverse(init);
      TotalAppend([sessions[n]], Reverse(init), m);
      assert [sessions[n]][..0] == [];
    }
  }

  /** The trend rule as its comment intends it: the three newest sessions,
      which head the newest-first list, against all earlier ones. */
  function TrendByTime(sessions: seq<SessionRecord>): (r: Option<Insight>)
    ensures r.Some? ==> |sessions| >= 4 && (r.value == PainDecreasing || r.value == PainIncreasing)
  {
    if |sessions| >= 4 then
      var recentPain := Average(sessions[..3], Pain);
      var olderPain := Average(sessions[3..], Pain);
      if recentPain < olderPain - 1.0 then Some(PainDecreasing)
      else if recentPain > olderPain + 1.0 then Some(PainIncreasing)
      else None
    else None
  }

  /** The corrected rule is the page's rule applied to the sessions in
      chronological order, the order `slice(-3)` takes for granted. */
  lemma TrendByTimeIsChronological(sessions: seq<SessionRecord>)
    ensures TrendByTime(sessions) == Trend(Reverse(sessions))
  {
    var rev := Reverse(sessions);
    if |sessions| >= 4 {
      var n := |sessions|;
      assert RecentSessions(rev) == Reverse(sessions[..3]);
      assert OlderSessions(rev) == Reverse(sessions[3..]);
      TotalReverse(sessions[..3], Pain);
      TotalReverse(sessions[3..], Pain);
    }
  }

  /** Three newest sessions at pain 2 after three at pain 8, listed newest
      first as the page receives them. */
  const FallingPain: seq<SessionRecord> :=
    [SessionRecord(2.0, 70.0, 80.0, 90.0, 6), SessionRecord(2.0, 70.0, 80.0, 90.0, 5),
     SessionRecord(2.0, 70.0, 80.0, 90.0, 4), SessionRecord(8.0, 70.0, 80.0, 90.0, 3),
     SessionRecord(8.0, 70.0, 80.0, 90.0, 2), SessionRecord(8.0, 70.0, 80.0, 90.0, 1)]

  /** On a history whose pain fell from 8 to 2, the rule as written reports
      a concerning rise, because its "recent" sessions are the oldest; the
      corrected rule reports the fall. */
  lemma TrendReadsOldestAsRecent()
    ensures NewestFirst(FallingPain)
    ensures Trend(FallingPain) == Some(PainIncreasing)
    ensures TrendByTime(FallingPain) == Some(PainDecreasing)
  {
    assert RecentSessions(FallingPain) == FallingPain[3..];
    assert OlderSessions(FallingPain) == FallingPain[..3];
    TotalOfThree(FallingPain[3..], Pain);
    TotalOfThree(FallingPain[..3], Pain);
  }

  lemma TotalOfThree(sessions: seq<SessionRecord>, m: Metric)
    requires |sessions| == 3
    ensures Total(sessions, m) == Value(sessions[0], m) + Value(sessions[1], m) + Value(sessions[2], m)
  {
    var two, one := sessions[..2], [sessions[0]];
    assert two[..1] == one && one[..0] == [];
    assert Total(sessions, m) == Total(two, m) + Value(sessions[2], m);
    assert Total(two, m) == Total(one, m) + Value(sessions[1], m);
    assert Total(one, m) == Value(sessions[0], m);
  }

  /** The insights with the corrected trend rule: for a newest-first list,
      what the page's code gives for the same sessions in chronological
      order. */
  function CorrectedInsights(sessions: seq<SessionRecord>): (r: seq<Insight>)
    ensures r == ClinicalInsights(Reverse(sessions))
    ensures |sessions| == 0 <==> r == [NoData]
    ensures Ascending(r)
  {
    if |sessions| == 0 then [NoData]
    else
      var rev := Reverse(sessions);
      TrendByTimeIsChronological(sessions);
      TotalReverse(sessions, Pain);
      TotalReverse(sessions, Quality);
      TotalReverse(sessions, Form);
      TotalReverse(sessions, Completion);
      assert AveragesOf(rev) == AveragesOf(sessions);
      InsightsAreFiredRules(rev);
      Fired(Rules(AveragesOf(sessions), TrendByTime(sessions)))
  }

  /** The colour of a badge in the session table. */
  datatype Badge = Green | Yellow | Red

  /** Quality: green from 80, yellow from 60, red below. */
  function QualityBadge(quality: real): (b: Badge)
    ensures b == Green <==> quality >= 80.0
    ensures b == Red <==> quality < 60.0
  {
    if quality >= 80.0 then Green else if quality >= 60.0 then Yellow else Red
  }

  /** Pain: green up to 3, yellow up to 6, red above. */
  function PainBadge(pain: real): (b: Badge)
    ensures b == Green <==> pain <= 3.0
    ensures b == Red <==> pain > 6.0
  {
    if pain <= 3.0 then Green else if pain <= 6.0 then Yellow else Red
  }

  /** Form: green from 85, yellow from 70, red below. */
  function FormBadge(form: real): (b: Badge)
    ensures b == Green <==> form >= 85.0
    ensures b == Red <==> form < 70.0
  {
    if form >= 85.0 then Green else if form >= 70.0 then Yellow else Red
  }

  function Severity(b: Badge): nat
  {
    match b
    case Green => 0
    case Yellow => 1
    case Red => 2
  }

  /** A better value never gets a worse badge. */
  lemma BadgesMonotone(x: real, y: real)
    requires x <= y
    ensures Severity(QualityBadge(y)) <= Severity(QualityBadge(x))
    ensures Severity(FormBadge(y)) <= Severity(FormBadge(x))
    ensures Severity(PainBadge(x)) <= Severity(PainBadge(y))
  {
  }

  /** `sessions.slice(-7)`: the bars show the last seven sessions of the
      list (all of them when there are fewer). */
  function LastSeven(sessions: seq<SessionRecord>): (r: seq<SessionRecord>)
    ensures |r| == if |sessions| < 7 then |sessions| else 7
    ensures forall i :: 0 <= i < |r| ==> r[i] == sessions[|sessions| - |r| + i]
  {
    if |sessions| < 7 then sessions else sessions[|sessions| - 7..]
  }

  /** On a newest-first list of more than seven sessions the bars labelled
      "last 7" show the seven oldest: none of them is newer than a session
      left out. */
  lemma LastSevenAreOldest(sessions: seq<SessionRecord>, i: nat, k: nat)
    requires NewestFirst(sessions) && |sessions| > 7
    requires i < 7 && k < |sessions| - 7
    ensures LastSeven(sessions)[i].createdAt <= sessions[k].createdAt
  {
  }

  /** The seven newest sessions (all when there are fewer), oldest first so
      that the bars read left to right in time. */
  function NewestSeven(sessions: seq<SessionRecord>): (r: seq<SessionRecord>)
    ensures |r| == if |sessions| < 7 then |sessions| else 7
    ensures forall i :: 0 <= i < |r| ==> r[i] == sessions[|r| - 1 - i]
  {
    Reverse(if |sessions| < 7 then sessions else sessions[..7])
  }

  /** For a newest-first list the corrected bars are in time order and no
      session left out is newer than one shown. */
  lemma NewestSevenAreNewest(sessions: seq<SessionRecord>)
    requires NewestFirst(sessions)
    ensures var r := NewestSeven(sessions);
            && (forall i, j :: 0 <= i < j < |r| ==> r[i].createdAt <= r[j].createdAt)
            && (forall i, k :: 0 <= i < |r| <= k < |sessions| ==> r[i].createdAt >= sessions[k].createdAt)
  {
  }

  /** Completion bar height (percent): the completion clamped into [0, 100]. */
  function CompletionBar(completion: real): (h: real)
    ensures 0.0 <= h <= 100.0
    ensures 0.0 <= completion <= 100.0 ==> h == completion
    ensures completion < 0.0 ==> h == 0.0
    ensures completion > 100.0 ==> h == 100.0
  {
    ClampReal(0.0, 100.0, completion)
  }

  /** Pain bar height (percent): the pain clamped into [0, 10], times ten. */
  function PainBar(pain: real): (h: real)
    ensures 0.0 <= h <= 100.0
    ensures 0.0 <= pain <= 10.0 ==> h == pain * 10.0
    ensures pain > 10.0 ==> h == 100.0
    ensures pain < 0.0 ==> h == 0.0
  {
    ClampReal(0.0, 10.0, pain) * 10.0
  }
}
