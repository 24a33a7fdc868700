/** The post-session summary of src/pages/ExerciseSession.tsx: the
    completion percentage, calculateSessionQuality and
    generateRecommendations, all computed from the count the engine reached,
    the target reps and the pain and difficulty the patient reports on the
    feedback form's 1..10 sliders. */
module Summary {
  import opened Basics
  import Session

  /** `(repCount / reps) * 100`, not rounded. */
  function CompletionPercentage(repCount: nat, reps: nat): (p: real)
    requires reps > 0
    ensures p >= 0.0
    ensures p < 100.0 <==> repCount < reps
    ensures p == 100.0 <==> repCount == reps
    ensures p < 80.0 <==> (repCount as real) < (reps as real) * 0.8
  {
    var ratio := repCount as real / reps as real;
    RatioBelow(repCount as real, reps as real, 1.0);
    RatioBelow(repCount as real, reps as real, 0.8);
    RatioBelow(reps as real, reps as real, 1.0);
    ratio * 100.0
  }

  /** For a positive divisor d: a / d < k exactly when a < k * d. */
  lemma RatioBelow(a: real, d: real, k: real)
    requires d > 0.0
    ensures a / d < k <==> a < k * d
  {
    var q := a / d;
    assert q * d == a;
    if q < k {
      assert (k - q) * d > 0.0;
    } else {
      assert (q - k) * d >= 0.0;
    }
  }

  /** calculateSessionQuality: the rounded mean of a pain score
      `(10 - pain) * 10`, a difficulty score `(10 - difficulty) * 10` and the
      completion percentage. */
  function SessionQuality(pain: int, difficulty: int, repCount: nat, reps: nat): (q: int)
    requires reps > 0
    ensures pain <= 10 && difficulty <= 10 ==> q >= 0
    ensures 1 <= pain && 1 <= difficulty && repCount <= reps ==> q <= 93
  {
    Round((((10 - pain) * 10 + (10 - difficulty) * 10) as real + CompletionPercentage(repCount, reps)) / 3.0)
  }

  /** More pain, more difficulty or fewer reps never raise the quality. */
  lemma {:induction false} SessionQualityMonotone(pain: int, pain': int, difficulty: int, difficulty': int,
                                                   repCount: nat, repCount': nat, reps: nat)
    requires reps > 0
    requires pain <= pain' && difficulty <= difficulty' && repCount' <= repCount
    ensures SessionQuality(pain', difficulty', repCount', reps) <= SessionQuality(pain, difficulty, repCount, reps)
  {
    var c, c' := CompletionPercentage(repCount, reps), CompletionPercentage(repCount', reps);
    assert c' <= c by {
      assert repCount' as real / reps as real <= repCount as real / reps as real;
    }
    RoundMonotone((((10 - pain') * 10 + (10 - difficulty') * 10) as real + c') / 3.0,
                  (((10 - pain) * 10 + (10 - difficulty) * 10) as real + c) / 3.0);
  }

  const PainAdvice := "Consider reducing intensity or taking more rest between sessions"
  const DifficultyAdvice := "Practice basic form before increasing reps"
  const RangeAdvice := "Focus on completing full range of motion for each rep"
  const ExcellentAdvice := "Excellent session! Continue with current routine"

  /** `repCount < reps * 0.8` */
  predicate ShortOfTarget(repCount: nat, reps: nat)
  {
    (repCount as real) < (reps as real) * 0.8
  }

  /** The position of a recommendation in the fixed order of the rules. */
  function Rank(advice: string): nat
  {
    if advice == PainAdvice then 0
    else if advice == DifficultyAdvice then 1
    else if advice == RangeAdvice then 2
    else 3
  }

  /** generateRecommendations: one entry per rule that fires, in the order
      pain above 6, difficulty above 7, fewer than 80% of the reps; the
      "excellent" entry alone exactly when none fires. */
  function Recommendations(pain: int, difficulty: int, repCount: nat, reps: nat): (r: seq<string>)
    ensures 1 <= |r| <= 3
    ensures PainAdvice in r <==> pain > 6
    ensures DifficultyAdvice in r <==> difficulty > 7
    ensures RangeAdvice in r <==> ShortOfTarget(repCount, reps)
    ensures ExcellentAdvice in r <==> pain <= 6 && difficulty <= 7 && !ShortOfTarget(repCount, reps)
    ensures ExcellentAdvice in r ==> r == [ExcellentAdvice]
    ensures forall i, j :: 0 <= i < j < |r| ==> Rank(r[i]) < Rank(r[j])
  {
    var fired := (if pain > 6 then [PainAdvice] else [])
                 + (if difficulty > 7 then [DifficultyAdvice] else [])
                 + (if ShortOfTarget(repCount, reps) then [RangeAdvice] else []);
    if |fired| == 0 then [ExcellentAdvice] else fired
  }

  /** A session the engine marked complete scores its completion in full,
      and its recommendations never ask for a fuller range of motion. */
  lemma CompletedSessionIsFull(e: Session.Exercise, reps: nat, st: Session.TrackerState, pain: int, difficulty: int)
    requires reps > 0 && Session.Inv(e, reps, st) && st.sessionComplete
    ensures CompletionPercentage(st.repCount, reps) >= 100.0
    ensures RangeAdvice !in Recommendations(pain, difficulty, st.repCount, reps)
  {
  }

  /** A report of pain 4 and difficulty 5 after 8 of 10 reps scores 63. */
  lemma QualityExample()
    ensures SessionQuality(4, 5, 8, 10) == 63
    ensures Recommendations(4, 5, 8, 10) == [ExcellentAdvice]
    ensures Recommendations(7, 8, 7, 10) == [PainAdvice, DifficultyAdvice, RangeAdvice]
  {
  }
}
