/** The demo data of POST /api/seed in backend/server.js: ninety daily
    sessions for the demo patient and for Sam Jones, and two open one-hour
    slots a day for a week for every clinician. The random numbers and the
    sine and cosine waves the route draws are the parameters of a `Draw`;
    dates are milliseconds since the epoch. */
module Seed {
  import opened Basics
  import Summary
  import Insights
  import Appointments

  const DayMs: int := 86400000
  const HourMs: int := 3600000

  /** How many daily sessions are seeded per patient. */
  const SeededDays: nat := 90

  /** What one iteration of a seeding loop draws: three uniform numbers in
      [0, 1) for reps, pain and difficulty, one for the form score, and the
      values of the sine and cosine waves at that day. */
  datatype Draw = Draw(reps: real, painWave: real, pain: real, difficultyWave: real, difficulty: real, form: real)

  predicate ValidDraw(d: Draw)
  {
    0.0 <= d.reps < 1.0 && 0.0 <= d.pain < 1.0 && 0.0 <= d.difficulty < 1.0 && 0.0 <= d.form < 1.0 &&
    -1.0 <= d.painWave <= 1.0 && -1.0 <= d.difficultyWave <= 1.0
  }

  /** The fields of a seeded session document that the analytics read. */
  datatype SeededSession = SeededSession(
    exercise: string, targetReps: nat, repsCompleted: int,
    pain: int, difficulty: int, formScore: int,
    completion: int, quality: int, recommendations: seq<string>, createdAt: int)

  /** `Math.round((repsCompleted / targetReps) * 100)` */
  function SeedCompletion(repsCompleted: int, targetReps: nat): int
    requires targetReps > 0
  {
    Round(repsCompleted as real / targetReps as real * 100.0)
  }

  /** Between half and all of a target of at most 12 scores 50 to 100. */
  lemma {:induction false} SeedCompletionBounds(repsCompleted: int, targetReps: nat)
    requires 6 <= repsCompleted <= targetReps <= 12
    ensures 50 <= SeedCompletion(repsCompleted, targetReps) <= 100
  {
    var q := repsCompleted as real / targetReps as real;
    Summary.RatioBelow(repsCompleted as real, targetReps as real, 0.5);
    Summary.RatioBelow(repsCompleted as real, targetReps as real, 1.0);
    assert q <= 1.0;
    RoundBetween(q * 100.0, 50, 100);
  }

  /** The server's quality score: pain and difficulty weigh 5 points per
      step, on top of the rounded completion, averaged over three and
      rounded. */
  function SeedQuality(pain: int, difficulty: int, completion: int): int
  {
    Round((100 - pain * 5 + (10 - difficulty) * 5 + completion) as real / 3.0)
  }

  /** Math.round keeps a value between two integers between them. */
  lemma RoundBetween(x: real, lo: int, hi: int)
    requires lo as real <= x <= hi as real
    ensures lo <= Round(x) <= hi
  {
    RoundMonotone(lo as real, x);
    RoundMonotone(x, hi as real);
    RoundInt(lo);
    RoundInt(hi);
  }

  /** Scores on the 1..10 scales and a completion of 50 to 100 give a
      quality of 33 to 80. */
  lemma SeedQualityBounds(pain: int, difficulty: int, completion: int)
    requires 1 <= pain <= 10 && 1 <= difficulty <= 10 && 50 <= completion <= 100
    ensures 33 <= SeedQuality(pain, difficulty, completion) <= 80
  {
    RoundBetween((100 - pain * 5 + (10 - difficulty) * 5 + completion) as real / 3.0, 33, 80);
  }

  /** `Math.max(6, Math.min(targetReps, Math.round(targetReps * f)))` */
  function SeedReps(targetReps: nat, f: real): (r: int)
    requires targetReps >= 6
    ensures 6 <= r <= targetReps
  {
    var rounded := Round(targetReps as real * f);
    var capped := if rounded < targetReps then rounded else targetReps;
    if capped > 6 then capped else 6
  }

  /** Builds one session document from the values the loop drew. */
  function MakeSession(exercise: string, targetReps: nat, reps: int, pain: int, difficulty: int,
                       formScore: int, lowAdvice: string, highAdvice: string, createdAt: int): (s: SeededSession)
    requires 6 <= reps <= targetReps <= 12
    requires 1 <= pain <= 10 && 1 <= difficulty <= 10
    ensures 50 <= s.completion <= 100 && 33 <= s.quality <= 80
    ensures s.completion == SeedCompletion(reps, targetReps)
    ensures s.quality == SeedQuality(pain, difficulty, s.completion)
    ensures s.recommendations == [if s.quality < 70 then lowAdvice else highAdvice]
    ensures s.exercise == exercise && s.targetReps == targetReps && s.repsCompleted == reps &&
            s.pain == pain && s.difficulty == difficulty && s.formScore == formScore && s.createdAt == createdAt
  {
    SeedCompletionBounds(reps, targetReps);
    var completion := SeedCompletion(reps, targetReps);
    SeedQualityBounds(pain, difficulty, completion);
    var quality := SeedQuality(pain, difficulty, completion);
    SeededSession(exercise, targetReps, reps, pain, difficulty, formScore, completion, quality,
                  [if quality < 70 then lowAdvice else highAdvice], createdAt)
  }

  /** Day i of the demo patient's history: Squats (12 reps) on even days,
      Hand Raises (10 reps) on odd days; pain around 4 and difficulty around
      5, moving with the waves and a random step of at most one. */
  function DemoSession(i: nat, now: int, d: Draw): (s: SeededSession)
    ensures s.exercise == (if i % 2 == 0 then "Squats" else "Hand Raises")
    ensures s.targetReps == (if i % 2 == 0 then 12 else 10)
    ensures 6 <= s.repsCompleted <= s.targetReps
    ensures 1 <= s.pain <= 10 && 1 <= s.difficulty <= 10
    ensures 50 <= s.completion <= 100 && 33 <= s.quality <= 80
    ensures s.recommendations == [if s.quality < 70 then "Reduce intensity next session" else "Maintain current plan"]
    ensures s.formScore == Round(75.0 + d.form * 20.0)
    ensures s.createdAt == now - i * DayMs
  {
    var target: nat := if i % 2 == 0 then 12 else 10;
    var reps := SeedReps(target, 0.85 + d.reps * 0.2);
    var pain := ClampInt(1, 10, Round(4.0 + d.painWave * 2.0 + (d.pain * 2.0 - 1.0)));
    var difficulty := ClampInt(1, 10, Round(5.0 + d.difficultyWave * 2.0 + (d.difficulty * 2.0 - 1.0)));
    var form := Round(75.0 + d.form * 20.0);
    MakeSession(if i % 2 == 0 then "Squats" else "Hand Raises", target, reps, pain, difficulty, form,
                "Reduce intensity next session", "Maintain current plan", now - i * DayMs)
  }

  /** Day i of Sam Jones's shoulder programme: Pendulum Swings, Wall
      Push-ups and Hand Raises in turn, 10 target reps for the push-ups and
      12 otherwise; pain and difficulty around 6, and a form score that
      creeps up with the age of the session. */
  function SamSession(i: nat, now: int, d: Draw): (s: SeededSession)
    ensures s.exercise == (if i % 3 == 0 then "Pendulum Swings" else if i % 3 == 1 then "Wall Push-ups" else "Hand Raises")
    ensures s.targetReps == (if i % 3 == 1 then 10 else 12)
    ensures 6 <= s.repsCompleted <= s.targetReps
    ensures 1 <= s.pain <= 10 && 1 <= s.difficulty <= 10
    ensures 50 <= s.completion <= 100 && 33 <= s.quality <= 80
    ensures s.recommendations == [if s.quality < 70 then "Add more rest or reduce volume" else "Progress to next level soon"]
    ensures s.formScore == Round(70.0 + d.form * 20.0 + i as real * 0.05)
    ensures s.createdAt == now - i * DayMs
  {
    var exercise := if i % 3 == 0 then "Pendulum Swings" else if i % 3 == 1 then "Wall Push-ups" else "Hand Raises";
    var target: nat := if exercise == "Wall Push-ups" then 10 else 12;
    var reps := SeedReps(target, 0.8 + d.reps * 0.25);
    var pain := ClampInt(1, 10, Round(6.0 - d.painWave * 1.5 + (d.pain * 2.0 - 1.0)));
    var difficulty := ClampInt(1, 10, Round(6.0 - d.difficultyWave * 1.0 + (d.difficulty * 2.0 - 1.0)));
    var form := Round(70.0 + d.form * 20.0 + i as real * 0.05);
    MakeSession(exercise, target, reps, pain, difficulty, form,
                "Add more rest or reduce volume", "Progress to next level soon", now - i * DayMs)
  }

  /** Form scores of the demo patient lie between 75 and 95, Sam's between
      70 and 94 (his drift of 0.05 a day adds at most 4.45). */
  lemma FormScoreBounds(i: nat, now: int, d: Draw)
    requires ValidDraw(d) && i < SeededDays
    ensures 75 <= DemoSession(i, now, d).formScore <= 95
    ensures 70 <= SamSession(i, now, d).formScore <= 94
  {
    RoundBetween(75.0 + d.form * 20.0, 75, 95);
    assert 70.0 + d.form * 20.0 + i as real * 0.05 < 94.5;
  }

  /** The demo patient's seeding loop. */
  method SeedDemoSessions(now: int, draws: seq<Draw>) returns (sessions: seq<SeededSession>)
    requires |draws| == SeededDays
    ensures |sessions| == SeededDays
    ensures forall i :: 0 <= i < SeededDays ==> sessions[i] == DemoSession(i, now, draws[i])
  {
    sessions := [];
    var i := 0;
    while i < SeededDays
      invariant 0 <= i <= SeededDays
      invariant |sessions| == i
      invariant forall k :: 0 <= k < i ==> sessions[k] == DemoSession(k, now, draws[k])
    {
      sessions := sessions + [DemoSession(i, now, draws[i])];
      i := i + 1;
    }
  }

  /** Sam Jones's seeding loop; nothing is seeded when Sam is not among the
      patients. */
  method SeedSamSessions(samPresent: bool, now: int, draws: seq<Draw>) returns (sessions: seq<SeededSession>)
    requires |draws| == SeededDays
    ensures !samPresent ==> sessions == []
    ensures samPresent ==> (|sessions| == SeededDays &&
              forall i :: 0 <= i < SeededDays ==> sessions[i] == SamSession(i, now, draws[i]))
  {
    sessions := [];
    if !samPresent {
      return;
    }
    var i := 0;
    while i < SeededDays
      invariant 0 <= i <= SeededDays
      invariant |sessions| == i
      invariant forall k :: 0 <= k < i ==> sessions[k] == SamSession(k, now, draws[k])
    {
      sessions := sessions + [SamSession(i, now, draws[i])];
      i := i + 1;
    }
  }

  /** A seeded session as the patient details page reads it. */
  function AsRecord(s: SeededSession): (r: Insights.SessionRecord)
    ensures r.pain == s.pain as real && r.quality == s.quality as real && r.createdAt == s.createdAt
  {
    Insights.SessionRecord(s.pain as real, s.quality as real, s.formScore as real, s.completion as real, s.createdAt)
  }

  /** The seeding loops list the days from today backwards, so the records
      come newest first, the order the session query returns them in. */
  lemma {:induction false} SeededNewestFirst(now: int, draws: seq<Draw>, sessions: seq<SeededSession>)
    requires |draws| == |sessions|
    requires (forall i :: 0 <= i < |sessions| ==> sessions[i] == DemoSession(i, now, draws[i])) ||
             (forall i :: 0 <= i < |sessions| ==> sessions[i] == SamSession(i, now, draws[i]))
    ensures Insights.NewestFirst(seq(|sessions|, i requires 0 <= i < |sessions| => AsRecord(sessions[i])))
  {
    var records := seq(|sessions|, i requires 0 <= i < |sessions| => AsRecord(sessions[i]));
    forall i, j | 0 <= i < j < |records|
      ensures records[i].createdAt > records[j].createdAt
    {
      assert records[i].createdAt == now - i * DayMs;
      assert records[j].createdAt == now - j * DayMs;
    }
  }

  /** The two quality formulas disagree: pain 4, difficulty 5 and 8 of 10
      reps score 62 when seeded and 63 in the exercise session. */
  lemma QualityFormulasDiffer()
    ensures SeedQuality(4, 5, SeedCompletion(8, 10)) == 62
    ensures Summary.SessionQuality(4, 5, 8, 10) == 63
  {
    Summary.QualityExample();
  }

  /** The hours of the two daily slots. */
  const SlotHours: seq<int> := [10, 14]

  /** The open slot of a clinician on day `day` (0 is tomorrow) starting at
      `hour`; `midnight` is the start of today. */
  function SlotAt(clinician: nat, midnight: int, day: nat, hour: int): (a: Appointments.Appointment)
    ensures a.end - a.start == HourMs
    ensures a.start == midnight + (day + 1) * DayMs + hour * HourMs
    ensures a.clinician == clinician && a.patient.None? && a.status == Appointments.Available
  {
    var dayStart := midnight + (day + 1) * DayMs;
    Appointments.Appointment(clinician, None, dayStart + hour * HourMs, dayStart + (hour + 1) * HourMs,
                             Appointments.Available)
  }

  /** The slots of one clinician for the first `days` days, in the order
      the loops push them. */
  function WeekSlots(clinician: nat, midnight: int, days: nat): (r: seq<Appointments.Appointment>)
    ensures |r| == 2 * days
  {
    if days == 0 then []
    else WeekSlots(clinician, midnight, days - 1)
         + [SlotAt(clinician, midnight, days - 1, SlotHours[0]), SlotAt(clinician, midnight, days - 1, SlotHours[1])]
  }

  /** Every clinician's week, one clinician after the other. */
  function SeedSlots(clinicians: seq<nat>, midnight: int): (r: seq<Appointments.Appointment>)
    ensures |r| == 14 * |clinicians|
  {
    if clinicians == [] then []
    else SeedSlots(clinicians[..|clinicians| - 1], midnight) + WeekSlots(clinicians[|clinicians| - 1], midnight, 7)
  }

  /** The availability loops: for each clinician, for each of the next seven
      days, a slot at 10:00 and one at 14:00. */
  method SeedAvailability(clinicians: seq<nat>, midnight: int) returns (availability: seq<Appointments.Appointment>)
    ensures availability == SeedSlots(clinicians, midnight)
  {
    availability := [];
    var c := 0;
    while c < |clinicians|
      invariant 0 <= c <= |clinicians|
      invariant availability == SeedSlots(clinicians[..c], midnight)
    {
      var d := 0;
      while d < 7
        invariant 0 <= d <= 7
        invariant availability == SeedSlots(clinicians[..c], midnight) + WeekSlots(clinicians[c], midnight, d)
      {
        var h := 0;
        while h < |SlotHours|
          invariant 0 <= h <= |SlotHours|
          invariant availability == SeedSlots(clinicians[..c], midnight) + WeekSlots(clinicians[c], midnight, d)
                                    + seq(h, k requires 0 <= k < h => SlotAt(clinicians[c], midnight, d, SlotHours[k]))
        {
          availability := availability + [SlotAt(clinicians[c], midnight, d, SlotHours[h])];
          h := h + 1;
        }
        d := d + 1;
      }
      assert clinicians[..c + 1][..c] == clinicians[..c];
      c := c + 1;
    }
    assert clinicians[..c] == clinicians;
  }

  /** Every seeded slot is an open, one-hour slot with no patient, starting
      on one of the next seven days at 10:00 or 14:00. */
  lemma {:induction false} WeekSlotsShape(clinician: nat, midnight: int, days: nat, k: nat)
    requires k < 2 * days
    ensures WeekSlots(clinician, midnight, days)[k] ==
              SlotAt(clinician, midnight, k / 2, if k % 2 == 0 then 10 else 14)
  {
    if k < 2 * (days - 1) {
      WeekSlotsShape(clinician, midnight, days - 1, k);
    }
  }

  /** How many slots of a list belong to a clinician. */
  function CountFor(slots: seq<Appointments.Appointment>, clinician: nat): (n: nat)
    ensures n <= |slots|
  {
    if slots == [] then 0
    else CountFor(slots[..|slots| - 1], clinician) + (if slots[|slots| - 1].clinician == clinician then 1 else 0)
  }

  lemma {:induction false} CountForAppend(a: seq<Appointments.Appointment>, b: seq<Appointments.Appointment>, clinician: nat)
    ensures CountFor(a + b, clinician) == CountFor(a, clinician) + CountFor(b, clinician)
  {
    if b != [] {
      assert (a + b)[..|a + b| - 1] == a + b[..|b| - 1];
      CountForAppend(a, b[..|b| - 1], clinician);
    } else {
      assert a + b == a;
    }
  }

  lemma {:induction false} WeekSlotsCount(owner: nat, clinician: nat, midnight: int, days: nat)
    ensures CountFor(WeekSlots(owner, midnight, days), clinician) == (if owner == clinician then 2 * days else 0)
  {
    if days > 0 {
      var pair := [SlotAt(owner, midnight, days - 1, SlotHours[0]), SlotAt(owner, midnight, days - 1, SlotHours[1])];
      WeekSlotsCount(owner, clinician, midnight, days - 1);
      CountForAppend(WeekSlots(owner, midnight, days - 1), pair, clinician);
      assert pair[..1] == [pair[0]];
      assert pair[..1][..0] == [];
    }
  }

  /** With distinct clinicians, each listed clinician gets exactly fourteen
      slots and anyone else none. */
  lemma {:induction false} FourteenSlotsEach(clinicians: seq<nat>, midnight: int, clinician: nat)
    requires forall i, j :: 0 <= i < j < |clinicians| ==> clinicians[i] != clinicians[j]
    ensures CountFor(SeedSlots(clinicians, midnight), clinician) == (if clinician in clinicians then 14 else 0)
  {
    if clinicians != [] {
      var n := |clinicians| - 1;
      var init := clinicians[..n];
      assert forall i, j :: 0 <= i < j < |init| ==> init[i] != init[j] by {
        forall i, j | 0 <= i < j < |init| ensures init[i] != init[j] {
          assert init[i] == clinicians[i] && init[j] == clinicians[j];
        }
      }
      FourteenSlotsEach(init, midnight, clinician);
      WeekSlotsCount(clinicians[n], clinician, midnight, 7);
      CountForAppend(SeedSlots(init, midnight), WeekSlots(clinicians[n], midnight, 7), clinician);
      assert clinicians == init + [clinicians[n]];
      if clinician == clinicians[n] {
        assert clinician !in init by {
          forall i | 0 <= i < |init| ensures init[i] != clinician {
            assert init[i] == clinicians[i];
          }
        }
      }
    }
  }
}
