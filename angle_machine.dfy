/** The angle state machine of analyzePose (src/pages/ExerciseSession.tsx):
    a stage that goes down when the joint angle enters the mid band and
    counts a rep when it comes back up into the start band. The imperative
    version is Session.Tracker. */
module AngleMachine {
  import opened Pose

  /** Width of both bands, in degrees. */
  const Tolerance: real := 15.0

  /** The exercise's thresholds (the `repLogic` of an exercise). */
  datatype RepLogic = RepLogic(startAngle: real, midAngle: real)

  /** Used when an exercise has no `repLogic`. */
  const DefaultLogic: RepLogic := RepLogic(160.0, 90.0)

  datatype State = State(stage: Phase, count: nat)

  /** The stage when a session starts is up, with no reps. */
  const Initial: State := State(Up, 0)

  predicate InStartBand(angle: real, logic: RepLogic) { angle > logic.startAngle - Tolerance }
  predicate InMidBand(angle: real, logic: RepLogic) { angle < logic.midAngle + Tolerance }

  /** One frame of the machine. */
  function Step(s: State, angle: real, logic: RepLogic): State
  {
    if InStartBand(angle, logic) then
      (if s.stage == Down then State(Up, s.count + 1) else s)
    else if InMidBand(angle, logic) then
      (if s.stage == Up then State(Down, s.count) else s)
    else s
  }

  /** A rep is counted exactly on a return to the start band from stage
      down; the stage goes down exactly when, outside the start band, the
      angle is in the mid band (the start band wins where the two overlap);
      the count never changes in any other way. */
  lemma StepSpec(s: State, angle: real, logic: RepLogic)
    ensures var t := Step(s, angle, logic);
            && (t.count == s.count + 1 <==> s.stage == Down && InStartBand(angle, logic))
            && (t.count != s.count + 1 ==> t.count == s.count)
            && (t.stage == Up <==> InStartBand(angle, logic) || (s.stage == Up && !InMidBand(angle, logic)))
            && (!InStartBand(angle, logic) && !InMidBand(angle, logic) ==> t == s)
  {
  }

  /** The machine over a sequence of angles. */
  function Run(s: State, angles: seq<real>, logic: RepLogic): State
    decreases |angles|
  {
    if angles == [] then s else Run(Step(s, angles[0], logic), angles[1..], logic)
  }

  function DownBit(p: Phase): nat { if p == Down then 1 else 0 }

  /** Each rep needs a frame that goes down and a later one that returns, so
      n frames starting from stage up count at most n / 2 reps. */
  lemma {:induction false} RunCountBound(s: State, angles: seq<real>, logic: RepLogic)
    ensures 2 * Run(s, angles, logic).count + DownBit(Run(s, angles, logic).stage)
              <= 2 * s.count + DownBit(s.stage) + |angles|
    decreases |angles|
  {
    if angles != [] {
      RunCountBound(Step(s, angles[0], logic), angles[1..], logic);
    }
  }

  /** The count of a run never goes down. */
  lemma {:induction false} RunCountMonotone(s: State, angles: seq<real>, logic: RepLogic)
    ensures Run(s, angles, logic).count >= s.count
    decreases |angles|
  {
    if angles != [] {
      RunCountMonotone(Step(s, angles[0], logic), angles[1..], logic);
    }
  }

  /** Runs compose: processing two batches of frames one after the other is
      processing their concatenation. */
  lemma {:induction false} RunAppend(s: State, a: seq<real>, b: seq<real>, logic: RepLogic)
    ensures Run(s, a + b, logic) == Run(Run(s, a, logic), b, logic)
    decreases |a|
  {
    if a == [] {
      assert a + b == b;
    } else {
      assert (a + b)[0] == a[0] && (a + b)[1..] == a[1..] + b;
      RunAppend(Step(s, a[0], logic), a[1..], b, logic);
    }
  }

  /** The scripted squat 170, 160, 90, 85, 170, 165, 92, 88 with thresholds
      160/90 counts one rep, on the fifth frame (the return to 170), and ends
      in stage down after the second descent. */
  lemma ScriptedSquat()
    ensures Run(Initial, [170.0, 160.0, 90.0, 85.0], DefaultLogic) == State(Down, 0)
    ensures Run(Initial, [170.0, 160.0, 90.0, 85.0, 170.0], DefaultLogic) == State(Up, 1)
    ensures Run(Initial, [170.0, 160.0, 90.0, 85.0, 170.0, 165.0, 92.0, 88.0], DefaultLogic) == State(Down, 1)
  {
  }

  /** With thresholds whose bands overlap (start 60, mid 150, as the seeded
      Hand Raises exercise has), any angle above 45 counts as the start band. */
  lemma OverlappingBandsStartWins(s: State, angle: real)
    requires angle > 45.0
    ensures Step(s, angle, RepLogic(60.0, 150.0)).stage == Up
  {
  }

  /** A descent into the mid band followed by a return to the start band
      counts exactly one rep and leaves the stage up. */
  lemma DescentAndReturnCounts(s: State, down: real, up: real, logic: RepLogic)
    requires s.stage == Up
    requires !InStartBand(down, logic) && InMidBand(down, logic) && InStartBand(up, logic)
    ensures Run(s, [down, up], logic) == State(Up, s.count + 1)
  {
    var mid := Step(s, down, logic);
    assert mid == State(Down, s.count);
    assert [down, up][1..] == [up] && [up][1..] == [];
    assert Run(s, [down, up], logic) == Run(mid, [up], logic);
    assert Run(mid, [up], logic) == Step(mid, up, logic);
  }

  /** The machine as the component runs it. The frame handler is a closure
      made at the first render, so every frame reads the opening stage (up)
      and count (0); the screen shows what the frames write, and a frame
      writes only where its own step moved away from that opening state. */
  function StaleStep(shown: State, angle: real, logic: RepLogic): State
  {
    var t := Step(Initial, angle, logic);
    State(if t.stage != Initial.stage then t.stage else shown.stage,
          if t.count != Initial.count then t.count else shown.count)
  }

  function StaleRun(shown: State, angles: seq<real>, logic: RepLogic): State
    decreases |angles|
  {
    if angles == [] then shown else StaleRun(StaleStep(shown, angles[0], logic), angles[1..], logic)
  }

  /** As the component is written, the angle path never counts a rep, so
      it never reaches the target either. */
  lemma {:induction false} StaleRunNeverCounts(shown: State, angles: seq<real>, logic: RepLogic)
    ensures StaleRun(shown, angles, logic).count == shown.count
    decreases |angles|
  {
    if angles != [] {
      StaleRunNeverCounts(StaleStep(shown, angles[0], logic), angles[1..], logic);
    }
  }

  /** A full squat, down to 85 degrees and back up to 170: the machine
      counts one rep, while the component as written shows stage down and
      0 reps. */
  lemma StaleSquatCountsNothing()
    ensures Run(Initial, [170.0, 160.0, 90.0, 85.0, 170.0], DefaultLogic) == State(Up, 1)
    ensures StaleRun(Initial, [170.0, 160.0, 90.0, 85.0, 170.0], DefaultLogic) == State(Down, 0)
  {
  }
}
