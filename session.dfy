/** The per-frame rep engine of an exercise session, analyzePose in
    src/pages/ExerciseSession.tsx: the visibility gate, then either the wrist
    tracker (wrist exercises) or the angle state machine (all others).

    Frame is the specification: one frame as a function of the whole
    tracking state. Tracker holds that state in fields, as the component
    holds it in refs and React state, and its ProcessFrame updates them step
    by step; its postcondition ties the new fields to Frame. */
module Session {
  import opened Basics
  import opened Pose
  import opened Form
  import WristMotion
  import AngleMachine

  datatype TrackedJoints = TrackedJoints(p1: string, p2: string, p3: string)

  /** Used when an exercise has no `trackedJoints`: the left leg, as for squats. */
  const DefaultJoints: TrackedJoints := TrackedJoints("left_hip", "left_knee", "left_ankle")

  /** The fields of an exercise the engine reads. A joint name that is
      missing in the stored exercise is the empty string here; getJoint
      treats both alike. */
  datatype Exercise = Exercise(name: string, targetBodyPart: Option<string>,
                               trackedJoints: Option<TrackedJoints>,
                               repLogic: Option<AngleMachine.RepLogic>)

  /** An exercise whose body part or name mentions "wrist", in any case. */
  predicate IsWristExercise(e: Exercise)
  {
    (e.targetBodyPart.Some? && Includes(ToLower(e.targetBodyPart.value), "wrist"))
    || Includes(ToLower(e.name), "wrist")
  }

  function JointsOf(e: Exercise): TrackedJoints
  {
    if e.trackedJoints.Some? then e.trackedJoints.value else DefaultJoints
  }

  function LogicOf(e: Exercise): AngleMachine.RepLogic
  {
    if e.repLogic.Some? then e.repLogic.value else AngleMachine.DefaultLogic
  }

  /** The coaching message on screen. */
  datatype Feedback =
    | Initializing               // "Initializing AI Coach..."
    | ShowBody                   // "Please ensure your upper and lower body are visible in the camera."
    | ShowWrist                  // "Show your wrist clearly to the camera."
    | MoveCloser                 // "Move closer to the camera so your joints are visible."
    | RepComplete(n: nat)        // "Rep n complete!"
    | RepGoodForm(n: nat)        // "Rep n complete! Great form."
    | RepDone(n: nat, suggestion: string)  // "Rep n done. <suggestion>"
    | ReturnToStart              // "Good! Return to the start to complete the rep."
    | FormAlert(suggestion: string)

  /** The three joints the angle is measured on: the configured ones through
      getJoint if all three resolve, otherwise left shoulder, elbow and wrist
      read directly (whatever their scores); nothing when one of those is
      missing too. */
  function AngleJoints(kp: KeypointMap, e: Exercise): (r: Option<(Keypoint, Keypoint, Keypoint)>)
    ensures r.None? <==>
              (GetJoint(kp, JointsOf(e).p1).None? || GetJoint(kp, JointsOf(e).p2).None?
               || GetJoint(kp, JointsOf(e).p3).None?)
              && ("left_shoulder" !in kp || "left_elbow" !in kp || "left_wrist" !in kp)
  {
    var t := JointsOf(e);
    var p1, p2, p3 := GetJoint(kp, t.p1), GetJoint(kp, t.p2), GetJoint(kp, t.p3);
    var useFallback := !(p1.Some? && p2.Some? && p3.Some?);
    var a1 := if useFallback then Get(kp, "left_shoulder") else p1;
    var a2 := if useFallback then Get(kp, "left_elbow") else p2;
    var a3 := if useFallback then Get(kp, "left_wrist") else p3;
    if a1.Some? && a2.Some? && a3.Some? then Some((a1.value, a2.value, a3.value)) else None
  }

  /** Everything a session's tracking keeps between frames. */
  datatype TrackerState = TrackerState(
    history: seq<real>, velocity: real, lastPhase: Phase, lastCountTs: int, prevRep: nat,
    stage: Phase, repCount: nat, feedback: Feedback, sessionComplete: bool)

  /** A session's state when it opens. */
  const InitialState: TrackerState :=
    TrackerState([], 0.0, Down, 0, 0, Up, 0, Initializing, false)

  /** What holds of the state after every frame: the history is bounded, the
      session-complete signal is only raised once the target is reached, and
      on a wrist exercise the shown count is the tracker's own count. */
  predicate Inv(e: Exercise, reps: int, st: TrackerState)
  {
    && |st.history| <= WristMotion.HistoryCapacity
    && (st.sessionComplete ==> st.repCount >= reps)
    && (IsWristExercise(e) ==> st.prevRep == st.repCount)
  }

  function WristPart(st: TrackerState): WristMotion.State
  {
    WristMotion.State(st.history, st.velocity, st.lastPhase, st.lastCountTs, st.prevRep)
  }

  function AnglePart(st: TrackerState): AngleMachine.State
  {
    AngleMachine.State(st.stage, st.repCount)
  }

  /** A frame of a wrist exercise. */
  function WristFrame(reps: int, st: TrackerState, kp: KeypointMap, now: int): TrackerState
  {
    var o := WristMotion.Step(WristPart(st), WristMotion.SampleOf(kp), now);
    match o.phase
    case None => st.(feedback := ShowWrist)
    case Some(p) =>
      var moved := st.(history := o.state.history, velocity := o.state.velocity,
                       lastPhase := o.state.lastPhase, lastCountTs := o.state.lastCountTs,
                       prevRep := o.state.count, stage := p);
      if o.counted then
        moved.(repCount := o.state.count, feedback := RepComplete(o.state.count),
               sessionComplete := st.sessionComplete || o.state.count >= reps)
      else moved
  }

  /** A frame of any other exercise; `angle` is the angle measured on the
      joints AngleJoints picks. */
  function AngleFrame(e: Exercise, reps: int, st: TrackerState, kp: KeypointMap, angle: real): TrackerState
  {
    if AngleJoints(kp, e).None? then st.(feedback := MoveCloser)
    else AngleUpdate(reps, st, AnalyzeForm(kp), AngleMachine.Step(AnglePart(st), angle, LogicOf(e)))
  }

  /** The state after the machine moved to `t` on a frame whose form is
      `form`: a form alert outranks every other message. */
  function AngleUpdate(reps: int, st: TrackerState, form: FormAnalysis, t: AngleMachine.State): TrackerState
  {
    var counted := t.count != st.repCount;
    var fb := if form.needsImmediateAttention then FormAlert(form.suggestion)
              else if counted then (if form.isGoodForm then RepGoodForm(t.count) else RepDone(t.count, form.suggestion))
              else if t.stage != st.stage then ReturnToStart
              else st.feedback;
    st.(stage := t.stage, repCount := t.count, feedback := fb,
        sessionComplete := st.sessionComplete || (counted && t.count >= reps))
  }

  /** One frame of analyzePose. */
  function Frame(e: Exercise, reps: int, st: TrackerState, kp: KeypointMap, now: int, angle: real): TrackerState
  {
    if !BodyVisible(kp) then st.(feedback := ShowBody)
    else if IsWristExercise(e) then WristFrame(reps, st, kp, now)
    else AngleFrame(e, reps, st, kp, angle)
  }

  /** A frame keeps the invariant; the count and the session-complete signal
      never go back; the signal is raised when a counted rep reaches the
      target. */
  lemma FrameKeepsInv(e: Exercise, reps: int, st: TrackerState, kp: KeypointMap, now: int, angle: real)
    requires Inv(e, reps, st)
    ensures Progress(e, reps, st, Frame(e, reps, st, kp, now, angle))
  {
    if BodyVisible(kp) {
      if IsWristExercise(e) {
        WristFrameKeepsInv(e, reps, st, kp, now);
      } else {
        AngleFrameKeepsInv(e, reps, st, kp, angle);
      }
    }
  }

  /** What a frame may do to the state: keep the invariant; leave the count
      where it was or add one; never lower the session-complete signal; raise
      it when a counted rep reaches the target. */
  predicate Progress(e: Exercise, reps: int, st: TrackerState, st': TrackerState)
  {
    && Inv(e, reps, st')
    && st'.repCount >= st.repCount
    && st'.repCount <= st.repCount + 1
    && (st.sessionComplete ==> st'.sessionComplete)
    && (st'.repCount > st.repCount && st'.repCount >= reps ==> st'.sessionComplete)
  }

  lemma WristFrameKeepsInv(e: Exercise, reps: int, st: TrackerState, kp: KeypointMap, now: int)
    requires Inv(e, reps, st) && IsWristExercise(e)
    ensures Progress(e, reps, st, WristFrame(reps, st, kp, now))
  {
    WristMotion.StepEffect(WristPart(st), WristMotion.SampleOf(kp), now);
  }

  lemma AngleFrameKeepsInv(e: Exercise, reps: int, st: TrackerState, kp: KeypointMap, angle: real)
    requires Inv(e, reps, st) && !IsWristExercise(e)
    ensures Progress(e, reps, st, AngleFrame(e, reps, st, kp, angle))
  {
    AngleMachine.StepSpec(AnglePart(st), angle, LogicOf(e));
  }

  /** With fewer than four essential joints seen, only the message changes. */
  lemma HiddenBodyChangesNothing(e: Exercise, reps: int, st: TrackerState, kp: KeypointMap, now: int, angle: real)
    requires CountConfident(kp, EssentialJoints) < 4
    ensures Frame(e, reps, st, kp, now, angle) == st.(feedback := ShowBody)
  {
  }

  /** On the angle path, when the three joints are missing even after the
      switch to the left arm, only the message changes. */
  lemma MissingJointsChangeNothing(e: Exercise, reps: int, st: TrackerState, kp: KeypointMap, now: int, angle: real)
    requires BodyVisible(kp) && !IsWristExercise(e)
    requires AngleJoints(kp, e).None?
    ensures Frame(e, reps, st, kp, now, angle) == st.(feedback := MoveCloser)
  {
  }

  /** On a wrist exercise a frame whose chosen wrist is not seen with score
      above 0.25 leaves history, phase and count alone. */
  lemma HiddenWristChangesNothing(reps: int, st: TrackerState, kp: KeypointMap, now: int)
    requires WristMotion.SampleOf(kp).None?
    ensures WristFrame(reps, st, kp, now) == st.(feedback := ShowWrist)
  {
  }

  /** The two paths count on opposite transitions: the wrist tracker when
      the phase goes from up to down (and 400 ms after the last count), the
      angle machine when the stage goes from down back to up. */
  lemma CountingConventions(e: Exercise, reps: int, st: TrackerState, kp: KeypointMap, now: int, angle: real)
    requires Inv(e, reps, st) && BodyVisible(kp)
    ensures var st' := Frame(e, reps, st, kp, now, angle);
            && (IsWristExercise(e) && st'.repCount > st.repCount ==>
                  st.lastPhase == Up && st'.lastPhase == Down && now - st.lastCountTs > WristMotion.CooldownMs
                  && st'.lastCountTs == now)
            && (!IsWristExercise(e) && st'.repCount > st.repCount ==>
                  st.stage == Down && st'.stage == Up
                  && angle > LogicOf(e).startAngle - AngleMachine.Tolerance)
  {
    if IsWristExercise(e) {
      WristCounting(e, reps, st, kp, now);
    } else {
      AngleMachine.StepSpec(AnglePart(st), angle, LogicOf(e));
    }
  }

  lemma WristCounting(e: Exercise, reps: int, st: TrackerState, kp: KeypointMap, now: int)
    requires Inv(e, reps, st) && IsWristExercise(e)
    ensures var st' := WristFrame(reps, st, kp, now);
            st'.repCount > st.repCount ==>
              st.lastPhase == Up && st'.lastPhase == Down && now - st.lastCountTs > WristMotion.CooldownMs
              && st'.lastCountTs == now
  {
    WristMotion.StepEffect(WristPart(st), WristMotion.SampleOf(kp), now);
  }

  /** A new session waits for the first descent on both paths: the wrist
      phase starts down (no rep until it has been up), the angle stage starts
      up (no rep until it has been down). */
  lemma InitialStateIsQuiet(e: Exercise, reps: int, kp: KeypointMap, now: int, angle: real)
    ensures Inv(e, reps, InitialState)
    ensures Frame(e, reps, InitialState, kp, now, angle).repCount == 0
  {
    if BodyVisible(kp) {
      if IsWristExercise(e) {
        WristCounting(e, reps, InitialState, kp, now);
      } else {
        AngleMachine.StepSpec(AnglePart(InitialState), angle, LogicOf(e));
      }
    }
  }

  /** The state after a wrist frame whose sample gave the window `hist`,
      the velocity `vel` and the phase `phase`, and counted a rep or not. */
  function WristUpdate(reps: int, st: TrackerState, hist: seq<real>, vel: real, phase: Phase,
                       counted: bool, now: int): TrackerState
  {
    TrackerState(hist, vel, phase, if counted then now else st.lastCountTs,
                 if counted then st.prevRep + 1 else st.prevRep, phase,
                 if counted then st.prevRep + 1 else st.repCount,
                 if counted then RepComplete(st.prevRep + 1) else st.feedback,
                 st.sessionComplete || (counted && st.prevRep + 1 >= reps))
  }

  /** A wrist frame that gives a sample, in terms of the new history,
      velocity, phase and count decision. */
  lemma WristFrameOnSample(reps: int, st: TrackerState, kp: KeypointMap, now: int, y: real, off: Option<real>,
                           hist: seq<real>, vel: real, phase: Phase, counted: bool)
    requires WristMotion.SampleOf(kp) == Some(WristMotion.Sample(y, off))
    requires hist == WristMotion.PushCapped(st.history, y)
    requires vel == WristMotion.Velocity(hist, st.velocity)
    requires phase == WristMotion.Classify(hist, vel, off, st.lastPhase)
    requires counted == (st.lastPhase == Up && phase == Down && now - st.lastCountTs > WristMotion.CooldownMs)
    ensures WristFrame(reps, st, kp, now)
            == WristUpdate(reps, st, hist, vel, phase, counted, now)
  {
    WristMotion.StepOnSample(WristPart(st), y, off, now);
  }

  /** A wrist frame in the camera's terms, where y grows downward. The new
      velocity is the previous height minus the new one (positive when the
      wrist rose). With the chosen elbow seen above 0.25, the wrist is up
      exactly when it is more than 24 above the elbow, down exactly when it
      is less than 10 above it, and keeps its phase in between. Without the
      elbow, a window spanning more than 22 follows the velocity's sign
      beyond 0.006. */
  lemma WristPhaseFromKeypoints(reps: int, st: TrackerState, kp: KeypointMap, now: int)
    requires WristMotion.WristName(WristMotion.UseLeft(kp)) in kp
    requires kp[WristMotion.WristName(WristMotion.UseLeft(kp))].score > WristMotion.MinWristScore
    ensures var w := WristMotion.WristName(WristMotion.UseLeft(kp));
            var el := WristMotion.ElbowName(WristMotion.UseLeft(kp));
            var st' := WristFrame(reps, st, kp, now);
            && st'.history == WristMotion.PushCapped(st.history, kp[w].y)
            && (st.history != [] ==> st'.velocity == st.history[|st.history| - 1] - kp[w].y)
            && (st.history == [] ==> st'.velocity == st.velocity)
            && st'.stage == st'.lastPhase
            && (el in kp && kp[el].score > WristMotion.MinWristScore ==>
                  st'.lastPhase == if kp[el].y - kp[w].y > WristMotion.UpOffset then Up
                                   else if kp[el].y - kp[w].y < WristMotion.DownOffset then Down
                                   else st.lastPhase)
            && (!(el in kp && kp[el].score > WristMotion.MinWristScore) ==>
                  st'.lastPhase ==
                    if WristMotion.Amplitude(st'.history) > WristMotion.MinAmplitude
                       && st'.velocity > WristMotion.MinVelocity then Up
                    else if WristMotion.Amplitude(st'.history) > WristMotion.MinAmplitude
                            && st'.velocity < -WristMotion.MinVelocity then Down
                    else st.lastPhase)
  {
    var w := WristMotion.WristName(WristMotion.UseLeft(kp));
    var y := kp[w].y;
    var off := WristMotion.SampleOf(kp).value.elbowOffset;
    var hist := WristMotion.PushCapped(st.history, y);
    var vel := WristMotion.Velocity(hist, st.velocity);
    var phase := WristMotion.Classify(hist, vel, off, st.lastPhase);
    var counted := st.lastPhase == Up && phase == Down && now - st.lastCountTs > WristMotion.CooldownMs;
    WristFrameOnSample(reps, st, kp, now, y, off, hist, vel, phase, counted);
    if st.history != [] {
      assert hist[|hist| - 2] == hist[..|hist| - 1][|hist| - 2];
    }
  }

  /** The joint lookup of the angle branch, step by step as the component
      does it: the imperative counterpart of AngleJoints. It takes the
      configured joints, or the left arm when one of them does not resolve. Joints are found exactly
      when the three configured ones resolve through getJoint, or the left
      shoulder, elbow and wrist are all in the map. */
  method ResolveJoints(kp: KeypointMap, e: Exercise) returns (found: bool)
    ensures found <==>
              (GetJoint(kp, JointsOf(e).p1).Some? && GetJoint(kp, JointsOf(e).p2).Some?
               && GetJoint(kp, JointsOf(e).p3).Some?)
              || ("left_shoulder" in kp && "left_elbow" in kp && "left_wrist" in kp)
  {
    var tracked := JointsOf(e);
    var p1, p2, p3 := GetJoint(kp, tracked.p1), GetJoint(kp, tracked.p2), GetJoint(kp, tracked.p3);
    var useFallback := !(p1.Some? && p2.Some? && p3.Some?);
    var a1 := if useFallback then Get(kp, "left_shoulder") else p1;
    var a2 := if useFallback then Get(kp, "left_elbow") else p2;
    var a3 := if useFallback then Get(kp, "left_wrist") else p3;
    found := a1.Some? && a2.Some? && a3.Some?;
  }

  /** The motion part of a wrist frame on the tracker's refs: push the
      height into the window, update the velocity when there are two heights,
      and classify the phase by the elbow offset or, without a seen elbow, by
      the window's amplitude and the velocity. */
  method ObserveWrist(kp: KeypointMap, left: bool, y: real, history: seq<real>, velocity: real, lastPhase: Phase)
    returns (hist: seq<real>, vel: real, phase: Phase, ghost offset: Option<real>)
    requires left == WristMotion.UseLeft(kp)
    requires WristMotion.WristName(left) in kp && kp[WristMotion.WristName(left)].score > WristMotion.MinWristScore
    requires y == kp[WristMotion.WristName(left)].y
    ensures WristMotion.SampleOf(kp) == Some(WristMotion.Sample(y, offset))
    ensures hist == WristMotion.PushCapped(history, y)
    ensures vel == WristMotion.Velocity(hist, velocity)
    ensures phase == WristMotion.Classify(hist, vel, offset, lastPhase)
  {
    hist := history + [y];
    if |hist| > WristMotion.HistoryCapacity {
      hist := hist[1..];
    }
    vel := velocity;
    if |hist| >= 2 {
      vel := hist[|hist| - 2] - hist[|hist| - 1];
    }
    var elbowName := WristMotion.ElbowName(left);
    var isUp, isDown := false, false;
    offset := None;
    if elbowName in kp && kp[elbowName].score > WristMotion.MinWristScore {
      var delta := kp[elbowName].y - y;
      offset := Some(delta);
      isUp := delta > WristMotion.UpOffset;
      isDown := delta < WristMotion.DownOffset;
    } else {
      var amplitude := WristMotion.Amplitude(hist);
      isUp := amplitude > WristMotion.MinAmplitude && vel > WristMotion.MinVelocity;
      isDown := amplitude > WristMotion.MinAmplitude && vel < -WristMotion.MinVelocity;
    }
    phase := lastPhase;
    if isUp {
      phase := Up;
    } else if isDown {
      phase := Down;
    }
  }

  class Tracker {
    const exercise: Exercise
    const reps: int
    var history: seq<real>
    var velocity: real
    var lastPhase: Phase
    var lastCountTs: int
    var prevRep: nat
    var stage: Phase
    var repCount: nat
    var feedback: Feedback
    var sessionComplete: bool

    function State(): TrackerState
      reads this
    {
      TrackerState(history, velocity, lastPhase, lastCountTs, prevRep, stage, repCount, feedback, sessionComplete)
    }

    ghost predicate Valid()
      reads this
    {
      Inv(exercise, reps, State())
    }

    constructor (exercise: Exercise, reps: int)
      ensures Valid() && this.exercise == exercise && this.reps == reps
      ensures State() == InitialState
    {
      this.exercise := exercise;
      this.reps := reps;
      history, velocity, lastPhase, lastCountTs, prevRep := [], 0.0, Down, 0, 0;
      stage, repCount, feedback, sessionComplete := Up, 0, Initializing, false;
    }

    /** analyzePose for one frame, at time `now` (ms), where `angle` is the
        angle the frame shows at the middle joint of AngleJoints. */
    method ProcessFrame(kp: KeypointMap, now: int, angle: real)
      requires Valid()
      modifies this
      ensures Valid()
      ensures State() == Frame(exercise, reps, old(State()), kp, now, angle)
      ensures repCount >= old(repCount)
    {
      FrameKeepsInv(exercise, reps, State(), kp, now, angle);
      if CountConfident(kp, EssentialJoints) < 4 {
        feedback := ShowBody;
        return;
      }
      if IsWristExercise(exercise) {
        TrackWrist(kp, now);
        return;
      }
      TrackAngle(kp, angle);
    }

    /** The wrist branch: pick the side, push the wrist height, classify the
        phase, count on up-to-down after the cool-down. */
    method TrackWrist(kp: KeypointMap, now: int)
      modifies this
      ensures State() == WristFrame(reps, old(State()), kp, now)
    {
      ghost var st0 := State();
      var left := WristMotion.UseLeft(kp);
      var wristName := WristMotion.WristName(left);
      if wristName in kp && kp[wristName].score > WristMotion.MinWristScore {
        var y := kp[wristName].y;
        var hist, vel, currentPhase, offset := ObserveWrist(kp, left, y, history, velocity, lastPhase);
        var counted := lastPhase == Up && currentPhase == Down && now - lastCountTs > WristMotion.CooldownMs;
        WristFrameOnSample(reps, st0, kp, now, y, offset, hist, vel, currentPhase, counted);
        ApplyWrist(hist, vel, currentPhase, counted, now);
      } else {
        HiddenWristChangesNothing(reps, st0, kp, now);
        feedback := ShowWrist;
      }
    }

    /** Stores the new window, velocity and phase; on a counted rep bumps
        both counts, stamps the time, announces the rep and raises the
        session-complete signal at the target. */
    method ApplyWrist(hist: seq<real>, vel: real, currentPhase: Phase, counted: bool, now: int)
      modifies this
      ensures State() == WristUpdate(reps, old(State()), hist, vel, currentPhase, counted, now)
    {
      history, velocity := hist, vel;
      stage := currentPhase;
      if counted {
        var newRep := prevRep + 1;
        prevRep := newRep;
        repCount := newRep;
        lastCountTs := now;
        feedback := RepComplete(newRep);
        if newRep >= reps {
          sessionComplete := true;
        }
      }
      lastPhase := currentPhase;
    }

    /** The angle branch: resolve the joints, then the state machine with the
        configured thresholds and a tolerance of 15 degrees. */
    method TrackAngle(kp: KeypointMap, angle: real)
      modifies this
      ensures State() == AngleFrame(exercise, reps, old(State()), kp, angle)
    {
      var logic := LogicOf(exercise);
      var found := ResolveJoints(kp, exercise);
      if !found {
        feedback := MoveCloser;
        return;
      }
      var form := AnalyzeForm(kp);
      ApplyAngle(angle, logic, form);
    }

    /** The state machine of the angle branch with the thresholds of
        `logic`, then the form message, which outranks the others. */
    method ApplyAngle(angle: real, logic: AngleMachine.RepLogic, form: FormAnalysis)
      modifies this
      ensures State() == AngleUpdate(reps, old(State()), form, AngleMachine.Step(AnglePart(old(State())), angle, logic))
    {
      if angle > logic.startAngle - AngleMachine.Tolerance {
        if stage == Down {
          var newRepCount := repCount + 1;
          repCount := newRepCount;
          stage := Up;
          if form.isGoodForm {
            feedback := RepGoodForm(newRepCount);
          } else {
            feedback := RepDone(newRepCount, form.suggestion);
          }
          if newRepCount >= reps {
            sessionComplete := true;
          }
        }
      } else if angle < logic.midAngle + AngleMachine.Tolerance {
        if stage == Up {
          stage := Down;
          feedback := ReturnToStart;
        }
      }
      if form.needsImmediateAttention {
        feedback := FormAlert(form.suggestion);
      }
    }
  }
}
