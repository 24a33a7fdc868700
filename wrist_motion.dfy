/** The wrist tracker of analyzePose (src/pages/ExerciseSession.tsx), as a
    step function over the tracker's state: a bounded history of wrist
    heights, the last velocity, the last phase, the time of the last counted
    rep and the count. The imperative version is Session.Tracker. */
module WristMotion {
  import opened Basics
  import opened Pose

  const HistoryCapacity: nat := 30
  const MinWristScore: real := 0.25
  /** Elbow-to-wrist offset (px) above which the wrist is up ... */
  const UpOffset: real := 24.0
  /** ... and below which it is down; in between the phase is kept. */
  const DownOffset: real := 10.0
  /** Without an elbow: the history must span more than this many px ... */
  const MinAmplitude: real := 22.0
  /** ... and the last move must exceed this speed. */
  const MinVelocity: real := 0.006
  /** Two counted reps are more than this many milliseconds apart. */
  const CooldownMs: int := 400

  /** `hist.push(y); if (hist.length > 30) hist.shift();` */
  function PushCapped(hist: seq<real>, y: real): (r: seq<real>)
    ensures |r| == if |hist| < HistoryCapacity then |hist| + 1 else |hist|
    ensures |hist| <= HistoryCapacity ==> |r| <= HistoryCapacity
    ensures r[|r| - 1] == y
    ensures r[..|r| - 1] == if |hist| < HistoryCapacity then hist else hist[1..]
  {
    var pushed := hist + [y];
    if |pushed| > HistoryCapacity then
      assert pushed[1..] == hist[1..] + [y];
      pushed[1..]
    else pushed
  }

  /** Math.max over a non-empty window. */
  function MaxOf(s: seq<real>): real
    requires |s| > 0
  {
    if |s| == 1 then s[0]
    else
      var t := MaxOf(s[1..]);
      if s[0] > t then s[0] else t
  }

  /** Math.min over a non-empty window. */
  function MinOf(s: seq<real>): real
    requires |s| > 0
  {
    if |s| == 1 then s[0]
    else
      var t := MinOf(s[1..]);
      if s[0] < t then s[0] else t
  }

  /** MaxOf is an element of the window and bounds every element from above. */
  lemma {:induction false} MaxOfIsMax(s: seq<real>)
    requires |s| > 0
    ensures exists i :: 0 <= i < |s| && s[i] == MaxOf(s)
    ensures forall i :: 0 <= i < |s| ==> s[i] <= MaxOf(s)
  {
    if |s| == 1 {
      assert s[0] == MaxOf(s);
    } else {
      MaxOfIsMax(s[1..]);
      var j :| 0 <= j < |s[1..]| && s[1..][j] == MaxOf(s[1..]);
      if s[0] <= MaxOf(s[1..]) {
        assert s[j + 1] == MaxOf(s);
      } else {
        assert s[0] == MaxOf(s);
      }
      assert forall i :: 1 <= i < |s| ==> s[i] == s[1..][i - 1];
    }
  }

  /** MinOf is an element of the window and bounds every element from below. */
  lemma {:induction false} MinOfIsMin(s: seq<real>)
    requires |s| > 0
    ensures exists i :: 0 <= i < |s| && s[i] == MinOf(s)
    ensures forall i :: 0 <= i < |s| ==> MinOf(s) <= s[i]
  {
    if |s| == 1 {
      assert s[0] == MinOf(s);
    } else {
      MinOfIsMin(s[1..]);
      var j :| 0 <= j < |s[1..]| && s[1..][j] == MinOf(s[1..]);
      if s[0] >= MinOf(s[1..]) {
        assert s[j + 1] == MinOf(s);
      } else {
        assert s[0] == MinOf(s);
      }
      assert forall i :: 1 <= i < |s| ==> s[i] == s[1..][i - 1];
    }
  }

  /** max(hist) - min(hist): how far the wrist travelled within the window. */
  function Amplitude(hist: seq<real>): real
    requires |hist| > 0
  {
    MaxOf(hist) - MinOf(hist)
  }

  /** The amplitude is never negative, and it is zero exactly when every
      height in the window is the same. */
  lemma AmplitudeSpec(hist: seq<real>)
    requires |hist| > 0
    ensures Amplitude(hist) >= 0.0
    ensures Amplitude(hist) == 0.0 <==> forall i :: 0 <= i < |hist| ==> hist[i] == hist[0]
  {
    MaxOfIsMax(hist);
    MinOfIsMin(hist);
  }

  /** The last move of the wrist: previous height minus the new one
      (positive when the wrist rose), or the last velocity while the window
      holds a single height. */
  function Velocity(hist: seq<real>, last: real): (r: real)
    ensures |hist| >= 2 ==> (r > 0.0 <==> hist[|hist| - 1] < hist[|hist| - 2])
    ensures |hist| >= 2 ==> hist[|hist| - 1] + r == hist[|hist| - 2]
    ensures |hist| < 2 ==> r == last
  {
    if |hist| >= 2 then hist[|hist| - 2] - hist[|hist| - 1] else last
  }

  /** What one frame tells the tracker: the chosen wrist's height and, when
      that side's elbow is seen with score above 0.25, the elbow's height
      minus the wrist's (positive when the wrist is above the elbow). */
  datatype Sample = Sample(y: real, elbowOffset: Option<real>)

  /** The side is left exactly when left wrist+elbow scores are at least the
      right ones. */
  function UseLeft(kp: KeypointMap): bool
  {
    ScoreOf(kp, "left_wrist") + ScoreOf(kp, "left_elbow")
      >= ScoreOf(kp, "right_wrist") + ScoreOf(kp, "right_elbow")
  }

  function WristName(left: bool): string { if left then "left_wrist" else "right_wrist" }
  function ElbowName(left: bool): string { if left then "left_elbow" else "right_elbow" }

  /** The sample of a frame, or nothing when the chosen wrist is missing or
      not seen with score above 0.25. */
  function SampleOf(kp: KeypointMap): (r: Option<Sample>)
    ensures r.Some? <==> WristName(UseLeft(kp)) in kp && kp[WristName(UseLeft(kp))].score > MinWristScore
    ensures r.Some? ==> r.value.y == kp[WristName(UseLeft(kp))].y
    ensures r.Some? ==> (r.value.elbowOffset.Some? <==>
              ElbowName(UseLeft(kp)) in kp && kp[ElbowName(UseLeft(kp))].score > MinWristScore)
    ensures r.Some? && r.value.elbowOffset.Some? ==>
              r.value.elbowOffset.value == kp[ElbowName(UseLeft(kp))].y - kp[WristName(UseLeft(kp))].y
  {
    var left := UseLeft(kp);
    var w := WristName(left);
    var e := ElbowName(left);
    if w in kp && kp[w].score > MinWristScore then
      Some(Sample(kp[w].y,
                  if e in kp && kp[e].score > MinWristScore then Some(kp[e].y - kp[w].y) else None))
    else None
  }

  /** The phase after a sample: up or down by the elbow offset with
      hysteresis, or, without an elbow, by velocity when the history moved
      enough; in every other case the last phase. */
  function Classify(hist: seq<real>, vel: real, elbowOffset: Option<real>, last: Phase): Phase
    requires |hist| > 0
  {
    var isUp := if elbowOffset.Some? then elbowOffset.value > UpOffset
                else Amplitude(hist) > MinAmplitude && vel > MinVelocity;
    var isDown := if elbowOffset.Some? then elbowOffset.value < DownOffset
                  else Amplitude(hist) > MinAmplitude && vel < -MinVelocity;
    if isUp then Up else if isDown then Down else last
  }

  /** With the elbow seen: up iff the offset exceeds 24, down iff it is below
      10, the last phase otherwise. */
  lemma ElbowHysteresis(hist: seq<real>, vel: real, d: real, last: Phase)
    requires |hist| > 0
    ensures Classify(hist, vel, Some(d), last) ==
              if d > UpOffset then Up else if d < DownOffset then Down else last
  {
  }

  /** Without the elbow: a phase other than the last one needs amplitude
      above 22 and velocity beyond 0.006 in the direction of the new phase,
      and such motion always gives that phase. */
  lemma NoElbowNeedsMotion(hist: seq<real>, vel: real, last: Phase)
    requires |hist| > 0
    ensures var p := Classify(hist, vel, None, last);
            p != last ==> Amplitude(hist) > MinAmplitude &&
                          (p == Up ==> vel > MinVelocity) && (p == Down ==> vel < -MinVelocity)
    ensures Amplitude(hist) > MinAmplitude && vel > MinVelocity ==> Classify(hist, vel, None, last) == Up
    ensures Amplitude(hist) > MinAmplitude && vel < -MinVelocity ==> Classify(hist, vel, None, last) == Down
  {
  }

  /** A window of identical heights never changes the phase without an
      elbow, whatever the velocity. */
  lemma FlatHistoryHoldsPhase(hist: seq<real>, vel: real, last: Phase)
    requires |hist| > 0
    requires forall i :: 0 <= i < |hist| ==> hist[i] == hist[0]
    ensures Classify(hist, vel, None, last) == last
  {
    AmplitudeSpec(hist);
  }

  datatype State = State(history: seq<real>, velocity: real, lastPhase: Phase, lastCountTs: int, count: nat)

  /** The refs when a session starts: empty history, velocity 0, phase down,
      last count at time 0, no reps. */
  const Initial: State := State([], 0.0, Down, 0, 0)

  predicate Valid(s: State)
  {
    |s.history| <= HistoryCapacity
  }

  /** The outcome of one frame: the new state, the phase shown (none when no
      sample was taken) and whether a rep was counted. */
  datatype Outcome = Outcome(state: State, phase: Option<Phase>, counted: bool)

  function Step(s: State, sample: Option<Sample>, now: int): (o: Outcome)
    ensures sample.None? ==> o == Outcome(s, None, false)
    ensures sample.Some? ==> o.phase == Some(o.state.lastPhase)
    ensures o.counted <==> sample.Some? && s.lastPhase == Up && o.state.lastPhase == Down
                            && now - s.lastCountTs > CooldownMs
  {
    match sample
    case None => Outcome(s, None, false)
    case Some(smp) =>
      var hist := PushCapped(s.history, smp.y);
      var vel := Velocity(hist, s.velocity);
      var phase := Classify(hist, vel, smp.elbowOffset, s.lastPhase);
      var counted := s.lastPhase == Up && phase == Down && now - s.lastCountTs > CooldownMs;
      Outcome(State(hist, vel, phase,
                    if counted then now else s.lastCountTs,
                    if counted then s.count + 1 else s.count),
              Some(phase), counted)
  }

  /** Step on a frame that gives a sample, spelled out. */
  lemma StepOnSample(s: State, y: real, off: Option<real>, now: int)
    ensures var hist := PushCapped(s.history, y);
            var vel := Velocity(hist, s.velocity);
            var phase := Classify(hist, vel, off, s.lastPhase);
            var counted := s.lastPhase == Up && phase == Down && now - s.lastCountTs > CooldownMs;
            Step(s, Some(Sample(y, off)), now)
              == Outcome(State(hist, vel, phase, if counted then now else s.lastCountTs,
                               if counted then s.count + 1 else s.count),
                         Some(phase), counted)
  {
  }

  /** What one frame does to the history and the count: the history takes
      the sample (and stays within 30), the count goes up by one exactly when
      a rep is counted and the count time is then `now`. */
  lemma StepEffect(s: State, sample: Option<Sample>, now: int)
    requires Valid(s)
    ensures var o := Step(s, sample, now);
            && Valid(o.state)
            && o.state.count == s.count + (if o.counted then 1 else 0)
            && o.state.lastCountTs == (if o.counted then now else s.lastCountTs)
            && (sample.Some? ==> o.state.history == PushCapped(s.history, sample.value.y))
  {
  }

  /** After a counted rep the phase is down, so the very next frame cannot
      count again. */
  lemma NoBackToBackCounts(s: State, a: Option<Sample>, b: Option<Sample>, t1: int, t2: int)
    ensures Step(s, a, t1).counted ==> !Step(Step(s, a, t1).state, b, t2).counted
  {
  }

  /** The tracker over a sequence of frames. */
  function Run(s: State, frames: seq<(Option<Sample>, int)>): State
    decreases |frames|
  {
    if frames == [] then s
    else Run(Step(s, frames[0].0, frames[0].1).state, frames[1..])
  }

  function UpBit(p: Phase): nat { if p == Up then 1 else 0 }

  /** Each rep needs a frame that reaches up and a later one that comes down,
      so n frames count at most (n + 1) / 2 reps, and at most n / 2 from the
      initial phase down. */
  lemma {:induction false} RunCountBound(s: State, frames: seq<(Option<Sample>, int)>)
    ensures 2 * Run(s, frames).count + UpBit(Run(s, frames).lastPhase)
              <= 2 * s.count + UpBit(s.lastPhase) + |frames|
    decreases |frames|
  {
    if frames != [] {
      var o := Step(s, frames[0].0, frames[0].1);
      assert 2 * o.state.count + UpBit(o.state.lastPhase) <= 2 * s.count + UpBit(s.lastPhase) + 1;
      RunCountBound(o.state, frames[1..]);
    }
  }

  /** The count of a run never goes down. */
  lemma {:induction false} RunCountMonotone(s: State, frames: seq<(Option<Sample>, int)>)
    ensures Run(s, frames).count >= s.count
    decreases |frames|
  {
    if frames != [] {
      RunCountMonotone(Step(s, frames[0].0, frames[0].1).state, frames[1..]);
    }
  }

  /** Frames that count no rep leave the time of the last count alone. */
  lemma {:induction false} RunWithoutCountKeepsStamp(s: State, frames: seq<(Option<Sample>, int)>)
    ensures Run(s, frames).count == s.count ==> Run(s, frames).lastCountTs == s.lastCountTs
    decreases |frames|
  {
    if frames != [] {
      var o := Step(s, frames[0].0, frames[0].1);
      RunCountMonotone(o.state, frames[1..]);
      RunWithoutCountKeepsStamp(o.state, frames[1..]);
    }
  }

  /** A rep counted at t1 and the next rep counted at t2, whatever frames
      lie between them, are more than 400 ms apart. */
  lemma CooldownBetweenCounts(s: State, a: Option<Sample>, t1: int,
                              between: seq<(Option<Sample>, int)>, b: Option<Sample>, t2: int)
    requires Step(s, a, t1).counted
    requires Run(Step(s, a, t1).state, between).count == Step(s, a, t1).state.count
    ensures Step(Run(Step(s, a, t1).state, between), b, t2).counted ==> t2 - t1 > CooldownMs
  {
    RunWithoutCountKeepsStamp(Step(s, a, t1).state, between);
  }
}
