/** analyzeForm (src/pages/ExerciseSession.tsx): three posture checks on the
    raw keypoint map, whatever the joints' scores, in a fixed order. */
module Form {
  import opened Basics
  import opened Pose

  datatype FormAnalysis = FormAnalysis(isGoodForm: bool, needsImmediateAttention: bool, suggestion: string)

  const KneeMessage := "Keep your knees aligned over your toes"
  const BackMessage := "Keep your back straight and chest up"
  const DepthMessage := "Go deeper - thighs should be parallel to floor"
  const PerfectMessage := "Perfect form! Keep it up!"

  /** Knees more than 50 px apart horizontally (needs both knees and both
      ankles to be present). */
  predicate KneesMisaligned(kp: KeypointMap)
  {
    && "left_knee" in kp && "right_knee" in kp && "left_ankle" in kp && "right_ankle" in kp
    && AbsReal(kp["left_knee"].x - kp["right_knee"].x) > 50.0
  }

  /** Shoulder midpoint more than 30 px sideways from the hip midpoint. */
  predicate BackMisaligned(kp: KeypointMap)
  {
    && "left_shoulder" in kp && "right_shoulder" in kp && "left_hip" in kp && "right_hip" in kp
    && AbsReal((kp["left_shoulder"].x + kp["right_shoulder"].x) / 2.0
               - (kp["left_hip"].x + kp["right_hip"].x) / 2.0) > 30.0
  }

  /** Left hip less than 20 px below the left knee (y grows downwards). */
  predicate TooShallow(kp: KeypointMap)
  {
    && "left_hip" in kp && "left_knee" in kp && "left_ankle" in kp
    && kp["left_hip"].y < kp["left_knee"].y + 20.0
  }

  /** The messages of the checks that fire, in the order they are run. */
  function Suggestions(kp: KeypointMap): (s: seq<string>)
    ensures |s| <= 3
    ensures KneeMessage in s <==> KneesMisaligned(kp)
    ensures BackMessage in s <==> BackMisaligned(kp)
    ensures DepthMessage in s <==> TooShallow(kp)
  {
    (if KneesMisaligned(kp) then [KneeMessage] else [])
    + (if BackMisaligned(kp) then [BackMessage] else [])
    + (if TooShallow(kp) then [DepthMessage] else [])
  }

  /** The form verdict: bad form exactly when a check fires, immediate
      attention only for the knee check, and the suggestion is the message of
      the first check that fires in the order knees, back, depth. */
  function AnalyzeForm(kp: KeypointMap): (r: FormAnalysis)
    ensures r.isGoodForm <==> !KneesMisaligned(kp) && !BackMisaligned(kp) && !TooShallow(kp)
    ensures r.needsImmediateAttention <==> KneesMisaligned(kp)
    ensures r.needsImmediateAttention ==> !r.isGoodForm
    ensures r.suggestion == (if KneesMisaligned(kp) then KneeMessage
                             else if BackMisaligned(kp) then BackMessage
                             else if TooShallow(kp) then DepthMessage
                             else PerfectMessage)
    ensures r.isGoodForm <==> r.suggestion == PerfectMessage
  {
    var suggestions := Suggestions(kp);
    FormAnalysis(|suggestions| == 0, KneesMisaligned(kp),
                 if |suggestions| > 0 then suggestions[0] else PerfectMessage)
  }
}
