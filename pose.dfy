/** Keypoints of one frame and how the rep engine looks them up
    (src/pages/ExerciseSession.tsx, the start of analyzePose). */
module Pose {
  import opened Basics

  /** A detected keypoint: pixel position (y grows downwards) and a
      confidence score. A keypoint without a score is given score 0, which
      is what every `(kp.score || 0)` in the source reads it as. */
  datatype Keypoint = Keypoint(x: real, y: real, score: real)

  /** One entry of the pose detector's output; the name may be missing. */
  datatype Detected = Detected(name: Option<string>, point: Keypoint)

  type KeypointMap = map<string, Keypoint>

  /** The limb phase used by both counting paths. */
  datatype Phase = Up | Down

  /** Score above which a joint counts as seen. */
  const MinJointScore: real := 0.2

  /** The key a detection is stored under: its name, or "unknown" when the
      name is missing or empty. */
  function KeyOf(d: Detected): string
  {
    if d.name.Some? && d.name.value != "" then d.name.value else "unknown"
  }

  /** `new Map(keypoints.map(kp => [kp.name || 'unknown', kp]))`: every
      detection is entered in order, so a later one with the same key wins. */
  function BuildMap(kps: seq<Detected>): KeypointMap
  {
    if kps == [] then map[]
    else
      var n := |kps| - 1;
      BuildMap(kps[..n])[KeyOf(kps[n]) := kps[n].point]
  }

  /** The map has exactly the keys of the detections. */
  lemma {:induction false} BuildMapKeys(kps: seq<Detected>, k: string)
    ensures k in BuildMap(kps) <==> exists i :: 0 <= i < |kps| && KeyOf(kps[i]) == k
  {
    if kps != [] {
      var n := |kps| - 1;
      BuildMapKeys(kps[..n], k);
      if k in BuildMap(kps[..n]) {
        var i :| 0 <= i < n && KeyOf(kps[..n][i]) == k;
        assert KeyOf(kps[i]) == k;
      }
      if exists i :: 0 <= i < |kps| && KeyOf(kps[i]) == k {
        var i :| 0 <= i < |kps| && KeyOf(kps[i]) == k;
        if i < n {
          assert KeyOf(kps[..n][i]) == k;
        }
      }
    }
  }

  /** The entry stored under a key is the last detection with that key. */
  lemma {:induction false} BuildMapLastWins(kps: seq<Detected>, i: nat)
    requires i < |kps|
    requires forall j :: i < j < |kps| ==> KeyOf(kps[j]) != KeyOf(kps[i])
    ensures KeyOf(kps[i]) in BuildMap(kps) && BuildMap(kps)[KeyOf(kps[i])] == kps[i].point
  {
    var n := |kps| - 1;
    if i < n {
      var init := kps[..n];
      forall j | i < j < n ensures KeyOf(init[j]) != KeyOf(init[i]) {
        assert init[j] == kps[j] && init[i] == kps[i];
      }
      BuildMapLastWins(init, i);
      assert KeyOf(kps[n]) != KeyOf(kps[i]);
      assert init[i] == kps[i];
    }
  }

  /** `kpMap.get(name)`: the joint whatever its score. */
  function Get(kp: KeypointMap, name: string): (r: Option<Keypoint>)
    ensures r.Some? <==> name in kp
    ensures r.Some? ==> r.value == kp[name]
  {
    if name in kp then Some(kp[name]) else None
  }

  /** Whether `name` is present with a score above 0.2. */
  predicate Confident(kp: KeypointMap, name: string)
  {
    name in kp && kp[name].score > MinJointScore
  }

  /** The score of a joint, 0 when it was not detected. */
  function ScoreOf(kp: KeypointMap, name: string): real
  {
    if name in kp then kp[name].score else 0.0
  }

  /** Fine-hand joints that the pose model does not detect, and the joint
      read in their place. */
  const FallbackTable: map<string, string> :=
    map["left_index" := "left_wrist", "right_index" := "right_wrist",
        "left_thumb" := "left_wrist", "right_thumb" := "right_wrist"]

  /** getJoint: the named joint if it is seen with score above 0.2; for a
      finger or thumb, otherwise the same-side wrist whatever its score; in
      every other case nothing. An absent or empty name gives nothing. */
  function GetJoint(kp: KeypointMap, name: string): (r: Option<Keypoint>)
    ensures name != "" && Confident(kp, name) ==> r == Some(kp[name])
    ensures r.Some? && !Confident(kp, name) ==>
              name in FallbackTable && FallbackTable[name] in kp && r.value == kp[FallbackTable[name]]
    ensures name == "" || (!Confident(kp, name) && name !in FallbackTable) ==> r.None?
    ensures name != "" && !Confident(kp, name) && name in FallbackTable && FallbackTable[name] in kp ==>
              r == Some(kp[FallbackTable[name]])
  {
    if name == "" then None
    else if Confident(kp, name) then Some(kp[name])
    else if name in FallbackTable && FallbackTable[name] in kp then Some(kp[FallbackTable[name]])
    else None
  }

  /** A finger joint that was not detected resolves to a wrist seen with
      score 0.5, and to nothing when the wrist is missing too. */
  lemma FingertipFallsBackToWrist(kp: KeypointMap, w: Keypoint)
    requires "left_index" !in kp && w.score == 0.5
    ensures GetJoint(kp["left_wrist" := w], "left_index") == Some(w)
    ensures "left_wrist" !in kp ==> GetJoint(kp, "left_index") == None
  {
  }

  /** A substitute wrist is returned even when its own score is too low. */
  lemma FallbackIgnoresWristScore(kp: KeypointMap)
    requires "right_thumb" !in kp && "right_wrist" in kp && kp["right_wrist"].score == 0.0
    ensures GetJoint(kp, "right_thumb") == Some(kp["right_wrist"])
  {
  }

  /** The eight body joints of the visibility check. */
  const EssentialJoints: seq<string> :=
    ["left_shoulder", "right_shoulder", "left_hip", "right_hip",
     "left_knee", "right_knee", "left_ankle", "right_ankle"]

  /** How many of `names` are seen with score above 0.2. */
  function CountConfident(kp: KeypointMap, names: seq<string>): (n: nat)
    ensures n <= |names|
  {
    if names == [] then 0
    else (if Confident(kp, names[0]) then 1 else 0) + CountConfident(kp, names[1..])
  }

  /** The count is the size of the set of distinct names that are seen. */
  lemma {:induction false} CountConfidentIsSetSize(kp: KeypointMap, names: seq<string>)
    requires forall i, j :: 0 <= i < j < |names| ==> names[i] != names[j]
    ensures CountConfident(kp, names) == |set n | n in names && Confident(kp, n)|
  {
    if names != [] {
      var tail := names[1..];
      CountConfidentIsSetSize(kp, tail);
      var all := set n | n in names && Confident(kp, n);
      var rest := set n | n in tail && Confident(kp, n);
      assert names[0] !in tail;
      if Confident(kp, names[0]) {
        assert all == rest + {names[0]};
      } else {
        assert all == rest;
      }
    }
  }

  /** The visibility gate of analyzePose: at least 4 of the 8 essential
      joints must be seen. */
  predicate BodyVisible(kp: KeypointMap)
  {
    CountConfident(kp, EssentialJoints) >= 4
  }

  /** The gate in terms of the set of seen essential joints. */
  lemma BodyVisibleMeansFourJoints(kp: KeypointMap)
    ensures BodyVisible(kp) <==> |set n | n in EssentialJoints && Confident(kp, n)| >= 4
  {
    CountConfidentIsSetSize(kp, EssentialJoints);
  }
}
