# RehabAI core, modelled in Dafny

RehabAI is a physiotherapy web application. A patient performs a
prescribed exercise in front of a camera. A pose detector delivers a map of
named body keypoints for every video frame. The exercise session page
counts repetitions from those keypoints, checks the patient's form and,
after the session, computes a completion percentage, a quality score and
recommendations. The clinician's patient page turns the stored sessions
into a list of clinical insights and colour-coded badges. The backend books
and publishes appointment slots and seeds demo data.

This project models that core and proves properties of it:

- `basics.dfy` (`Basics`): `Math.round`, clamping, ASCII lower-casing and
  `String.includes`.
- `pose.dfy` (`Pose`): the keypoint map built from the detections,
  `getJoint` with its finger-to-wrist fallbacks, and the four-of-eight
  visibility gate.
- `form.dfy` (`Form`): `analyzeForm`, with its knee, back and depth checks.
- `wrist_motion.dfy` (`WristMotion`): the wrist tracker used by wrist
  exercises. It keeps a 30-height window and a velocity, classifies the
  phase from the elbow offset or from amplitude and velocity, and counts a
  rep on up-to-down after a 400 ms cool-down.
- `angle_machine.dfy` (`AngleMachine`): the joint-angle state machine,
  with its start and mid thresholds and a 15 degree tolerance.
- `session.dfy` (`Session`): one frame of `analyzePose`.
  - `Frame` is the frame as a function of the whole tracking state.
  - `Tracker` is a class that holds that state in fields, as the component
    holds it in refs and React state.
  - `Tracker.ProcessFrame` updates those fields step by step and is proved
    equal to `Frame`.
  - The frame invariant and the counting conventions are lemmas.
- `summary.dfy` (`Summary`): the completion percentage,
  `calculateSessionQuality` and `generateRecommendations`.
- `insights.dfy` (`Insights`): `generateClinicalInsights` as an ordered
  list of rules over averages, the trend rule, the chart clamps and the
  table badges.
- `appointments.dfy` (`Appointments`): the book and add-availability
  routes over an appointments collection. `AppointmentBook` is a class that
  holds the collection and the next free id.
- `seed.dfy` (`Seed`): the seeding loops of `POST /api/seed`. These are
  ninety daily sessions each for the demo patient and for Sam Jones, and
  two open slots a day for seven days for every clinician.

The engine receives the joint angle of a frame as a parameter. Random
draws, the time and the clocks are parameters too; see "Left out".

The angle machine counts when the stage returns from down to up. On the
angles 170, 160, 90, 85 the count is still 0; the fifth angle, 170, makes it
1 (`AngleMachine.ScriptedSquat`). As the component is written, its frame
handler never sees stage down, so the angle path counts nothing; see
"Findings".

## Model

| member | source | states |
|---|---|---|
| Basics.Round | src/pages/ExerciseSession.tsx:746 | `Math.round` gives the integer within half a unit of its argument, with halves going up |
| Basics.RoundMonotone | src/pages/ExerciseSession.tsx:746 | rounding never reverses the order of two values |
| Basics.ClampInt | backend/server.js:335-337 | `Math.max(lo, Math.min(hi, x))` lies in [lo, hi] and is x itself when x already lies there |
| Basics.ClampReal | src/pages/PatientDetailsPage.tsx:185 | the same clamp on reals |
| Basics.ToLower | src/pages/ExerciseSession.tsx:460 | an ASCII-only model of `toLowerCase`: A to Z become a to z, every other character and the length are kept |
| Basics.Includes | src/pages/ExerciseSession.tsx:460 | `includes` holds exactly when the substring occurs at some position |
| Pose.BuildMapKeys | src/pages/ExerciseSession.tsx:433 | a key is in the map exactly when some detection carries that name, with "unknown" for a missing name |
| Pose.BuildMapLastWins | src/pages/ExerciseSession.tsx:433 | a detection's point is what the map holds for its name, unless a later detection has the same name |
| Pose.Get | src/pages/ExerciseSession.tsx:438 | `Map.get` gives the stored keypoint exactly when the name is a key |
| Pose.GetJoint | src/pages/ExerciseSession.tsx:436-449 | an empty name gives nothing; a joint seen with score above 0.2 is returned; otherwise a name of the fallback table (a finger or thumb) gives its same-side wrist whenever that is present in the map; everything else gives nothing |
| Pose.FingertipFallsBackToWrist | src/pages/ExerciseSession.tsx:441-448 | a missing left index finger resolves to the left wrist, and to nothing when that wrist is missing too |
| Pose.FallbackIgnoresWristScore | src/pages/ExerciseSession.tsx:447-448 | the fallback wrist is returned even with score 0 |
| Pose.CountConfident | src/pages/ExerciseSession.tsx:452-453 | at most one seen joint is counted per listed name |
| Pose.CountConfidentIsSetSize | src/pages/ExerciseSession.tsx:452-453 | for distinct names the count is the number of names seen with score above 0.2 |
| Pose.BodyVisibleMeansFourJoints | src/pages/ExerciseSession.tsx:452-457 | the gate passes exactly when at least 4 of the 8 essential joints are seen |
| Form.Suggestions | src/pages/ExerciseSession.tsx:627-663 | each message is in the list exactly when its check fires: knees more than 50 apart, shoulder and hip midpoints more than 30 apart, hip less than 20 below the knee |
| Form.AnalyzeForm | src/pages/ExerciseSession.tsx:617-670 | good form exactly when no check fires; immediate attention exactly for the knee check; the suggestion is the first message that fires, in the order knees, back, depth, or "Perfect form!" when none fires |
| WristMotion.PushCapped | src/pages/ExerciseSession.tsx:476-478 | the new height is appended and the oldest one is dropped beyond 30, so the window never exceeds 30 |
| WristMotion.Velocity | src/pages/ExerciseSession.tsx:482 | with two heights or more, the velocity is what the newest height must gain to equal the previous one, so it is positive exactly when the wrist rose; with fewer it keeps the last velocity |
| WristMotion.MaxOfIsMax | src/pages/ExerciseSession.tsx:498 | `Math.max(...hist)` is an element of the window and no element exceeds it |
| WristMotion.MinOfIsMin | src/pages/ExerciseSession.tsx:497 | `Math.min(...hist)` is an element of the window and no element is below it |
| WristMotion.AmplitudeSpec | src/pages/ExerciseSession.tsx:497-499 | the amplitude is non-negative, and zero exactly when all heights in the window are equal |
| WristMotion.SampleOf | src/pages/ExerciseSession.tsx:462-487 | a frame gives a sample exactly when the side with the larger wrist+elbow score has its wrist seen above 0.25; the sample carries that wrist's height, and an elbow offset exactly when that elbow is seen above 0.25; the offset is the elbow's height minus the wrist's, positive when the wrist is above the elbow |
| WristMotion.ElbowHysteresis | src/pages/ExerciseSession.tsx:487-510 | with the elbow seen: up when the offset exceeds 24, down when it is below 10, otherwise the last phase |
| WristMotion.NoElbowNeedsMotion | src/pages/ExerciseSession.tsx:495-510 | without an elbow, a phase change needs amplitude above 22 and a velocity beyond 0.006 in the direction of the new phase, and such motion always gives that phase |
| WristMotion.FlatHistoryHoldsPhase | src/pages/ExerciseSession.tsx:495-510 | a window of equal heights never changes the phase without an elbow |
| WristMotion.Step | src/pages/ExerciseSession.tsx:473-535 | a frame without a sample changes nothing; otherwise the shown phase is the new last phase; a rep is counted exactly on up-to-down more than 400 ms after the last count |
| WristMotion.StepEffect | src/pages/ExerciseSession.tsx:476-522 | the window stays within 30; the count rises by one exactly when a rep is counted, and the count time is then the current time |
| WristMotion.NoBackToBackCounts | src/pages/ExerciseSession.tsx:518-535 | two consecutive frames never both count |
| WristMotion.RunWithoutCountKeepsStamp | src/pages/ExerciseSession.tsx:518-522 | frames that count nothing keep the time of the last count |
| WristMotion.CooldownBetweenCounts | src/pages/ExerciseSession.tsx:517-522 | a rep counted at t1 and the next counted rep at t2, whatever frames lie between, are more than 400 ms apart |
| WristMotion.RunCountBound | src/pages/ExerciseSession.tsx:518-535 | over n frames the count rises by at most about n / 2, since each rep needs an up frame and a later down frame |
| WristMotion.RunCountMonotone | src/pages/ExerciseSession.tsx:519-521 | the count never goes down |
| AngleMachine.StepSpec | src/pages/ExerciseSession.tsx:583-609 | a rep is counted exactly on entering the start band from stage down; the stage is up exactly when the angle is in the start band, or was up and is not in the mid band; an angle in neither band changes nothing |
| AngleMachine.RunCountBound | src/pages/ExerciseSession.tsx:583-609 | over n angles the count rises by at most n / 2 from stage up |
| AngleMachine.RunCountMonotone | src/pages/ExerciseSession.tsx:585-586 | the count never goes down |
| AngleMachine.RunAppend | src/pages/ExerciseSession.tsx:583-609 | running two stretches of frames one after the other is running their concatenation |
| AngleMachine.ScriptedSquat | src/pages/ExerciseSession.tsx:547-609 | with the default thresholds 160/90, the angles 170, 160, 90, 85 leave 0 reps, the fifth angle (170) makes 1, and a second descent stays at 1 |
| AngleMachine.DescentAndReturnCounts | src/pages/ExerciseSession.tsx:583-604 | from stage up, an angle in the mid band followed by one in the start band counts exactly one rep and ends in stage up |
| AngleMachine.StaleRunNeverCounts | src/pages/ExerciseSession.tsx:583-604 | when every frame reads the opening stage up and count 0, as the first render's closure does, no frame ever counts a rep |
| AngleMachine.StaleSquatCountsNothing | src/pages/ExerciseSession.tsx:583-604 | on 170, 160, 90, 85, 170 the machine counts 1 rep, but the closure of the first render counts 0 and shows stage down |
| AngleMachine.OverlappingBandsStartWins | src/pages/ExerciseSession.tsx:583-604 | with start 60 and mid 150 the bands overlap, and every angle above 45 is read as the start band |
| Session.AngleJoints | src/pages/ExerciseSession.tsx:547-571 | no joints exactly when one configured joint fails to resolve and one of left shoulder, elbow and wrist is missing |
| Session.ResolveJoints | src/pages/ExerciseSession.tsx:552-566 | joints are found exactly when the three configured joints all resolve through getJoint, or left shoulder, elbow and wrist are all in the map |
| Session.FrameKeepsInv | src/pages/ExerciseSession.tsx:432-613 | a frame keeps the window within 30 and, on wrist exercises, the shown count equal to the tracker count; the count stays or rises by one; session complete never falls and is raised when a counted rep reaches the target |
| Session.WristFrameKeepsInv | src/pages/ExerciseSession.tsx:473-535 | the same, for a frame of a wrist exercise |
| Session.AngleFrameKeepsInv | src/pages/ExerciseSession.tsx:583-613 | the same, for a frame of any other exercise |
| Session.HiddenBodyChangesNothing | src/pages/ExerciseSession.tsx:454-457 | with fewer than 4 essential joints seen, only the message changes, to "ensure your upper and lower body are visible" |
| Session.MissingJointsChangeNothing | src/pages/ExerciseSession.tsx:557-571 | on the angle path, whenever a configured joint fails to resolve and a left-arm joint is missing, only the message changes, to "Move closer" |
| Session.HiddenWristChangesNothing | src/pages/ExerciseSession.tsx:541-543 | on the wrist path, a frame without a usable wrist only shows "Show your wrist clearly" |
| Session.CountingConventions | src/pages/ExerciseSession.tsx:515-604 | the wrist path counts only on up-to-down after the cool-down and stamps the time; the angle path counts only on down-to-up above start - 15 |
| Session.WristCounting | src/pages/ExerciseSession.tsx:518-522 | a counted wrist rep comes from phase up to phase down, more than 400 ms after the last count, and stamps the current time |
| Session.InitialStateIsQuiet | src/pages/ExerciseSession.tsx:166-177 | the opening state satisfies the invariant, and no first frame can count a rep |
| Session.WristPhaseFromKeypoints | src/pages/ExerciseSession.tsx:473-512 | in camera coordinates (y grows downward): the new velocity is the previous wrist height minus the new one; with the elbow seen above 0.25 the phase is up exactly when elbow.y - wrist.y > 24, down exactly when it is < 10, and unchanged otherwise; without the elbow a window spanning more than 22 follows the velocity beyond 0.006; the shown stage is the new phase |
| Session.WristFrameOnSample | src/pages/ExerciseSession.tsx:473-535 | a wrist frame with a sample stores the new window, velocity and phase; on a count it bumps both counts, announces the rep and raises completion at the target |
| Session.ObserveWrist | src/pages/ExerciseSession.tsx:475-510 | the imperative motion step yields the pushed window, the velocity and the phase that the wrist specification gives for the frame's sample |
| Session.Tracker.constructor | src/pages/ExerciseSession.tsx:166-177 | a new tracker is in the opening state: no history, velocity 0, phase down, stage up, 0 reps, "Initializing" |
| Session.Tracker.ProcessFrame | src/pages/ExerciseSession.tsx:432-613 | the fields after a frame are `Frame` of the fields before; the invariant holds and the count never falls |
| Session.Tracker.TrackWrist | src/pages/ExerciseSession.tsx:461-545 | the wrist branch leaves the fields as `WristFrame` says |
| Session.Tracker.ApplyWrist | src/pages/ExerciseSession.tsx:513-535 | the wrist update leaves the fields as `WristUpdate` says |
| Session.Tracker.TrackAngle | src/pages/ExerciseSession.tsx:547-613 | the angle branch leaves the fields as `AngleFrame` says |
| Session.Tracker.ApplyAngle | src/pages/ExerciseSession.tsx:583-613 | the state machine and the form alert leave the fields as `AngleUpdate` of the machine's step says |
| Summary.CompletionPercentage | src/pages/ExerciseSession.tsx:682-687 | the completion is non-negative; below 100 exactly when fewer reps than the target were done; exactly 100 at the target; below 80 exactly when the reps are below 80% of the target |
| Summary.SessionQuality | src/pages/ExerciseSession.tsx:741-747 | non-negative for pain and difficulty up to 10; at most 93 for slider values of at least 1 and reps within the target |
| Summary.SessionQualityMonotone | src/pages/ExerciseSession.tsx:741-747 | more pain, more difficulty or fewer reps never raise the quality |
| Summary.Recommendations | src/pages/ExerciseSession.tsx:749-769 | each advice appears exactly when its rule fires (pain above 6, difficulty above 7, reps below 80% of the target), in that order; the "Excellent session" advice appears alone exactly when none fires |
| Summary.CompletedSessionIsFull | src/pages/ExerciseSession.tsx:760 | a session the engine marked complete has a completion of at least 100 and never gets the range-of-motion advice |
| Summary.QualityExample | src/pages/ExerciseSession.tsx:741-769 | pain 4, difficulty 5 and 8 of 10 reps score 63 with only the "Excellent session" advice; pain 7, difficulty 8 and 7 of 10 reps get all three advices in order |
| Insights.TotalAppend | src/pages/PatientDetailsPage.tsx:36-39 | the sum of a metric over two joined lists is the sum of the two sums |
| Insights.TotalWithin | src/pages/PatientDetailsPage.tsx:36-39 | when every value lies in [lo, hi], the sum lies between n * lo and n * hi |
| Insights.AverageWithin | src/pages/PatientDetailsPage.tsx:36-39 | when every value lies in [lo, hi], so does the average |
| Insights.RecentSessions | src/pages/PatientDetailsPage.tsx:72 | `slice(-3)` is the last three entries of the list, or all of them when there are fewer |
| Insights.OlderSessions | src/pages/PatientDetailsPage.tsx:75 | `slice(0, -3)` is the list without its last three entries |
| Insights.Trend | src/pages/PatientDetailsPage.tsx:72-84 | the trend rule gives a message only with at least 4 sessions, and only one of the two trend messages |
| Insights.TrendRule | src/pages/PatientDetailsPage.tsx:72-84 | "decreasing" exactly when there are at least 4 sessions and the average pain of the last three is more than 1 below the rest; "increasing" exactly when it is more than 1 above |
| Insights.Rules | src/pages/PatientDetailsPage.tsx:41-93 | there are seven rules, in the order pain, quality, form, completion, trend and the two combined recommendations, and the pain rule always gives one of its three messages |
| Insights.RulesInOrder | src/pages/PatientDetailsPage.tsx:41-93 | every message a rule can push belongs to that rule's position |
| Insights.FiredMembership | src/pages/PatientDetailsPage.tsx:41-93 | a message is pushed exactly when some rule gave it |
| Insights.FiredGroupsWithin | src/pages/PatientDetailsPage.tsx:41-93 | a pushed message comes from one of the rules run |
| Insights.FiredInRuleOrder | src/pages/PatientDetailsPage.tsx:41-93 | messages are pushed in strictly increasing rule order |
| Insights.ClinicalInsights | src/pages/PatientDetailsPage.tsx:30-100 | no sessions give only "No session data"; otherwise 1 to 7 messages, in rule order, led by the pain message for the average pain; the closing "progressing well" message never appears |
| Insights.NoClosingMessage | src/pages/PatientDetailsPage.tsx:41-97 | the pain rule always pushes a message, so the fallback "progressing well" is never reached |
| Insights.InsightsAreFiredRules | src/pages/PatientDetailsPage.tsx:35-99 | for a non-empty history the list is exactly what the rules pushed over the four averages and the trend |
| Insights.InsightFromItsRule | src/pages/PatientDetailsPage.tsx:41-93 | a message is in the list exactly when the rule at its own position gave it |
| Insights.QualityFormRules | src/pages/PatientDetailsPage.tsx:50-62 | the quality messages appear exactly for an average above 85 or below 60; the form messages exactly for one above 90 or below 70 |
| Insights.AdherenceRules | src/pages/PatientDetailsPage.tsx:64-69 | the adherence messages appear exactly for an average completion above 90 or below 70 |
| Insights.TrendAndRecommendationRules | src/pages/PatientDetailsPage.tsx:71-93 | a trend message appears exactly when the trend rule gave it; pain management exactly for pain above 6 with completion below 80; form review exactly for form below 75 with quality above 80 |
| Insights.RecentAreOldest | src/pages/PatientDetailsPage.tsx:72-75 | on a newest-first list, no "recent" session of the trend rule is newer than any "older" one |
| Insights.TrendReadsOldestAsRecent | src/pages/PatientDetailsPage.tsx:72-84 | newest-first pains 2, 2, 2, 8, 8, 8 are reported as a concerning rise by the rule as written; the corrected rule reports a fall |
| Insights.Reverse | backend/server.js:210 | turning the newest-first list around puts entry i at position n - 1 - i |
| Insights.TotalReverse | src/pages/PatientDetailsPage.tsx:36-39 | reversing the list keeps every sum, so the averages are the same |
| Insights.TrendByTime | src/pages/PatientDetailsPage.tsx:71-84 | the corrected trend rule gives a message only with at least 4 sessions, and only a trend message |
| Insights.TrendByTimeIsChronological | src/pages/PatientDetailsPage.tsx:71-84 | the corrected rule is the page's own rule applied to the sessions in time order |
| Insights.CorrectedInsights | src/pages/PatientDetailsPage.tsx:30-100 | the insights with the corrected trend rule are the page's insights over the time-ordered list; no sessions give only "No session data"; the messages are in rule order |
| Insights.QualityBadge | src/pages/PatientDetailsPage.tsx:271-275 | green exactly from 80, red exactly below 60, yellow in between |
| Insights.PainBadge | src/pages/PatientDetailsPage.tsx:280-284 | green exactly up to 3, red exactly above 6, yellow in between |
| Insights.FormBadge | src/pages/PatientDetailsPage.tsx:289-293 | green exactly from 85, red exactly below 70, yellow in between |
| Insights.BadgesMonotone | src/pages/PatientDetailsPage.tsx:271-293 | a better quality, a better form or a lower pain never gets a worse badge |
| Insights.LastSeven | src/pages/PatientDetailsPage.tsx:183-195 | `slice(-7)` is the last seven entries of the list in order, or all of them when there are fewer |
| Insights.LastSevenAreOldest | src/pages/PatientDetailsPage.tsx:181-183 | on a newest-first list of more than seven sessions, none of the seven bars labelled "last 7" is newer than any session left out |
| Insights.NewestSeven | src/pages/PatientDetailsPage.tsx:181-183 | the corrected selection holds the first seven entries of the newest-first list, turned oldest first |
| Insights.NewestSevenAreNewest | src/pages/PatientDetailsPage.tsx:181-183 | on a newest-first list the corrected bars are in time order, and no session left out is newer than a shown one |
| Insights.CompletionBar | src/pages/PatientDetailsPage.tsx:185 | the bar height is the completion clamped into [0, 100] |
| Insights.PainBar | src/pages/PatientDetailsPage.tsx:197 | the bar height is the pain clamped into [0, 10], times 10 |
| Appointments.Book | backend/server.js:169-181 | a non-patient gets 403; a patient gets 200 exactly when the slot exists and is available, otherwise 400 with nothing changed; on 200 that slot alone becomes booked by the caller, keeping clinician and times, and is returned |
| Appointments.BookKeepsWellFormed | backend/server.js:173-177 | booking keeps open slots patient-free and booked slots with a patient |
| Appointments.NoDoubleBooking | backend/server.js:174 | once a slot is booked, a second request for it is refused and the first patient keeps it |
| Appointments.Docs | backend/server.js:189 | every requested slot becomes an available document of the caller, with no patient and the requested times |
| Appointments.Inserted | backend/server.js:190 | `insertMany` stores the documents under the next free ids, in order, and leaves existing documents unchanged |
| Appointments.AddAvailability | backend/server.js:184-192 | a non-clinician gets 403; a missing or empty `slots` gets 400; otherwise 201, with one open slot of the caller created per requested slot and stored under fresh ids |
| Appointments.AddKeepsWellFormed | backend/server.js:189-190 | publishing slots keeps the collection well formed |
| Appointments.AddKeepsBookings | backend/server.js:189-190 | publishing slots never changes an existing document |
| Appointments.AppointmentBook.constructor | backend/server.js:169-192 | a new collection is empty, and ids start at 0 |
| Appointments.AppointmentBook.InsertMany | backend/server.js:190 | the loop stores the documents as `Inserted` says and advances the next id by their number |
| Appointments.AppointmentBook.BookSlot | backend/server.js:169-181 | the code, the new collection and the returned document are those of `Book` |
| Appointments.AppointmentBook.AddSlots | backend/server.js:184-192 | the code, the new collection, the next id and the created documents are those of `AddAvailability` |
| Seed.SeedCompletionBounds | backend/server.js:335-339 | 6 to 12 reps, within the target, give a completion between 50 and 100 |
| Seed.RoundBetween | backend/server.js:340 | rounding a value that lies between two integers stays between them |
| Seed.SeedQualityBounds | backend/server.js:340 | slider values of 1 to 10 and a completion of 50 to 100 give a quality between 33 and 80 |
| Seed.SeedReps | backend/server.js:335 | the seeded reps lie between 6 and the target |
| Seed.MakeSession | backend/server.js:335-358 | a seeded document has a completion of 50 to 100, a quality of 33 to 80 and one recommendation, chosen by quality below 70 |
| Seed.DemoSession | backend/server.js:331-362 | day i of the demo patient: Squats (12 reps) on even days, Hand Raises (10) on odd days, pain and difficulty within 1..10, the bounds above, the demo recommendations, and created i days before now |
| Seed.SamSession | backend/server.js:374-405 | day i of Sam: Pendulum Swings, Wall Push-ups (10 reps) and Hand Raises in turn, 12 reps otherwise, the bounds above, Sam's recommendations, and created i days before now |
| Seed.FormScoreBounds | backend/server.js:338-381 | demo form scores lie in 75..95, and Sam's in 70..94 |
| Seed.SeedDemoSessions | backend/server.js:329-364 | the loop builds the ninety demo sessions, day i at index i |
| Seed.SeedSamSessions | backend/server.js:366-408 | without Sam nothing is seeded; otherwise the ninety Sam sessions, day i at index i |
| Seed.AsRecord | backend/server.js:336-360 | the patient page reads a seeded session's pain, quality and creation time |
| Seed.SeededNewestFirst | backend/server.js:331-375 | the seeded sessions come out newest first, the order the patient page receives |
| Seed.QualityFormulasDiffer | backend/server.js:340 | the seed's quality formula and the session page's disagree: pain 4, difficulty 5 and 8 of 10 reps give 62 against 63 |
| Seed.SlotAt | backend/server.js:416-423 | a seeded slot lasts one hour, starts at the given hour of day d + 1 after midnight, and is open, with no patient |
| Seed.WeekSlots | backend/server.js:415-425 | a clinician gets two slots a day |
| Seed.SeedSlots | backend/server.js:411-426 | fourteen slots per clinician |
| Seed.SeedAvailability | backend/server.js:410-427 | the three nested loops build exactly `SeedSlots` |
| Seed.WeekSlotsShape | backend/server.js:415-423 | slot k of a week is at 10:00 or 14:00 of day k / 2 + 1 |
| Seed.CountForAppend | backend/server.js:414-426 | the slots of a clinician in two joined lists are the sum of the two |
| Seed.WeekSlotsCount | backend/server.js:415-425 | a week holds 2 slots a day of its own clinician and none of any other |
| Seed.FourteenSlotsEach | backend/server.js:411-427 | with distinct clinicians, each listed clinician gets exactly 14 open slots, and anyone else none |

## Left out

- The camera, the pose detector (TensorFlow), the canvas drawing, speech,
  emotion detection and every `fetch` are I/O. The engine receives the
  keypoint map of a frame instead.
- `calculateAngle` is trigonometry on floats. The angle of a frame is a
  parameter of `Session.Frame` and `Session.Tracker.ProcessFrame`.
- Floating point: every number is an exact real, so rounding errors in
  averages and thresholds are not modelled.
- The random hints ("Tracking left wrist…", "Using wrist tracking for
  finger exercise…") are left out, because they depend on `Math.random`. So
  are `calculateFormScore` (a random placeholder) and `getFormImprovements`
  (constant text).
- The smoothed wrist height (`smoothedY`) is computed but never used, so it
  is not modelled.
- The session-complete `setTimeout` (message, modal, stopping the loop)
  becomes the `sessionComplete` flag. The delay, and frames that arrive
  before the loop stops, are not modelled.
- The model's `Session.Tracker` reads the stage and count that the previous
  frame wrote, which is the evidently intended behaviour. The component's
  frame handler is a closure of the first render, so it always reads the
  opening stage up and count 0 (see "Findings"). The wrist path counts with
  refs and is unaffected, but its displayed stage, as written, only ever
  changes to down.
- Basics.ToLower: lowercases only ASCII A to Z. JavaScript's `toLowerCase`
  covers all of Unicode and can change the length. The "wrist" test at
  src/pages/ExerciseSession.tsx:460 gives the same answer for ASCII names.
- Summary.CompletionPercentage: requires reps > 0. A prescription with zero
  reps would make the page compute NaN or Infinity.
- Summary.SessionQuality: requires reps > 0, for the same reason.
- Summary.SessionQuality: the bounds assume the feedback form's 1..10
  sliders (src/components/modals/PostSessionModal.tsx:40,44); other values
  are passed to the formula unchanged.
- The insight texts are constructors of `Insights.Insight`; the emoji and
  the exact wording are in comments only.
- Appointments.Book: a malformed `slotId` makes the database cast throw and
  the route answer 500. Database errors, authentication (401), Mongo
  ObjectIds and the JSON bodies are left out. Ids are naturals handed out in
  order.
- Appointments.AddAvailability: the dates are milliseconds as given. An
  invalid date string, which `new Date` turns into an invalid date, is not
  modelled.
- The GET routes, login and signup, prescriptions and the rest of the
  server are outside this core.
- Seeding draws `Math.random()` and takes `Math.sin` and `Math.cos` of the
  day index. Each iteration's pain, difficulty and form values are inputs
  (`Seed.Draw`), constrained to the ranges the code's clamps guarantee.
- Seeding computes dates with `setDate` and `setHours` in local time. The
  model counts days as 86 400 000 ms and hours as 3 600 000 ms, so daylight
  saving is not modelled.
- Seeding looks exercises up by name; a missing catalogue entry makes the
  route throw. The model names the exercises directly.
- The users, prescriptions and exercise catalogue created by the seed route
  are not modelled; only the sessions and slots that the analytics and
  booking read are.

## Findings

| source | as written | input that shows it | evidently intended | confidence | as-written member | corrected member |
|---|---|---|---|---|---|---|
| src/pages/PatientDetailsPage.tsx:72-84 | The trend rule treats `sessions.slice(-3)` as the recent sessions. The server sends sessions newest first (backend/server.js:210), so these are the three oldest. | Pains, newest first, 2, 2, 2, 8, 8, 8: pain fell from 8 to 2, yet the page reports "Concerning trend: Pain levels are increasing" | The three newest sessions are compared with the rest, so a fall in pain is reported as a decreasing trend | high (not executed) | Insights.TrendReadsOldestAsRecent | Insights.CorrectedInsights |
| src/pages/PatientDetailsPage.tsx:181-197 | The charts labelled "last 7" draw `sessions.slice(-7)`. On the newest-first list these are the seven oldest sessions. | Any history of 8 or more sessions: the newest session is not drawn | The seven newest sessions, drawn in time order | high (not executed) | Insights.LastSevenAreOldest | Insights.NewestSevenAreNewest |
| src/pages/ExerciseSession.tsx:583-604 | `detectionLoop` is started once when the video plays (lines 298-309) and reschedules itself (line 429). It is the closure of the first render, so `analyzePose` reads `stage` 'up' and `repCount` 0 on every frame. `stage === 'down'` never holds, and the angle path never counts a rep or completes. | Angles 170, 160, 90, 85, 170: the machine gives 1 rep; the closure gives 0 reps and shows stage down | Each frame steps from the stage and count the previous frame left, so a descent and return count one rep | high (not executed) | AngleMachine.StaleRunNeverCounts | AngleMachine.DescentAndReturnCounts |
