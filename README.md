# FitSpa form analysis, rep counting and workout analytics in Dafny

FitSpa watches a user exercise through the camera. MediaPipe Pose produces a
frame of 33 body landmarks. An exercise validator (push-ups, squats, plank,
lunges) judges the frame in three ways:

- it gives the form one piece of feedback;
- it scores the form from 0 to 100;
- it tells which phase of a repetition the body is in.

A rep counter turns the phase stream into a count. For the plank, which is
held rather than repeated, it counts seconds instead. A workout recorder
collects scores and feedback during a session and saves one workout record.
Saving the record also updates the user's analytics document: totals, a day
streak, a seven-day window and per-exercise totals. Spoken feedback goes
through a queue with cooldowns. The server-side Cloud Functions compute
per-request metrics and an analytics report.

The model is split into these modules:

- `Numeric`: the JavaScript `Math` operations the pipeline uses. `Math.sqrt`
  and `Math.acos` are a lawful pair of functions (`MathLib`) passed in as a
  parameter.
- `PoseDetector` and `FormValidator`: the landmark table, safe lookup, the
  visibility gate, and the distance and clamped law-of-cosines angle.
- `PhaseMachine`: the two-threshold rep-phase machine shared by the push-up,
  squat and lunge validators.
- `Pushup`, `Squat`, `Plank` and `Lunge`: each validator's `validateForm`,
  its `calculateFormScore` (split into its capped penalties) and its
  `detectRepPhase`. Where the source keeps state, `detectRepPhase` is a class
  whose fields are the validator's private memory.
- `ExerciseConfig`: the catalogue, `getExerciseById`, and the shared
  validator instances.
- `FormAnalysis` and `RepCounter`: the two hooks. Each becomes explicit state
  driven once per processed frame or timer tick.
- `WorkoutRecorder`: the session object and its save path.
- `Firestore`: `saveWorkout`, `getAnalytics` and the record update inside
  `updateAnalytics`. The database is a value passed in and returned.
- `FeedbackMessages` and `VoiceFeedback`: the message texts, and the speech
  queue with its cooldowns. The speech engine's callbacks become explicit
  methods.
- `CloudFunctions`: the helpers of `functions/src/index.ts`.

Most stateful methods are proved against a specification function on
values, and the specification functions carry the properties. The rest
state their whole new state directly: the voice manager's methods, the
recorder's `StartSession`, `AddFormScore`, `AddFeedback` and `UpdateReps`,
and the rep counter's `OnActivityChange`, `Tick` and `Reset`. Examples of
the first kind:

- `Pushup.PushupValidator.DetectRepPhase` computes exactly
  `Pushup.DetectSpec`, and `Pushup.DetectSpec` is built on
  `PhaseMachine.Step`.
- `Firestore.UpdateAnalyticsRecord` (straight-line code around the loop of
  `Firestore.UpdateWeeklyStats`) computes
  exactly `Firestore.AnalyticsAfter`. The lemmas about `AnalyticsAfter`
  state the totals, the streak rule, the seven-day window and validity.

## Model

| member | source | states |
|---|---|---|
| Numeric.Abs | src/lib/exercises/pushup.ts:45 | the absolute value is non-negative and is the argument or its negation |
| Numeric.Min | src/lib/exercises/pushup.ts:193 | `Math.min` is a lower bound of both arguments and is one of them |
| Numeric.Max | src/lib/exercises/pushup.ts:193 | `Math.max` is an upper bound of both arguments and is one of them |
| Numeric.Mean | src/lib/exercises/pushup.ts:43-44 | the midpoint of two coordinates lies between them |
| Numeric.Round | src/lib/workout/workoutRecorder.ts:64-67 | `Math.round` gives the integer r with r <= x + 0.5 < r + 1 |
| Numeric.FloorDiv | src/lib/voice/feedbackMessages.ts:18 | `Math.floor(a / b)` gives the q with q*b <= a < (q+1)*b |
| Numeric.ClampScore | src/lib/exercises/pushup.ts:193 | the clamp lands in [0, 100] and leaves a score already in range unchanged |
| Numeric.Sum | src/lib/workout/workoutRecorder.ts:67 | the `reduce` sum from 0: the empty sum is 0 and a single value sums to itself |
| Numeric.SumBounds | src/lib/workout/workoutRecorder.ts:67 | a `reduce` sum of values in [lo, hi] lies between n*lo and n*hi |
| Numeric.SumConcat | functions/src/index.ts:84-85 | the sum over a concatenation is the sum of the two sums |
| Numeric.MeanBounds | src/lib/workout/workoutRecorder.ts:65 | proof helper for the average score: a total of n values in [lo, hi], divided by n, lies in [lo, hi] |
| Numeric.QuotientAtMostOne | functions/src/index.ts:140 | proof helper for the weekly rate: dividing by a positive divisor no smaller than the dividend gives at most 1 |
| Numeric.RoundWhole | functions/src/index.ts:140 | proof helper for rounding: `Math.round` leaves a whole number unchanged |
| Numeric.RoundBetween | src/lib/workout/workoutRecorder.ts:65 | proof helper for rounding: a value between two integers rounds to a value between them |
| PoseDetector.PoseLandmarksCoverSlots | src/lib/pose-detection/poseDetector.ts:153-187 | `POSE_LANDMARKS` names 33 slots, slot i at position i, all distinct |
| PoseDetector.DetectorGetLandmark | src/lib/pose-detection/poseDetector.ts:118-123 | the slot's content exactly when 0 <= index < length, otherwise null |
| PoseDetector.DetectorDistance | src/lib/pose-detection/poseDetector.ts:126-135 | the detector's distance is non-negative |
| PoseDetector.DetectorDistanceSymmetric | src/lib/pose-detection/poseDetector.ts:126-135 | the detector's distance does not depend on argument order |
| FormValidator.GetLandmark | src/lib/exercises/formValidator.ts:19-27 | the result is null iff the index is negative, too large or the slot is empty; for an index in range it is exactly the slot `frame[index]` |
| FormValidator.GetLandmarkAgreesWithDetector | src/lib/exercises/formValidator.ts:19-27 | the validators' lookup and the detector's lookup agree on every index |
| FormValidator.IsVisible | src/lib/exercises/formValidator.ts:58-60 | a visible landmark is present; a present landmark without visibility passes iff the threshold is below 1; otherwise it passes iff its visibility strictly exceeds the threshold |
| FormValidator.IsVisibleEdges | src/lib/exercises/formValidator.ts:58-60 | null is never visible; a missing visibility counts as 1, so such a landmark is visible at 0.5; a visibility equal to the threshold fails |
| FormValidator.IsVisibleMonotone | src/lib/exercises/formValidator.ts:58-60 | passing a higher threshold implies passing every lower one |
| FormValidator.SquaredDistance | src/lib/exercises/formValidator.ts:34-37 | the squared distance is non-negative and 0 for identical positions |
| FormValidator.Distance | src/lib/exercises/formValidator.ts:30-38 | the distance is non-negative and 0 for identical positions |
| FormValidator.DistanceSymmetric | src/lib/exercises/formValidator.ts:30-38 | the distance is symmetric |
| FormValidator.DistanceAgreesWithDetector | src/lib/pose-detection/poseDetector.ts:126-135 | the validators' distance and the detector's distance are the same |
| FormValidator.ClampedCosine | src/lib/exercises/formValidator.ts:53 | the clamped law-of-cosines argument lies in [-1, 1] |
| FormValidator.Angle | src/lib/exercises/formValidator.ts:41-55 | the angle lies in [0, 180] and is 0 when either edge at the vertex has zero length |
| FormValidator.AngleSymmetric | src/lib/exercises/formValidator.ts:41-55 | the angle at a vertex does not depend on which outer point comes first |
| FormValidator.AngleAtCoincidentPoints | src/lib/exercises/formValidator.ts:46-50 | a vertex that coincides with an outer point measures 0 |
| FormValidator.AtSamePositions | src/lib/exercises/formValidator.ts:19-27 | frames with the same positions have the same joints present, at the same place |
| FormValidator.AngleSamePositions | src/lib/exercises/formValidator.ts:41-55 | the angle depends on positions only, not on visibility |
| FormValidator.DistanceSamePositions | src/lib/exercises/formValidator.ts:30-38 | the distance depends on positions only, not on visibility |
| PhaseMachine.Step | src/lib/exercises/pushup.ts:118-155 | below 90 it signals Down once and then Hold; above the top it signals Up once and then Hold; these bands never touch the remembered y; in the middle band a move of y by more than 0.01 since the remembered value signals Up when y decreased and Down otherwise, unless that phase is already held, and no other new phase is signalled there; y is remembered exactly when no new phase is signalled; Hold is never remembered |
| PhaseMachine.Run | src/lib/exercises/pushup.ts:98-156 | a run answers one phase per frame |
| PhaseMachine.After | src/lib/exercises/pushup.ts:12-13 | the memory after any run never records Hold |
| PhaseMachine.BottomSignalledOnce | src/lib/exercises/pushup.ts:118-124 | however long the bottom persists, Down is signalled at most once, and every later frame answers Hold |
| Pushup.ValidateForm | src/lib/exercises/pushup.ts:15-96 | isValid iff good; each message exactly when its check is the first to fail, in the order of the chain: the visibility warning iff the upper body is hidden; body-not-straight iff visible and misaligned; go-deeper iff aligned with an elbow angle below 70; arms-extended iff aligned above 160 (before the wrist check); hands-too-low iff aligned in [70, 160] with low wrists; good form iff aligned in [70, 160] with wrists not low |
| Pushup.AlignmentPenalty | src/lib/exercises/pushup.ts:172-176 | the alignment penalty lies in [0, 30] |
| Pushup.RangePenalty | src/lib/exercises/pushup.ts:178-182 | the range penalty is 0 or 20, and 20 exactly when the elbow angle is below 70 |
| Pushup.SymmetryPenalty | src/lib/exercises/pushup.ts:184-191 | the symmetry penalty lies in [0, 20] and is 0 without the right elbow and wrist |
| Pushup.FormScore | src/lib/exercises/pushup.ts:158-194 | the score lies in [0, 100]; it is 0 when a scored joint is absent; otherwise it is at least 30, and at most 80 when the elbow angle is below 70 |
| Pushup.FormScorePerfect | src/lib/exercises/pushup.ts:158-194 | a frame with no penalty scores exactly 100 |
| Pushup.FormScoreIgnoresVisibility | src/lib/exercises/pushup.ts:168-170 | the score consults presence and positions only, never visibility |
| Pushup.PenaltiesIgnoreVisibility | src/lib/exercises/pushup.ts:168-191 | each penalty consults presence and positions only |
| Pushup.DetectSpec | src/lib/exercises/pushup.ts:98-156 | an invisible tracked arm gives null and leaves memory unchanged; otherwise one phase-machine step on the elbow angle and shoulder y, with top threshold 160; between 90 and 160 a shoulder move beyond 0.01 signals Up (moving up) or Down, once, and is the only new phase there |
| Pushup.PushupValidator.constructor | src/lib/exercises/pushup.ts:12-13 | a new validator starts with no phase and no remembered y |
| Pushup.PushupValidator.DetectRepPhase | src/lib/exercises/pushup.ts:98-156 | the answer and the updated fields are exactly `DetectSpec` of the old fields |
| Squat.ValidateForm | src/lib/exercises/squat.ts:15-96 | isValid iff good; each message exactly when its check is the first to fail, in the order of the chain: the visibility warning iff the lower body is hidden; knees-over-toes iff visible with a knee more than 0.1 off its ankle; too-low iff knees in line and angle below 60; go-deeper iff knees in line and angle above 120; back-not-straight iff knees in line, angle in [60, 120] and the back leaning; good form iff all of these pass |
| Squat.KneeAlignmentPenalty | src/lib/exercises/squat.ts:174-179 | the knee-alignment penalty lies in [0, 30] |
| Squat.KneeAnglePenalty | src/lib/exercises/squat.ts:181-186 | the knee-angle penalty lies in [0, 18], inside the source's cap of 20 |
| Squat.BackPenalty | src/lib/exercises/squat.ts:188-194 | the back penalty lies in [0, 20] and is 0 without both shoulders |
| Squat.SymmetryPenalty | src/lib/exercises/squat.ts:196-202 | the symmetry penalty lies in [0, 20] |
| Squat.FormScore | src/lib/exercises/squat.ts:158-205 | the score lies in [0, 100]; it is 0 when a hip, knee or ankle is absent; otherwise it is at least 12 |
| Squat.FormScorePerfect | src/lib/exercises/squat.ts:158-205 | a frame with no penalty scores exactly 100 |
| Squat.FormScoreIgnoresVisibility | src/lib/exercises/squat.ts:169-171 | the score never consults visibility |
| Squat.PenaltiesIgnoreVisibility | src/lib/exercises/squat.ts:169-202 | each penalty consults presence and positions only |
| Squat.DetectSpec | src/lib/exercises/squat.ts:98-156 | an invisible tracked leg gives null and no change; below 90 degrees Down is remembered; above 150 Up is remembered; between them a hip move beyond 0.01 signals Up (moving up) or Down, once, and is the only new phase there |
| Squat.SquatValidator.constructor | src/lib/exercises/squat.ts:12-13 | a new validator starts with no phase and no remembered hip y |
| Squat.SquatValidator.DetectRepPhase | src/lib/exercises/squat.ts:98-156 | the answer and the updated fields are exactly `DetectSpec` of the old fields |
| Plank.Spread | src/lib/exercises/plank.ts:43-45 | the vertical spread bounds every pairwise gap of shoulders, hips and ankles, and is one of them |
| Plank.ValidateForm | src/lib/exercises/plank.ts:12-91 | isValid iff good; each message exactly when its check is the first to fail, in the order of the chain: the visibility warning iff shoulders or hips are hidden; with both ankles present, body-not-straight iff the spread exceeds 0.1, then hips-too-high iff the hip is more than 0.05 above the shoulder, then hips-too-low iff it is more than 0.08 below; knees-bent iff those pass (or the ankles are missing) and a leg is bent; good form otherwise; a hip message implies hips within 0.1 of the shoulders |
| Plank.DetectRepPhase | src/lib/exercises/plank.ts:93-100 | the plank always answers Hold, whatever the frame |
| Plank.SpreadPenalty | src/lib/exercises/plank.ts:117-127 | the spread penalty lies in [0, 40] |
| Plank.KneePenalty | src/lib/exercises/plank.ts:129-134 | the knee penalty lies in [0, 20] and is 0 without the left knee |
| Plank.HipSymmetryPenalty | src/lib/exercises/plank.ts:136-140 | the hip-height symmetry penalty lies in [0, 20] |
| Plank.FormScore | src/lib/exercises/plank.ts:102-143 | the score lies in [0, 100]; it is 0 when a shoulder, hip or ankle is absent; otherwise it is at least 20 |
| Plank.FormScorePerfect | src/lib/exercises/plank.ts:102-143 | a frame with no penalty scores exactly 100 |
| Plank.FormScoreIgnoresVisibility | src/lib/exercises/plank.ts:113-115 | the score never consults visibility |
| Plank.PenaltiesIgnoreVisibility | src/lib/exercises/plank.ts:113-140 | each penalty consults presence and positions only |
| Lunge.ValidateForm | src/lib/exercises/lunge.ts:15-106 | isValid iff good; each message exactly when its check is the first to fail, in the order of the chain: the visibility warning iff the lower body is hidden; knee-past-toes iff the front knee is more than 0.05 past the ankle; too-low iff the front angle is below 70; go-deeper iff above 110; back-leg-bent iff the front angle is in [70, 110] and the back knee below 150; leaning-forward iff those pass and the torso leans; good form iff every check passes |
| Lunge.KneeBehindAnkleNeverAnError | src/lib/exercises/lunge.ts:42-51 | the knee test is signed: a knee behind its ankle is never an error |
| Lunge.KneeOffsetPenalty | src/lib/exercises/lunge.ts:183-188 | the knee-offset penalty lies in [0, 30] |
| Lunge.FrontKneePenalty | src/lib/exercises/lunge.ts:190-195 | the front-knee penalty lies in [0, 18] |
| Lunge.BackLegPenalty | src/lib/exercises/lunge.ts:197-202 | the back-leg penalty lies in [0, 20] |
| Lunge.TorsoPenalty | src/lib/exercises/lunge.ts:204-212 | the torso penalty is a flat 20 exactly when the shoulder-hip gap is under 0.05, and 0 otherwise |
| Lunge.FormScore | src/lib/exercises/lunge.ts:168-215 | the score lies in [0, 100]; it is 0 when a hip, knee or ankle is absent; otherwise it is at least 12, and at most 80 when the torso leans |
| Lunge.FormScorePerfect | src/lib/exercises/lunge.ts:168-215 | a frame with no penalty scores exactly 100 |
| Lunge.FormScoreIgnoresVisibility | src/lib/exercises/lunge.ts:179-181 | the score never consults visibility |
| Lunge.PenaltiesIgnoreVisibility | src/lib/exercises/lunge.ts:179-212 | each penalty consults presence and positions only |
| Lunge.DetectSpec | src/lib/exercises/lunge.ts:108-166 | an invisible tracked leg gives null and no change; below 90 degrees Down is remembered; above 150 Up is remembered; between them a front-knee move beyond 0.01 signals Up (moving up) or Down, once, and is the only new phase there |
| Lunge.LungeValidator.constructor | src/lib/exercises/lunge.ts:12-13 | a new validator starts with no phase and no remembered knee y |
| Lunge.LungeValidator.DetectRepPhase | src/lib/exercises/lunge.ts:108-166 | the answer and the updated fields are exactly `DetectSpec` of the old fields |
| ExerciseConfig.Find | src/lib/workout/exerciseConfig.ts:41-43 | `find` returns nothing iff no entry has the id; otherwise it returns the first entry with the id |
| ExerciseConfig.GetExerciseById | src/lib/workout/exerciseConfig.ts:41-43 | a catalogue entry with the given id; nothing exactly for ids outside pushup, squat, plank and lunges |
| ExerciseConfig.CatalogueEntries | src/lib/workout/exerciseConfig.ts:14-39 | the catalogue has four entries with distinct ids, distinct validator kinds and positive targets |
| ExerciseConfig.CatalogueLookupRoundTrip | src/lib/workout/exerciseConfig.ts:14-39 | the ids are distinct, so looking up each entry's id returns that entry |
| ExerciseConfig.FindSkipsOthers | src/lib/workout/exerciseConfig.ts:41-43 | entries before the first match do not affect `find` |
| ExerciseConfig.ValidateFormFor | src/lib/workout/exerciseConfig.ts:19-37 | the validator an exercise owns keeps the rule that isValid holds iff severity is good |
| ExerciseConfig.FormScoreFor | src/lib/workout/exerciseConfig.ts:19-37 | every exercise's score lies in [0, 100] |
| ExerciseConfig.EmptyFrameScoresZero | src/lib/workout/exerciseConfig.ts:19-37 | an empty frame scores 0 for every exercise |
| ExerciseConfig.DetectFor | src/lib/workout/exerciseConfig.ts:19-37 | a detection changes only the memory of the exercise's own validator; the plank answers Hold and changes nothing |
| ExerciseConfig.Validators.constructor | src/lib/workout/exerciseConfig.ts:19-37 | the shared validators start with empty memory |
| ExerciseConfig.Validators.DetectRepPhase | src/lib/workout/exerciseConfig.ts:19-37 | the shared instances compute exactly `DetectFor`, so phase memory persists across lookups |
| FormAnalysis.AnalyzeForm | src/hooks/useFormAnalysis.ts:12-36 | inactive, or no landmarks, or empty landmarks give the neutral "Ready to start" result with score 100; otherwise the exercise's feedback and score for the current frame only |
| FormAnalysis.Blank | src/hooks/useFormAnalysis.ts:21-29 | a blank frame of n slots holds no landmark |
| FormAnalysis.BlankFrameIsNotNeutral | src/hooks/useFormAnalysis.ts:21-35 | null landmarks give the neutral state, but a non-empty frame with every slot empty is judged and scores 0 |
| RepCounter.Replay | src/hooks/useRepCounter.ts:45-59 | replaying n phases adds between 0 and n reps |
| RepCounter.DownUpPairsFront | src/hooks/useRepCounter.ts:53-55 | the adjacent down-then-up pairs of a stream, counted from the front |
| RepCounter.ReplayCountsPairs | src/hooks/useRepCounter.ts:50-57 | the count gained is exactly the number of adjacent (down, up) pairs in the recorded-phase stream, since every answer, Hold and null included, overwrites the recorded phase |
| RepCounter.PairsAtMostHalf | src/hooks/useRepCounter.ts:53-55 | a stream of n phases earns at most n/2 reps |
| RepCounter.ReplayExamples | src/hooks/useRepCounter.ts:50-57 | down, up counts 1; down, hold, up counts 0; down, hold, up, hold, down, up counts 1 |
| RepCounter.ElapsedSeconds | src/hooks/useRepCounter.ts:24-26 | the timed count is floor((now - start) / 1000) |
| RepCounter.ElapsedSecondsMonotone | src/hooks/useRepCounter.ts:24-26 | the timed count never goes down as time passes |
| RepCounter.RepCounter.constructor | src/hooks/useRepCounter.ts:12-16 | a new counter has count 0, no phase, no landmarks and no timer |
| RepCounter.RepCounter.ProcessFrame | src/hooks/useRepCounter.ts:45-59 | plank, inactive and missing or empty frames change nothing; otherwise the phase is detected, recorded, and counted as one `Replay` step; the count never decreases |
| RepCounter.RepCounter.OnActivityChange | src/hooks/useRepCounter.ts:19-42 | activating the plank starts the timer from now; anything else stops the timer and leaves the count |
| RepCounter.RepCounter.Tick | src/hooks/useRepCounter.ts:24-26 | a tick of a running timer sets the count to the elapsed whole seconds |
| RepCounter.RepCounter.Reset | src/hooks/useRepCounter.ts:61-70 | the count, phase, landmarks, timer and start time are cleared; the validators are not touched |
| WorkoutRecorder.AverageFormScore | src/lib/workout/workoutRecorder.ts:64-67 | 100 for no scores; otherwise within 0.5 of the mean, so `Math.round` of it |
| WorkoutRecorder.AverageFormScoreInRange | src/lib/workout/workoutRecorder.ts:64-67 | scores in [0, 100] average into [0, 100] |
| WorkoutRecorder.AverageExamples | src/lib/workout/workoutRecorder.ts:64-67 | [80, 90] averages to 85, and [70, 85] rounds 77.5 up to 78 |
| WorkoutRecorder.DurationSeconds | src/lib/workout/workoutRecorder.ts:62-63 | the duration is the rounded number of seconds, and non-negative when the session ends after it starts |
| WorkoutRecorder.RecordOf | src/lib/workout/workoutRecorder.ts:70-80 | the record copies user, exercise id and name, start, end, reps and the feedback log, and carries the averaged score |
| WorkoutRecorder.WorkoutRecorder.constructor | src/lib/workout/workoutRecorder.ts:16-23 | a new recorder belongs to its user and has no session |
| WorkoutRecorder.WorkoutRecorder.StartSession | src/lib/workout/workoutRecorder.ts:25-33 | any open session is replaced by a fresh one with 0 reps and no scores or feedback |
| WorkoutRecorder.WorkoutRecorder.AddFormScore | src/lib/workout/workoutRecorder.ts:35-39 | the score is appended at the end; without a session nothing changes |
| WorkoutRecorder.WorkoutRecorder.AddFeedback | src/lib/workout/workoutRecorder.ts:41-49 | the feedback entry is appended at the end; without a session nothing changes |
| WorkoutRecorder.WorkoutRecorder.UpdateReps | src/lib/workout/workoutRecorder.ts:51-55 | reps are overwritten with any value; without a session nothing changes |
| WorkoutRecorder.WorkoutRecorder.EndSession | src/lib/workout/workoutRecorder.ts:57-96 | no session: null and no change; a save success clears the session and returns the id; a failure for the demo user clears it and returns the demo id; any other failure keeps the session and propagates the error |
| WorkoutRecorder.WorkoutRecorder.GetSession | src/lib/workout/workoutRecorder.ts:98-100 | the current session is returned |
| WorkoutRecorder.SessionExample | src/lib/workout/workoutRecorder.ts:25-96 | a 12-rep session scored 80 and 90 saves one workout with form score 85 and 12 reps |
| FeedbackMessages.GetFeedbackMessage | src/lib/voice/feedbackMessages.ts:3-11 | never empty; the feedback's own message when it has one; otherwise "Good form!", "Adjust your form" or "Correct your form" by severity |
| FeedbackMessages.DigitChar | src/lib/voice/feedbackMessages.ts:17 | a digit value maps to its decimal character |
| FeedbackMessages.Digits | src/lib/voice/feedbackMessages.ts:17 | a natural number is written as a non-empty run of digits with no leading zero |
| FeedbackMessages.IntToString | src/lib/voice/feedbackMessages.ts:17-23 | the template text of an integer is non-empty and begins with '-' exactly for negatives |
| FeedbackMessages.DigitsRoundTrip | src/lib/voice/feedbackMessages.ts:17 | reading the digits back gives the number |
| FeedbackMessages.DigitsInjective | src/lib/voice/feedbackMessages.ts:17 | different numbers are written differently |
| FeedbackMessages.IntToStringInjective | src/lib/voice/feedbackMessages.ts:17-23 | different integers have different texts |
| FeedbackMessages.RepAnnouncement | src/lib/voice/feedbackMessages.ts:13-26 | the first case that applies wins, each stated as an iff: 0 starts; reaching the target completes; floor(target/2) is halfway; target - 1 is one more; a multiple of 5 is a milestone; otherwise silence |
| FeedbackMessages.AnnouncementText | src/lib/voice/feedbackMessages.ts:13-26 | the text is empty exactly for silence |
| FeedbackMessages.GetRepCountMessage | src/lib/voice/feedbackMessages.ts:13-26 | the message is empty exactly when the count earns no announcement |
| FeedbackMessages.RepCountExamples | src/lib/voice/feedbackMessages.ts:13-26 | for target 20: 0 starts, 10 is halfway, 15 a milestone, 19 one more, 20 completed, 7 silent; for target 2, rep 1 is halfway |
| FeedbackMessages.MilestoneText | src/lib/voice/feedbackMessages.ts:22-23 | 15 of 20 reads "15 reps completed! Keep going!" |
| FeedbackMessages.GetFormScoreMessage | src/lib/voice/feedbackMessages.ts:28-38 | the four verdicts partition the scores at 90, 70 and 50, each stated as an iff |
| FeedbackMessages.FormScoreMessageMonotone | src/lib/voice/feedbackMessages.ts:28-38 | a higher score never earns a less favourable verdict |
| VoiceFeedback.PassesCooldown | src/lib/voice/voiceFeedback.ts:49 | a forced message always passes; otherwise it passes iff the cooldown has fully elapsed since the last accepted message |
| VoiceFeedback.PassesCooldownLater | src/lib/voice/voiceFeedback.ts:49 | a message that would pass at some time also passes at every later time |
| VoiceFeedback.VoiceFeedbackManager.constructor | src/lib/voice/voiceFeedback.ts:2-7 | empty queue, not speaking, both cooldown clocks at 0 |
| VoiceFeedback.VoiceFeedbackManager.Speak | src/lib/voice/voiceFeedback.ts:9-35 | with speech support the text is spoken and speaking is set; without support nothing changes |
| VoiceFeedback.VoiceFeedbackManager.ProcessQueue | src/lib/voice/voiceFeedback.ts:37-44 | an empty queue or an ongoing utterance changes nothing; otherwise the head is removed and spoken if non-empty |
| VoiceFeedback.VoiceFeedbackManager.OnUtteranceEnd | src/lib/voice/voiceFeedback.ts:23-31 | speaking stops and the queue head, first in first out, is spoken next if there is one; a dropped empty head or missing speech support leaves the manager idle with nothing spoken; an empty queue settles nothing; the accepted messages and both cooldown clocks are unchanged; the manager invariant is kept |
| VoiceFeedback.VoiceFeedbackManager.SpeakFeedback | src/lib/voice/voiceFeedback.ts:46-60 | a non-forced call within 2000 ms is dropped with nothing changed; otherwise the clock is set to now and the message is accepted: while speaking it is queued and speaking continues with nothing settled or spoken; when idle it is settled and spoken at once with speech support, and without support nothing is spoken and the manager stays idle; the motivational clock is never touched |
| VoiceFeedback.VoiceFeedbackManager.SpeakMotivational | src/lib/voice/voiceFeedback.ts:62-76 | the same on its own 15000 ms cooldown and clock, without forcing: queued while speaking, spoken at once when idle with support, and nothing spoken without support; the feedback clock is never touched |
| VoiceFeedback.VoiceFeedbackManager.Stop | src/lib/voice/voiceFeedback.ts:78-82 | the queue is emptied and speaking is cleared |
| VoiceFeedback.VoiceFeedbackManager.ClearQueue | src/lib/voice/voiceFeedback.ts:84-86 | the queue is emptied and speaking is unchanged |
| VoiceFeedback.QueueExample | src/lib/voice/voiceFeedback.ts:46-60 | a message spoken while another is playing is queued and spoken when the first ends, in order |
| Firestore.GetAnalytics | src/lib/firebase/firestore.ts:107-147 | without a database, or without a stored document, the all-zero default record |
| Firestore.DefaultAnalyticsValid | src/lib/firebase/firestore.ts:110-118 | the default record satisfies the record invariant |
| Firestore.MinutesOf | src/lib/firebase/firestore.ts:197 | round(duration / 60) is non-negative for a non-negative duration and within half a minute of it |
| Firestore.NextStreak | src/lib/firebase/firestore.ts:163-191 | no record or no last date gives 1; a day gap of 0 keeps the streak; 1 increments it; any other gap resets it to 1 |
| Firestore.FindDateIndex | src/lib/firebase/firestore.ts:202 | `findIndex` is -1 exactly when no entry has the date, and otherwise the first entry that has it |
| Firestore.InsertByDate | src/lib/firebase/firestore.ts:209-216 | inserting an entry adds exactly that entry, as a multiset |
| Firestore.InsertedFrom | src/lib/firebase/firestore.ts:216 | every entry after insertion is the new entry or an old one |
| Firestore.InsertPosition | src/lib/firebase/firestore.ts:216 | the new entry sits at some position p, and p > 0 when the first old entry is not later |
| Firestore.InsertKeepsSorted | src/lib/firebase/firestore.ts:216 | inserting into a date-sorted list keeps it sorted |
| Firestore.SortByDate | src/lib/firebase/firestore.ts:216 | the sort keeps the length and the multiset of entries and yields a date-sorted list |
| Firestore.InsertLatest | src/lib/firebase/firestore.ts:209-216 | an entry no earlier than every other one goes to the end |
| Firestore.SortSorted | src/lib/firebase/firestore.ts:216 | sorting a sorted list changes nothing |
| Firestore.InsertKeepsChronological | src/lib/firebase/firestore.ts:209-216 | inserting a new date into a strictly increasing list keeps it strictly increasing |
| Firestore.WeeklyAfter | src/lib/firebase/firestore.ts:200-220 | at most 7 entries stay at most 7; when today is already listed, only that entry changes, with reps and minutes added |
| Firestore.WeeklyAfterNewDay | src/lib/firebase/firestore.ts:207-219 | a new day is inserted in date order and the oldest entry is dropped when there are more than 7 |
| Firestore.WeeklyAfterChronological | src/lib/firebase/firestore.ts:200-220 | the window stays strictly increasing by date |
| Firestore.NewDayChronological | src/lib/firebase/firestore.ts:207-219 | the new-day path keeps the window strictly increasing |
| Firestore.ChronologicalSameDates | src/lib/firebase/firestore.ts:204-206 | accumulating into an existing day keeps the dates and their order |
| Firestore.ChronologicalTail | src/lib/firebase/firestore.ts:217-218 | dropping the oldest entry keeps the order |
| Firestore.WeeklyAfterRecordsToday | src/lib/firebase/firestore.ts:200-220 | on a strictly increasing window that has room or already holds a day no later than today, today is listed afterwards |
| Firestore.ExerciseStatsAfter | src/lib/firebase/firestore.ts:223-227 | the exercise's completed count grows by the reps, with a missing entry created as {0, 0}; its target and every other exercise are unchanged |
| Firestore.AnalyticsAfterTotals | src/lib/firebase/firestore.ts:193-197 | workouts +1, reps +reps, minutes +round(duration/60); the streak follows `NextStreak`; the last date becomes today |
| Firestore.AnalyticsAfter | src/lib/firebase/firestore.ts:156-238 | the updated record: one more workout, last date today, a streak of 1 for a first record, the exercise map's keys gain the workout's exercise, and a week list of at most 7 entries stays within 7 |
| Firestore.AnalyticsAfterValid | src/lib/firebase/firestore.ts:150-238 | the updated record keeps the record invariant: non-negative totals, a positive streak once a date is set, at most 7 strictly increasing days |
| Firestore.StreakExamples | src/lib/firebase/firestore.ts:174-185 | workouts on days 100, 100, 101 and 103 leave streaks 1, 1, 2 and 1 |
| Firestore.UpdateWeeklyStats | src/lib/firebase/firestore.ts:200-220 | the in-place `findIndex`, accumulate, push, sort and shift computes exactly `WeeklyAfter` |
| Firestore.UpdateAnalyticsRecord | src/lib/firebase/firestore.ts:156-238 | the whole record update computes exactly `AnalyticsAfter` |
| Firestore.UpdateAnalytics | src/lib/firebase/firestore.ts:150-243 | without a database nothing happens; otherwise only this user's analytics document changes, to `AnalyticsAfter` of the old one |
| Firestore.SaveWorkout | src/lib/firebase/firestore.ts:53-74 | no database fails with the not-initialized error; a write error is propagated; otherwise the workout is appended, its id returned, and the user's analytics updated: the analytics keys gain exactly this user and every other user's record is unchanged |
| Firestore.SaveCountsWorkout | src/lib/firebase/firestore.ts:53-74 | a save with a database and no write error succeeds, and the user's workout total is one higher |
| CloudFunctions.Reps | functions/src/index.ts:84 | the reps of each entry, in order |
| CloudFunctions.Durations | functions/src/index.ts:85 | the durations of each entry, in order |
| CloudFunctions.EntryScores | functions/src/index.ts:94-96 | each entry's score, with a missing score counted as 0 |
| CloudFunctions.CalculateFormScore | functions/src/index.ts:92-98 | undefined (NaN) exactly for an empty list; otherwise within 0.5 of the mean score |
| CloudFunctions.CalculateFormScoreInRange | functions/src/index.ts:92-98 | entry scores in [0, 100] give a form score in [0, 100] |
| CloudFunctions.Calories | functions/src/index.ts:86 | a draw in [0, 1) gives calories in [200, 700) |
| CloudFunctions.CalculateWorkoutMetrics | functions/src/index.ts:81-89 | the totals are the sums of reps and durations, the score is `calculateFormScore`, and the calories lie in [200, 700) |
| CloudFunctions.MetricsTotalsAdd | functions/src/index.ts:84-85 | the totals of two batches together are the sums of their totals |
| CloudFunctions.TimeframeDays | functions/src/index.ts:103-112 | 7, 30 or 365 days, with 7 for any unknown timeframe |
| CloudFunctions.GetTimeframeStart | functions/src/index.ts:101-113 | the start is that many days before now |
| CloudFunctions.TimeframesNest | functions/src/index.ts:101-113 | year starts before month, which starts before week, and an unknown timeframe starts with week |
| CloudFunctions.DurationOf | functions/src/index.ts:121 | `metrics?.totalDuration || 0`: 0 without metrics, the stored duration otherwise |
| CloudFunctions.CaloriesOf | functions/src/index.ts:122 | `metrics?.caloriesBurned || 0`: 0 without metrics, the stored calories otherwise |
| CloudFunctions.ScoreOf | functions/src/index.ts:124 | `metrics?.formScore || 0`: 0 without metrics or score, the stored score otherwise |
| CloudFunctions.StoredDurations | functions/src/index.ts:121 | one duration per workout, in order, each as `DurationOf` reads it |
| CloudFunctions.StoredScores | functions/src/index.ts:124 | each workout's stored score, with missing metrics counted as 0 |
| CloudFunctions.TotalCalories | functions/src/index.ts:122 | the calorie `reduce` from 0: 0 for no workouts, and non-negative when every workout's calories are |
| CloudFunctions.Dates | functions/src/index.ts:134 | the processing dates that exist, and only those |
| CloudFunctions.Earliest | functions/src/index.ts:137 | the earliest of the dates, which is one of them |
| CloudFunctions.WeeklyRate | functions/src/index.ts:138-140 | dividing by at least one week gives between 0 and the workout count |
| CloudFunctions.WeeklyRateWithinAWeek | functions/src/index.ts:138-140 | when the oldest workout is under a week old, the rate is the workout count |
| CloudFunctions.WorkoutsPerWeek | functions/src/index.ts:131-141 | 0 for no workouts or no dates; otherwise between 0 and the workout count |
| CloudFunctions.WorkoutsPerWeekRecent | functions/src/index.ts:131-141 | when every dated workout is from the last week, the rate is the number of workouts |
| CloudFunctions.GenerateAnalytics | functions/src/index.ts:116-128 | the workout count, the summed duration and calories (missing counted as 0), an average score of 0 for no workouts and the rounded mean otherwise, and the weekly rate |
| CloudFunctions.AverageFormScoreInRange | functions/src/index.ts:123-125 | stored scores in [0, 100] average into [0, 100] |
| CloudFunctions.EmptyRequestScoresZero | functions/src/index.ts:87-124 | a request with no exercises stores a NaN score, which the report then counts as 0 |

## Left out
- Camera, MediaPipe, canvas drawing and the React render cycle. Each hook runs once per processed frame or tick, as explicit state. Re-runs of an effect caused by its own state updates are not modelled. This matters for the rep effect: its dependencies include the recorded phase (src/hooks/useRepCounter.ts:59), so a changed phase re-runs `detectRepPhase` on the same frame, and there a Down or Up just signalled in the bottom or top band becomes Hold. The running app therefore records Hold where the model records Down or Up, and its rep count can differ from the model's.
- The real floating-point behaviour of `Math.sqrt`, `Math.acos` and `Math.PI`. The model assumes only these laws: sqrt(0) = 0, square roots are non-negative, and acos of a value in [-1, 1] lies in [0, PI]. Nothing is claimed about rounding error.
- `PoseDetector.calculateAngle` (src/lib/pose-detection/poseDetector.ts:137-149): an unguarded duplicate of the validators' angle that nothing calls.
- The MediaPipe parts of `PoseDetector`: its constructor, `startDetection` and `stopDetection`.
- `Math.random`. The calorie estimate takes the random draw as a parameter.
- `Date.now()` and `new Date()`. Times are parameters in milliseconds.
- Date keys are day numbers. The local-midnight date, `toISOString` and `localeCompare` are not modelled: on fixed-width ISO keys they order the same as day numbers, and the model does not include the UTC shift of the key.
- Firestore reads and writes, `serverTimestamp` and authentication. The database is a value passed in and returned. A failed write is an input (`writeError`).
- Firestore.SaveWorkout: a failure of the analytics update after the workout document was added is not modelled. The model either saves both or reports the write error with nothing changed.
- Firestore.NextStreak: day gaps are exact day numbers. The source floors the millisecond difference between two local midnights, which gives 0 across a 23-hour daylight-saving day, so there the stored streak is kept instead of incremented; this is not modelled.
- Stored documents are taken to have every field. The `|| 0` and `|| []` defaults for individual missing fields are not modelled; only a missing document is.
- The callable Cloud Functions handlers `processWorkoutData` and `generateAnalyticsReport`, which are authentication and I/O around the modelled helpers.
- NaN is modelled only where the source produces it: the form score of an empty request, as `None`.
- The speech engine itself: `speechSynthesis.cancel` and the utterance object. An end or error callback is the explicit method `OnUtteranceEnd`. The callback that a cancelled utterance may still fire is not modelled. The spoken texts are recorded in the field `spoken`.
- VoiceFeedback.VoiceFeedbackManager.SpeakFeedback: the manager invariant is kept only for non-empty messages. An empty queued message is dropped by `processQueue` without the next one being spoken, and this stall is modelled as the source has it.
- VoiceFeedback.VoiceFeedbackManager.SpeakMotivational: the invariant is kept only for non-empty messages, for the same reason.
- `motivationalMessages.ts` and the random interval of `useVoiceFeedback.ts`: random selection and timer glue.
- RepCounter.RepCounter.OnActivityChange: the `else if (!isActive && timer)` branch of the timed effect never runs, because the effect's cleanup has already cleared the timer. The model therefore does not clear the start time on deactivation. The start time is not observable while the timer is stopped.
- The rep-count rule follows the code, not the written description. The recorded phase is overwritten by every answer, Hold and null included. So down, hold, up, hold, down, up counts 1 rep, not 2.
- Form scores are reals, not integers, because the penalties produce fractions and the source does not round them.
