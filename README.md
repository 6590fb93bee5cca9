# Fitness exercise counter — verified model of the repetition counters

The repository counts exercise repetitions (push-ups, squats) from video in two separate
programs:

- `exercise-counter.js` is a browser app. Its `ExerciseCounter` class takes the first pose
  the BlazePose model reports for each frame. It gates three left-side keypoints on their
  confidence scores, computes the angle at the middle joint, and drives a two-phase
  hysteresis comparator, also called a Schmitt trigger. Phase `up` moves to `down` when the
  angle drops below the exercise's threshold: 100 degrees for push-ups, 90 for squats.
  Phase `down` moves back to `up`, and counts one repetition, when the angle rises above the
  threshold plus 20.
- `main.py` is a desktop script. Its `FitnessTracker` class runs a different detector over
  webcam frames. An angle above 160 degrees arms it, setting `stage` to "up" or "standing".
  An angle below 90 while armed counts one repetition and sets `stage` to "down" or
  "squatting".

This project models both classes as Dafny classes whose methods update the same fields in
place. Each class is proved against pure specification functions: `Step`, `ReadJoints`,
`ReadPoses` and `Frame` for the browser counter, and `Detect`, `FrameStep` and `Replay` for
the desktop counter. Lemmas then establish what the counters promise over whole streams of
frames:

- the count never decreases;
- the count grows by at most one per frame;
- no repetition is counted twice;
- angles inside the hysteresis band change nothing;
- gated, empty and unknown-kind frames change nothing;
- how each reset behaves.

Abstractions:

- The joint angle (`calculateAngle`, `calculate_angle`) is floating-point trigonometry and
  is not modelled.
- In the browser model, the angle is an oracle parameter `(Point, Point, Point) -> Angle`.
  `Angle` is `Degrees(real)` or `NaN`. `calculateAngle` yields NaN when the vertex joint
  coincides with one of the other two (a 0/0 cosine), or when rounding pushes the cosine
  out of [-1, 1]. Every comparison with NaN is false.
- In the desktop model, each frame is `Option<real>`. `None` is a frame in which MediaPipe
  found no body. In that case `results.pose_landmarks.landmark` raises inside the loop's
  `try`, and the frame changes nothing.
- Scores, thresholds and angles are `real`s, used only in comparisons.

What the code does at the edges:

- `resetCount` clears only the count and keeps the phase. Lemma `ResetInDownCountsHalfRep`
  shows the consequence: after a reset in phase `down`, the next rise above the threshold
  plus 20 counts a repetition with no dip after the reset.
- `setExerciseType` accepts any string and raises no error. Frames under a kind other than
  'pushups' and 'squats' change nothing.
- Reading `.score` of a gated keypoint the pose lacks throws a `TypeError` before any state
  changes. This is `Completion.TypeError(index)`. Because `&&` short-circuits, the throw
  happens only if every earlier gated keypoint passed.
- `calculateAngle` has no guard against degenerate geometry. When the vertex coincides with
  another joint it yields NaN, and that frame changes nothing (`NaNHoldsState`). When only
  the outer two joints coincide, the cosine is exactly 1 and the angle is 0 degrees. That
  frame moves phase `up` to `down` like any deep bend (`FoldedLimbDips`).
- The desktop detector counts on the up-to-down edge, not on down-to-up, and uses fixed
  bands (above 160 arms it, below 90 counts) instead of a threshold plus margin.

## Model

| member | source | states |
|---|---|---|
| ExerciseCounterModel.Thresholds | exercise-counter.js:16-19 | pushups ↦ (100, 0.5), squats ↦ (90, 0.5) and no other kind; every band [angle, angle + 20] lies strictly inside (0, 180) and every minConfidence strictly inside (0, 1); a constant, never changed after construction |
| ExerciseCounterModel.Step | exercise-counter.js:308-316 | the count grows by exactly 1 precisely on a down-to-up phase change, and the phase changes iff (up and angle < threshold) or (down and angle > threshold + 20) |
| ExerciseCounterModel.ReadJoints | exercise-counter.js:253-297 | an angle is read iff all three joints exist with score strictly above minConfidence, and it is the angle of those three joints; the reads go in order proximal, vertex, distal: the first absent keypoint reached gives a TypeError naming its index, and the first score at or below minConfidence reached skips the frame |
| ExerciseCounterModel.ReadPoses | exercise-counter.js:239-251 | only a non-empty pose list under 'pushups' or 'squats' is read; then the reading is that of the first pose's joints for the kind, so a first pose passing the kind's gate is measured with its joints' angle |
| ExerciseCounterModel.Frame | exercise-counter.js:239-297 | one frame leaves the count alone or adds exactly 1 on a down-to-up change; any change needs a non-empty pose list, a known kind and an open gate; and with those, the frame steps the comparator on the first pose's joint angle with the kind's threshold |
| ExerciseCounterModel.ExerciseCounter.constructor | exercise-counter.js:6-11 | a new counter holds count 0, kind 'pushups', phase up |
| ExerciseCounterModel.ExerciseCounter.UpdateCountBasedOnAngle | exercise-counter.js:308-316 | the new (count, phase) is Step of the old one; the kind is unchanged |
| ExerciseCounterModel.ExerciseCounter.AnalyzeLeftLimb | exercise-counter.js:262-273 | evaluates the gate with short-circuit reads; steps on the angle only when ReadJoints measures one; a TypeError leaves the state unchanged |
| ExerciseCounterModel.ExerciseCounter.AnalyzePushups | exercise-counter.js:253-274 | as AnalyzeLeftLimb on the left shoulder, elbow and wrist (11, 13, 15) |
| ExerciseCounterModel.ExerciseCounter.AnalyzeSquats | exercise-counter.js:276-297 | as AnalyzeLeftLimb on the left hip, knee and ankle (23, 25, 27) |
| ExerciseCounterModel.ExerciseCounter.AnalyzePoses | exercise-counter.js:239-251 | the new state is Frame of the old state; it throws exactly when ReadPoses meets a missing keypoint; the kind is unchanged |
| ExerciseCounterModel.ExerciseCounter.SetExerciseType | exercise-counter.js:318-324 | kind := t, count := 0, phase := up, whatever the old state (so repeating it changes nothing) |
| ExerciseCounterModel.ExerciseCounter.ResetCount | exercise-counter.js:326-329 | count := 0; phase and kind unchanged |
| ExerciseCounterModel.ExerciseCounter.ResetForUploadedVideo | exercise-counter.js:103-104 | count := 0 and phase := up when analysis of an uploaded video begins; kind unchanged |
| ExerciseCounterProofs.Run | exercise-counter.js:308-316 | over any angle sequence the count never decreases and grows by at most one per frame |
| ExerciseCounterProofs.RepsBoundedByDips | exercise-counter.js:308-316 | repetitions counted are at most the frames below the threshold, plus one if the run starts in phase down |
| ExerciseCounterProofs.RepsBoundedByRises | exercise-counter.js:311-313 | repetitions counted are at most the frames above threshold + 20 |
| ExerciseCounterProofs.BandHoldsState | exercise-counter.js:308-316 | frames whose angle lies in [threshold, threshold + 20] or is NaN change neither count nor phase, in either phase |
| ExerciseCounterProofs.UpWithoutDipHolds | exercise-counter.js:309-310 | in phase up, frames never below the threshold change nothing |
| ExerciseCounterProofs.NoSecondRepWithoutDip | exercise-counter.js:308-316 | after the frame that counts a repetition, no further repetition counts until a frame dips below the threshold |
| ExerciseCounterProofs.OneRepExample | exercise-counter.js:308-316 | threshold 100, angles 120, 80, 125 from phase up: count 1, phase up |
| ExerciseCounterProofs.NoiseExample | exercise-counter.js:308-316 | threshold 100, angles 80, 95, 105, 95, 125 from phase up: count 1, phase up |
| ExerciseCounterProofs.NaNHoldsState | exercise-counter.js:299-316 | a NaN angle (vertex coinciding with another joint, or a cosine rounded out of [-1, 1]) changes nothing |
| ExerciseCounterProofs.LowConfidenceHoldsState | exercise-counter.js:262-264 | a gated keypoint with score not above minConfidence makes the frame change nothing, whatever its angle |
| ExerciseCounterProofs.IgnoredFrameHoldsState | exercise-counter.js:239-251 | an empty pose list or a kind other than 'pushups'/'squats' reads nothing and changes nothing |
| ExerciseCounterProofs.OnlyGatedJointsMatter | exercise-counter.js:253-297 | frames agreeing on the three gated keypoints of the first pose have the same reading and effect; right-side keypoints and later poses are ignored |
| ExerciseCounterProofs.RunFramesIsRun | exercise-counter.js:239-316 | analysing frames in turn is the comparator run over the angles that pass the gate, with the kind's threshold |
| ExerciseCounterProofs.RunFramesCountBounds | exercise-counter.js:239-316 | across any frames the count never decreases and grows by at most one per frame |
| ExerciseCounterProofs.UnknownKindHoldsState | exercise-counter.js:246-250 | under a kind the table does not know, no frame changes anything |
| ExerciseCounterProofs.ResetInDownCountsHalfRep | exercise-counter.js:326-329 | from any counter in phase down, the state resetCount leaves (count 0, phase kept) counts a repetition on any next angle above threshold + 20, with no dip after the reset |
| ExerciseCounterProofs.FoldedLimbDips | exercise-counter.js:299-310 | a 0-degree angle (outer joints coincide) moves phase up to down, count unchanged, for any positive threshold |
| FitnessTrackerModel.Detect | main.py:74-78 | for detect_pushup here and the identical `if`s of detect_squat at main.py:110-114: angle > 160 arms the detector without counting; angle < 90 when armed counts exactly one and moves to the bottom label; angle < 90 unarmed and angles in [90, 160] change nothing |
| FitnessTrackerModel.FrameStep | main.py:151-170 | a frame with landmarks under 'pushup' or 'squat' runs exactly that detector on its angle; a frame without landmarks, or an unknown type, changes nothing; a pass adds at most one repetition, only on an angle below 90 |
| FitnessTrackerModel.Replay | main.py:133-170 | over any frames rep_count never decreases and grows by at most one per frame |
| FitnessTrackerModel.FitnessTracker.constructor | main.py:18-20 | a new tracker has no exercise type, rep_count 0, stage None |
| FitnessTrackerModel.FitnessTracker.DetectPushup | main.py:46-80 | the new (rep_count, stage) is Detect with labels "up"/"down", and exactly that pair is returned |
| FitnessTrackerModel.FitnessTracker.DetectSquat | main.py:82-116 | the new (rep_count, stage) is Detect with labels "standing"/"squatting", and exactly that pair is returned |
| FitnessTrackerModel.FitnessTracker.TrackExercise | main.py:118-170 | sets the exercise type, resets rep_count to 0 and stage to None, then the state is Replay of the frames from that reset |
| FitnessTrackerProofs.RepsBoundedByPeaks | main.py:74-78 | repetitions counted are at most the frames above 160, plus one if the detector starts armed |
| FitnessTrackerProofs.UnarmedWithoutPeakHolds | main.py:74-78 | an unarmed detector counts nothing and stays as it is until a frame above 160 |
| FitnessTrackerProofs.NoRepBeforeFirstPeak | main.py:129-131 | after track_exercise's reset no repetition counts before the first frame above 160 |
| FitnessTrackerProofs.NoSecondRepWithoutPeak | main.py:110-114 | after the frame that counts a repetition, no further one counts until a frame above 160 |
| FitnessTrackerProofs.BandHoldsState | main.py:74-78 | frames without landmarks or with angles in [90, 160] change neither stage nor rep_count |
| FitnessTrackerProofs.UnknownKindHoldsState | main.py:156-159 | with an exercise type other than 'pushup'/'squat' nothing is counted |
| FitnessTrackerProofs.PushupExample | main.py:74-78 | push-up angles 170, 80, 85, 170, 60 after the reset give rep_count 2, stage "down" |
| FitnessTrackerProofs.SquatExample | main.py:110-114 | squat angles 80, 170, no body, 120, 45 after the reset give rep_count 1, stage "squatting" |

## Left out

- `calculateAngle` (exercise-counter.js:299-306) and `calculate_angle` (main.py:22-44): floating-point square roots, arccos and arctan2; the angle is an abstract input.
- The keypoint reads of the right shoulder, elbow, wrist, hip, knee and ankle are not modelled, because they are never dereferenced and have no effect.
- Camera and video plumbing: `setupCamera`, `toggleCamera`, `initVideoUpload`, the frame loop of `analyzeUploadedVideo` (only its reset is modelled), the `requestAnimationFrame` loop of `detectPoses`, and the `cv2.VideoCapture` loop mechanics of `track_exercise`. These are browser and OpenCV I/O with asynchronous events. `TrackExercise` takes the frames as a finite sequence instead.
- `loadPoseDetectionModel` and `self.pose.process`: foreign calls into BlazePose and MediaPipe; their output is a parameter.
- Rendering and UI: `drawPoses`, `drawKeypoints`, `drawSkeleton`, `updateUI`, `showStatus`, `cv2.putText`, `imshow`, `draw_landmarks`.
- Exceptions from rendering code that runs before `analyzePoses` in the same `try`: not modelled, because they are outside the counter.
- `setExerciseType` also calls `type.toUpperCase()` after the fields are set; the DOM text is not modelled.
- `TrackExercise`: the Python default argument `exercise_type='pushup'` is not modelled; the kind is always passed explicitly.
- The fields `isCounting`, `detector`, `lastPose`, `usingFrontCamera`, `uploadedVideo`, `analysisInProgress`, `mp_pose`, `mp_drawing` and `pose`: they serve the I/O above and never affect the counts.
