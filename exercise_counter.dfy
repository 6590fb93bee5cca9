/** The browser repetition counter: the ExerciseCounter class of exercise-counter.js.
    A pose-estimation model yields, per video frame, a list of poses, each a list of
    keypoints with a position and a confidence score. The counter reads three left-side
    keypoints of the first pose, computes the angle at the middle one and feeds it into a
    two-phase hysteresis comparator that counts one repetition per down-to-up crossing. */
module ExerciseCounterModel {

  /** What calculateAngle yields: a number of degrees, or NaN when the vertex coincides
      with one of the other two points (0/0 in the law of cosines) or rounding pushes the
      cosine out of [-1, 1]. Every comparison with NaN is false. When only the outer two
      points coincide the cosine is exactly 1 and the angle is 0 degrees, not NaN. */
  datatype Angle = Degrees(deg: real) | NaN

  /** `angle < bound` on a JavaScript number. */
  predicate Below(angle: Angle, bound: real) {
    angle.Degrees? && angle.deg < bound
  }

  /** `angle > bound` on a JavaScript number. */
  predicate Above(angle: Angle, bound: real) {
    angle.Degrees? && angle.deg > bound
  }

  /** The phase field `currentState`: 'up' or 'down'. */
  datatype Phase = Up | Down

  /** The fixed gap between the down-going and the up-going crossing, in degrees. */
  const Margin: real := 20.0

  /** One entry of the `thresholds` table. */
  datatype Threshold = Threshold(angle: real, minConfidence: real)

  /** The `thresholds` table; it is never changed after construction. Each entry opens a
      hysteresis band [angle, angle + 20] strictly inside (0, 180) degrees and demands a
      confidence strictly between 0 and 1. */
  function Thresholds(): (r: map<string, Threshold>)
    ensures r.Keys == {"pushups", "squats"}
    ensures r["pushups"] == Threshold(100.0, 0.5) && r["squats"] == Threshold(90.0, 0.5)
    ensures forall k :: k in r ==>
      0.0 < r[k].angle && r[k].angle + Margin < 180.0 && 0.0 < r[k].minConfidence < 1.0
  {
    map["pushups" := Threshold(100.0, 0.5), "squats" := Threshold(90.0, 0.5)]
  }

  datatype Point = Point(x: real, y: real)
  datatype Keypoint = Keypoint(x: real, y: real, score: real)
  datatype Pose = Pose(keypoints: seq<Keypoint>)

  /** calculateAngle, left abstract: the interior angle at the second point. */
  type AngleOracle = (Point, Point, Point) -> Angle

  /** The keypoint indices of the proximal joint, the vertex and the distal joint. */
  datatype Joints = Joints(proximal: nat, vertex: nat, distal: nat)

  /** Left shoulder, left elbow, left wrist. */
  const PushupJoints := Joints(11, 13, 15)
  /** Left hip, left knee, left ankle. */
  const SquatJoints := Joints(23, 25, 27)

  /** The joints the kind's analysis reads (meaningful for the two known kinds). */
  function JointsOf(kind: string): Joints {
    if kind == "pushups" then PushupJoints else SquatJoints
  }

  /** The counting state: `exerciseCount` and `currentState`. */
  datatype Counter = Counter(count: nat, phase: Phase)

  /** The hysteresis comparator of updateCountBasedOnAngle: in phase up an angle below the
      threshold moves to down; in phase down an angle above threshold + 20 moves to up and
      counts one repetition; otherwise nothing changes. */
  function Step(c: Counter, angle: Angle, threshold: real): (r: Counter)
    ensures r.count == c.count + (if c.phase == Down && r.phase == Up then 1 else 0)
    ensures r.phase != c.phase <==>
      (c.phase == Up && Below(angle, threshold)) || (c.phase == Down && Above(angle, threshold + Margin))
  {
    if c.phase == Up && Below(angle, threshold) then Counter(c.count, Down)
    else if c.phase == Down && Above(angle, threshold + Margin) then Counter(c.count + 1, Up)
    else c
  }

  /** The confidence gate: the three joints are present and each one's score is strictly
      above the minimum confidence. */
  predicate GatePasses(kps: seq<Keypoint>, j: Joints, minConfidence: real) {
    j.proximal < |kps| && j.vertex < |kps| && j.distal < |kps| &&
    kps[j.proximal].score > minConfidence &&
    kps[j.vertex].score > minConfidence &&
    kps[j.distal].score > minConfidence
  }

  /** What one analysis reads from a frame: nothing (gate closed, no pose, unknown kind),
      a TypeError on `.score` of a keypoint the pose lacks, or an angle. */
  datatype Reading = Skipped | Missing(index: nat) | Measured(angle: Angle)

  function PointOf(k: Keypoint): Point {
    Point(k.x, k.y)
  }

  /** The gate of analyzePushups/analyzeSquats, evaluated left to right with `&&`
      short-circuiting, followed by the angle of the three joints when it is open. */
  function ReadJoints(kps: seq<Keypoint>, j: Joints, minConfidence: real, angleOf: AngleOracle): (r: Reading)
    ensures r.Measured? <==> GatePasses(kps, j, minConfidence)
    ensures r.Measured? ==> r.angle == GatedAngle(kps, j, angleOf)
    ensures r.Missing? ==>
      |kps| <= r.index && (r.index == j.proximal || r.index == j.vertex || r.index == j.distal)
    // the reads in order: each throws when its keypoint is absent, each low score stops the rest
    ensures |kps| <= j.proximal ==> r == Missing(j.proximal)
    ensures j.proximal < |kps| && kps[j.proximal].score <= minConfidence ==> r == Skipped
    ensures j.proximal < |kps| && kps[j.proximal].score > minConfidence ==>
      (|kps| <= j.vertex ==> r == Missing(j.vertex)) &&
      (j.vertex < |kps| && kps[j.vertex].score <= minConfidence ==> r == Skipped)
    ensures j.proximal < |kps| && kps[j.proximal].score > minConfidence &&
            j.vertex < |kps| && kps[j.vertex].score > minConfidence ==>
      (|kps| <= j.distal ==> r == Missing(j.distal)) &&
      (j.distal < |kps| && kps[j.distal].score <= minConfidence ==> r == Skipped)
  {
    if |kps| <= j.proximal then Missing(j.proximal)
    else if !(kps[j.proximal].score > minConfidence) then Skipped
    else if |kps| <= j.vertex then Missing(j.vertex)
    else if !(kps[j.vertex].score > minConfidence) then Skipped
    else if |kps| <= j.distal then Missing(j.distal)
    else if !(kps[j.distal].score > minConfidence) then Skipped
    else Measured(GatedAngle(kps, j, angleOf))
  }

  /** The angle at the three joints of a pose that has them all. */
  function GatedAngle(kps: seq<Keypoint>, j: Joints, angleOf: AngleOracle): Angle
    requires j.proximal < |kps| && j.vertex < |kps| && j.distal < |kps|
  {
    angleOf(PointOf(kps[j.proximal]), PointOf(kps[j.vertex]), PointOf(kps[j.distal]))
  }

  /** What analyzePoses reads: only the first pose, and only for 'pushups' and 'squats'. */
  function ReadPoses(kind: string, poses: seq<Pose>, angleOf: AngleOracle): (r: Reading)
    ensures r != Skipped ==> |poses| > 0 && kind in Thresholds()
    ensures r.Measured? ==> GatePasses(poses[0].keypoints, JointsOf(kind), Thresholds()[kind].minConfidence)
    ensures |poses| > 0 && kind in Thresholds() ==>
      r == ReadJoints(poses[0].keypoints, JointsOf(kind), Thresholds()[kind].minConfidence, angleOf)
    ensures |poses| > 0 && kind in Thresholds() &&
            GatePasses(poses[0].keypoints, JointsOf(kind), Thresholds()[kind].minConfidence) ==>
      r == Measured(GatedAngle(poses[0].keypoints, JointsOf(kind), angleOf))
  {
    if |poses| == 0 then Skipped
    else if kind == "pushups" then
      ReadJoints(poses[0].keypoints, PushupJoints, Thresholds()["pushups"].minConfidence, angleOf)
    else if kind == "squats" then
      ReadJoints(poses[0].keypoints, SquatJoints, Thresholds()["squats"].minConfidence, angleOf)
    else Skipped
  }

  /** The counting state after analyzePoses on one frame. */
  function Frame(c: Counter, kind: string, poses: seq<Pose>, angleOf: AngleOracle): (r: Counter)
    ensures r.count == c.count || (r.count == c.count + 1 && c.phase == Down && r.phase == Up)
    ensures r != c ==>
      |poses| > 0 && kind in Thresholds() &&
      GatePasses(poses[0].keypoints, JointsOf(kind), Thresholds()[kind].minConfidence)
    ensures |poses| > 0 && kind in Thresholds() &&
            GatePasses(poses[0].keypoints, JointsOf(kind), Thresholds()[kind].minConfidence) ==>
      r == Step(c, GatedAngle(poses[0].keypoints, JointsOf(kind), angleOf), Thresholds()[kind].angle)
  {
    match ReadPoses(kind, poses, angleOf)
    case Measured(a) => Step(c, a, Thresholds()[kind].angle)
    case _ => c
  }

  /** How an analysis call ends: it returns, or it throws a TypeError. */
  datatype Completion = Normal | TypeError(index: nat)

  function CompletionOf(r: Reading): Completion {
    if r.Missing? then TypeError(r.index) else Normal
  }

  class ExerciseCounter {
    var exerciseCount: nat
    var exerciseType: string
    var currentState: Phase

    function State(): Counter
      reads this
    {
      Counter(exerciseCount, currentState)
    }

    constructor ()
      ensures exerciseCount == 0 && exerciseType == "pushups" && currentState == Up
    {
      exerciseCount := 0;
      exerciseType := "pushups";
      currentState := Up;
    }

    method UpdateCountBasedOnAngle(angle: Angle, threshold: real)
      modifies this
      ensures State() == Step(old(State()), angle, threshold)
      ensures exerciseType == old(exerciseType)
    {
      if currentState == Up && Below(angle, threshold) {
        currentState := Down;
      } else if currentState == Down && Above(angle, threshold + Margin) {
        currentState := Up;
        exerciseCount := exerciseCount + 1;
      }
    }

    /** The body shared by analyzePushups and analyzeSquats: gate the three left-side
        joints, then update on their angle. */
    method AnalyzeLeftLimb(keypoints: seq<Keypoint>, joints: Joints, threshold: Threshold, angleOf: AngleOracle)
      returns (done: Completion)
      modifies this
      ensures done == CompletionOf(ReadJoints(keypoints, joints, threshold.minConfidence, angleOf))
      ensures State() ==
        match ReadJoints(keypoints, joints, threshold.minConfidence, angleOf)
        case Measured(a) => Step(old(State()), a, threshold.angle)
        case _ => old(State())
      ensures exerciseType == old(exerciseType)
    {
      var m := threshold.minConfidence;
      if |keypoints| <= joints.proximal { return TypeError(joints.proximal); }
      if keypoints[joints.proximal].score > m {
        if |keypoints| <= joints.vertex { return TypeError(joints.vertex); }
        if keypoints[joints.vertex].score > m {
          if |keypoints| <= joints.distal { return TypeError(joints.distal); }
          if keypoints[joints.distal].score > m {
            var angle := angleOf(PointOf(keypoints[joints.proximal]),
                                 PointOf(keypoints[joints.vertex]),
                                 PointOf(keypoints[joints.distal]));
            UpdateCountBasedOnAngle(angle, threshold.angle);
          }
        }
      }
      return Normal;
    }

    method AnalyzePushups(keypoints: seq<Keypoint>, threshold: Threshold, angleOf: AngleOracle)
      returns (done: Completion)
      modifies this
      ensures done == CompletionOf(ReadJoints(keypoints, PushupJoints, threshold.minConfidence, angleOf))
      ensures State() ==
        match ReadJoints(keypoints, PushupJoints, threshold.minConfidence, angleOf)
        case Measured(a) => Step(old(State()), a, threshold.angle)
        case _ => old(State())
      ensures exerciseType == old(exerciseType)
    {
      done := AnalyzeLeftLimb(keypoints, PushupJoints, threshold, angleOf);
    }

    method AnalyzeSquats(keypoints: seq<Keypoint>, threshold: Threshold, angleOf: AngleOracle)
      returns (done: Completion)
      modifies this
      ensures done == CompletionOf(ReadJoints(keypoints, SquatJoints, threshold.minConfidence, angleOf))
      ensures State() ==
        match ReadJoints(keypoints, SquatJoints, threshold.minConfidence, angleOf)
        case Measured(a) => Step(old(State()), a, threshold.angle)
        case _ => old(State())
      ensures exerciseType == old(exerciseType)
    {
      done := AnalyzeLeftLimb(keypoints, SquatJoints, threshold, angleOf);
    }

    method AnalyzePoses(poses: seq<Pose>, angleOf: AngleOracle) returns (done: Completion)
      modifies this
      ensures done == CompletionOf(ReadPoses(exerciseType, poses, angleOf))
      ensures State() == Frame(old(State()), exerciseType, poses, angleOf)
      ensures exerciseType == old(exerciseType)
    {
      if |poses| == 0 { return Normal; }
      var keypoints := poses[0].keypoints;
      if exerciseType == "pushups" {
        done := AnalyzePushups(keypoints, Thresholds()[exerciseType], angleOf);
      } else if exerciseType == "squats" {
        done := AnalyzeSquats(keypoints, Thresholds()[exerciseType], angleOf);
      } else {
        done := Normal;
      }
    }

    /** Switching the kind discards the count and any half-done repetition. */
    method SetExerciseType(kind: string)
      modifies this
      ensures exerciseType == kind && exerciseCount == 0 && currentState == Up
    {
      exerciseType := kind;
      exerciseCount := 0;
      currentState := Up;
    }

    /** The manual reset clears the count only. */
    method ResetCount()
      modifies this
      ensures exerciseCount == 0
      ensures currentState == old(currentState) && exerciseType == old(exerciseType)
    {
      exerciseCount := 0;
    }

    /** The reset done when analysis of an uploaded video begins. */
    method ResetForUploadedVideo()
      modifies this
      ensures State() == Counter(0, Up)
      ensures exerciseType == old(exerciseType)
    {
      exerciseCount := 0;
      currentState := Up;
    }
  }
}
