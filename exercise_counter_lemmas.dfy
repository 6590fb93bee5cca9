/** Properties of the browser counter over sequences of frames: the count only grows, by at
    most one per frame; a repetition needs a dip below the threshold and a rise above
    threshold + 20; angles inside the hysteresis band never change anything; gated, empty
    and unknown-kind frames are inert. */
module ExerciseCounterProofs {
  import opened ExerciseCounterModel

  /** The counting state after updateCountBasedOnAngle on each angle in turn. */
  function Run(c: Counter, angles: seq<Angle>, threshold: real): (r: Counter)
    ensures c.count <= r.count <= c.count + |angles|
    decreases |angles|
  {
    if angles == [] then c else Run(Step(c, angles[0], threshold), angles[1..], threshold)
  }

  /** The number of angles strictly below the bound. */
  function Dips(angles: seq<Angle>, bound: real): nat {
    if angles == [] then 0 else (if Below(angles[0], bound) then 1 else 0) + Dips(angles[1..], bound)
  }

  /** The number of angles strictly above the bound. */
  function Rises(angles: seq<Angle>, bound: real): nat {
    if angles == [] then 0 else (if Above(angles[0], bound) then 1 else 0) + Rises(angles[1..], bound)
  }

  /** Repetitions completed, plus the one in progress in phase down. */
  function Pending(c: Counter): nat {
    c.count + if c.phase == Down then 1 else 0
  }

  /** No double counting: every repetition needs its own frame below the threshold, except
      the one already half done when the run starts in phase down. */
  lemma {:induction false} RepsBoundedByDips(c: Counter, angles: seq<Angle>, threshold: real)
    ensures Pending(Run(c, angles, threshold)) <= Pending(c) + Dips(angles, threshold)
    ensures Run(c, angles, threshold).count <= c.count + Dips(angles, threshold) + (if c.phase == Down then 1 else 0)
    decreases |angles|
  {
    if angles != [] {
      RepsBoundedByDips(Step(c, angles[0], threshold), angles[1..], threshold);
    }
  }

  /** Every repetition needs its own frame above threshold + 20. */
  lemma {:induction false} RepsBoundedByRises(c: Counter, angles: seq<Angle>, threshold: real)
    ensures Run(c, angles, threshold).count <= c.count + Rises(angles, threshold + Margin)
    decreases |angles|
  {
    if angles != [] {
      RepsBoundedByRises(Step(c, angles[0], threshold), angles[1..], threshold);
    }
  }

  /** Angles in the band [threshold, threshold + 20] (or NaN) never change the state,
      whatever the phase: the jitter near the threshold is not counted. */
  lemma {:induction false} BandHoldsState(c: Counter, angles: seq<Angle>, threshold: real)
    requires forall i :: 0 <= i < |angles| ==>
      !Below(angles[i], threshold) && !Above(angles[i], threshold + Margin)
    ensures Run(c, angles, threshold) == c
    decreases |angles|
  {
    if angles != [] {
      BandHoldsState(c, angles[1..], threshold);
    }
  }

  /** In phase up, frames that never dip below the threshold change nothing. */
  lemma {:induction false} UpWithoutDipHolds(c: Counter, angles: seq<Angle>, threshold: real)
    requires c.phase == Up
    requires forall i :: 0 <= i < |angles| ==> !Below(angles[i], threshold)
    ensures Run(c, angles, threshold) == c
    decreases |angles|
  {
    if angles != [] {
      UpWithoutDipHolds(c, angles[1..], threshold);
    }
  }

  /** After a frame that counts a repetition, no further repetition is counted until some
      frame dips below the threshold again. */
  lemma NoSecondRepWithoutDip(c: Counter, angle: Angle, rest: seq<Angle>, threshold: real)
    requires Step(c, angle, threshold).count == c.count + 1
    requires forall i :: 0 <= i < |rest| ==> !Below(rest[i], threshold)
    ensures Run(c, [angle] + rest, threshold).count == c.count + 1
  {
    assert ([angle] + rest)[1..] == rest;
    UpWithoutDipHolds(Step(c, angle, threshold), rest, threshold);
  }

  /** Push-up threshold 100: 120, 80, 125 from phase up is exactly one repetition. */
  lemma OneRepExample()
    ensures Run(Counter(0, Up), [Degrees(120.0), Degrees(80.0), Degrees(125.0)], 100.0) == Counter(1, Up)
  {
  }

  /** Push-up threshold 100: 80, 95, 105, 95, 125 from phase up is exactly one repetition;
      the oscillation around 100 stays inside the band and is not counted. */
  lemma NoiseExample()
    ensures Run(Counter(0, Up), [Degrees(80.0), Degrees(95.0), Degrees(105.0), Degrees(95.0), Degrees(125.0)], 100.0)
      == Counter(1, Up)
  {
  }

  /** A NaN angle (the vertex coinciding with another joint, or a cosine rounded out of
      [-1, 1]) changes nothing. */
  lemma NaNHoldsState(c: Counter, threshold: real)
    ensures Step(c, NaN, threshold) == c
  {
  }

  /** A frame whose first pose has a gated joint at or below the minimum confidence changes
      neither count nor phase, whatever its angle. */
  lemma LowConfidenceHoldsState(c: Counter, kind: string, poses: seq<Pose>, angleOf: AngleOracle, i: nat)
    requires |poses| > 0 && kind in Thresholds()
    requires i == JointsOf(kind).proximal || i == JointsOf(kind).vertex || i == JointsOf(kind).distal
    requires i < |poses[0].keypoints| && poses[0].keypoints[i].score <= Thresholds()[kind].minConfidence
    ensures Frame(c, kind, poses, angleOf) == c
  {
  }

  /** An empty pose list, or a kind other than 'pushups' and 'squats', changes nothing. */
  lemma IgnoredFrameHoldsState(c: Counter, kind: string, poses: seq<Pose>, angleOf: AngleOracle)
    requires |poses| == 0 || kind !in Thresholds()
    ensures ReadPoses(kind, poses, angleOf) == Skipped
    ensures Frame(c, kind, poses, angleOf) == c
  {
  }

  /** The keypoint lists agree at index i: both lack it, or both hold the same keypoint. */
  predicate SameAt(kps: seq<Keypoint>, kps': seq<Keypoint>, i: nat) {
    (i < |kps| <==> i < |kps'|) && (i < |kps| ==> kps[i] == kps'[i])
  }

  /** Only the three gated keypoints of the first pose matter: the right-side keypoints and
      every other pose are ignored. */
  lemma OnlyGatedJointsMatter(c: Counter, kind: string, poses: seq<Pose>, poses': seq<Pose>, angleOf: AngleOracle)
    requires |poses| > 0 && |poses'| > 0
    requires SameAt(poses[0].keypoints, poses'[0].keypoints, JointsOf(kind).proximal)
    requires SameAt(poses[0].keypoints, poses'[0].keypoints, JointsOf(kind).vertex)
    requires SameAt(poses[0].keypoints, poses'[0].keypoints, JointsOf(kind).distal)
    ensures ReadPoses(kind, poses, angleOf) == ReadPoses(kind, poses', angleOf)
    ensures Frame(c, kind, poses, angleOf) == Frame(c, kind, poses', angleOf)
  {
  }

  /** The counting state after analyzePoses on each frame in turn. */
  function RunFrames(c: Counter, kind: string, frames: seq<seq<Pose>>, angleOf: AngleOracle): (r: Counter)
    decreases |frames|
  {
    if frames == [] then c else RunFrames(Frame(c, kind, frames[0], angleOf), kind, frames[1..], angleOf)
  }

  /** The angles that pass the gate, frame by frame. */
  function MeasuredAngles(kind: string, frames: seq<seq<Pose>>, angleOf: AngleOracle): (r: seq<Angle>)
    ensures |r| <= |frames|
    decreases |frames|
  {
    if frames == [] then []
    else
      var rest := MeasuredAngles(kind, frames[1..], angleOf);
      match ReadPoses(kind, frames[0], angleOf)
      case Measured(a) => [a] + rest
      case _ => rest
  }

  /** A run over frames is the comparator run over the angles that pass the gate, with the
      kind's threshold; so every property of Run holds of the frames too. */
  lemma {:induction false} RunFramesIsRun(c: Counter, kind: string, frames: seq<seq<Pose>>, angleOf: AngleOracle)
    requires kind in Thresholds()
    ensures RunFrames(c, kind, frames, angleOf) == Run(c, MeasuredAngles(kind, frames, angleOf), Thresholds()[kind].angle)
    decreases |frames|
  {
    if frames != [] {
      var th := Thresholds()[kind].angle;
      var rest := MeasuredAngles(kind, frames[1..], angleOf);
      RunFramesIsRun(Frame(c, kind, frames[0], angleOf), kind, frames[1..], angleOf);
      match ReadPoses(kind, frames[0], angleOf)
      case Measured(a) =>
        assert ([a] + rest)[1..] == rest;
      case _ =>
    }
  }

  /** Across any frames the count never decreases and grows by at most one per frame. */
  lemma RunFramesCountBounds(c: Counter, kind: string, frames: seq<seq<Pose>>, angleOf: AngleOracle)
    ensures c.count <= RunFrames(c, kind, frames, angleOf).count <= c.count + |frames|
  {
    if kind in Thresholds() {
      RunFramesIsRun(c, kind, frames, angleOf);
    } else {
      UnknownKindHoldsState(c, kind, frames, angleOf);
    }
  }

  /** With a kind the table does not know, no frame changes anything. */
  lemma {:induction false} UnknownKindHoldsState(c: Counter, kind: string, frames: seq<seq<Pose>>, angleOf: AngleOracle)
    requires kind !in Thresholds()
    ensures RunFrames(c, kind, frames, angleOf) == c
    decreases |frames|
  {
    if frames != [] {
      UnknownKindHoldsState(c, kind, frames[1..], angleOf);
    }
  }

  /** The manual reset keeps the phase: from any counter c in phase down, resetCount leaves
      Counter(0, c.phase), and the next angle above threshold + 20, whichever it is, counts a
      repetition with no dip after the reset. */
  lemma ResetInDownCountsHalfRep(c: Counter, a: Angle, threshold: real)
    requires c.phase == Down
    requires Above(a, threshold + Margin)
    ensures Run(Counter(0, c.phase), [a], threshold) == Counter(1, Up)
    ensures Dips([a], threshold) == 0
  {
    assert [a][1..] == [];
  }

  /** When the outer two joints coincide calculateAngle gives 0 degrees, which is below every
      positive threshold: such a degenerate frame does move phase up to down. */
  lemma FoldedLimbDips(c: Counter, threshold: real)
    requires c.phase == Up && threshold > 0.0
    ensures Step(c, Degrees(0.0), threshold) == Counter(c.count, Down)
  {
  }
}
