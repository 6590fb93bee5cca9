/** The desktop repetition counter: the FitnessTracker class of main.py. Each webcam frame
    gives (when a body is detected) one joint angle; the detector arms itself above 160
    degrees and counts one repetition when the angle then drops below 90 degrees. */
module FitnessTrackerModel {

  datatype Option<T> = None | Some(value: T)

  /** `self.stage`: None, or one of the four labels the two detectors write. */
  datatype Stage = NoStage | Up | Down | Standing | Squatting

  /** The two detectors, detect_pushup and detect_squat. */
  datatype Exercise = Pushup | Squat

  /** The label a detector writes when the joint is extended. */
  function Armed(e: Exercise): Stage {
    match e
    case Pushup => Up
    case Squat => Standing
  }

  /** The label a detector writes when it counts a repetition. */
  function Bottom(e: Exercise): Stage {
    match e
    case Pushup => Down
    case Squat => Squatting
  }

  /** Above this angle the detector is armed. */
  const ArmAbove: real := 160.0
  /** Below this angle an armed detector counts. */
  const CountBelow: real := 90.0

  /** The counting state: `self.rep_count` and `self.stage`. */
  datatype Tracker = Tracker(repCount: nat, stage: Stage)

  /** The state track_exercise starts from. */
  const Reset := Tracker(0, NoStage)

  /** One detector call on one angle: the two sequential `if` statements. */
  function Detect(t: Tracker, e: Exercise, angle: real): (r: Tracker)
    ensures angle > ArmAbove ==> r == Tracker(t.repCount, Armed(e))
    ensures angle < CountBelow && t.stage == Armed(e) ==> r == Tracker(t.repCount + 1, Bottom(e))
    ensures angle < CountBelow && t.stage != Armed(e) ==> r == t
    ensures CountBelow <= angle <= ArmAbove ==> r == t
  {
    var stage := if angle > ArmAbove then Armed(e) else t.stage;
    if angle < CountBelow && stage == Armed(e) then Tracker(t.repCount + 1, Bottom(e))
    else Tracker(t.repCount, stage)
  }

  /** The detector track_exercise dispatches to: none for an unknown exercise type. */
  function ExerciseOf(kind: string): Option<Exercise> {
    if kind == "pushup" then Some(Pushup)
    else if kind == "squat" then Some(Squat)
    else None
  }

  /** One pass of the capture loop. A frame without landmarks (None) raises inside the
      `try` before any detector runs; an unknown exercise type runs no detector. */
  function FrameStep(t: Tracker, kind: string, frame: Option<real>): (r: Tracker)
    ensures frame.Some? && ExerciseOf(kind).Some? ==> r == Detect(t, ExerciseOf(kind).value, frame.value)
    ensures frame.None? || ExerciseOf(kind).None? ==> r == t
    ensures r.repCount == t.repCount || (r.repCount == t.repCount + 1 && frame.Some? && frame.value < CountBelow)
  {
    match (frame, ExerciseOf(kind))
    case (Some(angle), Some(e)) => Detect(t, e, angle)
    case _ => t
  }

  /** The state after the capture loop has seen the frames in order. */
  function Replay(t: Tracker, kind: string, frames: seq<Option<real>>): (r: Tracker)
    ensures t.repCount <= r.repCount <= t.repCount + |frames|
    decreases |frames|
  {
    if frames == [] then t
    else FrameStep(Replay(t, kind, frames[..|frames| - 1]), kind, frames[|frames| - 1])
  }

  class FitnessTracker {
    var exerciseType: Option<string>
    var repCount: nat
    var stage: Stage

    function State(): Tracker
      reads this
    {
      Tracker(repCount, stage)
    }

    constructor ()
      ensures exerciseType == None && State() == Reset
    {
      exerciseType := None;
      repCount := 0;
      stage := NoStage;
    }

    method DetectPushup(angle: real) returns (reps: nat, st: Stage)
      modifies this
      ensures State() == Detect(old(State()), Pushup, angle)
      ensures reps == repCount && st == stage
      ensures exerciseType == old(exerciseType)
    {
      if angle > ArmAbove {
        stage := Up;
      }
      if angle < CountBelow && stage == Up {
        stage := Down;
        repCount := repCount + 1;
      }
      return repCount, stage;
    }

    method DetectSquat(angle: real) returns (reps: nat, st: Stage)
      modifies this
      ensures State() == Detect(old(State()), Squat, angle)
      ensures reps == repCount && st == stage
      ensures exerciseType == old(exerciseType)
    {
      if angle > ArmAbove {
        stage := Standing;
      }
      if angle < CountBelow && stage == Standing {
        stage := Squatting;
        repCount := repCount + 1;
      }
      return repCount, stage;
    }

    /** track_exercise over a finite stream of frames: reset, then one detector call per
        frame that has landmarks. */
    method TrackExercise(kind: string, frames: seq<Option<real>>)
      modifies this
      ensures exerciseType == Some(kind)
      ensures State() == Replay(Reset, kind, frames)
    {
      exerciseType := Some(kind);
      repCount := 0;
      stage := NoStage;
      var i := 0;
      while i < |frames|
        invariant 0 <= i <= |frames|
        invariant exerciseType == Some(kind)
        invariant State() == Replay(Reset, kind, frames[..i])
      {
        assert frames[..i + 1][..i] == frames[..i];
        match frames[i] {
          case None =>
          case Some(angle) =>
            if kind == "pushup" {
              var reps, st := DetectPushup(angle);
            } else if kind == "squat" {
              var reps, st := DetectSquat(angle);
            }
        }
        i := i + 1;
      }
      assert frames[..|frames|] == frames;
    }
  }
}
