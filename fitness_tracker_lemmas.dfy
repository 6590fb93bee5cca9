/** Properties of the desktop counter over a stream of frames: the count only grows; a
    repetition needs the detector to have been armed by a frame above 160 degrees since the
    last one; angles in [90, 160] never change anything; nothing counts after a reset until
    the first frame above 160. */
module FitnessTrackerProofs {
  import opened FitnessTrackerModel

  /** The frame carries an angle strictly above 160 degrees. */
  predicate IsPeak(frame: Option<real>) {
    frame.Some? && frame.value > ArmAbove
  }

  /** The number of frames above 160 degrees. */
  function Peaks(frames: seq<Option<real>>): nat
    decreases |frames|
  {
    if frames == [] then 0
    else Peaks(frames[..|frames| - 1]) + if IsPeak(frames[|frames| - 1]) then 1 else 0
  }

  /** The detector track_exercise uses for `kind` is armed in state t. */
  predicate IsArmed(t: Tracker, kind: string) {
    ExerciseOf(kind).Some? && t.stage == Armed(ExerciseOf(kind).value)
  }

  /** Repetitions counted, plus the one an armed detector is ready to count. */
  function Primed(t: Tracker, kind: string): nat {
    t.repCount + if IsArmed(t, kind) then 1 else 0
  }

  /** Replaying a concatenation is replaying its parts one after the other. */
  lemma {:induction false} ReplayAppend(t: Tracker, kind: string, xs: seq<Option<real>>, ys: seq<Option<real>>)
    ensures Replay(t, kind, xs + ys) == Replay(Replay(t, kind, xs), kind, ys)
    decreases |ys|
  {
    if ys == [] {
      assert xs + ys == xs;
    } else {
      var n := |ys| - 1;
      assert (xs + ys)[..|xs + ys| - 1] == xs + ys[..n];
      assert (xs + ys)[|xs + ys| - 1] == ys[n];
      ReplayAppend(t, kind, xs, ys[..n]);
    }
  }

  /** Every repetition needs its own frame above 160 degrees, except one the detector was
      already armed for when the stream starts. */
  lemma {:induction false} RepsBoundedByPeaks(t: Tracker, kind: string, frames: seq<Option<real>>)
    ensures Primed(Replay(t, kind, frames), kind) <= Primed(t, kind) + Peaks(frames)
    ensures Replay(t, kind, frames).repCount <= t.repCount + Peaks(frames) + (if IsArmed(t, kind) then 1 else 0)
    decreases |frames|
  {
    if frames != [] {
      RepsBoundedByPeaks(t, kind, frames[..|frames| - 1]);
    }
  }

  /** An unarmed detector stays unarmed, and counts nothing, until a frame above 160. */
  lemma {:induction false} UnarmedWithoutPeakHolds(t: Tracker, kind: string, frames: seq<Option<real>>)
    requires !IsArmed(t, kind)
    requires forall i :: 0 <= i < |frames| ==> !IsPeak(frames[i])
    ensures Replay(t, kind, frames) == t
    decreases |frames|
  {
    if frames != [] {
      UnarmedWithoutPeakHolds(t, kind, frames[..|frames| - 1]);
      assert !IsPeak(frames[|frames| - 1]);
    }
  }

  /** After track_exercise's reset no repetition counts before the first frame above 160. */
  lemma NoRepBeforeFirstPeak(kind: string, frames: seq<Option<real>>)
    requires forall i :: 0 <= i < |frames| ==> !IsPeak(frames[i])
    ensures Replay(Reset, kind, frames) == Reset
  {
    UnarmedWithoutPeakHolds(Reset, kind, frames);
  }

  /** Between two counted repetitions there is a frame above 160: after the frame that
      counts, frames without one add nothing. */
  lemma NoSecondRepWithoutPeak(t: Tracker, kind: string, frame: Option<real>, rest: seq<Option<real>>)
    requires FrameStep(t, kind, frame).repCount == t.repCount + 1
    requires forall i :: 0 <= i < |rest| ==> !IsPeak(rest[i])
    ensures Replay(t, kind, [frame] + rest).repCount == t.repCount + 1
  {
    assert Replay(t, kind, [frame]) == FrameStep(t, kind, frame) by {
      assert [frame][..0] == [];
    }
    ReplayAppend(t, kind, [frame], rest);
    UnarmedWithoutPeakHolds(FrameStep(t, kind, frame), kind, rest);
  }

  /** The frame carries no angle, or one in the closed band [90, 160]. */
  predicate InBand(frame: Option<real>) {
    frame.None? || (CountBelow <= frame.value <= ArmAbove)
  }

  /** Frames without landmarks or with angles in [90, 160] change neither stage nor count. */
  lemma {:induction false} BandHoldsState(t: Tracker, kind: string, frames: seq<Option<real>>)
    requires forall i :: 0 <= i < |frames| ==> InBand(frames[i])
    ensures Replay(t, kind, frames) == t
    decreases |frames|
  {
    if frames != [] {
      BandHoldsState(t, kind, frames[..|frames| - 1]);
      assert InBand(frames[|frames| - 1]);
    }
  }

  /** With an exercise type other than 'pushup' and 'squat' nothing is ever counted. */
  lemma {:induction false} UnknownKindHoldsState(t: Tracker, kind: string, frames: seq<Option<real>>)
    requires ExerciseOf(kind) == None
    ensures Replay(t, kind, frames) == t
    decreases |frames|
  {
    if frames != [] {
      UnknownKindHoldsState(t, kind, frames[..|frames| - 1]);
    }
  }

  /** Push-ups 170, 80, 85, 170, 60 after the reset: two repetitions, ending in "down";
      the second low frame 85 counts nothing because the detector is no longer armed. */
  lemma PushupExample()
    ensures Replay(Reset, "pushup", [Some(170.0), Some(80.0), Some(85.0), Some(170.0), Some(60.0)])
      == Tracker(2, Down)
  {
    var a, b, c, d, e := Some(170.0), Some(80.0), Some(85.0), Some(170.0), Some(60.0);
    assert Replay(Reset, "pushup", [a]) == Tracker(0, Up) by { assert [a][..0] == []; }
    assert Replay(Reset, "pushup", [a, b]) == Tracker(1, Down) by { assert [a, b][..1] == [a]; }
    assert Replay(Reset, "pushup", [a, b, c]) == Tracker(1, Down) by { assert [a, b, c][..2] == [a, b]; }
    assert Replay(Reset, "pushup", [a, b, c, d]) == Tracker(1, Up) by { assert [a, b, c, d][..3] == [a, b, c]; }
    assert [a, b, c, d, e][..4] == [a, b, c, d];
  }

  /** Squats 80, 170, None, 120, 45 after the reset: the first low frame counts nothing
      (never armed), a frame without landmarks and one in the band change nothing. */
  lemma SquatExample()
    ensures Replay(Reset, "squat", [Some(80.0), Some(170.0), None, Some(120.0), Some(45.0)])
      == Tracker(1, Squatting)
  {
    var a, b, c, d, e := Some(80.0), Some(170.0), None, Some(120.0), Some(45.0);
    assert Replay(Reset, "squat", [a]) == Reset by { assert [a][..0] == []; }
    assert Replay(Reset, "squat", [a, b]) == Tracker(0, Standing) by { assert [a, b][..1] == [a]; }
    assert Replay(Reset, "squat", [a, b, c]) == Tracker(0, Standing) by { assert [a, b, c][..2] == [a, b]; }
    assert Replay(Reset, "squat", [a, b, c, d]) == Tracker(0, Standing) by { assert [a, b, c, d][..3] == [a, b, c]; }
    assert [a, b, c, d, e][..4] == [a, b, c, d];
  }
}
