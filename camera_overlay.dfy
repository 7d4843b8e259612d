/**
 * The compass overlay: the circular azimuth test between the device heading
 * and the satellite azimuth, the tolerance slider, and the edge-triggered
 * lock effect that fires one haptic and one installer-log append each time
 * the azimuth lock is acquired.
 */
module CameraOverlay {
  import opened JsRuntime
  import opened Feedback
  import UseTelemetry

  /** The `tolerance` prop's default, which seeds the slider. */
  const DefaultTolerance: int := 10
  const SliderMinimum: int := 2
  const SliderMaximum: int := 30

  /** A value the slider can report: whole degrees from 2 to 30. */
  predicate SliderValue(t: int)
  {
    SliderMinimum <= t <= SliderMaximum
  }

  /** Headings and rounded azimuths reach the overlay as whole degrees in [0, 360]. */
  predicate Bearing(x: int)
  {
    0 <= x <= 360
  }

  /** The turn that brings the heading onto the azimuth. */
  function AngleToRotate(heading: int, azimuth: int): (turn: int)
    ensures heading + turn == azimuth
  {
    azimuth - heading
  }

  /** `(angleToRotate + 360) % 360` with JavaScript's remainder. */
  function NormalizedAngle(heading: int, azimuth: int): (n: int)
    ensures -360 < n < 360
    ensures (AngleToRotate(heading, azimuth) - n) % 360 == 0
  {
    TruncRem(AngleToRotate(heading, azimuth) + 360, 360)
  }

  /** The overlay's azimuth lock: strictly within the tolerance on either side of the wrap. */
  predicate IsAligned(heading: int, azimuth: int, tolerance: int)
    ensures IsAligned(heading, azimuth, tolerance) ==> tolerance > 0
    ensures heading == azimuth ==> (IsAligned(heading, azimuth, tolerance) <==> tolerance > 0)
  {
    var n := NormalizedAngle(heading, azimuth);
    IntAbs(n) < tolerance || IntAbs(360 - n) < tolerance
  }

  /** Reference definition: the length of the shorter arc between two bearings. */
  function CircularDistance(heading: int, azimuth: int): (d: int)
    ensures 0 <= d <= 180
    ensures d == 0 <==> (azimuth - heading) % 360 == 0
  {
    var clockwise := (azimuth - heading) % 360;
    if clockwise <= 180 then clockwise else 360 - clockwise
  }

  lemma NormalizedAngleRange(heading: int, azimuth: int)
    requires Bearing(heading) && Bearing(azimuth)
    ensures 0 <= NormalizedAngle(heading, azimuth) < 360
    ensures NormalizedAngle(heading, azimuth) == (azimuth - heading) % 360
  {
  }

  /** The overlay's test is "circular distance strictly below the tolerance". */
  lemma IsAlignedIffWithinDistance(heading: int, azimuth: int, tolerance: int)
    requires Bearing(heading) && Bearing(azimuth)
    ensures IsAligned(heading, azimuth, tolerance) <==> CircularDistance(heading, azimuth) < tolerance
  {
    NormalizedAngleRange(heading, azimuth);
  }

  /** A distance exactly equal to the tolerance is not aligned. */
  lemma ToleranceBoundaryExcluded(heading: int, azimuth: int, tolerance: int)
    requires Bearing(heading) && Bearing(azimuth)
    requires CircularDistance(heading, azimuth) == tolerance
    ensures !IsAligned(heading, azimuth, tolerance)
    ensures IsAligned(heading, azimuth, tolerance + 1)
  {
    IsAlignedIffWithinDistance(heading, azimuth, tolerance);
    IsAlignedIffWithinDistance(heading, azimuth, tolerance + 1);
  }

  lemma CircularDistanceSymmetric(a: int, b: int)
    ensures CircularDistance(a, b) == CircularDistance(b, a)
  {
    var x := (b - a) % 360;
    var y := (a - b) % 360;
    assert x == 0 ==> y == 0;
    assert x != 0 ==> y == 360 - x;
  }

  /** Swapping heading and azimuth does not change the verdict. */
  lemma IsAlignedSymmetric(heading: int, azimuth: int, tolerance: int)
    requires Bearing(heading) && Bearing(azimuth)
    ensures IsAligned(heading, azimuth, tolerance) == IsAligned(azimuth, heading, tolerance)
  {
    IsAlignedIffWithinDistance(heading, azimuth, tolerance);
    IsAlignedIffWithinDistance(azimuth, heading, tolerance);
    CircularDistanceSymmetric(heading, azimuth);
  }

  /** Pointing exactly at the satellite is aligned for every slider setting. */
  lemma SameBearingAligned(bearing: int, tolerance: int)
    requires SliderValue(tolerance)
    ensures IsAligned(bearing, bearing, tolerance)
  {
  }

  /** Heading 350 against azimuth 5 is 15 degrees off; heading 358 is 7 degrees off. */
  lemma WraparoundScenarios()
    ensures CircularDistance(350, 5) == 15 && !IsAligned(350, 5, DefaultTolerance)
    ensures CircularDistance(358, 5) == 7 && IsAligned(358, 5, DefaultTolerance)
  {
  }

  /**
   * One run of the lock effect: a rising edge emits one haptic and one log
   * append, a falling edge only clears the flag, and no change emits nothing.
   */
  function LockStep(wasAligned: bool, isAligned: bool, heading: int, azimuth: int, satellite: string): (r: StepResult)
    ensures r.next == isAligned
    ensures isAligned && !wasAligned ==> r.effects == [HapticSuccess, LogAppend(heading, azimuth, satellite)]
    ensures !(isAligned && !wasAligned) ==> r.effects == []
  {
    if isAligned && !wasAligned then
      StepResult(true, [HapticSuccess, LogAppend(heading, azimuth, satellite)])
    else if !isAligned && wasAligned then
      StepResult(false, [])
    else
      StepResult(wasAligned, [])
  }

  /**
   * At mount the overlay sees heading 0 and the hook's initial azimuth 0
   * before any reading or reply arrives, so its first effect run is already
   * a rising edge: a haptic and a log entry for heading 0, azimuth 0 and no
   * satellite name.
   */
  lemma MountLocksAtOnce(tolerance: int)
    requires SliderValue(tolerance)
    ensures var t := UseTelemetry.InitialTelemetry;
            LockStep(false, IsAligned(0, t.azimuth, tolerance), 0, t.azimuth, t.satellite)
              == StepResult(true, [HapticSuccess, LogAppend(0, 0, "")])
  {
  }

  /** The values one render of the overlay sees. */
  datatype Frame = Frame(heading: int, azimuth: int, satellite: string)

  function AlignedFlags(frames: seq<Frame>, tolerance: int): (flags: seq<bool>)
    ensures |flags| == |frames|
    ensures forall i :: 0 <= i < |frames| ==>
      flags[i] == IsAligned(frames[i].heading, frames[i].azimuth, tolerance)
  {
    if frames == [] then []
    else [IsAligned(frames[0].heading, frames[0].azimuth, tolerance)] + AlignedFlags(frames[1..], tolerance)
  }

  /** The effects of running the lock effect once per frame, from the stored flag `wasAligned`. */
  function Replay(wasAligned: bool, frames: seq<Frame>, tolerance: int): seq<Effect>
    decreases |frames|
  {
    if frames == [] then []
    else
      var f := frames[0];
      var r := LockStep(wasAligned, IsAligned(f.heading, f.azimuth, tolerance), f.heading, f.azimuth, f.satellite);
      r.effects + Replay(r.next, frames[1..], tolerance)
  }

  /** Haptics and log appends each equal the number of false-to-true changes of the lock. */
  lemma {:induction false} ReplayFiresOncePerRisingEdge(wasAligned: bool, frames: seq<Frame>, tolerance: int)
    ensures CountLogAppends(Replay(wasAligned, frames, tolerance)) == RisingEdges([wasAligned] + AlignedFlags(frames, tolerance))
    ensures CountHaptics(Replay(wasAligned, frames, tolerance)) == RisingEdges([wasAligned] + AlignedFlags(frames, tolerance))
    decreases |frames|
  {
    if frames != [] {
      var f := frames[0];
      var aligned := IsAligned(f.heading, f.azimuth, tolerance);
      var r := LockStep(wasAligned, aligned, f.heading, f.azimuth, f.satellite);
      ReplayFiresOncePerRisingEdge(aligned, frames[1..], tolerance);
      CountsOfConcat(r.effects, Replay(aligned, frames[1..], tolerance));
      var flags := [wasAligned] + AlignedFlags(frames, tolerance);
      assert flags[1..] == [aligned] + AlignedFlags(frames[1..], tolerance);
    }
  }

  /** Not aligned, then aligned for three renders: exactly one log entry. */
  lemma SustainedLockLogsOnce(heading: int, satellite: string)
    requires 0 <= heading <= 180
    ensures var frames := [Frame(heading, heading + 180, satellite), Frame(heading, heading, satellite),
                           Frame(heading, heading, satellite), Frame(heading, heading, satellite)];
            CountLogAppends(Replay(false, frames, DefaultTolerance)) == 1
  {
    var frames := [Frame(heading, heading + 180, satellite), Frame(heading, heading, satellite),
                   Frame(heading, heading, satellite), Frame(heading, heading, satellite)];
    ReplayFiresOncePerRisingEdge(false, frames, DefaultTolerance);
    assert AlignedFlags(frames, DefaultTolerance) == [false, true, true, true];
    assert RisingEdges([false, false, true, true, true]) == 1;
  }

  /** The overlay's lock state: the stored edge flag and the slider's tolerance. */
  class CompassOverlay {
    var wasAligned: bool
    var sliderTolerance: int

    constructor(tolerance: int)
      ensures !wasAligned && sliderTolerance == tolerance
    {
      wasAligned := false;
      sliderTolerance := tolerance;
    }

    method SetSliderTolerance(value: int)
      requires SliderValue(value)
      modifies this`sliderTolerance
      ensures sliderTolerance == value
    {
      sliderTolerance := value;
    }

    /** The lock effect after a render showing `heading`, `azimuth` and `satellite`. */
    method LockEffect(heading: int, azimuth: int, satellite: string) returns (effects: seq<Effect>)
      modifies this`wasAligned
      ensures var r := LockStep(old(wasAligned), IsAligned(heading, azimuth, sliderTolerance), heading, azimuth, satellite);
              wasAligned == r.next && effects == r.effects
    {
      var n := TruncRem(azimuth - heading + 360, 360);
      var isAligned := IntAbs(n) < sliderTolerance || IntAbs(360 - n) < sliderTolerance;
      effects := [];
      if isAligned && !wasAligned {
        effects := [HapticSuccess, LogAppend(heading, azimuth, satellite)];
        wasAligned := true;
      } else if !isAligned && wasAligned {
        wasAligned := false;
      }
    }
  }
}
