/**
 * The signal meter widget: the closed elevation window around the target
 * pitch, its status label, and the colour chosen for a signal descriptor.
 */
module SignalMeter {
  import opened JsRuntime

  const DefaultTargetElevation: real := 47.0
  const DefaultTolerance: real := 2.0

  const LockedLabel: string := "\U{1F7E2} Elevation Locked"
  const AdjustLabel: string := "\U{1F534} Adjust Pitch"

  const StrongColor: string := "#0f0"
  const ModerateColor: string := "#ffa500"
  const WeakColor: string := "#f00"
  const OtherColor: string := "#fff"

  /** Both ends of the window are inclusive. */
  predicate ElevationAligned(elevation: real, target: real, tolerance: real)
    ensures ElevationAligned(elevation, target, tolerance) ==> tolerance >= 0.0
    ensures elevation == target && tolerance >= 0.0 ==> ElevationAligned(elevation, target, tolerance)
  {
    elevation >= target - tolerance && elevation <= target + tolerance
  }

  /** The window is "within `tolerance` of the target", boundary included. */
  lemma ElevationAlignedIffWithin(elevation: real, target: real, tolerance: real)
    ensures ElevationAligned(elevation, target, tolerance) <==> Abs(elevation - target) <= tolerance
  {
  }

  /** With the defaults, 45 through 49 is locked; 49.01 and 44.99 are not. */
  lemma DefaultWindowBoundaries()
    ensures ElevationAligned(47.0, DefaultTargetElevation, DefaultTolerance)
    ensures ElevationAligned(49.0, DefaultTargetElevation, DefaultTolerance)
    ensures ElevationAligned(45.0, DefaultTargetElevation, DefaultTolerance)
    ensures !ElevationAligned(49.01, DefaultTargetElevation, DefaultTolerance)
    ensures !ElevationAligned(44.99, DefaultTargetElevation, DefaultTolerance)
  {
  }

  /** The lock status line under the elevation readout. */
  function Status(elevation: real, target: real, tolerance: real): (text: string)
    ensures text == LockedLabel <==> ElevationAligned(elevation, target, tolerance)
    ensures text == AdjustLabel <==> !ElevationAligned(elevation, target, tolerance)
  {
    if ElevationAligned(elevation, target, tolerance) then LockedLabel else AdjustLabel
  }

  /** `signalStyles`: the text colour for a signal descriptor, ignoring letter case. */
  function SignalColor(signal: string): (color: string)
    ensures color == StrongColor <==> ToLowerCase(signal) == "strong"
    ensures color == ModerateColor <==> ToLowerCase(signal) == "moderate"
    ensures color == WeakColor <==> ToLowerCase(signal) == "weak"
    ensures color == OtherColor <==> ToLowerCase(signal) !in {"strong", "moderate", "weak"}
  {
    match ToLowerCase(signal)
    case "strong" => StrongColor
    case "moderate" => ModerateColor
    case "weak" => WeakColor
    case _ => OtherColor
  }

  /** Any capitalisation of a descriptor gets the colour of its lower-case form. */
  lemma SignalColorIgnoresCase(signal: string)
    ensures SignalColor(signal) == SignalColor(ToLowerCase(signal))
  {
    ToLowerCaseIdempotent(signal);
  }

  lemma UpperCaseStrongIsGreen()
    ensures SignalColor("STRONG") == SignalColor("strong") == StrongColor
  {
    assert ToLowerCase("STRONG") == "strong";
    assert ToLowerCase("strong") == "strong";
  }

  /** "wea" followed by the Kelvin sign lowers to "weak" and is shown red. */
  lemma KelvinSignWeakIsRed()
    ensures SignalColor("wea\U{212A}") == WeakColor
  {
    assert ToLowerCase("wea\U{212A}") == "weak";
  }
}
