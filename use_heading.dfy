/**
 * The heading hook: a magnetometer reading's bearing (atan2 in degrees,
 * taken here as the input `angle`) folded into [0, 360) and rounded to a
 * whole degree; each reading overwrites the last.
 */
module UseHeading {
  import opened JsRuntime

  /** `angle >= 0 ? angle : 360 + angle`. */
  function NormalizeAngle(angle: real): (n: real)
    ensures n == angle <==> angle >= 0.0
    ensures n == angle || n == angle + 360.0
    ensures angle >= -360.0 ==> n >= 0.0
  {
    if angle >= 0.0 then angle else 360.0 + angle
  }

  /** The whole-degree heading stored for one reading. */
  function HeadingOf(angle: real): (h: int)
    ensures h as real - 0.5 <= NormalizeAngle(angle) < h as real + 0.5
  {
    Round(NormalizeAngle(angle))
  }

  /** atan2's range [-180, 180] is folded into [0, 360). */
  lemma NormalizedRange(angle: real)
    requires -180.0 <= angle <= 180.0
    ensures 0.0 <= NormalizeAngle(angle) < 360.0
  {
  }

  /** A stored heading is a whole degree in [0, 360]; 360 itself is possible. */
  lemma HeadingRange(angle: real)
    requires -180.0 <= angle <= 180.0
    ensures 0 <= HeadingOf(angle) <= 360
  {
    NormalizedRange(angle);
  }

  /** A reading of -0.4 degrees normalises to 359.6 and is stored as 360. */
  lemma FullTurnReachable()
    ensures NormalizeAngle(-0.4) == 359.6
    ensures HeadingOf(-0.4) == 360
  {
  }

  /** The hook's state: the latest heading, and whether a listener exists (none on web). */
  class HeadingHook {
    const listening: bool
    var heading: int

    predicate Valid()
      reads this
    {
      0 <= heading <= 360
    }

    constructor(onWeb: bool)
      ensures listening == !onWeb
      ensures heading == 0 && Valid()
    {
      listening := !onWeb;
      heading := 0;
    }

    /** A magnetometer reading; without a listener it is never delivered and nothing changes. */
    method OnReading(angle: real)
      modifies this`heading
      ensures heading == if listening then HeadingOf(angle) else old(heading)
      ensures old(Valid()) && -180.0 <= angle <= 180.0 ==> Valid()
    {
      if listening {
        var a := if angle >= 0.0 then angle else 360.0 + angle;
        heading := Round(a);
        if -180.0 <= angle <= 180.0 {
          HeadingRange(angle);
        }
      }
    }
  }
}
