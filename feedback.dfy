/**
 * What the alignment screens hand to the device and to the installer log:
 * a position from the location provider, and the side effects an edge of
 * the lock state emits.
 */
module Feedback {

  /** What the location provider yields: coordinates in degrees. */
  datatype Position = Position(latitude: real, longitude: real)

  /** A side effect requested by a lock transition. */
  datatype Effect =
    | HapticSuccess
    | LogAppend(heading: int, azimuth: int, satellite: string)

  /** The stored "was aligned" flag after one effect run, and what that run emitted. */
  datatype StepResult = StepResult(next: bool, effects: seq<Effect>)

  function CountHaptics(effects: seq<Effect>): (n: nat)
    ensures n <= |effects|
  {
    if effects == [] then 0
    else (if effects[0].HapticSuccess? then 1 else 0) + CountHaptics(effects[1..])
  }

  function CountLogAppends(effects: seq<Effect>): (n: nat)
    ensures n <= |effects|
  {
    if effects == [] then 0
    else (if effects[0].LogAppend? then 1 else 0) + CountLogAppends(effects[1..])
  }

  lemma {:induction false} CountsOfConcat(a: seq<Effect>, b: seq<Effect>)
    ensures CountHaptics(a + b) == CountHaptics(a) + CountHaptics(b)
    ensures CountLogAppends(a + b) == CountLogAppends(a) + CountLogAppends(b)
  {
    if a != [] {
      assert (a + b)[1..] == a[1..] + b;
      CountsOfConcat(a[1..], b);
    } else {
      assert a + b == b;
    }
  }

  /** The number of adjacent false-then-true pairs in a sequence of flags. */
  function RisingEdges(flags: seq<bool>): (n: nat)
    ensures n < |flags| || n == 0
  {
    if |flags| < 2 then 0
    else (if !flags[0] && flags[1] then 1 else 0) + RisingEdges(flags[1..])
  }
}
