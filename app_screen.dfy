/**
 * The App screen's dual lock: a closed elevation window [45, 49] and a
 * linear (non-wrapping) azimuth window of 10 degrees around the heading,
 * ANDed into the full lock, whose rising edge fires one haptic. The screen
 * also holds the GPS fix and the latest telemetry record, which a poll
 * replaces only while both coordinates are truthy.
 */
module AppScreen {
  import opened JsRuntime
  import opened Feedback
  import SignalMeter
  import SignalPredictor
  import UseTelemetry

  const TelemetryUrl: string := "http://192.168.1.25:5000/api/telemetry"

  /** The screen's copy of the telemetry response. */
  datatype TelemetryData = TelemetryData(
    satellite: string,
    azimuth: real,
    elevation: real,
    signalStrength: string,
    timestamp: string)

  const InitialTelemetryData: TelemetryData := TelemetryData("", 0.0, 0.0, "", "")

  predicate ElevationAligned(t: TelemetryData)
    ensures ElevationAligned(t) <==> Abs(t.elevation - 47.0) <= 2.0
  {
    t.elevation >= 45.0 && t.elevation <= 49.0
  }

  predicate AzimuthAligned(t: TelemetryData, heading: int)
    ensures AzimuthAligned(t, heading) <==> heading as real - 10.0 <= t.azimuth <= heading as real + 10.0
  {
    Abs(t.azimuth - heading as real) <= 10.0
  }

  /** Never set on its own: exactly both windows at once. */
  predicate IsFullyAligned(t: TelemetryData, heading: int)
    ensures IsFullyAligned(t, heading) <==>
      45.0 <= t.elevation <= 49.0 && Abs(t.azimuth - heading as real) <= 10.0
  {
    ElevationAligned(t) && AzimuthAligned(t, heading)
  }

  /** The screen's hard-coded window is the signal meter's default one. */
  lemma ElevationWindowIsMeterDefault(t: TelemetryData)
    ensures ElevationAligned(t) <==>
      SignalMeter.ElevationAligned(t.elevation, SignalMeter.DefaultTargetElevation, SignalMeter.DefaultTolerance)
  {
  }

  /** The azimuth window is inclusive and does not wrap: 355 against 5 is 350 degrees apart. */
  lemma AzimuthWindowScenarios()
    ensures AzimuthAligned(TelemetryData("", 10.0, 47.0, "", ""), 0)
    ensures !AzimuthAligned(TelemetryData("", 10.5, 47.0, "", ""), 0)
    ensures !AzimuthAligned(TelemetryData("", 5.0, 47.0, "", ""), 355)
  {
  }

  /** The same bearing one full turn further round is never aligned: the test does not wrap. */
  lemma AzimuthWindowDoesNotWrap(t: TelemetryData, heading: int)
    requires AzimuthAligned(t, heading)
    ensures !AzimuthAligned(t.(azimuth := t.azimuth + 360.0), heading)
    ensures !AzimuthAligned(t.(azimuth := t.azimuth - 360.0), heading)
  {
  }

  /** The initial record (elevation 0) is not fully aligned, whatever the heading. */
  lemma InitialNotAligned(heading: int)
    ensures !IsFullyAligned(InitialTelemetryData, heading)
  {
  }

  /** One run of the haptics effect: a rising edge fires one haptic and never a log entry. */
  function DualLockStep(wasFullyAligned: bool, isFullyAligned: bool): (r: StepResult)
    ensures r.next == isFullyAligned
    ensures isFullyAligned && !wasFullyAligned ==> r.effects == [HapticSuccess]
    ensures !(isFullyAligned && !wasFullyAligned) ==> r.effects == []
  {
    if isFullyAligned && !wasFullyAligned then StepResult(true, [HapticSuccess])
    else if !isFullyAligned && wasFullyAligned then StepResult(false, [])
    else StepResult(wasFullyAligned, [])
  }

  /** The effects of the haptics effect over successive values of the full lock. */
  function ReplayDual(wasFullyAligned: bool, locks: seq<bool>): seq<Effect>
    decreases |locks|
  {
    if locks == [] then []
    else
      var r := DualLockStep(wasFullyAligned, locks[0]);
      r.effects + ReplayDual(r.next, locks[1..])
  }

  /** One haptic per false-to-true change of the full lock, and no log entries at all. */
  lemma {:induction false} ReplayDualOncePerRisingEdge(wasFullyAligned: bool, locks: seq<bool>)
    ensures CountHaptics(ReplayDual(wasFullyAligned, locks)) == RisingEdges([wasFullyAligned] + locks)
    ensures CountLogAppends(ReplayDual(wasFullyAligned, locks)) == 0
    decreases |locks|
  {
    if locks != [] {
      var r := DualLockStep(wasFullyAligned, locks[0]);
      ReplayDualOncePerRisingEdge(locks[0], locks[1..]);
      CountsOfConcat(r.effects, ReplayDual(locks[0], locks[1..]));
      assert ([wasFullyAligned] + locks)[1..] == locks;
      assert locks == [locks[0]] + locks[1..];
    }
  }

  /** Polling runs only once both coordinates are truthy (not null, not 0). */
  predicate PollingEnabled(userLat: Option<real>, userLon: Option<real>)
    ensures PollingEnabled(userLat, userLon) <==>
      userLat.Some? && userLon.Some? && userLat.value != 0.0 && userLon.value != 0.0
  {
    Truthy(userLat) && Truthy(userLon)
  }

  /** A fix on the equator or the prime meridian never starts polling. */
  lemma ZeroCoordinateSuppressesPolling(lat: real)
    ensures !PollingEnabled(Some(lat), Some(0.0))
    ensures !PollingEnabled(Some(0.0), Some(lat))
    ensures !PollingEnabled(None, Some(lat))
  {
  }

  /**
   * The request the screen sends reaches the backend route with the same
   * coordinates, and the response echoes them with the fixed satellite.
   */
  lemma PollRequestEchoesCoordinates(
    latText: string, lonText: string, lat: real, lon: real,
    parseFloat: string -> Option<real>,
    azimuthOf: (real, real) -> real, elevationOf: (real, real) -> real, now: string)
    requires '&' !in latText && '&' !in lonText
    requires parseFloat(latText) == Some(lat) && parseFloat(lonText) == Some(lon)
    ensures var resp := SignalPredictor.Telemetry(UseTelemetry.RequestUrl(TelemetryUrl, latText, lonText),
                                                  parseFloat, azimuthOf, elevationOf, now);
            resp.Json? && resp.body.lat == lat && resp.body.lon == lon &&
            resp.body.satellite == SignalPredictor.SatelliteName
  {
    var request := UseTelemetry.RequestUrl(TelemetryUrl, latText, lonText);
    UseTelemetry.RequestUrlRoundTrip(TelemetryUrl, latText, lonText);
    var params := SignalPredictor.QueryParams(request);
    assert SignalPredictor.FloatArg(params, "lat", parseFloat) == Some(lat);
    assert SignalPredictor.FloatArg(params, "lon", parseFloat) == Some(lon);
  }

  class App {
    var telemetryData: TelemetryData
    /** Never set: the screen compares against a heading of 0. */
    var heading: int
    var userLat: Option<real>
    var userLon: Option<real>
    var wasFullyAligned: bool

    constructor()
      ensures telemetryData == InitialTelemetryData && heading == 0
      ensures userLat == None && userLon == None && !wasFullyAligned
    {
      telemetryData := InitialTelemetryData;
      heading := 0;
      userLat, userLon := None, None;
      wasFullyAligned := false;
    }

    /** The GPS effect: a fix sets both coordinates; a failed lookup leaves them null. */
    method ReceiveLocation(position: Option<Position>)
      modifies this`userLat, this`userLon
      ensures position.Some? ==> userLat == Some(position.value.latitude) && userLon == Some(position.value.longitude)
      ensures position.None? ==> userLat == old(userLat) && userLon == old(userLon)
    {
      if position.Some? {
        userLat := Some(position.value.latitude);
        userLon := Some(position.value.longitude);
      }
    }

    /**
     * One tick of the telemetry interval; `response` is the parsed body, or
     * None when the fetch or the parse failed. No interval exists, and so
     * nothing happens, unless polling is enabled.
     */
    method PollTelemetry(response: Option<TelemetryData>)
      modifies this`telemetryData
      ensures telemetryData ==
        if PollingEnabled(userLat, userLon) && response.Some? then response.value else old(telemetryData)
    {
      if PollingEnabled(userLat, userLon) && response.Some? {
        telemetryData := response.value;
      }
    }

    /** The haptics effect after a render of the current telemetry and heading. */
    method LockEffect() returns (effects: seq<Effect>)
      modifies this`wasFullyAligned
      ensures var r := DualLockStep(old(wasFullyAligned), IsFullyAligned(telemetryData, heading));
              wasFullyAligned == r.next && effects == r.effects
    {
      var elevationAligned := telemetryData.elevation >= 45.0 && telemetryData.elevation <= 49.0;
      var azimuthAligned := Abs(telemetryData.azimuth - heading as real) <= 10.0;
      var isFullyAligned := elevationAligned && azimuthAligned;
      effects := [];
      if isFullyAligned && !wasFullyAligned {
        effects := [HapticSuccess];
        wasFullyAligned := true;
      } else if !isFullyAligned && wasFullyAligned {
        wasFullyAligned := false;
      }
    }
  }
}
