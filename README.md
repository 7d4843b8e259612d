# Starlink AR setup: alignment core in Dafny

This project models the decision logic of the Starlink AR installation app. The app helps a technician point a dish. It compares the phone's compass heading with the satellite's azimuth and elevation, decides when the dish is "locked", fires haptic feedback once per lock, and keeps a persisted installer log.

Modules, one per source file, plus two shared ones:

- `JsRuntime` (js_runtime.dfy): the JavaScript semantics the logic relies on. These are `%` with a truncated quotient, `Math.round`, number truthiness and ASCII `toLowerCase`.
- `Feedback` (feedback.dfy): positions, the effects a lock edge emits (`HapticSuccess`, `LogAppend`), effect counters, and `RisingEdges`, the number of false-to-true changes in a sequence of flags.
- `CameraOverlay` (camera_overlay.dfy): the compass overlay. It has the wrap-around azimuth test, the tolerance slider, and the `wasAligned` edge machine as a class whose `LockEffect` returns the effects it fires.
- `AppScreen` (app_screen.dfy): the App screen. It has the dual lock (elevation window [45, 49] AND linear azimuth window of 10 degrees), its `wasFullyAligned` edge machine, the GPS fix, the polling guard and the telemetry slot.
- `UseInstallerLog` (use_installer_log.dfy): the log as a class holding the entry sequence and the key-value store.
- `UseTelemetry` (use_telemetry.dfy): the hook's telemetry slot, the rounding of received angles, and the request URL with its round trip through the server's query parsing.
- `UseHeading` (use_heading.dfy): heading normalisation and rounding, and the hook's heading slot.
- `SignalMeter` (signal_meter.dfy): the inclusive elevation window, the status label and the signal colour map.
- `SignalPredictor` (signal_predictor.dfy): the backend's signal-strength classifier, the query-parameter reading and the `/api/telemetry` route.

Where the design description and the code disagree, the model follows the code:

- The overlay's azimuth test uses JavaScript's `%`. It matches circular distance only when heading and azimuth are in [0, 360], which is always the case for the values the hooks deliver. It is not invariant under adding 360 to the heading: heading 720 against azimuth 5 gives a remainder of -355 and is not aligned. So the symmetry and distance lemmas assume that range.
- A falling edge emits no event in either screen. It only clears the stored flag.
- The installer log is appended on the overlay's rising edge of the azimuth-only lock. The App screen's full lock (elevation AND azimuth) fires only a haptic, and never a log entry.
- At mount the overlay sees heading 0 and the telemetry hook's initial azimuth 0 before any reading or reply arrives. Its first effect run is therefore a rising edge: it fires a haptic and logs heading 0, azimuth 0 and an empty satellite name. The design expects no event on the very first evaluation.
- The App screen's azimuth test is linear and inclusive (`|azimuth - heading| <= 10`, with no wrap). The overlay's test is circular and strict. Both are modelled as written.

## Model

| member | source | states |
|---|---|---|
| `JsRuntime.TruncRem` | frontend/StarlinkARClient/screens/CameraOverlay.tsx:48 | JavaScript `%`: quotient truncated towards zero, remainder strictly inside (-n, n) with the dividend's sign |
| `JsRuntime.Round` | frontend/StarlinkARClient/components/hooks/useTelemetry.ts:29-30 | `Math.round`: the unique integer r with r - 0.5 <= x < r + 0.5, so halves round up |
| `JsRuntime.Truthy` | frontend/StarlinkARClient/components/App.tsx:39 | a coordinate slot is truthy iff it is neither null nor 0 |
| `JsRuntime.ToLowerCase` | frontend/StarlinkARClient/components/widgets/SignalMeter.tsx:45 | same length; each ASCII capital becomes its lower-case letter, the Kelvin sign becomes `k`, every other character is kept |
| `JsRuntime.ToLowerCaseIdempotent` | frontend/StarlinkARClient/components/widgets/SignalMeter.tsx:45 | lower-casing a descriptor twice equals lower-casing it once |
| `CameraOverlay.AngleToRotate` | frontend/StarlinkARClient/screens/CameraOverlay.tsx:47 | the heading turned by the result is the azimuth |
| `CameraOverlay.NormalizedAngle` | frontend/StarlinkARClient/screens/CameraOverlay.tsx:48 | for all inputs the normalised angle is strictly inside (-360, 360) and congruent to azimuth - heading modulo 360 |
| `CameraOverlay.IsAligned` | frontend/StarlinkARClient/screens/CameraOverlay.tsx:49-51 | only a positive tolerance can align; equal bearings are aligned iff the tolerance is positive |
| `CameraOverlay.CircularDistance` | frontend/StarlinkARClient/screens/CameraOverlay.tsx:47-51 | reference definition: the shorter arc lies in [0, 180] and is 0 exactly when the bearings coincide modulo 360 |
| `CameraOverlay.NormalizedAngleRange` | frontend/StarlinkARClient/screens/CameraOverlay.tsx:47-48 | for heading and azimuth in [0, 360] the normalised angle lies in [0, 360) and is (azimuth - heading) mod 360 |
| `CameraOverlay.IsAlignedIffWithinDistance` | frontend/StarlinkARClient/screens/CameraOverlay.tsx:47-51 | the overlay's two-sided test holds iff the shorter-arc distance is strictly below the tolerance |
| `CameraOverlay.ToleranceBoundaryExcluded` | frontend/StarlinkARClient/screens/CameraOverlay.tsx:49-51 | a distance equal to the tolerance is not aligned, but it is aligned under a tolerance one degree larger |
| `CameraOverlay.IsAlignedSymmetric` | frontend/StarlinkARClient/screens/CameraOverlay.tsx:47-51 | swapping heading and azimuth never changes the verdict |
| `CameraOverlay.SameBearingAligned` | frontend/StarlinkARClient/screens/CameraOverlay.tsx:121-123 | for every slider value in [2, 30], heading equal to azimuth is aligned |
| `CameraOverlay.WraparoundScenarios` | frontend/StarlinkARClient/screens/CameraOverlay.tsx:47-51 | 350 vs 5 is 15 degrees apart and not aligned at the default 10; 358 vs 5 is 7 apart and aligned |
| `CameraOverlay.LockStep` | frontend/StarlinkARClient/screens/CameraOverlay.tsx:53-61 | the stored flag always ends equal to the lock; a rising edge emits exactly one haptic then one log append with the given heading, azimuth, satellite; any other case emits nothing |
| `CameraOverlay.ReplayFiresOncePerRisingEdge` | frontend/StarlinkARClient/screens/CameraOverlay.tsx:53-61 | over any run of renders, log appends and haptics each equal the number of false-to-true changes of the lock, counting from the stored flag |
| `CameraOverlay.SustainedLockLogsOnce` | frontend/StarlinkARClient/screens/CameraOverlay.tsx:36-61 | from the initial flag, the lock sequence not-aligned then three aligned renders logs exactly one entry |
| `CameraOverlay.MountLocksAtOnce` | frontend/StarlinkARClient/screens/CameraOverlay.tsx:53-57 | with the initial heading 0 and initial telemetry azimuth 0, the first effect run after mount is a rising edge for every slider value, emitting a haptic and a log append of 0, 0 and an empty satellite |
| `CameraOverlay.CompassOverlay.constructor` | frontend/StarlinkARClient/screens/CameraOverlay.tsx:36-37 | the edge flag starts false and the slider starts at the `tolerance` prop |
| `CameraOverlay.CompassOverlay.SetSliderTolerance` | frontend/StarlinkARClient/screens/CameraOverlay.tsx:119-125 | the slider reports whole degrees in [2, 30] and replaces the tolerance |
| `CameraOverlay.CompassOverlay.LockEffect` | frontend/StarlinkARClient/screens/CameraOverlay.tsx:47-61 | one effect run computes the lock with the current slider tolerance and updates the flag and effects as `LockStep` says |
| `AppScreen.ElevationAligned` | frontend/StarlinkARClient/components/App.tsx:56-57 | holds iff the elevation is within 2 of 47, both ends included |
| `AppScreen.AzimuthAligned` | frontend/StarlinkARClient/components/App.tsx:58-59 | holds iff the azimuth lies in the closed interval heading - 10 to heading + 10 |
| `AppScreen.IsFullyAligned` | frontend/StarlinkARClient/components/App.tsx:61 | holds iff the elevation is in [45, 49] and the azimuth is within 10 of the heading, never otherwise |
| `AppScreen.ElevationWindowIsMeterDefault` | frontend/StarlinkARClient/components/App.tsx:56-57 | the screen's elevation test is the closed window [45, 49], the same as the meter's default window 47 +/- 2 |
| `AppScreen.AzimuthWindowScenarios` | frontend/StarlinkARClient/components/App.tsx:58-59 | the azimuth test is inclusive at 10 degrees and does not wrap: heading 355 against azimuth 5 is not aligned |
| `AppScreen.AzimuthWindowDoesNotWrap` | frontend/StarlinkARClient/components/App.tsx:58-59 | whenever an azimuth is aligned, the same bearing a full turn higher or lower is not |
| `AppScreen.InitialNotAligned` | frontend/StarlinkARClient/components/App.tsx:13-19 | the initial all-zero record is not fully aligned for any heading |
| `AppScreen.DualLockStep` | frontend/StarlinkARClient/components/App.tsx:63-71 | the stored flag always ends equal to the full lock; a rising edge emits exactly one haptic and no log entry; otherwise nothing is emitted |
| `AppScreen.ReplayDualOncePerRisingEdge` | frontend/StarlinkARClient/components/App.tsx:61-71 | over any sequence of full-lock values, haptics equal the false-to-true changes and no log entry is ever emitted |
| `AppScreen.PollingEnabled` | frontend/StarlinkARClient/components/App.tsx:39 | polling is on iff both coordinates are present and neither is 0 |
| `AppScreen.ZeroCoordinateSuppressesPolling` | frontend/StarlinkARClient/components/App.tsx:39 | a null coordinate or a coordinate of exactly 0 keeps polling off |
| `AppScreen.PollRequestEchoesCoordinates` | frontend/StarlinkARClient/components/App.tsx:42 | the screen's request reaches the backend route with the same coordinates, which the response echoes with the fixed satellite name |
| `AppScreen.App.constructor` | frontend/StarlinkARClient/components/App.tsx:13-25 | initial record all zeros and empty strings, heading 0, both coordinates null, edge flag false |
| `AppScreen.App.ReceiveLocation` | frontend/StarlinkARClient/components/App.tsx:28-35 | a GPS fix sets both coordinates; a failed lookup leaves them as they were |
| `AppScreen.App.PollTelemetry` | frontend/StarlinkARClient/components/App.tsx:37-53 | with polling enabled, a parsed response replaces the record wholesale; a failure, or no polling, leaves it unchanged |
| `AppScreen.App.LockEffect` | frontend/StarlinkARClient/components/App.tsx:55-71 | one effect run computes the full lock from the current record and heading and updates the flag and effects as `DualLockStep` says |
| `UseInstallerLog.StoredLog` | frontend/StarlinkARClient/components/hooks/useInstallerLog.ts:21-25 | mounting over a store yields the sequence stored under `installerLog`, or the empty log when the key is absent |
| `UseInstallerLog.ReloadRestores` | frontend/StarlinkARClient/components/hooks/useInstallerLog.ts:44-55 | after writing a log under the key a reload restores exactly it; after removing the key a reload yields the empty log |
| `UseInstallerLog.InstallerLog.constructor` | frontend/StarlinkARClient/components/hooks/useInstallerLog.ts:18 | the log starts empty over the existing store |
| `UseInstallerLog.InstallerLog.Load` | frontend/StarlinkARClient/components/hooks/useInstallerLog.ts:21-25 | a stored value replaces the log and an absent key leaves it; from the empty start the log equals what the store holds |
| `UseInstallerLog.InstallerLog.AddLogEntry` | frontend/StarlinkARClient/components/hooks/useInstallerLog.ts:27-50 | with a position the log becomes old log + [entry], the entry carrying the arguments and the position; a successful write stores the whole log under the key; a failed write keeps the append; a failed lookup changes nothing |
| `UseInstallerLog.InstallerLog.ResetLog` | frontend/StarlinkARClient/components/hooks/useInstallerLog.ts:52-55 | the log becomes empty and, when removal succeeds, the key is gone, so a reload yields the empty log |
| `UseInstallerLog.InstallerLog.ExportLogAsJson` | frontend/StarlinkARClient/components/hooks/useInstallerLog.ts:57-60 | the content written is the whole log in order, to `installer-log.json` in the document directory, and the log is unchanged |
| `UseTelemetry.FromReply` | frontend/StarlinkARClient/components/hooks/useTelemetry.ts:28-33 | a received reply becomes a sample with both angles rounded to nearest (halves up) and signal and satellite copied verbatim |
| `UseTelemetry.NextSample` | frontend/StarlinkARClient/components/hooks/useTelemetry.ts:20-36 | a failed poll leaves the sample unchanged; a successful one replaces all four fields |
| `UseTelemetry.FailedPollKeepsSample` | frontend/StarlinkARClient/components/hooks/useTelemetry.ts:34-36 | after any series of polls, one more failing poll leaves the sample the previous poll produced |
| `UseTelemetry.SampleAfterIsLastReply` | frontend/StarlinkARClient/components/hooks/useTelemetry.ts:19-42 | after any series of polls the sample comes from the last successful reply, or is the starting sample if none succeeded |
| `UseTelemetry.RequestUrl` | frontend/StarlinkARClient/components/hooks/useTelemetry.ts:26 | the request starts with the URL, and for a URL without `?` its query string is exactly `lat=<lat>&lon=<lon>` |
| `UseTelemetry.RequestUrlRoundTrip` | frontend/StarlinkARClient/components/hooks/useTelemetry.ts:26 | the server's query parsing reads back exactly the `lat` and `lon` texts the hook put in the URL |
| `UseTelemetry.TelemetryHook.constructor` | frontend/StarlinkARClient/components/hooks/useTelemetry.ts:12-17 | the sample starts as azimuth 0, elevation 0, signal `unknown`, satellite empty |
| `UseTelemetry.TelemetryHook.Poll` | frontend/StarlinkARClient/components/hooks/useTelemetry.ts:20-37 | no position means no request and no change; with a position the request is `url?lat=..&lon=..` and the sample moves as `NextSample` says |
| `UseHeading.NormalizeAngle` | frontend/StarlinkARClient/components/hooks/useHeading.ts:14 | a non-negative angle is kept; a negative one gets exactly 360 added, and the result is non-negative |
| `UseHeading.HeadingOf` | frontend/StarlinkARClient/components/hooks/useHeading.ts:14-15 | the stored heading is the whole degree nearest the normalised angle, halves rounded up |
| `UseHeading.NormalizedRange` | frontend/StarlinkARClient/components/hooks/useHeading.ts:13-14 | an atan2 reading in [-180, 180] normalises into [0, 360) |
| `UseHeading.HeadingRange` | frontend/StarlinkARClient/components/hooks/useHeading.ts:15 | the stored heading is a whole degree in [0, 360] |
| `UseHeading.FullTurnReachable` | frontend/StarlinkARClient/components/hooks/useHeading.ts:14-15 | a reading of -0.4 normalises to 359.6 and is stored as 360 |
| `UseHeading.HeadingHook.constructor` | frontend/StarlinkARClient/components/hooks/useHeading.ts:6-9 | the heading starts at 0, and no listener exists on web |
| `UseHeading.HeadingHook.OnReading` | frontend/StarlinkARClient/components/hooks/useHeading.ts:12-16 | each reading overwrites the heading with the rounded normalised angle; without a listener nothing changes; the [0, 360] range is kept |
| `SignalMeter.ElevationAligned` | frontend/StarlinkARClient/components/widgets/SignalMeter.tsx:17-19 | an aligned elevation needs a non-negative tolerance, and the target itself is aligned under any such tolerance |
| `SignalMeter.ElevationAlignedIffWithin` | frontend/StarlinkARClient/components/widgets/SignalMeter.tsx:17-19 | the window holds iff the elevation is within the tolerance of the target, both ends inclusive |
| `SignalMeter.DefaultWindowBoundaries` | frontend/StarlinkARClient/components/widgets/SignalMeter.tsx:14-19 | with target 47 and tolerance 2, elevations 45, 47 and 49 are aligned and 44.99 and 49.01 are not |
| `SignalMeter.Status` | frontend/StarlinkARClient/components/widgets/SignalMeter.tsx:36-38 | the label is "Elevation Locked" exactly when aligned and "Adjust Pitch" exactly when not |
| `SignalMeter.SignalColor` | frontend/StarlinkARClient/components/widgets/SignalMeter.tsx:44-55 | lower-cased strong, moderate and weak map to #0f0, #ffa500 and #f00, each iff; every other descriptor maps to #fff |
| `SignalMeter.SignalColorIgnoresCase` | frontend/StarlinkARClient/components/widgets/SignalMeter.tsx:45 | any descriptor gets the colour of its lower-case form |
| `SignalMeter.UpperCaseStrongIsGreen` | frontend/StarlinkARClient/components/widgets/SignalMeter.tsx:45-47 | "STRONG" and "strong" are both #0f0 |
| `SignalMeter.KelvinSignWeakIsRed` | frontend/StarlinkARClient/components/widgets/SignalMeter.tsx:45-51 | "wea" followed by the Kelvin sign lowers to "weak" and gets the weak colour #f00 |
| `SignalPredictor.EvaluateSignalStrength` | backend/signalPredictor/app.py:47-53 | strong iff above 60, moderate iff in (30, 60], weak iff at most 30, so always one of the three |
| `SignalPredictor.SignalStrengthMonotone` | backend/signalPredictor/app.py:47-53 | a higher elevation never gives a weaker class |
| `SignalPredictor.SignalStrengthThresholds` | backend/signalPredictor/app.py:48-53 | 60 itself is moderate and 30 itself is weak |
| `SignalPredictor.QueryString` | backend/signalPredictor/app.py:57-58 | a query exists iff the request has a `?`, and it is everything after the first `?` |
| `SignalPredictor.QueryParams` | backend/signalPredictor/app.py:57-58 | the parameter list is empty iff the request has no `?` |
| `SignalPredictor.PieceValue` | backend/signalPredictor/app.py:57-58 | a piece names a key iff it is the bare key (value empty) or starts with `key=` (value the rest) |
| `SignalPredictor.QueryArg` | backend/signalPredictor/app.py:57-58 | no value iff no piece names the key; otherwise the value comes from the first piece that names it |
| `SignalPredictor.BareKeyReadsEmpty` | backend/signalPredictor/app.py:57-58 | `?lat&lat=5` reads `lat` as the empty value from the first piece, not as 5 |
| `SignalPredictor.FloatArg` | backend/signalPredictor/app.py:57-58 | an absent parameter gives None; a present one gives the float conversion of its text, None when that fails |
| `SignalPredictor.Telemetry` | backend/signalPredictor/app.py:55-74 | a missing or non-numeric lat or lon gives exactly the 400 error; otherwise the body has the fixed satellite, echoes lat and lon, and its signal strength is the classifier applied to its elevation |

## Left out

- Rendering and styling: all JSX and style sheets, the camera view and its permission request, the calibration summary, the second signal meter under `app/components`, the satellite pointer, and the minimal-mode toggle. None of them decides anything.
- Device and library calls are inputs or effects. Haptics is the `HapticSuccess` effect. Location lookups are `Option<Position>` inputs. The HTTP fetch and JSON parse are an `Option` reply. The key-value store is a map, and its writes succeed or fail by a Boolean input. The file write and the sharing sheet are left out: export returns the path and the content it would write.
- JSON text: a stored or exported log is the entry sequence it encodes, so parse after stringify is the identity. The two-space indentation of the export is not modelled.
- Timers, React effect scheduling and concurrency: each poll, sensor reading and effect run is one explicit sequential step. Also left out are the 5000 ms interval, stopping a polling loop, in-flight fetches after unmount, the stale `log` captured by `addLogEntry`, and a load racing an append.
- Floating-point trigonometry: the backend's haversine elevation and bearing azimuth are function parameters of the route. The heading hook's `atan2` in degrees is the input angle. The placeholder route in `backend/app.py` is not part of this model.
- The wire field names differ between the two ends (`signal` in the hook, `signal_strength` from the backend), and `/api/satellite-azimuth` returns only an azimuth. Each client's parsed reply is taken as a given record.
- Rendering a coordinate into the URL is a parameter (`numberText`, or the texts themselves). Query parsing splits on `?`, `&` and `=` without percent-decoding. The route's `float` conversion is a `parseFloat` parameter.
- Clock readings (`toISOString`, `utcnow().isoformat()`) are opaque string inputs.
- NaN and infinities are not modelled. Numbers are exact reals, or integers where the source rounds.
- JsRuntime.ToLowerCase: lowers the ASCII capitals and the Kelvin sign (U+212A, which JavaScript lowers to `k`), keeps every other character, and keeps the length. JavaScript lowers other non-ASCII letters too, some into two characters (U+0130 becomes `i` and a combining dot). None of those results consists of ASCII only, so whether a descriptor lowers to `strong`, `moderate` or `weak` is decided as in JavaScript.
- SignalPredictor.QueryArg: keys and values are not percent-decoded, and `+` is not read as a space.
