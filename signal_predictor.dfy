/**
 * The telemetry backend: the signal-strength classifier and the
 * `/api/telemetry` route that checks its query parameters and assembles the
 * response. The great-circle elevation and azimuth computations are
 * floating-point trigonometry and reach the route as function parameters.
 */
module SignalPredictor {
  import opened JsRuntime

  const SatelliteName: string := "Starlink-3428"
  const MissingParameters: string := "Missing lat/lon parameters"

  /** Above 60 degrees is strong, above 30 is moderate, anything else weak. */
  function EvaluateSignalStrength(elevation: real): (s: string)
    ensures s == "strong" <==> elevation > 60.0
    ensures s == "moderate" <==> 30.0 < elevation <= 60.0
    ensures s == "weak" <==> elevation <= 30.0
  {
    if elevation > 60.0 then "strong"
    else if elevation > 30.0 then "moderate"
    else "weak"
  }

  /** The order of the classes: weak < moderate < strong. */
  function Rank(s: string): nat
  {
    if s == "strong" then 2 else if s == "moderate" then 1 else 0
  }

  /** A higher elevation never gives a weaker class. */
  lemma SignalStrengthMonotone(lower: real, higher: real)
    requires lower <= higher
    ensures Rank(EvaluateSignalStrength(lower)) <= Rank(EvaluateSignalStrength(higher))
  {
  }

  /** The threshold values themselves belong to the class below them. */
  lemma SignalStrengthThresholds()
    ensures EvaluateSignalStrength(60.0) == "moderate"
    ensures EvaluateSignalStrength(30.0) == "weak"
  {
  }

  datatype TelemetryBody = TelemetryBody(
    satellite: string,
    azimuth: real,
    elevation: real,
    signalStrength: string,
    timestamp: string,
    lat: real,
    lon: real)

  datatype RouteResponse =
    | Json(body: TelemetryBody)
    | Error(message: string, status: int)

  /** Everything after the first '?' of a request target, or None when it has no query. */
  function QueryString(request: string): (q: Option<string>)
    ensures q.Some? <==> '?' in request
    ensures q.Some? ==> exists i :: 0 <= i < |request| && request[i] == '?' && '?' !in request[..i] &&
                                    q.value == request[i + 1..]
  {
    if request == [] then None
    else if request[0] == '?' then
      assert request[..0] == [];
      Some(request[1..])
    else
      var q := QueryString(request[1..]);
      if q.Some? then
        var i :| 0 <= i < |request[1..]| && request[1..][i] == '?' && '?' !in request[1..][..i] &&
                 q.value == request[1..][i + 1..];
        assert request[..i + 1] == [request[0]] + request[1..][..i];
        assert request[i + 1] == '?' && q.value == request[i + 2..];
        q
      else
        assert request == [request[0]] + request[1..];
        q
  }

  /** The pieces of `s` between occurrences of `sep`. */
  function SplitOn(s: string, sep: char): (parts: seq<string>)
    ensures |parts| >= 1
  {
    if s == [] then [""]
    else
      var rest := SplitOn(s[1..], sep);
      if s[0] == sep then [""] + rest else [[s[0]] + rest[0]] + rest[1..]
  }

  /** The `key=value` parameters of a request target, in order. */
  function QueryParams(request: string): (params: seq<string>)
    ensures params == [] <==> '?' !in request
  {
    match QueryString(request)
    case None => []
    case Some(q) => SplitOn(q, '&')
  }

  lemma {:induction false} QueryStringAfter(path: string, query: string)
    requires '?' !in path
    ensures QueryString(path + "?" + query) == Some(query)
  {
    if path != [] {
      assert (path + "?" + query)[1..] == path[1..] + "?" + query;
      QueryStringAfter(path[1..], query);
    }
  }

  lemma {:induction false} SplitOnWithout(s: string, sep: char)
    requires sep !in s
    ensures SplitOn(s, sep) == [s]
  {
    if s != [] {
      SplitOnWithout(s[1..], sep);
      assert [s[0]] + s[1..] == s;
    }
  }

  lemma {:induction false} SplitOnJoin(a: string, b: string, sep: char)
    requires sep !in a
    ensures SplitOn(a + [sep] + b, sep) == [a] + SplitOn(b, sep)
  {
    if a == [] {
      assert (a + [sep] + b)[1..] == b;
    } else {
      assert (a + [sep] + b)[1..] == a[1..] + [sep] + b;
      SplitOnJoin(a[1..], b, sep);
      assert [a[0]] + a[1..] == a;
    }
  }

  /**
   * The value a single query piece gives `key`: the text after `key=`, or
   * the empty text when the piece is the bare key.
   */
  function PieceValue(piece: string, key: string): (v: Option<string>)
    ensures v.Some? <==> piece == key || (|key| + 1 <= |piece| && piece[..|key| + 1] == key + "=")
    ensures v.Some? ==> (piece == key && v.value == "") || piece == key + "=" + v.value
  {
    if piece == key then Some("")
    else if |key| + 1 <= |piece| && piece[..|key| + 1] == key + "=" then
      assert piece == key + "=" + piece[|key| + 1..];
      Some(piece[|key| + 1..])
    else None
  }

  /** The value of `key` in the first query piece that names it. */
  function QueryArg(query: seq<string>, key: string): (v: Option<string>)
    ensures v.None? <==> forall i :: 0 <= i < |query| ==> PieceValue(query[i], key).None?
    ensures v.Some? ==> exists i :: 0 <= i < |query| && PieceValue(query[i], key) == v &&
                                    forall j :: 0 <= j < i ==> PieceValue(query[j], key).None?
  {
    if query == [] then None
    else if PieceValue(query[0], key).Some? then PieceValue(query[0], key)
    else
      var v := QueryArg(query[1..], key);
      if v.Some? then
        var i :| 0 <= i < |query[1..]| && PieceValue(query[1..][i], key) == v &&
                 forall j :: 0 <= j < i ==> PieceValue(query[1..][j], key).None?;
        assert PieceValue(query[i + 1], key) == v;
        assert forall j :: 1 <= j < i + 1 ==> query[j] == query[1..][j - 1];
        v
      else
        assert forall i :: 1 <= i < |query| ==> query[i] == query[1..][i - 1];
        v
  }

  /** A bare `lat` ahead of `lat=5` is read first, as the empty value. */
  lemma BareKeyReadsEmpty()
    ensures QueryArg(["lat", "lat=5"], "lat") == Some("")
  {
  }

  /** `request.args.get(key, type=float)`: None when the parameter is absent or is not a number. */
  function FloatArg(query: seq<string>, key: string, parseFloat: string -> Option<real>): (x: Option<real>)
    ensures QueryArg(query, key).None? ==> x.None?
    ensures QueryArg(query, key).Some? ==> x == parseFloat(QueryArg(query, key).value)
  {
    match QueryArg(query, key)
    case None => None
    case Some(text) => parseFloat(text)
  }

  /** The `/api/telemetry` route for the request target `request`; `now` is the clock's ISO-8601 reading. */
  function Telemetry(
    request: string,
    parseFloat: string -> Option<real>,
    azimuthOf: (real, real) -> real,
    elevationOf: (real, real) -> real,
    now: string): (resp: RouteResponse)
    ensures resp.Error? <==> FloatArg(QueryParams(request), "lat", parseFloat).None? || FloatArg(QueryParams(request), "lon", parseFloat).None?
    ensures resp.Error? ==> resp.message == MissingParameters && resp.status == 400
    ensures resp.Json? ==>
      var lat := FloatArg(QueryParams(request), "lat", parseFloat).value;
      var lon := FloatArg(QueryParams(request), "lon", parseFloat).value;
      && resp.body.satellite == SatelliteName
      && resp.body.lat == lat && resp.body.lon == lon
      && resp.body.azimuth == azimuthOf(lat, lon)
      && resp.body.elevation == elevationOf(lat, lon)
      && resp.body.signalStrength == EvaluateSignalStrength(resp.body.elevation)
      && resp.body.timestamp == now + "Z"
  {
    var lat := FloatArg(QueryParams(request), "lat", parseFloat);
    var lon := FloatArg(QueryParams(request), "lon", parseFloat);
    if lat.None? || lon.None? then Error(MissingParameters, 400)
    else
      var azimuth := azimuthOf(lat.value, lon.value);
      var elevation := elevationOf(lat.value, lon.value);
      var signal := EvaluateSignalStrength(elevation);
      Json(TelemetryBody(SatelliteName, azimuth, elevation, signal, now + "Z", lat.value, lon.value))
  }
}
