/**
 * The telemetry hook: one slot holding the latest telemetry sample, which a
 * poll either replaces wholesale (angles rounded to whole degrees) or, when
 * the position lookup, the fetch or the parse fails, leaves as it was.
 */
module UseTelemetry {
  import opened JsRuntime
  import opened Feedback
  import SignalPredictor

  datatype Telemetry = Telemetry(azimuth: int, elevation: int, signal: string, satellite: string)

  const InitialTelemetry: Telemetry := Telemetry(0, 0, "unknown", "")

  /** The fields of the parsed response body the hook reads. */
  datatype Reply = Reply(azimuth: real, elevation: real, signal: string, satellite: string)

  /** The sample a received reply becomes: angles rounded, text copied verbatim. */
  function FromReply(r: Reply): (t: Telemetry)
    ensures t.azimuth as real - 0.5 <= r.azimuth < t.azimuth as real + 0.5
    ensures t.elevation as real - 0.5 <= r.elevation < t.elevation as real + 0.5
    ensures t.signal == r.signal && t.satellite == r.satellite
  {
    Telemetry(Round(r.azimuth), Round(r.elevation), r.signal, r.satellite)
  }

  /** The slot after one poll; `reply` is None when any step of the poll failed. */
  function NextSample(current: Telemetry, reply: Option<Reply>): (t: Telemetry)
    ensures reply.None? ==> t == current
    ensures reply.Some? ==> t == FromReply(reply.value)
  {
    match reply
    case None => current
    case Some(r) => FromReply(r)
  }

  /** The slot after a series of polls. */
  function SampleAfter(start: Telemetry, replies: seq<Option<Reply>>): Telemetry
    decreases |replies|
  {
    if replies == [] then start else SampleAfter(NextSample(start, replies[0]), replies[1..])
  }

  lemma {:induction false} SampleAfterConcat(start: Telemetry, a: seq<Option<Reply>>, b: seq<Option<Reply>>)
    ensures SampleAfter(start, a + b) == SampleAfter(SampleAfter(start, a), b)
    decreases |a|
  {
    if a == [] {
      assert a + b == b;
    } else {
      assert (a + b)[1..] == a[1..] + b;
      SampleAfterConcat(NextSample(start, a[0]), a[1..], b);
    }
  }

  /** A failed poll leaves the sample the previous poll produced. */
  lemma FailedPollKeepsSample(start: Telemetry, replies: seq<Option<Reply>>)
    ensures SampleAfter(start, replies + [None]) == SampleAfter(start, replies)
  {
    SampleAfterConcat(start, replies, [None]);
  }

  /** After any series of polls the sample is the last received reply, or the start if none arrived. */
  lemma {:induction false} SampleAfterIsLastReply(start: Telemetry, replies: seq<Option<Reply>>)
    ensures (forall j :: 0 <= j < |replies| ==> replies[j].None?) ==> SampleAfter(start, replies) == start
    ensures forall k :: 0 <= k < |replies| && replies[k].Some? &&
                        (forall j :: k < j < |replies| ==> replies[j].None?) ==>
                        SampleAfter(start, replies) == FromReply(replies[k].value)
    decreases |replies|
  {
    if replies != [] {
      var rest := replies[1..];
      SampleAfterIsLastReply(NextSample(start, replies[0]), rest);
      forall k | 0 <= k < |replies| && replies[k].Some? && (forall j :: k < j < |replies| ==> replies[j].None?)
        ensures SampleAfter(start, replies) == FromReply(replies[k].value)
      {
        if k > 0 {
          assert rest[k - 1] == replies[k];
          assert forall j :: k - 1 < j < |rest| ==> rest[j] == replies[j + 1];
        } else {
          assert forall j :: 0 <= j < |rest| ==> rest[j] == replies[j + 1];
        }
      }
    }
  }

  /** `${url}?lat=${lat}&lon=${lon}` for the decimal texts of the coordinates. */
  function RequestUrl(url: string, latText: string, lonText: string): (r: string)
    ensures |url| < |r| && r[..|url|] == url
    ensures '?' !in url ==> SignalPredictor.QueryString(r) == Some("lat=" + latText + "&lon=" + lonText)
  {
    var query := "lat=" + latText + "&lon=" + lonText;
    assert url + "?lat=" + latText + "&lon=" + lonText == url + "?" + query;
    if '?' in url then url + "?" + query
    else
      SignalPredictor.QueryStringAfter(url, query);
      url + "?" + query
  }

  /** The server reads back exactly the coordinates the hook put in the request. */
  lemma RequestUrlRoundTrip(url: string, latText: string, lonText: string)
    requires '?' !in url && '&' !in latText && '&' !in lonText
    ensures SignalPredictor.QueryParams(RequestUrl(url, latText, lonText)) == ["lat=" + latText, "lon=" + lonText]
    ensures SignalPredictor.QueryArg(SignalPredictor.QueryParams(RequestUrl(url, latText, lonText)), "lat") == Some(latText)
    ensures SignalPredictor.QueryArg(SignalPredictor.QueryParams(RequestUrl(url, latText, lonText)), "lon") == Some(lonText)
  {
    var latParam := "lat=" + latText;
    var lonParam := "lon=" + lonText;
    var query := latParam + "&" + lonParam;
    assert "lat=" + latText + "&lon=" + lonText == query;
    assert '&' !in latParam;
    assert '&' !in lonParam;
    SignalPredictor.SplitOnJoin(latParam, lonParam, '&');
    SignalPredictor.SplitOnWithout(lonParam, '&');
    var params := [latParam, lonParam];
    assert SignalPredictor.QueryParams(RequestUrl(url, latText, lonText)) == params;
    assert latParam[..4] == "lat=" && lonParam[..4] == "lon=";
    assert SignalPredictor.PieceValue(latParam, "lat") == Some(latText);
    assert SignalPredictor.PieceValue(lonParam, "lon") == Some(lonText);
    assert SignalPredictor.PieceValue(latParam, "lon").None?;
    assert params[1..] == [lonParam];
  }

  /** The hook's state for one telemetry URL. */
  class TelemetryHook {
    const url: string
    var data: Telemetry

    constructor(url: string)
      ensures this.url == url && data == InitialTelemetry
    {
      this.url := url;
      data := InitialTelemetry;
    }

    /**
     * One poll. `position` is the location provider's answer, `numberText`
     * renders a coordinate into the URL, and `reply` is the parsed body the
     * fetch would yield (None when the fetch or the parse fails).
     */
    method Poll(position: Option<Position>, numberText: real -> string, reply: Option<Reply>)
      returns (request: Option<string>)
      modifies this`data
      ensures position.None? ==> request.None?
      ensures position.Some? ==>
        request == Some(RequestUrl(url, numberText(position.value.latitude), numberText(position.value.longitude)))
      ensures data == NextSample(old(data), if position.Some? then reply else None)
    {
      if position.None? {
        return None;
      }
      var lat := position.value.latitude;
      var lon := position.value.longitude;
      request := Some(RequestUrl(url, numberText(lat), numberText(lon)));
      if reply.Some? {
        var r := reply.value;
        data := Telemetry(Round(r.azimuth), Round(r.elevation), r.signal, r.satellite);
      }
    }
  }
}
