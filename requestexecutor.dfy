/**
 * Third stage (requestexecutor.go): poll every URL, routed by the provider name it
 * contains, and turn each decoded vendor record into one canonical alarm. A URL
 * whose request fails, answers with a status other than 200, or does not decode
 * contributes nothing.
 */
module RequestExecutors {
  import opened Wrappers
  import opened Text
  import opened Alarms
  import opened WhatsGPS
  import opened AlarmAdapter
  import opened Http
  import opened Handlers

  datatype Route = IopgpsRoute | WhatsGPSRoute | Unrouted

  /** The provider path of a URL: "iopgps" wins over "whatsgps"; neither means the URL is skipped. */
  function RouteOf(url: string): (r: Route)
    ensures r == IopgpsRoute <==> Contains(url, "iopgps")
    ensures r == WhatsGPSRoute <==> !Contains(url, "iopgps") && Contains(url, "whatsgps")
  {
    if Contains(url, "iopgps") then IopgpsRoute
    else if Contains(url, "whatsgps") then WhatsGPSRoute
    else Unrouted
  }

  /** The request sent for a URL: only the IOPGPS path adds the AccessToken header. */
  function RequestFor(url: string, accessToken: string): (req: Request)
    ensures req.url == url
    ensures req.accessToken.Some? <==> RouteOf(url) == IopgpsRoute
  {
    Request(url, if RouteOf(url) == IopgpsRoute then Some(accessToken) else None)
  }

  /**
   * The vendor records a request yields: those of a 200 response whose body decodes;
   * nothing for a transport error, another status or an undecodable body.
   */
  function Records<T>(outcome: Outcome, decode: Bytes -> Option<seq<T>>): (r: seq<T>)
    ensures !outcome.Answered? || outcome.status != 200 ==> r == []
    ensures outcome.Answered? && outcome.status == 200 && decode(outcome.body).Some? ==>
      r == decode(outcome.body).value
    ensures outcome.Answered? && outcome.status == 200 && decode(outcome.body).None? ==> r == []
  {
    match outcome
    case TransportError(_) => []
    case Answered(status, body) =>
      if status != 200 then []
      else match decode(body)
        case None => []
        case Some(records) => records
  }

  /** The vendor I/O of one polling round: the transport and the two response decoders. */
  datatype Vendors = Vendors(
    send: Request -> Outcome,
    decodeIopgps: Bytes -> Option<seq<AlarmData>>,
    decodeWhatsGPS: Bytes -> Option<seq<WhatsGPSAlarm>>,
    formatCoord: real -> string)

  function ConvertAll(records: seq<AlarmData>): (r: seq<Alarm>)
    ensures |r| == |records| && forall k :: 0 <= k < |records| ==> r[k] == ConvertAlarmDataToRequest(records[k])
  {
    seq(|records|, k requires 0 <= k < |records| => ConvertAlarmDataToRequest(records[k]))
  }

  function ConvertAllWhatsGPS(records: seq<WhatsGPSAlarm>, formatCoord: real -> string): (r: seq<Alarm>)
    ensures |r| == |records| && forall k :: 0 <= k < |records| ==> r[k] == ConvertWhatsGPSAlarmDataToRequest(records[k], formatCoord)
  {
    seq(|records|, k requires 0 <= k < |records| => ConvertWhatsGPSAlarmDataToRequest(records[k], formatCoord))
  }

  lemma ConvertAllWhatsGPSStep(records: seq<WhatsGPSAlarm>, k: nat, formatCoord: real -> string)
    requires k < |records|
    ensures ConvertAllWhatsGPS(records[..k + 1], formatCoord) ==
      ConvertAllWhatsGPS(records[..k], formatCoord) + [ConvertWhatsGPSAlarmDataToRequest(records[k], formatCoord)]
  {
    var a := ConvertAllWhatsGPS(records[..k + 1], formatCoord);
    var b := ConvertAllWhatsGPS(records[..k], formatCoord) + [ConvertWhatsGPSAlarmDataToRequest(records[k], formatCoord)];
    assert |a| == |b|;
    forall j | 0 <= j < |a|
      ensures a[j] == b[j]
    {
      if j < k {
        assert records[..k + 1][j] == records[..k][j];
      }
    }
  }

  /** The alarms one URL contributes, in record order. */
  function Contribution(url: string, accessToken: string, vendors: Vendors): seq<Alarm> {
    match RouteOf(url)
    case IopgpsRoute => ConvertAll(Records(vendors.send(RequestFor(url, accessToken)), vendors.decodeIopgps))
    case WhatsGPSRoute =>
      ConvertAllWhatsGPS(Records(vendors.send(RequestFor(url, accessToken)), vendors.decodeWhatsGPS), vendors.formatCoord)
    case Unrouted => []
  }

  /** The whole output: every URL's contribution as one contiguous block, in URL order. */
  function Gather(urls: seq<string>, accessToken: string, vendors: Vendors): seq<Alarm>
    decreases |urls|
  {
    if urls == [] then []
    else Gather(urls[..|urls| - 1], accessToken, vendors) + Contribution(urls[|urls| - 1], accessToken, vendors)
  }

  /** Polling two lists of URLs gives the alarms of the first followed by those of the second. */
  lemma {:induction false} GatherAppend(u: seq<string>, v: seq<string>, accessToken: string, vendors: Vendors)
    ensures Gather(u + v, accessToken, vendors) == Gather(u, accessToken, vendors) + Gather(v, accessToken, vendors)
    decreases |v|
  {
    if v == [] {
      assert u + v == u;
    } else {
      assert (u + v)[..|u + v| - 1] == u + v[..|v| - 1];
      GatherAppend(u, v[..|v| - 1], accessToken, vendors);
    }
  }

  /** A 200 response that decodes to n records adds exactly n alarms, one per record. */
  lemma OneAlarmPerRecord(url: string, accessToken: string, vendors: Vendors)
    requires RouteOf(url) == IopgpsRoute
    requires var o := vendors.send(RequestFor(url, accessToken));
      o.Answered? && o.status == 200 && vendors.decodeIopgps(o.body).Some?
    ensures |Contribution(url, accessToken, vendors)| ==
      |vendors.decodeIopgps(vendors.send(RequestFor(url, accessToken)).body).value|
  {
  }

  /** A URL that names neither provider contributes nothing and sends no request. */
  lemma UnroutedContributesNothing(urls: seq<string>, accessToken: string, vendors: Vendors)
    requires forall k :: 0 <= k < |urls| ==> RouteOf(urls[k]) == Unrouted
    ensures Gather(urls, accessToken, vendors) == []
    decreases |urls|
  {
    if urls != [] {
      UnroutedContributesNothing(urls[..|urls| - 1], accessToken, vendors);
    }
  }

  class RequestExecutor {
    var next: Option<Stage>

    constructor ()
      ensures next == None
    {
      next := None;
    }

    method SetNext(stage: Stage)
      modifies this`next
      ensures next == Some(stage)
    {
      next := Some(stage);
    }

    /** processIOPGPSURL: append the alarms of one IOPGPS URL to `alarms`. */
    static method ProcessIOPGPSURL(url: string, accessToken: string, vendors: Vendors, alarms: seq<Alarm>)
      returns (out: seq<Alarm>)
      requires RouteOf(url) == IopgpsRoute
      ensures out == alarms + Contribution(url, accessToken, vendors)
    {
      var records := Records(vendors.send(RequestFor(url, accessToken)), vendors.decodeIopgps);
      out := alarms;
      for k := 0 to |records|
        invariant out == alarms + ConvertAll(records[..k])
      {
        assert ConvertAll(records[..k + 1]) == ConvertAll(records[..k]) + [ConvertAlarmDataToRequest(records[k])];
        out := out + [ConvertAlarmDataToRequest(records[k])];
      }
      assert records[..|records|] == records;
    }

    /** processWHATSGPSURL: append the alarms of one WhatsGPS URL to `alarms`. */
    static method ProcessWHATSGPSURL(url: string, accessToken: string, vendors: Vendors, alarms: seq<Alarm>)
      returns (out: seq<Alarm>)
      requires RouteOf(url) == WhatsGPSRoute
      ensures out == alarms + Contribution(url, accessToken, vendors)
    {
      var records := Records(vendors.send(RequestFor(url, accessToken)), vendors.decodeWhatsGPS);
      out := alarms;
      for k := 0 to |records|
        invariant out == alarms + ConvertAllWhatsGPS(records[..k], vendors.formatCoord)
      {
        ConvertAllWhatsGPSStep(records, k, vendors.formatCoord);
        out := out + [ConvertWhatsGPSAlarmDataToRequest(records[k], vendors.formatCoord)];
      }
      assert records[..|records|] == records;
    }

    /** Handle. `accessToken` is the ACCESS_TOKEN setting. */
    method Handle(data: Payload, accessToken: string, vendors: Vendors) returns (r: Result<Payload, string>)
      ensures !data.UrlList? ==> r.Failure?
      ensures data.UrlList? ==> r == Success(AlarmList(Gather(data.urls, accessToken, vendors)))
    {
      if !data.UrlList? {
        return Failure("RequestExecutor.Handle: expected []string");
      }
      var urls := data.urls;
      var alarms: seq<Alarm> := [];
      for i := 0 to |urls|
        invariant alarms == Gather(urls[..i], accessToken, vendors)
      {
        assert urls[..i + 1][..i] == urls[..i];
        var route := RouteOf(urls[i]);
        if route == IopgpsRoute {
          alarms := ProcessIOPGPSURL(urls[i], accessToken, vendors, alarms);
        } else if route == WhatsGPSRoute {
          alarms := ProcessWHATSGPSURL(urls[i], accessToken, vendors, alarms);
        }
      }
      assert urls[..|urls|] == urls;
      r := Success(AlarmList(alarms));
    }
  }
}
