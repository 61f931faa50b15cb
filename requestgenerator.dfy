/**
 * Second stage (requestgenerator.go): one polling URL per device, written by index.
 * Each URL is built on a copy of the device, as Go's goroutine receives the Device
 * by value, so the caller's devices keep their watermarks.
 */
module RequestGenerators {
  import opened Wrappers
  import opened Devices
  import opened Handlers

  /** The URL list the stage builds: entry i is device i's polling URL at the i-th clock reading. */
  function GeneratedURLs(devices: seq<Device>, clock: nat -> int, token: string, formatLocal: int -> string,
                         escape: string -> string): (urls: seq<string>)
    reads devices
    ensures |urls| == |devices|
  {
    seq(|devices|, i requires 0 <= i < |devices| reads devices => URLFor(devices[i], clock(i), token, formatLocal, escape))
  }

  class RequestGenerator {
    var next: Option<Stage>

    constructor ()
      ensures next == None
    {
      next := None;
    }

    method SetNext(stage: Stage)
      modifies this`next
      ensures next == Some(stage)
    {
      next := Some(stage);
    }

    /** The body of Handle's goroutine: GenerateURL on a copy of the device, leaving `d` as it was. */
    static method URLOfCopy(d: Device, now: int, token: string, formatLocal: int -> string, escape: string -> string)
      returns (url: string)
      ensures url == URLFor(d, now, token, formatLocal, escape)
    {
      var copy := new Device.CopyOf(d);
      url := copy.GenerateURL(now, token, formatLocal, escape);
    }

    /**
     * Handle. `clock(i)` is time.Now().Unix() when the URL of device i is built; `token`,
     * `formatLocal` and `escape` are as for GenerateURL. The device-update request Go
     * sends after each URL does not affect the result and is not modelled.
     */
    method Handle(data: Payload, clock: nat -> int, token: string, formatLocal: int -> string,
                  escape: string -> string) returns (r: Result<Payload, string>)
      ensures !data.DeviceList? ==> r.Failure?
      ensures data.DeviceList? ==> r.Success? && r.value.UrlList? && |r.value.urls| == |data.devices|
      ensures data.DeviceList? ==> forall i :: 0 <= i < |data.devices| ==>
        r.value.urls[i] == URLFor(data.devices[i], clock(i), token, formatLocal, escape)
      ensures data.DeviceList? ==> r == Success(UrlList(GeneratedURLs(data.devices, clock, token, formatLocal, escape)))
    {
      if !data.DeviceList? {
        return Failure("unable to cast data to []Device");
      }
      var devices := data.devices;
      var urls := new string[|devices|](_ => "");
      for i := 0 to |devices|
        invariant forall j :: 0 <= j < i ==> urls[j] == URLFor(devices[j], clock(j), token, formatLocal, escape)
      {
        var url := URLOfCopy(devices[i], clock(i), token, formatLocal, escape);
        urls[i] := url;
      }
      assert urls[..] == GeneratedURLs(devices, clock, token, formatLocal, escape);
      r := Success(UrlList(urls[..]));
    }
  }
}
