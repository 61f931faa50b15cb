/**
 * Devices and their polling URLs (device.go). A device's watermark `lastTimeTracked`
 * is the only field the pipeline updates; building a URL reads the watermark as the
 * window start (or looks back 24 hours when there is none) and moves it to now.
 */
module Devices {
  import opened Wrappers
  import opened Text

  const WanWayTechProvider: string := "WanWayTech"
  const WhatsGPSProvider: string := "WhatsGPS"

  const DeviceAlarmPrefix: string := "https://open.iopgps.com/api/device/alarm?imei="
  const WhatsGPSApiURL: string := "https://www.whatsgps.com/alarmSta/queryDetail.do"
  const TwentyFourHoursInSeconds: int := 86400
  const DeviceInfoPrefix: string := "https://api.road-safety-ec.com/api/v1/devices/"

  /** A polling target. Only the watermark changes after decoding. */
  class Device {
    const imei: string
    const userName: string
    const carOwner: Option<string>
    const licenseNumber: Option<string>
    const vin: Option<string>
    const isTrackingAlarms: bool
    var lastTimeTracked: int
    const provider: string

    constructor (imei: string, userName: string, carOwner: Option<string>, licenseNumber: Option<string>,
                 vin: Option<string>, isTrackingAlarms: bool, lastTimeTracked: int, provider: string)
      ensures this.imei == imei && this.userName == userName && this.carOwner == carOwner
      ensures this.licenseNumber == licenseNumber && this.vin == vin
      ensures this.isTrackingAlarms == isTrackingAlarms && this.lastTimeTracked == lastTimeTracked
      ensures this.provider == provider
    {
      this.imei := imei;
      this.userName := userName;
      this.carOwner := carOwner;
      this.licenseNumber := licenseNumber;
      this.vin := vin;
      this.isTrackingAlarms := isTrackingAlarms;
      this.lastTimeTracked := lastTimeTracked;
      this.provider := provider;
    }

    /** The copy Go makes when a Device value is passed to a goroutine. */
    constructor CopyOf(d: Device)
      ensures imei == d.imei && userName == d.userName && carOwner == d.carOwner
      ensures licenseNumber == d.licenseNumber && vin == d.vin
      ensures isTrackingAlarms == d.isTrackingAlarms && lastTimeTracked == d.lastTimeTracked
      ensures provider == d.provider
    {
      imei := d.imei;
      userName := d.userName;
      carOwner := d.carOwner;
      licenseNumber := d.licenseNumber;
      vin := d.vin;
      isTrackingAlarms := d.isTrackingAlarms;
      lastTimeTracked := d.lastTimeTracked;
      provider := d.provider;
    }

    /**
     * GenerateURL. `now` is time.Now().Unix(); `token` is the WHATSGPS_API_KEY setting;
     * `formatLocal` renders unix seconds in the process's zone with the layout
     * "2006-01-02 15:04:05"; `escape` is url.QueryEscape.
     */
    method GenerateURL(now: int, token: string, formatLocal: int -> string, escape: string -> string)
      returns (url: string)
      modifies this`lastTimeTracked
      ensures lastTimeTracked == now
      ensures url == old(URLFor(this, now, token, formatLocal, escape))
    {
      var endTime := now;
      var startTime: int;
      if lastTimeTracked == 0 {
        startTime := endTime - TwentyFourHoursInSeconds;
      } else {
        startTime := lastTimeTracked;
      }
      lastTimeTracked := endTime;
      if provider == WanWayTechProvider {
        url := IopgpsAlarmURL(imei, startTime, endTime);
      } else if provider == WhatsGPSProvider {
        url := WhatsGPSAlarmURL(imei, formatLocal(startTime), formatLocal(endTime), token, escape);
      } else {
        url := "";
      }
    }
  }

  /** The URL GenerateURL builds for `d` at `now`, from the device's current watermark. */
  function URLFor(d: Device, now: int, token: string, formatLocal: int -> string, escape: string -> string): string
    reads d
  {
    ProviderURL(d.provider, d.imei, WindowStart(d.lastTimeTracked, now), now, token, formatLocal, escape)
  }

  /** Start of the polling window: the watermark, or 24 hours back when the watermark is 0. */
  function WindowStart(lastTimeTracked: int, now: int): (start: int)
    ensures lastTimeTracked == 0 ==> start == now - TwentyFourHoursInSeconds
    ensures lastTimeTracked != 0 ==> start == lastTimeTracked
  {
    if lastTimeTracked == 0 then now - TwentyFourHoursInSeconds else lastTimeTracked
  }

  /** DEVICE_ALARM_URL filled in with the IMEI and the window in unix seconds. */
  function IopgpsAlarmURL(imei: string, startTime: int, endTime: int): (url: string)
    ensures DeviceAlarmPrefix <= url
  {
    DeviceAlarmPrefix + imei + "&startTime=" + IntToDecimal(startTime) + "&endTime=" + IntToDecimal(endTime)
  }

  /**
   * WHATSGPS_API_URL with the query url.Values.Encode writes: keys in sorted order
   * (carId, endTime, startTime, token), values query-escaped.
   */
  function WhatsGPSAlarmURL(carId: string, start: string, end: string, token: string, escape: string -> string): (url: string)
    ensures WhatsGPSApiURL + "?" <= url
  {
    WhatsGPSApiURL + "?" + "carId=" + escape(carId) + "&endTime=" + escape(end) +
    "&startTime=" + escape(start) + "&token=" + escape(token)
  }

  /** The URL of one polling window for a provider; the empty string for an unknown provider. */
  function ProviderURL(provider: string, imei: string, startTime: int, endTime: int, token: string,
                       formatLocal: int -> string, escape: string -> string): (url: string)
    ensures provider != WanWayTechProvider && provider != WhatsGPSProvider <==> url == ""
  {
    if provider == WanWayTechProvider then IopgpsAlarmURL(imei, startTime, endTime)
    else if provider == WhatsGPSProvider then WhatsGPSAlarmURL(imei, formatLocal(startTime), formatLocal(endTime), token, escape)
    else ""
  }

  /**
   * Consecutive windows tile the time line: once a URL has been built at a non-zero
   * `now`, the next window starts exactly there, whatever the provider.
   */
  lemma WindowsTile(now1: int, now2: int)
    requires now1 != 0
    ensures WindowStart(now1, now2) == now1
  {
  }

  /** Where the provider host names sit in the two URL bases. */
  lemma HostNames()
    ensures OccursAt(DeviceAlarmPrefix, "iopgps", 13)
    ensures OccursAt(WhatsGPSApiURL, "whatsgps", 12)
  {
    assert DeviceAlarmPrefix[13..19] == "iopgps" by {
      assert DeviceAlarmPrefix[13] == 'i' && DeviceAlarmPrefix[14] == 'o' && DeviceAlarmPrefix[15] == 'p';
      assert DeviceAlarmPrefix[16] == 'g' && DeviceAlarmPrefix[17] == 'p' && DeviceAlarmPrefix[18] == 's';
    }
    assert WhatsGPSApiURL[12..20] == "whatsgps" by {
      assert WhatsGPSApiURL[12] == 'w' && WhatsGPSApiURL[13] == 'h' && WhatsGPSApiURL[14] == 'a';
      assert WhatsGPSApiURL[15] == 't' && WhatsGPSApiURL[16] == 's' && WhatsGPSApiURL[17] == 'g';
      assert WhatsGPSApiURL[18] == 'p' && WhatsGPSApiURL[19] == 's';
    }
  }

  /** An occurrence in a prefix is an occurrence in the whole text. */
  lemma OccursInExtension(p: string, s: string, sub: string, i: int)
    requires OccursAt(p, sub, i) && p <= s
    ensures Contains(s, sub)
  {
    assert s[i..i + |sub|] == p[i..i + |sub|];
    assert OccursAt(s, sub, i);
  }

  /** A WanWayTech URL names the IOPGPS host; a WhatsGPS URL names the WhatsGPS host. */
  lemma ProviderHosts(imei: string, startTime: int, endTime: int, token: string,
                      formatLocal: int -> string, escape: string -> string)
    ensures Contains(ProviderURL(WanWayTechProvider, imei, startTime, endTime, token, formatLocal, escape), "iopgps")
    ensures Contains(ProviderURL(WhatsGPSProvider, imei, startTime, endTime, token, formatLocal, escape), "whatsgps")
  {
    HostNames();
    OccursInExtension(DeviceAlarmPrefix, ProviderURL(WanWayTechProvider, imei, startTime, endTime, token, formatLocal, escape), "iopgps", 13);
    var b := ProviderURL(WhatsGPSProvider, imei, startTime, endTime, token, formatLocal, escape);
    assert OccursAt(WhatsGPSApiURL + "?", "whatsgps", 12) by {
      assert (WhatsGPSApiURL + "?")[12..20] == WhatsGPSApiURL[12..20];
    }
    OccursInExtension(WhatsGPSApiURL + "?", b, "whatsgps", 12);
  }

  /**
   * CleanAndValidateIMEI: every U+0020 space is removed; the rest must be decimal
   * digits (ASCII here), otherwise the IMEI is rejected.
   */
  function CleanAndValidateIMEI(imei: string): (r: Result<string, string>)
    ensures r.Success? <==> AllDigits(RemoveAll(imei, ' '))
    ensures r.Success? ==> r.value == RemoveAll(imei, ' ') && ' ' !in r.value && AllDigits(r.value)
  {
    var clean := RemoveAll(imei, ' ');
    if AllDigits(clean) then Success(clean) else Failure("IMEI contains non-digit characters")
  }

  /** Cleaning is idempotent: a cleaned IMEI passes again unchanged. */
  lemma CleanIdempotent(imei: string)
    requires CleanAndValidateIMEI(imei).Success?
    ensures CleanAndValidateIMEI(CleanAndValidateIMEI(imei).value) == CleanAndValidateIMEI(imei)
  {
    RemoveAllAbsent(CleanAndValidateIMEI(imei).value, ' ');
  }

  /** The empty IMEI is accepted, and a text with any non-space non-digit is rejected. */
  lemma CleanAcceptsEmptyRejectsLetters(imei: string, i: int)
    requires 0 <= i < |imei| && imei[i] != ' ' && !IsDigit(imei[i])
    ensures CleanAndValidateIMEI("") == Success("")
    ensures CleanAndValidateIMEI(imei).Failure?
  {
    assert imei[i] in imei;
    assert imei[i] in RemoveAll(imei, ' ');
  }

  /**
   * GetDeviceByImei: a rejected IMEI fails before any request; otherwise the result
   * is what the device-info endpoint (`fetch`, given the URL) yields.
   */
  function GetDeviceByImei(imei: string, fetch: string -> Result<Device, string>): (r: Result<Device, string>)
    ensures CleanAndValidateIMEI(imei).Failure? ==> r.Failure?
    ensures CleanAndValidateIMEI(imei).Success? ==>
      r == fetch(DeviceInfoPrefix + CleanAndValidateIMEI(imei).value + "/")
  {
    match CleanAndValidateIMEI(imei)
    case Failure(e) => Failure("failed to clean and validate IMEI: " + e)
    case Success(clean) => fetch(DeviceInfoPrefix + clean + "/")
  }

  /** A rejected IMEI never reaches the endpoint: the outcome is the same whatever it would answer. */
  lemma InvalidImeiNoRequest(imei: string, f: string -> Result<Device, string>, g: string -> Result<Device, string>)
    requires CleanAndValidateIMEI(imei).Failure?
    ensures GetDeviceByImei(imei, f) == GetDeviceByImei(imei, g)
  {
  }
}
