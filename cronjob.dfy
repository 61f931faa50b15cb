/**
 * The older per-user polling job (cronjob.go): poll the IOPGPS alarm endpoint for the
 * window that ends at the job's `currentTime`, move `currentTime` forward only when
 * the poll succeeds, then forward every alarm detail to the backend and send one
 * message per critical detail. Its fatal paths (log.Fatalf) end the process.
 */
module CronJobs {
  import opened Wrappers
  import opened Text
  import opened Alarms
  import opened Users
  import opened Devices
  import opened Http
  import MessageBuilderV1

  /** The backend's copy of an IOPGPS alarm detail: the same fields under snake_case JSON names. */
  datatype AlarmDataForPost = AlarmDataForPost(
    code: int,
    positionType: Option<string>,
    imei: string,
    lat: Option<string>,
    lng: Option<string>,
    time: int,
    speed: Option<int>,
    course: Option<int>,
    alarmCode: string,
    alarmTime: int,
    deviceType: int,
    alarmType: int)

  /** The Go conversion AlarmDataForPost(detail). */
  function ToPost(d: AlarmData): (p: AlarmDataForPost)
    ensures p.code == d.code && p.positionType == d.positionType && p.imei == d.imei
    ensures p.lat == d.lat && p.lng == d.lng && p.time == d.time && p.speed == d.speed
    ensures p.course == d.course && p.alarmCode == d.alarmCode && p.alarmTime == d.alarmTime
    ensures p.deviceType == d.deviceType && p.alarmType == d.alarmType
  {
    AlarmDataForPost(d.code, d.positionType, d.imei, d.lat, d.lng, d.time, d.speed, d.course,
                     d.alarmCode, d.alarmTime, d.deviceType, d.alarmType)
  }

  /** The reverse conversion, AlarmData(p). */
  function FromPost(p: AlarmDataForPost): AlarmData {
    AlarmData(p.code, p.positionType, p.imei, p.lat, p.lng, p.time, p.speed, p.course,
              p.alarmCode, p.alarmTime, p.deviceType, p.alarmType)
  }

  /** The conversion loses nothing: it is a bijection between the two record types. */
  lemma PostRoundTrip(d: AlarmData, p: AlarmDataForPost)
    ensures FromPost(ToPost(d)) == d
    ensures ToPost(FromPost(p)) == p
  {
  }

  /** The codes that trigger a message, in the order the job checks them. */
  const MessageCodes: seq<string> := [SOS, REMOVE, LOWVOT]

  /** The message sent for one detail: one for a critical code, none otherwise. */
  function MessagesFor(user: User, d: AlarmData, renderLocal: int -> string): (r: seq<string>)
    ensures |r| == (if IsCritical(d.alarmCode) then 1 else 0)
  {
    if IsCritical(d.alarmCode) then [MessageBuilderV1.BuildMessage(user, d.alarmCode, d.alarmTime, renderLocal)] else []
  }

  /** The messages sent for a list of details, in order. */
  function AllMessages(user: User, ds: seq<AlarmData>, renderLocal: int -> string): seq<string>
    decreases |ds|
  {
    if ds == [] then [] else AllMessages(user, ds[..|ds| - 1], renderLocal) + MessagesFor(user, ds[|ds| - 1], renderLocal)
  }

  function CountCritical(ds: seq<AlarmData>): nat
    decreases |ds|
  {
    if ds == [] then 0 else CountCritical(ds[..|ds| - 1]) + (if IsCritical(ds[|ds| - 1].alarmCode) then 1 else 0)
  }

  /** Exactly one message per critical detail. */
  lemma {:induction false} OneMessagePerCritical(user: User, ds: seq<AlarmData>, renderLocal: int -> string)
    ensures |AllMessages(user, ds, renderLocal)| == CountCritical(ds)
    decreases |ds|
  {
    if ds != [] {
      OneMessagePerCritical(user, ds[..|ds| - 1], renderLocal);
    }
  }

  lemma AllMessagesStep(user: User, ds: seq<AlarmData>, i: nat, renderLocal: int -> string)
    requires i < |ds|
    ensures AllMessages(user, ds[..i + 1], renderLocal) == AllMessages(user, ds[..i], renderLocal) + MessagesFor(user, ds[i], renderLocal)
  {
    assert ds[..i + 1][..i] == ds[..i];
  }

  /** The upload of `d` reached the backend (whatever status it answered). */
  predicate Uploaded(post: AlarmDataForPost -> Option<int>, d: AlarmData) {
    post(ToPost(d)).Some?
  }

  /** The index of the first detail whose upload fails to reach the backend, or |ds| if none. */
  function FirstUnsent(ds: seq<AlarmData>, post: AlarmDataForPost -> Option<int>): (i: nat)
    ensures i <= |ds|
    ensures forall k :: 0 <= k < i ==> Uploaded(post, ds[k])
    ensures i < |ds| ==> !Uploaded(post, ds[i])
    decreases |ds|
  {
    if ds == [] then 0
    else if !Uploaded(post, ds[0]) then 0
    else 1 + FirstUnsent(ds[1..], post)
  }

  /** FirstUnsent is pinned down by its two ensures: all earlier uploads reached the backend, this one did not (or the list ended). */
  lemma {:induction false} FirstUnsentIs(ds: seq<AlarmData>, post: AlarmDataForPost -> Option<int>, i: nat)
    requires i <= |ds|
    requires forall k :: 0 <= k < i ==> Uploaded(post, ds[k])
    requires i < |ds| ==> !Uploaded(post, ds[i])
    ensures FirstUnsent(ds, post) == i
    decreases |ds|
  {
    if ds != [] && i > 0 {
      FirstUnsentIs(ds[1..], post, i - 1);
    }
  }

  /** The outcome of ProcessAlarmData: the messages sent, and whether the job hit log.Fatalf. */
  datatype Processed = Processed(messages: seq<string>, fatal: bool)

  class CronJob {
    const user: User
    var currentTime: int
    const interval: int

    /** NewCronJob. */
    constructor (user: User, startTime: int, interval: int)
      ensures this.user == user && currentTime == startTime && this.interval == interval
    {
      this.user := user;
      currentTime := startTime;
      this.interval := interval;
    }

    /**
     * GetAlarmData. `validURL` says whether http.NewRequest accepts a URL; `send` is the
     * transport; `now` is time.Now().Unix() after the response. `request` is what was
     * sent (None when the request could not be built).
     */
    method GetAlarmData(accessToken: string, validURL: string -> bool, send: Request -> Outcome, now: int)
      returns (request: Option<Request>, body: Option<Bytes>)
      modifies this`currentTime
      ensures var url := IopgpsAlarmURL(user.imei, old(currentTime) - interval, old(currentTime));
        request == (if validURL(url) then Some(Request(url, Some(accessToken))) else None)
      ensures body.Some? <==> request.Some? && Accepted(send(request.value))
      ensures body.Some? ==> body.value == send(request.value).body && currentTime == now
      ensures body.None? ==> currentTime == old(currentTime)
    {
      var startTime := currentTime - interval;
      var endTime := currentTime;
      var url := IopgpsAlarmURL(user.imei, startTime, endTime);
      if !validURL(url) {
        return None, None;
      }
      request := Some(Request(url, Some(accessToken)));
      var outcome := send(request.value);
      if outcome.TransportError? {
        return request, None;
      }
      if outcome.status >= 400 {
        return request, None;
      }
      if |outcome.body| == 0 {
        return request, None;
      }
      currentTime := now;
      body := Some(outcome.body);
    }

    /** What the inner loop has found after comparing the detail's code with the first `j` message codes. */
    ghost function FoundAfter(detail: AlarmData, j: nat, renderLocal: int -> string): seq<string>
      requires j <= |MessageCodes|
    {
      if j == 0 then []
      else
        var code := MessageCodes[j - 1];
        var hit := if detail.alarmCode == code
          then [MessageBuilderV1.BuildMessage(user, code, detail.alarmTime, renderLocal)] else [];
        FoundAfter(detail, j - 1, renderLocal) + hit
    }

    /** The message codes are distinct, so the loop finds the detail's message at most once. */
    lemma FoundAfterAll(detail: AlarmData, renderLocal: int -> string)
      ensures FoundAfter(detail, |MessageCodes|, renderLocal) == MessagesFor(user, detail, renderLocal)
    {
      assert SOS != REMOVE && SOS != LOWVOT && REMOVE != LOWVOT by {
        assert |SOS| == 3 && REMOVE[0] != LOWVOT[0];
      }
      var m := [MessageBuilderV1.BuildMessage(user, detail.alarmCode, detail.alarmTime, renderLocal)];
      assert FoundAfter(detail, 1, renderLocal) == (if detail.alarmCode == SOS then m else []);
      assert FoundAfter(detail, 2, renderLocal) == FoundAfter(detail, 1, renderLocal) + (if detail.alarmCode == REMOVE then m else []);
      assert FoundAfter(detail, 3, renderLocal) == FoundAfter(detail, 2, renderLocal) + (if detail.alarmCode == LOWVOT then m else []);
    }

    /** The inner loop of ProcessAlarmData: compare the detail's code with each message code in turn. */
    method MessagesOf(detail: AlarmData, renderLocal: int -> string) returns (found: seq<string>)
      ensures found == MessagesFor(user, detail, renderLocal)
    {
      found := [];
      for j := 0 to |MessageCodes|
        invariant found == FoundAfter(detail, j, renderLocal)
      {
        if detail.alarmCode == MessageCodes[j] {
          found := found + [MessageBuilderV1.BuildMessage(user, MessageCodes[j], detail.alarmTime, renderLocal)];
        }
      }
      FoundAfterAll(detail, renderLocal);
    }

    /**
     * ProcessAlarmData. `decode` parses the response (None: not JSON of the expected
     * shape); `post` is the status of the upload of one detail (None: the request
     * failed); `renderLocal` prints the local alarm time.
     */
    method ProcessAlarmData(data: Bytes, decode: Bytes -> Option<seq<AlarmData>>,
                            post: AlarmDataForPost -> Option<int>, renderLocal: int -> string)
      returns (r: Processed)
      ensures |data| == 0 ==> r == Processed([], false)
      ensures |data| > 0 && decode(data).None? ==> r == Processed([], true)
      ensures |data| > 0 && decode(data).Some? ==>
        var ds := decode(data).value;
        var stop := FirstUnsent(ds, post);
        r == Processed(AllMessages(user, ds[..stop], renderLocal), stop < |ds|)
    {
      if |data| == 0 {
        return Processed([], false);
      }
      var decoded := decode(data);
      if decoded.None? {
        return Processed([], true);
      }
      var details := decoded.value;
      var messages: seq<string> := [];
      var i := 0;
      while i < |details|
        invariant 0 <= i <= |details|
        invariant forall k :: 0 <= k < i ==> Uploaded(post, details[k])
        invariant messages == AllMessages(user, details[..i], renderLocal)
        decreases |details| - i
      {
        var detail := details[i];
        var status := post(ToPost(detail));
        if status.None? {
          FirstUnsentIs(details, post, i);
          return Processed(messages, true);
        }
        assert Uploaded(post, details[i]);
        assert forall k :: 0 <= k < i + 1 ==> Uploaded(post, details[k]);
        var found := MessagesOf(detail, renderLocal);
        AllMessagesStep(user, details, i, renderLocal);
        messages := messages + found;
        assert messages == AllMessages(user, details[..i + 1], renderLocal);
        i := i + 1;
      }
      FirstUnsentIs(details, post, i);
      assert details[..|details|] == details;
      r := Processed(messages, false);
    }

    /** Run: one polling round, fetching the window and processing what came back; a failed fetch processes nothing. */
    method Run(accessToken: string, validURL: string -> bool, send: Request -> Outcome, now: int,
               decode: Bytes -> Option<seq<AlarmData>>, post: AlarmDataForPost -> Option<int>, renderLocal: int -> string)
      returns (r: Processed)
      modifies this`currentTime
      ensures var url := IopgpsAlarmURL(user.imei, old(currentTime) - interval, old(currentTime));
        var answered := validURL(url) && Accepted(send(Request(url, Some(accessToken))));
        && (!answered ==> r == Processed([], false) && currentTime == old(currentTime))
        && (answered ==> currentTime == now)
        && (answered && decode(send(Request(url, Some(accessToken))).body).None? ==> r == Processed([], true))
        && (answered && decode(send(Request(url, Some(accessToken))).body).Some? ==>
              var ds := decode(send(Request(url, Some(accessToken))).body).value;
              var stop := FirstUnsent(ds, post);
              r == Processed(AllMessages(user, ds[..stop], renderLocal), stop < |ds|))
    {
      var request, body := GetAlarmData(accessToken, validURL, send, now);
      r := ProcessAlarmData(body.GetOr([]), decode, post, renderLocal);
    }
  }
}
