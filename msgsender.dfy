/**
 * Last stage (msgsender.go): keep the critical alarms (SOS, LOWVOT, REMOVE), build a
 * message for each one whose device can be looked up, and send it over WhatsApp to
 * every recipient of the device, one attempt per recipient.
 */
module MsgSender {
  import opened Wrappers
  import opened Alarms
  import opened Devices
  import opened Handlers
  import opened Phones
  import MsgBuilder

  /** The sandbox sender every message comes from. */
  const FromNumber: string := "whatsapp:+14155238886"

  /** discardMessage: only the empty message is discarded. */
  function DiscardMessage(message: string): (r: bool)
    ensures r <==> message == ""
  {
    message == ""
  }

  /** The WhatsApp address of a phone number. */
  function Addressed(number: string): (r: string)
    ensures |r| == |number| + 9 && r[..9] == "whatsapp:" && r[9..] == number
  {
    "whatsapp:" + number
  }

  /** One attempt to deliver `body` to `to`, and whether the messaging service accepted it. */
  datatype Delivery = Delivery(from: string, to: string, body: string, accepted: bool)

  /** One attempt per number, in order; `deliver(to, body)` is the service's verdict. */
  function Attempts(message: string, numbers: seq<string>, deliver: (string, string) -> bool): (r: seq<Delivery>)
    ensures |r| == |numbers|
    ensures forall k :: 0 <= k < |numbers| ==>
      r[k] == Delivery(FromNumber, Addressed(numbers[k]), message, deliver(Addressed(numbers[k]), message))
  {
    seq(|numbers|, k requires 0 <= k < |numbers| =>
      Delivery(FromNumber, Addressed(numbers[k]), message, deliver(Addressed(numbers[k]), message)))
  }

  lemma AttemptsStep(message: string, numbers: seq<string>, k: nat, deliver: (string, string) -> bool)
    requires k < |numbers|
    ensures Attempts(message, numbers[..k + 1], deliver) == Attempts(message, numbers[..k], deliver) +
      [Delivery(FromNumber, Addressed(numbers[k]), message, deliver(Addressed(numbers[k]), message))]
  {
    var a := Attempts(message, numbers[..k + 1], deliver);
    var b := Attempts(message, numbers[..k], deliver) +
      [Delivery(FromNumber, Addressed(numbers[k]), message, deliver(Addressed(numbers[k]), message))];
    assert |a| == |b|;
    forall j | 0 <= j < |a|
      ensures a[j] == b[j]
    {
      if j < k {
        assert numbers[..k + 1][j] == numbers[..k][j];
      }
    }
  }

  /** What SendMessage attempts: nothing for an empty message or a failed recipient lookup. */
  function Deliveries(message: string, imei: string, phones: string -> Result<seq<UserPhoneNumber>, string>,
                      deliver: (string, string) -> bool): (r: seq<Delivery>)
    ensures DiscardMessage(message) || phones(PhonesURL(imei)).Failure? ==> r == []
  {
    if DiscardMessage(message) then []
    else match phones(PhonesURL(imei))
      case Failure(_) => []
      case Success(users) => Attempts(message, Flatten(users), deliver)
  }

  /**
   * A rejected delivery does not stop the others: every recipient of the device gets
   * exactly one attempt, whatever the service answers for the others.
   */
  lemma EveryRecipientOnce(message: string, imei: string, phones: string -> Result<seq<UserPhoneNumber>, string>,
                           d1: (string, string) -> bool, d2: (string, string) -> bool)
    requires message != "" && phones(PhonesURL(imei)).Success?
    ensures var numbers := Flatten(phones(PhonesURL(imei)).value);
      |Deliveries(message, imei, phones, d1)| == |Deliveries(message, imei, phones, d2)| == |numbers| &&
      forall k :: 0 <= k < |numbers| ==> Deliveries(message, imei, phones, d1)[k].to == Addressed(numbers[k])
  {
    var numbers := Flatten(phones(PhonesURL(imei)).value);
    assert Deliveries(message, imei, phones, d1) == Attempts(message, numbers, d1);
    assert Deliveries(message, imei, phones, d2) == Attempts(message, numbers, d2);
  }

  /**
   * SendMessage. `phones` is the recipients endpoint as GetPhoneNumbersFromAPI reads it;
   * `deliver(to, body)` is whether the messaging service accepts one message.
   */
  method SendMessage(message: string, imei: string, phones: string -> Result<seq<UserPhoneNumber>, string>,
                     deliver: (string, string) -> bool) returns (deliveries: seq<Delivery>)
    ensures deliveries == Deliveries(message, imei, phones, deliver)
  {
    if DiscardMessage(message) {
      return [];
    }
    var numbers := GetPhoneNumbersFromAPI(imei, phones);
    if numbers.Failure? {
      return [];
    }
    var list := numbers.value;
    deliveries := [];
    for k := 0 to |list|
      invariant deliveries == Attempts(message, list[..k], deliver)
    {
      AttemptsStep(message, list, k, deliver);
      var to := Addressed(list[k]);
      var accepted := deliver(to, message);
      deliveries := deliveries + [Delivery(FromNumber, to, message, accepted)];
    }
    assert list[..|list|] == list;
  }

  /** The critical alarms of a batch, in batch order. */
  function Critical(alarms: seq<Alarm>): (r: seq<Alarm>)
    ensures |r| <= |alarms|
    ensures forall a :: a in r <==> a in alarms && IsCritical(a.alarmCode)
    decreases |alarms|
  {
    if alarms == [] then []
    else
      var last := alarms[|alarms| - 1];
      Critical(alarms[..|alarms| - 1]) + (if IsCritical(last.alarmCode) then [last] else [])
  }

  /** Filtering a concatenation filters each part in turn, so the batch order is kept. */
  lemma {:induction false} CriticalAppend(u: seq<Alarm>, v: seq<Alarm>)
    ensures Critical(u + v) == Critical(u) + Critical(v)
    decreases |v|
  {
    if v == [] {
      assert u + v == u;
    } else {
      assert (u + v)[..|u + v| - 1] == u + v[..|v| - 1];
      CriticalAppend(u, v[..|v| - 1]);
    }
  }

  /** The I/O of the notifier: device lookup, geocoder, local time, recipients and delivery. */
  datatype Notifier = Notifier(
    deviceInfo: string -> Result<Device, string>,
    geocode: (string, string) -> Option<string>,
    renderLocal: int -> string,
    phones: string -> Result<seq<UserPhoneNumber>, string>,
    deliver: (string, string) -> bool)

  /** What is sent for one critical alarm: nothing when its device cannot be looked up. */
  function NoticeFor(alarm: Alarm, n: Notifier): (r: seq<Delivery>)
    ensures GetDeviceByImei(alarm.imei, n.deviceInfo).Failure? ==> r == []
  {
    match GetDeviceByImei(alarm.imei, n.deviceInfo)
    case Failure(_) => []
    case Success(device) =>
      Deliveries(MsgBuilder.BuildMessage(device, alarm, n.geocode, n.renderLocal), alarm.imei, n.phones, n.deliver)
  }

  /** What is sent for each alarm of a list of critical alarms. */
  function Notices(alarms: seq<Alarm>, n: Notifier): (r: seq<seq<Delivery>>)
    ensures |r| == |alarms| && forall k :: 0 <= k < |alarms| ==> r[k] == NoticeFor(alarms[k], n)
  {
    seq(|alarms|, k requires 0 <= k < |alarms| => NoticeFor(alarms[k], n))
  }

  lemma NoticesStep(alarms: seq<Alarm>, k: nat, n: Notifier, last: seq<Delivery>)
    requires k < |alarms| && last == NoticeFor(alarms[k], n)
    ensures Notices(alarms[..k + 1], n) == Notices(alarms[..k], n) + [last]
  {
    var a := Notices(alarms[..k + 1], n);
    var b := Notices(alarms[..k], n) + [last];
    assert |a| == |b|;
    forall j | 0 <= j < |a|
      ensures a[j] == b[j]
    {
      if j < k {
        assert alarms[..k + 1][j] == alarms[..k][j];
      }
    }
  }

  /** A message built for an alarm is never discarded. */
  lemma BuiltMessagesAreSent(device: Device, alarm: Alarm, n: Notifier)
    ensures !DiscardMessage(MsgBuilder.BuildMessage(device, alarm, n.geocode, n.renderLocal))
  {
  }

  class MessageSender {
    var next: Option<Stage>

    constructor ()
      ensures next == None
    {
      next := None;
    }

    method SetNext(stage: Stage)
      modifies this`next
      ensures next == Some(stage)
    {
      next := Some(stage);
    }

    /** The filter loop of Handle. */
    static method FilterCritical(alarms: seq<Alarm>) returns (filtered: seq<Alarm>)
      ensures filtered == Critical(alarms)
    {
      filtered := [];
      for i := 0 to |alarms|
        invariant filtered == Critical(alarms[..i])
      {
        assert alarms[..i + 1][..i] == alarms[..i];
        if alarms[i].alarmCode == SOS || alarms[i].alarmCode == LOWVOT || alarms[i].alarmCode == REMOVE {
          filtered := filtered + [alarms[i]];
        }
      }
      assert alarms[..|alarms|] == alarms;
    }

    /** The body of Handle's per-alarm goroutine: look the device up, build the message, send it. */
    static method Notify(alarm: Alarm, n: Notifier) returns (deliveries: seq<Delivery>)
      ensures deliveries == NoticeFor(alarm, n)
    {
      var device := GetDeviceByImei(alarm.imei, n.deviceInfo);
      if device.Failure? {
        return [];
      }
      var message := MsgBuilder.BuildMessage(device.value, alarm, n.geocode, n.renderLocal);
      deliveries := SendMessage(message, alarm.imei, n.phones, n.deliver);
    }

    /**
     * Handle: the filtered batch is what goes on; `sent[k]` are the delivery attempts
     * for the k-th critical alarm.
     */
    method Handle(data: Payload, n: Notifier) returns (r: Result<Payload, string>, sent: seq<seq<Delivery>>)
      ensures !data.AlarmList? ==> r.Failure? && sent == []
      ensures data.AlarmList? ==> r == Success(AlarmList(Critical(data.alarms)))
      ensures data.AlarmList? ==> sent == Notices(Critical(data.alarms), n)
    {
      if !data.AlarmList? {
        return Failure("MessageSender.Handle: expected []Alarm"), [];
      }
      var filtered := FilterCritical(data.alarms);
      sent := [];
      for i := 0 to |filtered|
        invariant sent == Notices(filtered[..i], n)
      {
        var deliveries := Notify(filtered[i], n);
        NoticesStep(filtered, i, n, deliveries);
        sent := sent + [deliveries];
      }
      assert filtered[..|filtered|] == filtered;
      r := Success(AlarmList(filtered));
    }
  }
}
