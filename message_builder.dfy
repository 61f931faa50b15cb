/**
 * The older message builder (message_builder.go), keyed by a message type instead of
 * an alarm and built from a user record: the same header, user details and alarm time,
 * a single power-cut header for every REMOVE alarm, and no location section.
 * Its detail lines are those of `MsgBuilder.AddDetail`, which is the same function.
 */
module MessageBuilderV1 {
  import opened Wrappers
  import opened Text
  import opened Alarms
  import opened Users
  import opened Devices
  import MsgBuilder

  /** getUserDetails on a user record: absent fields empty, a VIN equal to the plate blanked. */
  function GetUserDetails(user: User): (r: MsgBuilder.UserDetails)
    ensures r.carOwner == user.carOwner.GetOr("") && r.licenseNumber == user.licenseNumber.GetOr("")
    ensures r.vin == "" || r.vin != r.licenseNumber
    ensures r.vin != "" ==> user.vin == Some(r.vin)
    ensures user.vin.Some? && user.vin.value != r.licenseNumber ==> r.vin == user.vin.value
  {
    var owner := user.carOwner.GetOr("");
    var plate := user.licenseNumber.GetOr("");
    var vin := user.vin.GetOr("");
    MsgBuilder.UserDetails(owner, plate, if plate == vin then "" else vin)
  }

  /** getAlert keyed by message type: one header per critical type, the unknown header otherwise. */
  function GetAlert(messageType: string): (r: string)
    ensures r != ""
    ensures !IsCritical(messageType) <==> r == MsgBuilder.UnknownAlert
    ensures messageType == SOS ==> r == MsgBuilder.SOSAlert
    ensures messageType == REMOVE ==> r == MsgBuilder.PowerCutAlert
    ensures messageType == LOWVOT ==> r == MsgBuilder.LowVoltageAlert
  {
    if messageType == SOS then MsgBuilder.SOSAlert
    else if messageType == REMOVE then MsgBuilder.PowerCutAlert
    else if messageType == LOWVOT then MsgBuilder.LowVoltageAlert
    else MsgBuilder.UnknownAlert
  }

  /** BuildMessage: header, user line, owner, plate and VIN details, then the alarm time. */
  function BuildMessage(user: User, messageType: string, time: int, renderLocal: int -> string): (r: string)
    ensures GetAlert(messageType) <= r
    ensures r != ""
    ensures EndsWith(r, "\nHora de alarma: " + renderLocal(time))
  {
    var details := GetUserDetails(user);
    var h := GetAlert(messageType) + "\nDatos del usuario:\nUsuario: " + user.userName +
      MsgBuilder.AddDetail("Propietario", details.carOwner) +
      MsgBuilder.AddDetail("Placa del veh\U{ED}culo", details.licenseNumber) +
      MsgBuilder.AddDetail("Vin", details.vin);
    var t := "\nHora de alarma: " + renderLocal(time);
    assert (h + t)[|h + t| - |t|..] == t;
    h + t
  }

  /** The REMOVE header no longer depends on the sub-type: every power-removal alarm reads the same. */
  lemma RemoveHeaderIgnoresSubtype(user: User, time: int, renderLocal: int -> string)
    ensures GetAlert(REMOVE) == MsgBuilder.GetAlert(REMOVE, 0)
    ensures GetAlert(REMOVE) != MsgBuilder.GetAlert(REMOVE, 1)
    ensures GetAlert(REMOVE) != MsgBuilder.GetAlert(REMOVE, 10)
  {
    MsgBuilder.AlertsDistinct();
  }

  /**
   * The two builders agree on everything the older one shows: for a device carrying
   * the user's details, the newer message is the older one followed by the location,
   * unless a REMOVE alarm has one of the two sub-types the older builder does not tell apart.
   */
  lemma NewerAddsLocation(user: User, device: Device, alarm: Alarm,
                          geocode: (string, string) -> Option<string>, renderLocal: int -> string)
    requires device.userName == user.userName && device.carOwner == user.carOwner
    requires device.licenseNumber == user.licenseNumber && device.vin == user.vin
    requires alarm.alarmCode == REMOVE ==> alarm.alarmType != 1 && alarm.alarmType != 10
    ensures MsgBuilder.BuildMessage(device, alarm, geocode, renderLocal) ==
      BuildMessage(user, alarm.alarmCode, alarm.time, renderLocal) + MsgBuilder.GetAlarmAddress(alarm, geocode)
  {
    assert MsgBuilder.GetAlert(alarm.alarmCode, alarm.alarmType) == GetAlert(alarm.alarmCode);
    assert MsgBuilder.GetUserDetails(device) == GetUserDetails(user);
  }
}
