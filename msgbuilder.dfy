/**
 * Notification text for one critical alarm of one device (msgbuilder.go): a header
 * chosen by alarm code and sub-type, the user's details with absent or duplicate
 * fields left out, the local alarm time and the location, resolved through a reverse
 * geocoder only when the alarm carries both coordinates.
 */
module MsgBuilder {
  import opened Wrappers
  import opened Text
  import opened Alarms
  import opened Devices

  const SOSAlert: string := "\U{1F6A8}\U{1F6A8} ALERTA DE SOS \U{1F6A8}\U{1F6A8}"
  const DismountAlert: string := "\U{1F527}\U{1F527} ALERTA DE DESMONTAJE \U{1F527}\U{1F527}"
  const LightSensorAlert: string := "\U{1F4A1}\U{1F4A1} ALERTA DE SENSOR DE LUZ \U{1F4A1}\U{1F4A1}"
  const PowerCutAlert: string := "\U{26A1}\U{26A1} ALERTA DE CORTE DE CORRIENTE \U{26A1}\U{26A1}"
  const LowVoltageAlert: string := "\U{26A1}\U{26A1} ALERTA DE CORRIENTE BAJA \U{26A1}\U{26A1}"
  const UnknownAlert: string := "ALERTA DESCONOCIDA"

  const UnknownLocation: string := "\nUbicaci\U{F3}n desconocida\n"
  const MapsSearchBase: string := "https://www.google.com/maps/search/?api=1&query="

  /** addDetail: one labelled line, or nothing at all for an empty value. */
  function AddDetail(name: string, value: string): (r: string)
    ensures value == "" <==> r == ""
    ensures value != "" ==> r == "\n" + name + ": " + value
  {
    if value != "" then "\n" + name + ": " + value else ""
  }

  /** The owner, plate and VIN texts a message shows. */
  datatype UserDetails = UserDetails(carOwner: string, licenseNumber: string, vin: string)

  /**
   * getUserDetails: absent fields read as empty text, and the VIN is blanked whenever
   * it is the same text as the plate.
   */
  function GetUserDetails(device: Device): (r: UserDetails)
    ensures r.carOwner == device.carOwner.GetOr("") && r.licenseNumber == device.licenseNumber.GetOr("")
    ensures r.vin == "" || r.vin != r.licenseNumber
    ensures r.vin != "" ==> device.vin == Some(r.vin)
    ensures device.vin.Some? && device.vin.value != r.licenseNumber ==> r.vin == device.vin.value
  {
    var owner := device.carOwner.GetOr("");
    var plate := device.licenseNumber.GetOr("");
    var vin := device.vin.GetOr("");
    UserDetails(owner, plate, if plate == vin then "" else vin)
  }

  /**
   * getAlert: SOS and LOWVOT have one header each; REMOVE has three, chosen by the
   * canonical alarm type (1 dismounting, 10 light sensor, any other a power cut);
   * every other code gets the unknown-alert header.
   */
  function GetAlert(alarmCode: string, alarmType: int): (r: string)
    ensures r != ""
    ensures !IsCritical(alarmCode) <==> r == UnknownAlert
    ensures alarmCode == SOS ==> r == SOSAlert
    ensures alarmCode == LOWVOT ==> r == LowVoltageAlert
    ensures alarmCode == REMOVE ==>
      r == (if alarmType == 1 then DismountAlert else if alarmType == 10 then LightSensorAlert else PowerCutAlert)
  {
    if alarmCode == SOS then SOSAlert
    else if alarmCode == REMOVE then
      (if alarmType == 1 then DismountAlert else if alarmType == 10 then LightSensorAlert else PowerCutAlert)
    else if alarmCode == LOWVOT then LowVoltageAlert
    else UnknownAlert
  }

  /** getCoordinates: latitude and longitude texts, empty where absent. */
  function GetCoordinates(alarm: Alarm): (r: (string, string))
    ensures r.0 == alarm.lat.GetOr("") && r.1 == alarm.lng.GetOr("")
  {
    (alarm.lat.GetOr(""), alarm.lng.GetOr(""))
  }

  /** Both coordinates are present and non-empty. */
  predicate Located(alarm: Alarm) {
    GetCoordinates(alarm).0 != "" && GetCoordinates(alarm).1 != ""
  }

  /** getGoogleMapsLink: a maps search for "lat,lng", or nothing without both coordinates. */
  function GetGoogleMapsLink(alarm: Alarm): (r: string)
    ensures !Located(alarm) <==> r == ""
    ensures Located(alarm) ==> MapsSearchBase <= r
  {
    var (lat, lng) := GetCoordinates(alarm);
    if lat == "" || lng == "" then "" else MapsSearchBase + lat + "," + lng
  }

  /**
   * getAlarmAddress. `geocode` is the reverse geocoder (GetAddress), None when it finds
   * nothing or fails.
   */
  function GetAlarmAddress(alarm: Alarm, geocode: (string, string) -> Option<string>): (r: string)
    ensures !Located(alarm) ==> r == UnknownLocation
    ensures Located(alarm) && geocode(GetCoordinates(alarm).0, GetCoordinates(alarm).1).None? ==> r == UnknownLocation
  {
    var (lat, lng) := GetCoordinates(alarm);
    if lat == "" || lng == "" then UnknownLocation
    else
      match geocode(lat, lng)
      case None => UnknownLocation
      case Some(address) =>
        var link := GetGoogleMapsLink(alarm);
        if link != "" then AddDetail("Ubicaci\U{F3}n", address) + "\nEnlace a Google Maps: " + link
        else AddDetail("Ubicaci\U{F3}n", address)
  }

  /** With a non-empty address the location names it and links to the map search for "lat,lng". */
  lemma AddressWithLink(alarm: Alarm, geocode: (string, string) -> Option<string>)
    requires Located(alarm)
    requires var a := geocode(GetCoordinates(alarm).0, GetCoordinates(alarm).1); a.Some? && a.value != ""
    ensures GetAlarmAddress(alarm, geocode) ==
      ("\n" + "Ubicaci\U{F3}n" + ": " + geocode(alarm.lat.value, alarm.lng.value).value) +
      "\nEnlace a Google Maps: " + (MapsSearchBase + alarm.lat.value + "," + alarm.lng.value)
  {
    var link := GetGoogleMapsLink(alarm);
    assert link == MapsSearchBase + alarm.lat.value + "," + alarm.lng.value;
  }

  /**
   * The part of the message that does not depend on the geocoder: header, user line,
   * owner, plate and VIN details, alarm time. `renderLocal` prints unix seconds as
   * Go prints a time.Time in the America/Guayaquil zone.
   */
  function Heading(device: Device, alarm: Alarm, renderLocal: int -> string): (r: string)
    ensures GetAlert(alarm.alarmCode, alarm.alarmType) <= r
  {
    var details := GetUserDetails(device);
    GetAlert(alarm.alarmCode, alarm.alarmType) + "\nDatos del usuario:\nUsuario: " + device.userName +
    AddDetail("Propietario", details.carOwner) +
    AddDetail("Placa del veh\U{ED}culo", details.licenseNumber) +
    AddDetail("Vin", details.vin) +
    "\nHora de alarma: " + renderLocal(alarm.time)
  }

  /** BuildMessage: the heading followed by the location. */
  function BuildMessage(device: Device, alarm: Alarm, geocode: (string, string) -> Option<string>,
                        renderLocal: int -> string): (r: string)
    ensures GetAlert(alarm.alarmCode, alarm.alarmType) <= r
    ensures r != ""
    ensures EndsWith(r, GetAlarmAddress(alarm, geocode))
  {
    var h := Heading(device, alarm, renderLocal);
    var a := GetAlarmAddress(alarm, geocode);
    assert (h + a)[|h + a| - |a|..] == a;
    assert (h + a)[..|h|] == h;
    h + a
  }

  /** A VIN equal to the plate leaves the message exactly as if there were no VIN. */
  lemma VinSameAsPlateOmitted(d1: Device, d2: Device, alarm: Alarm, geocode: (string, string) -> Option<string>,
                              renderLocal: int -> string)
    requires d1.userName == d2.userName && d1.carOwner == d2.carOwner && d1.licenseNumber == d2.licenseNumber
    requires d1.vin == Some(d1.licenseNumber.GetOr("")) && d2.vin == None
    ensures BuildMessage(d1, alarm, geocode, renderLocal) == BuildMessage(d2, alarm, geocode, renderLocal)
  {
  }

  /** An absent owner and a blank owner give the same message: no owner line either way. */
  lemma BlankOwnerNoLine(d1: Device, d2: Device, alarm: Alarm, geocode: (string, string) -> Option<string>,
                         renderLocal: int -> string)
    requires d1.userName == d2.userName && d1.licenseNumber == d2.licenseNumber && d1.vin == d2.vin
    requires d1.carOwner == Some("") && d2.carOwner == None
    ensures BuildMessage(d1, alarm, geocode, renderLocal) == BuildMessage(d2, alarm, geocode, renderLocal)
    ensures AddDetail("Propietario", GetUserDetails(d1).carOwner) == ""
  {
  }

  /** Without both coordinates the geocoder is never consulted and the location is unknown. */
  lemma NoCoordinatesNoGeocoder(device: Device, alarm: Alarm, g1: (string, string) -> Option<string>,
                                g2: (string, string) -> Option<string>, renderLocal: int -> string)
    requires !Located(alarm)
    ensures BuildMessage(device, alarm, g1, renderLocal) == BuildMessage(device, alarm, g2, renderLocal)
    ensures EndsWith(BuildMessage(device, alarm, g1, renderLocal), UnknownLocation)
  {
  }

  /** The three REMOVE headers and the other headers are pairwise distinct. */
  lemma AlertsDistinct()
    ensures |{SOSAlert, DismountAlert, LightSensorAlert, PowerCutAlert, LowVoltageAlert, UnknownAlert}| == 6
  {
    assert SOSAlert[0] != DismountAlert[0] && SOSAlert[0] != LightSensorAlert[0] && SOSAlert[0] != PowerCutAlert[0];
    assert DismountAlert[0] != LightSensorAlert[0] && DismountAlert[0] != PowerCutAlert[0];
    assert LightSensorAlert[0] != PowerCutAlert[0] && PowerCutAlert[16] != LowVoltageAlert[16];
    assert UnknownAlert[0] != SOSAlert[0] && UnknownAlert[0] != PowerCutAlert[0];
    assert UnknownAlert[0] != DismountAlert[0] && UnknownAlert[0] != LightSensorAlert[0];
    assert LowVoltageAlert[0] != SOSAlert[0] && LowVoltageAlert[0] != DismountAlert[0];
    assert LowVoltageAlert[0] != LightSensorAlert[0] && LowVoltageAlert[0] != UnknownAlert[0];
  }
}
