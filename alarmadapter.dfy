/**
 * Provider adapters (alarmadapter.go): an IOPGPS record is copied field by field into the
 * canonical alarm; a WhatsGPS record is translated through two fixed tables that map the
 * vendor's alarm type to a canonical alarm code and a canonical alarm type number.
 */
module AlarmAdapter {
  import opened Wrappers
  import opened Text
  import opened Alarms
  import opened WhatsGPS

  /** The vendor alarm types both tables know. */
  const KnownTypes: set<int> := {1, 2, 3, 4, 5, 6, 7, 8, 9, 10, 11, 12, 13, 14, 15, 16, 17, 18, 19, 31, 32}

  /**
   * The two tables side by side, as a reference: vendor type -> (code, canonical type).
   */
  const Table: map<int, (string, int)> := map[
    1 := ("SHAKE", 3), 2 := ("POWEROFF", 92), 3 := (LOWVOT, 2), 4 := (SOS, 99),
    5 := ("OVERSPEED", 12), 6 := ("FENCEOUT", 16), 7 := (REMOVE, 1), 8 := (LOWVOT, 2),
    9 := ("AREAOUT", 18), 10 := (REMOVE, 11), 11 := (REMOVE, 10), 12 := ("MAGNETISM", 103),
    13 := ("REMOVECONTINUOUSLY", 6), 14 := ("BLUETOOTH", 102), 15 := ("SIGNALSHIELDING", 101),
    16 := ("PSEUDOBASESTATION", 14), 17 := ("FENCEIN", 17), 18 := ("FENCEIN", 17),
    19 := ("FENCEOUT", 16), 31 := ("ACCON", 44), 32 := ("ACCOFF", 45)]

  /** getAlarmCode: the canonical code of a vendor alarm type, UNKNOWN outside the table. */
  function AlarmCodeOf(alarmType: int): (r: string)
    ensures r != ""
    ensures r == UNKNOWN <==> alarmType !in KnownTypes
  {
    match alarmType
    case 1 => "SHAKE"
    case 2 => "POWEROFF"
    case 3 => LOWVOT
    case 4 => SOS
    case 5 => "OVERSPEED"
    case 6 => "FENCEOUT"
    case 7 => REMOVE
    case 8 => LOWVOT
    case 9 => "AREAOUT"
    case 10 => REMOVE
    case 11 => REMOVE
    case 12 => "MAGNETISM"
    case 13 => "REMOVECONTINUOUSLY"
    case 14 => "BLUETOOTH"
    case 15 => "SIGNALSHIELDING"
    case 16 => "PSEUDOBASESTATION"
    case 17 => "FENCEIN"
    case 18 => "FENCEIN"
    case 19 => "FENCEOUT"
    case 31 => "ACCON"
    case 32 => "ACCOFF"
    case _ => UNKNOWN
  }

  /** getAlarmType: the canonical type number of a vendor alarm type, the input itself outside the table. */
  function AlarmTypeOf(alarmType: int): (r: int)
    ensures alarmType !in KnownTypes ==> r == alarmType
  {
    match alarmType
    case 1 => 3
    case 2 => 92
    case 3 => 2
    case 4 => 99
    case 5 => 12
    case 6 => 16
    case 7 => 1
    case 8 => 2
    case 9 => 18
    case 10 => 11
    case 11 => 10
    case 12 => 103
    case 13 => 6
    case 14 => 102
    case 15 => 101
    case 16 => 14
    case 17 => 17
    case 18 => 17
    case 19 => 16
    case 31 => 44
    case 32 => 45
    case _ => alarmType
  }

  /** Both switches agree with the reference table, and fall back outside it. */
  lemma TablesAgree(alarmType: int)
    ensures alarmType in Table <==> alarmType in KnownTypes
    ensures alarmType in Table ==> (AlarmCodeOf(alarmType), AlarmTypeOf(alarmType)) == Table[alarmType]
    ensures alarmType !in Table ==> AlarmCodeOf(alarmType) == UNKNOWN && AlarmTypeOf(alarmType) == alarmType
  {
  }

  /** The vendor types that share a canonical code, and the canonical types they keep apart. */
  lemma SharedCodes(alarmType: int)
    ensures AlarmCodeOf(alarmType) == LOWVOT <==> alarmType == 3 || alarmType == 8
    ensures AlarmCodeOf(alarmType) == SOS <==> alarmType == 4
    ensures AlarmCodeOf(alarmType) == REMOVE <==> alarmType == 7 || alarmType == 10 || alarmType == 11
    ensures AlarmCodeOf(alarmType) == "FENCEIN" <==> alarmType == 17 || alarmType == 18
    ensures AlarmCodeOf(alarmType) == "FENCEOUT" <==> alarmType == 6 || alarmType == 19
    ensures alarmType == 3 || alarmType == 8 ==> AlarmTypeOf(alarmType) == 2
    ensures alarmType == 17 || alarmType == 18 ==> AlarmTypeOf(alarmType) == 17
    ensures alarmType == 6 || alarmType == 19 ==> AlarmTypeOf(alarmType) == 16
    ensures AlarmTypeOf(7) == 1 && AlarmTypeOf(10) == 11 && AlarmTypeOf(11) == 10
  {
  }

  /** The vendor types whose canonical code leads to a notification. */
  lemma CriticalVendorTypes(alarmType: int)
    ensures IsCritical(AlarmCodeOf(alarmType)) <==> alarmType in {3, 4, 7, 8, 10, 11}
  {
    SharedCodes(alarmType);
  }

  /** AlarmDataAdapterImpl.ToAlarmRequest: a field-by-field copy with no address. */
  function ToAlarmRequest(data: AlarmData): (r: Alarm)
    ensures r.imei == data.imei && r.positionType == data.positionType
    ensures r.lat == data.lat && r.lng == data.lng && r.time == data.time
    ensures r.alarmCode == data.alarmCode && r.alarmType == data.alarmType
    ensures r.course == data.course && r.deviceType == data.deviceType && r.speed == data.speed
    ensures r.address == None
  {
    Alarm(data.imei, data.positionType, data.lat, data.lng, data.time, None,
          data.alarmCode, data.alarmType, data.course, data.deviceType, data.speed)
  }

  /** ConvertAlarmDataToRequest. */
  function ConvertAlarmDataToRequest(data: AlarmData): (r: Alarm)
    ensures r == ToAlarmRequest(data)
  {
    ToAlarmRequest(data)
  }

  /**
   * Two raw records that differ only in what the canonical alarm does not keep
   * (the raw code and the raw alarm time) convert to the same alarm; records that
   * differ in anything else convert to different alarms.
   */
  lemma ToAlarmRequestKeeps(a: AlarmData, b: AlarmData)
    ensures ToAlarmRequest(a) == ToAlarmRequest(b) <==>
      a.(code := 0, alarmTime := 0) == b.(code := 0, alarmTime := 0)
  {
  }

  /**
   * WhatsGPSAlarmDataAdapterImpl.WhatsGPSToAlarmRequest. `formatCoord` renders a
   * coordinate as strconv.FormatFloat(x, 'f', 7, 64) does.
   */
  function WhatsGPSToAlarmRequest(data: WhatsGPSAlarm, formatCoord: real -> string): (r: Alarm)
    ensures r.positionType == Some("GPS") && r.course == Some(0) && r.deviceType == 1
    ensures r.speed == Some(data.speed) && r.address == None
    ensures r.lat == Some(formatCoord(data.lat)) && r.lng == Some(formatCoord(data.lon))
    ensures r.imei == IntToDecimal(data.carId)
    ensures r.alarmCode == AlarmCodeOf(data.alarmType) && r.alarmType == AlarmTypeOf(data.alarmType)
    ensures r.time == UnixSeconds(data.alarmTime)
  {
    Alarm(IntToDecimal(data.carId), Some("GPS"), Some(formatCoord(data.lat)), Some(formatCoord(data.lon)),
          UnixSeconds(data.alarmTime), None, AlarmCodeOf(data.alarmType), AlarmTypeOf(data.alarmType),
          Some(0), 1, Some(data.speed))
  }

  /** ConvertWhatsGPSAlarmDataToRequest. */
  function ConvertWhatsGPSAlarmDataToRequest(data: WhatsGPSAlarm, formatCoord: real -> string): (r: Alarm)
    ensures r == WhatsGPSToAlarmRequest(data, formatCoord)
  {
    WhatsGPSToAlarmRequest(data, formatCoord)
  }

  /** The IMEI of a translated WhatsGPS alarm parses back to the vendor's car id. */
  lemma WhatsGPSImeiParsesBack(data: WhatsGPSAlarm, formatCoord: real -> string)
    requires InInt64(data.carId)
    ensures ParseInt64(WhatsGPSToAlarmRequest(data, formatCoord).imei) == Success(data.carId)
  {
    ParseInt64OfIntToDecimal(data.carId);
  }

  /** A WhatsGPS alarm whose time was null carries Go's zero-time Unix value. */
  lemma WhatsGPSNullTime(data: WhatsGPSAlarm, formatCoord: real -> string)
    requires data.alarmTime == ZeroTime
    ensures WhatsGPSToAlarmRequest(data, formatCoord).time == -62135596800
  {
    ZeroTimeUnix();
  }
}
