/**
 * Record types shared by the pipeline: the canonical alarm the backend stores
 * (alarm.go) and the raw IOPGPS alarm record (alarmresponse.go, repeated in cronjob.go).
 * Go's int64 fields are unbounded integers here; Go's pointer fields are `Option`s.
 */
module Alarms {
  import opened Wrappers

  /** Canonical alarm, one per raw vendor record. */
  datatype Alarm = Alarm(
    imei: string,
    positionType: Option<string>,
    lat: Option<string>,
    lng: Option<string>,
    time: int,
    address: Option<string>,
    alarmCode: string,
    alarmType: int,
    course: Option<int>,
    deviceType: int,
    speed: Option<int>)

  /** Raw IOPGPS alarm record as decoded from the "details" list. */
  datatype AlarmData = AlarmData(
    code: int,
    positionType: Option<string>,
    imei: string,
    lat: Option<string>,
    lng: Option<string>,
    time: int,
    speed: Option<int>,
    course: Option<int>,
    alarmCode: string,
    alarmTime: int,
    deviceType: int,
    alarmType: int)

  const SOS: string := "SOS"
  const REMOVE: string := "REMOVE"
  const LOWVOT: string := "LOWVOT"
  const UNKNOWN: string := "UNKNOWN"

  /** The alarm codes that lead to a notification. */
  predicate IsCritical(code: string) {
    code == SOS || code == LOWVOT || code == REMOVE
  }
}
