/**
 * The user record of the older per-user polling loop and its three fixed alarm
 * messages (user.go). Each message names the user and, separately or on one combined
 * line, the car owner, then the plate and the local alarm time; the VIN is never shown.
 */
module Users {
  import opened Wrappers
  import opened Text

  /** A tracked user; the owner, plate and VIN may be absent (Go nil pointers). */
  datatype User = User(
    id: int,
    accountId: int,
    accountName: string,
    userName: string,
    imei: string,
    licenseNumber: Option<string>,
    vin: Option<string>,
    carOwner: Option<string>,
    isTracking: bool)

  const SOSHeader: string := "\U{1F6A8}\U{1F6A8} ALERTA DE SOS \U{1F6A8}\U{1F6A8}"
  const PowerCutHeader: string := "\U{26A1}\U{26A1} ALERTA DE CORTE DE CORRIENTE \U{26A1}\U{26A1}"
  const LowVoltageHeader: string := "\U{26A1}\U{26A1} ALERTA DE CORRIENTE BAJA \U{26A1}\U{26A1}"

  /** The builders dereference the owner and the plate unconditionally: both must be present. */
  predicate Describable(user: User) {
    user.carOwner.Some? && user.licenseNumber.Some?
  }

  /** The line naming the user and the owner: one combined line when they are the same text. */
  function PeopleLines(user: User): string
    requires Describable(user)
  {
    if user.userName == user.carOwner.value then "Usuario y propietario: " + user.userName
    else "Usuario: " + user.userName + "\nPropietario: " + user.carOwner.value
  }

  /**
   * Everything after the header; `localTime` is the alarm time as Go prints a
   * time.Time in the America/Guayaquil zone.
   */
  function Body(user: User, localTime: string): (r: string)
    requires Describable(user)
    ensures Contains(r, "\nPlaca del veh\U{ED}culo: " + user.licenseNumber.value)
    ensures Contains(r, PeopleLines(user))
    ensures EndsWith(r, "\nHora de alarma: " + localTime)
  {
    var head := "\nDatos del usuario:\n";
    var plate := "\nPlaca del veh\U{ED}culo: " + user.licenseNumber.value;
    var time := "\nHora de alarma: " + localTime;
    ContainsMiddle(head + PeopleLines(user), plate, time);
    ContainsMiddle(head, PeopleLines(user), plate + time);
    assert head + PeopleLines(user) + plate + time == head + PeopleLines(user) + (plate + time);
    head + PeopleLines(user) + plate + time
  }

  /** GetSOSMessage. */
  function GetSOSMessage(user: User, time: int, renderLocal: int -> string): (r: string)
    requires Describable(user)
    ensures SOSHeader <= r && r[|SOSHeader|..] == Body(user, renderLocal(time))
  {
    SOSHeader + Body(user, renderLocal(time))
  }

  /** GetRemoveMessage. */
  function GetRemoveMessage(user: User, time: int, renderLocal: int -> string): (r: string)
    requires Describable(user)
    ensures PowerCutHeader <= r && r[|PowerCutHeader|..] == Body(user, renderLocal(time))
  {
    PowerCutHeader + Body(user, renderLocal(time))
  }

  /** GetLowvotMessage. */
  function GetLowvotMessage(user: User, time: int, renderLocal: int -> string): (r: string)
    requires Describable(user)
    ensures LowVoltageHeader <= r && r[|LowVoltageHeader|..] == Body(user, renderLocal(time))
  {
    LowVoltageHeader + Body(user, renderLocal(time))
  }

  /** A user who is the owner gets the combined line; otherwise user and owner get one line each. */
  lemma OwnerLines(user: User, localTime: string)
    requires Describable(user)
    ensures user.userName == user.carOwner.value ==>
      Contains(Body(user, localTime), "Usuario y propietario: " + user.userName)
    ensures user.userName != user.carOwner.value ==>
      Contains(Body(user, localTime), "Usuario: " + user.userName + "\nPropietario: " + user.carOwner.value)
  {
  }

  /** No message depends on the VIN. */
  lemma VinIgnored(user: User, vin: Option<string>, time: int, renderLocal: int -> string)
    requires Describable(user)
    ensures GetSOSMessage(user.(vin := vin), time, renderLocal) == GetSOSMessage(user, time, renderLocal)
    ensures GetRemoveMessage(user.(vin := vin), time, renderLocal) == GetRemoveMessage(user, time, renderLocal)
    ensures GetLowvotMessage(user.(vin := vin), time, renderLocal) == GetLowvotMessage(user, time, renderLocal)
  {
  }

  /** The three headers are distinct and none is a prefix of another, so a message names its kind. */
  lemma HeadersDistinguish(user: User, time: int, renderLocal: int -> string)
    requires Describable(user)
    ensures !(PowerCutHeader <= GetSOSMessage(user, time, renderLocal))
    ensures !(SOSHeader <= GetRemoveMessage(user, time, renderLocal))
    ensures !(LowVoltageHeader <= GetRemoveMessage(user, time, renderLocal))
    ensures !(PowerCutHeader <= GetLowvotMessage(user, time, renderLocal))
  {
    assert SOSHeader[0] != PowerCutHeader[0];
    assert PowerCutHeader[16] != LowVoltageHeader[16];
  }
}
