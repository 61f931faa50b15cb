/**
 * Notification recipients of a device (phones.go): the backend lists the device's
 * users, each with their phone numbers; the numbers are flattened user by user.
 */
module Phones {
  import opened Wrappers

  datatype PhoneNumber = PhoneNumber(phoneNumber: string)

  /** One user of a device and their phone numbers. */
  datatype UserPhoneNumber = UserPhoneNumber(user: string, phoneNumbers: seq<PhoneNumber>)

  const DevicesApiURL: string := "https://api.road-safety-ec.com/api/v1/devices/"

  /** The recipients endpoint of a device. */
  function PhonesURL(imei: string): (url: string)
    ensures |url| == |DevicesApiURL| + |imei| + 8
    ensures DevicesApiURL <= url && url[|DevicesApiURL|..|DevicesApiURL| + |imei|] == imei
    ensures url[|DevicesApiURL| + |imei|..] == "/phones/"
  {
    DevicesApiURL + imei + "/phones/"
  }

  /** One user's numbers, in order. */
  function NumbersOf(u: UserPhoneNumber): (r: seq<string>)
    ensures |r| == |u.phoneNumbers| && forall k :: 0 <= k < |r| ==> r[k] == u.phoneNumbers[k].phoneNumber
  {
    seq(|u.phoneNumbers|, k requires 0 <= k < |u.phoneNumbers| => u.phoneNumbers[k].phoneNumber)
  }

  /** All numbers, users first and each user's numbers in order. */
  function Flatten(users: seq<UserPhoneNumber>): seq<string>
    decreases |users|
  {
    if users == [] then [] else Flatten(users[..|users| - 1]) + NumbersOf(users[|users| - 1])
  }

  /** How many numbers the users have between them. */
  function TotalNumbers(users: seq<UserPhoneNumber>): nat
    decreases |users|
  {
    if users == [] then 0 else TotalNumbers(users[..|users| - 1]) + |users[|users| - 1].phoneNumbers|
  }

  /** The flattened list holds exactly as many numbers as the users have between them. */
  lemma {:induction false} FlattenLength(users: seq<UserPhoneNumber>)
    ensures |Flatten(users)| == TotalNumbers(users)
    decreases |users|
  {
    if users != [] {
      FlattenLength(users[..|users| - 1]);
    }
  }

  /** Flattening two lists of users is flattening each and concatenating, in that order. */
  lemma {:induction false} FlattenAppend(u: seq<UserPhoneNumber>, v: seq<UserPhoneNumber>)
    ensures Flatten(u + v) == Flatten(u) + Flatten(v)
    decreases |v|
  {
    if v == [] {
      assert u + v == u;
    } else {
      assert (u + v)[..|u + v| - 1] == u + v[..|v| - 1];
      FlattenAppend(u, v[..|v| - 1]);
    }
  }

  /** Every number of every user appears in the flattened list. */
  lemma {:induction false} FlattenKeepsEveryNumber(users: seq<UserPhoneNumber>, i: nat, k: nat)
    requires i < |users| && k < |users[i].phoneNumbers|
    ensures users[i].phoneNumbers[k].phoneNumber in Flatten(users)
    decreases |users|
  {
    if i < |users| - 1 {
      FlattenKeepsEveryNumber(users[..|users| - 1], i, k);
    } else {
      assert NumbersOf(users[i])[k] == users[i].phoneNumbers[k].phoneNumber;
    }
  }

  /**
   * GetPhoneNumbersFromAPI. `fetch(url)` stands for the request and the JSON decoding:
   * the decoded users, or the error of any step.
   */
  method GetPhoneNumbersFromAPI(imei: string, fetch: string -> Result<seq<UserPhoneNumber>, string>)
    returns (r: Result<seq<string>, string>)
    ensures fetch(PhonesURL(imei)).Failure? ==> r.Failure?
    ensures fetch(PhonesURL(imei)).Success? ==> r == Success(Flatten(fetch(PhonesURL(imei)).value))
  {
    var decoded := fetch(PhonesURL(imei));
    if decoded.Failure? {
      return Failure("error unmarshalling the JSON: " + decoded.error);
    }
    var users := decoded.value;
    var phoneNumbers: seq<string> := [];
    for i := 0 to |users|
      invariant phoneNumbers == Flatten(users[..i])
    {
      assert users[..i + 1][..i] == users[..i];
      var numbers := users[i].phoneNumbers;
      for j := 0 to |numbers|
        invariant phoneNumbers == Flatten(users[..i]) + NumbersOf(users[i])[..j]
      {
        assert NumbersOf(users[i])[..j + 1] == NumbersOf(users[i])[..j] + [numbers[j].phoneNumber];
        phoneNumbers := phoneNumbers + [numbers[j].phoneNumber];
      }
      assert NumbersOf(users[i])[..|numbers|] == NumbersOf(users[i]);
    }
    assert users[..|users|] == users;
    r := Success(phoneNumbers);
  }
}
