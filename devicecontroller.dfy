/**
 * First stage (devicecontroller.go): fetch the devices matching the query; when the
 * fetch fails, fall back to the last device list this stage produced.
 */
module DeviceControllers {
  import opened Wrappers
  import opened Devices
  import opened Handlers

  /** The device list after a fetch: the fetched list, or the previous one on failure. */
  function AfterFetch(fetched: Result<seq<Device>, string>, last: seq<Device>): (r: seq<Device>)
    ensures fetched.Success? ==> r == fetched.value
    ensures fetched.Failure? ==> r == last
  {
    if fetched.Success? then fetched.value else last
  }

  /** The list held after a run of fetches, replayed in order from `initial`. */
  function Held(outcomes: seq<Result<seq<Device>, string>>, initial: seq<Device>): seq<Device>
    decreases |outcomes|
  {
    if outcomes == [] then initial
    else AfterFetch(outcomes[|outcomes| - 1], Held(outcomes[..|outcomes| - 1], initial))
  }

  /** The last successful fetch in a run, if any. */
  function LastSuccess(outcomes: seq<Result<seq<Device>, string>>): (r: Option<seq<Device>>)
    ensures r.None? <==> forall k :: 0 <= k < |outcomes| ==> outcomes[k].Failure?
    decreases |outcomes|
  {
    if outcomes == [] then None
    else if outcomes[|outcomes| - 1].Success? then Some(outcomes[|outcomes| - 1].value)
    else LastSuccess(outcomes[..|outcomes| - 1])
  }

  /**
   * A failed fetch never loses the known devices: after any run of fetches the stage
   * holds the result of the last successful one (even an empty list), or the
   * initial list when none succeeded.
   */
  lemma {:induction false} HeldIsLastSuccess(outcomes: seq<Result<seq<Device>, string>>, initial: seq<Device>)
    ensures Held(outcomes, initial) == LastSuccess(outcomes).GetOr(initial)
    decreases |outcomes|
  {
    if outcomes != [] {
      HeldIsLastSuccess(outcomes[..|outcomes| - 1], initial);
    }
  }

  class DeviceController {
    var next: Option<Stage>
    var lastDevices: seq<Device>

    constructor ()
      ensures next == None && lastDevices == []
    {
      next := None;
      lastDevices := [];
    }

    method SetNext(stage: Stage)
      modifies this`next
      ensures next == Some(stage)
    {
      next := Some(stage);
    }

    /**
     * Handle. `fetch` stands for getDevices: the decoded device list or the error of
     * building, sending or decoding the request.
     */
    method Handle(data: Payload, fetch: map<string, string> -> Result<seq<Device>, string>)
      returns (r: Result<Payload, string>)
      modifies this`lastDevices
      ensures !data.Query? ==> r.Failure? && lastDevices == old(lastDevices)
      ensures data.Query? ==> lastDevices == AfterFetch(fetch(data.params), old(lastDevices))
      ensures data.Query? ==> r == Success(DeviceList(lastDevices))
    {
      if !data.Query? {
        return Failure("data is not of type map[string]string");
      }
      var devices: seq<Device>;
      var fetched := fetch(data.params);
      if fetched.Failure? {
        devices := lastDevices;
      } else {
        devices := fetched.value;
      }
      lastDevices := devices;
      r := Success(DeviceList(devices));
    }
  }
}
