/**
 * The Director (director.go): a singleton that builds the five-stage chain
 * DeviceController -> RequestGenerator -> RequestExecutor -> DataSaver -> MessageSender
 * and runs a request through it; and the tracking scheduler, which starts once and,
 * on every tick, launches a run only when no run is in flight.
 */
module Directors {
  import opened Wrappers
  import opened Alarms
  import opened Devices
  import opened Handlers
  import DeviceControllers
  import RequestGenerators
  import RequestExecutors
  import DataSavers
  import MsgSender

  /** Everything the stages reach outside the program: the device service, clocks, vendors, backend and notifier. */
  datatype Services = Services(
    fetchDevices: map<string, string> -> Result<seq<Device>, string>,
    clock: nat -> int,
    token: string,
    formatLocal: int -> string,
    escape: string -> string,
    accessToken: string,
    vendors: RequestExecutors.Vendors,
    post: Alarm -> Option<int>,
    notifier: MsgSender.Notifier)

  /** The stages in the order BuildChain links them. */
  const ChainOrder: seq<Stage> :=
    [DeviceControllerStage, RequestGeneratorStage, RequestExecutorStage, DataSaverStage, MessageSenderStage]

  /** The `next` link BuildChain gives each stage. */
  function Successor(s: Stage): (r: Option<Stage>)
    ensures r.Some? ==> r.value.Rank() == s.Rank() + 1
    ensures r.None? <==> s == MessageSenderStage
  {
    match s
    case DeviceControllerStage => Some(RequestGeneratorStage)
    case RequestGeneratorStage => Some(RequestExecutorStage)
    case RequestExecutorStage => Some(DataSaverStage)
    case DataSaverStage => Some(MessageSenderStage)
    case MessageSenderStage => None
  }

  /** Following the links from the first stage visits exactly ChainOrder. */
  lemma LinksFollowChainOrder()
    ensures forall k :: 0 <= k < |ChainOrder| ==> ChainOrder[k].Rank() == k
    ensures forall k :: 0 <= k < |ChainOrder| - 1 ==> Successor(ChainOrder[k]) == Some(ChainOrder[k + 1])
    ensures Successor(ChainOrder[|ChainOrder| - 1]) == None
  {
  }

  /** The URL list the RequestGenerator builds for a device list, and none for any other payload. */
  function URLsFor(data: Payload, svc: Services): (urls: seq<string>)
    reads if data.DeviceList? then data.devices else []
    ensures data.DeviceList? ==> |urls| == |data.devices|
  {
    if data.DeviceList? then RequestGenerators.GeneratedURLs(data.devices, svc.clock, svc.token, svc.formatLocal, svc.escape)
    else []
  }

  /**
   * What `stage` hands on for `data`, or None where its Handle fails on the payload's
   * shape. `held` is the DeviceController's list before the call and `urls` the list
   * URLsFor gives for `data`: the DeviceController hands on `held` updated by the fetch,
   * the RequestGenerator the URLs, the RequestExecutor the alarms gathered from every
   * URL, the DataSaver its input and the MessageSender the critical alarms.
   */
  function StageOutput(stage: Stage, data: Payload, held: seq<Device>, urls: seq<string>, svc: Services): (r: Option<Payload>)
    ensures r.Some? <==> match stage
      case DeviceControllerStage => data.Query?
      case RequestGeneratorStage => data.DeviceList?
      case RequestExecutorStage => data.UrlList?
      case _ => data.AlarmList?
  {
    match stage
    case DeviceControllerStage =>
      if data.Query? then Some(DeviceList(DeviceControllers.AfterFetch(svc.fetchDevices(data.params), held))) else None
    case RequestGeneratorStage => if data.DeviceList? then Some(UrlList(urls)) else None
    case RequestExecutorStage =>
      if data.UrlList? then Some(AlarmList(RequestExecutors.Gather(data.urls, svc.accessToken, svc.vendors))) else None
    case DataSaverStage => if data.AlarmList? then Some(data) else None
    case MessageSenderStage => if data.AlarmList? then Some(AlarmList(MsgSender.Critical(data.alarms))) else None
  }

  /** Each stage sits in ChainOrder at its rank. */
  lemma RankIndexesChainOrder(s: Stage)
    ensures s.Rank() < |ChainOrder| && ChainOrder[s.Rank()] == s
  {
  }

  /**
   * What the chain from `stage` on returns for `data`: each stage's output goes to the
   * next one, the last stage's output is the result, and a stage that fails ends the
   * run with None. `held` and `urls` are as for StageOutput.
   */
  function Downstream(stage: Stage, data: Payload, held: seq<Device>, urls: seq<string>, svc: Services): Option<Payload>
    decreases |ChainOrder| - stage.Rank()
  {
    match StageOutput(stage, data, held, urls, svc)
    case None => None
    case Some(out) =>
      match Successor(stage)
      case None => Some(out)
      case Some(next) => Downstream(next, out, held, urls, svc)
  }

  /** Past the DeviceController the held list does not matter, and past the RequestGenerator neither does the URL list. */
  lemma {:induction false} DownstreamIgnores(stage: Stage, data: Payload, held: seq<Device>, held': seq<Device>,
                                             urls: seq<string>, urls': seq<string>, svc: Services)
    requires stage.Rank() >= 1 || held == held'
    requires stage.Rank() >= 2 || urls == urls'
    ensures Downstream(stage, data, held, urls, svc) == Downstream(stage, data, held', urls', svc)
    decreases |ChainOrder| - stage.Rank()
  {
    assert StageOutput(stage, data, held, urls, svc) == StageOutput(stage, data, held', urls', svc);
    match StageOutput(stage, data, held, urls, svc)
    case None =>
    case Some(out) =>
      if Successor(stage).Some? {
        DownstreamIgnores(Successor(stage).value, out, held, held', urls, urls', svc);
      }
  }

  /**
   * The whole chain: a query comes back as the critical alarms among those gathered
   * from `urls`, and anything else fails at the DeviceController.
   */
  lemma QueryDownstream(request: Payload, held: seq<Device>, urls: seq<string>, svc: Services)
    ensures !request.Query? ==> Downstream(DeviceControllerStage, request, held, urls, svc) == None
    ensures request.Query? ==>
      Downstream(DeviceControllerStage, request, held, urls, svc) ==
      Some(AlarmList(MsgSender.Critical(RequestExecutors.Gather(urls, svc.accessToken, svc.vendors))))
  {
    if request.Query? {
      var gathered := AlarmList(RequestExecutors.Gather(urls, svc.accessToken, svc.vendors));
      var critical := AlarmList(MsgSender.Critical(gathered.alarms));
      assert Downstream(MessageSenderStage, gathered, held, urls, svc) == Some(critical);
      assert Downstream(DataSaverStage, gathered, held, urls, svc) == Some(critical);
      assert Downstream(RequestExecutorStage, UrlList(urls), held, urls, svc) == Some(critical);
      var devices := DeviceList(DeviceControllers.AfterFetch(svc.fetchDevices(request.params), held));
      assert Downstream(RequestGeneratorStage, devices, held, urls, svc) == Some(critical);
    }
  }

  /** The request every tracking run processes. */
  const TrackingQuery: Payload := Query(map["is_tracking_alarms" := "true"])

  class Director {
    var first: Option<Stage>
    var deviceController: DeviceControllers.DeviceController?
    var requestGenerator: RequestGenerators.RequestGenerator?
    var requestExecutor: RequestExecutors.RequestExecutor?
    var dataSaver: DataSavers.DataSaver?
    var messageSender: MsgSender.MessageSender?

    /** &Director{}: no chain yet. */
    constructor ()
      ensures first.None?
    {
      first := None;
    }

    /** The chain as BuildChain leaves it: five stage objects, each linked to its successor. */
    ghost predicate Built()
      reads this, deviceController, requestGenerator, requestExecutor, dataSaver, messageSender
    {
      && first == Some(DeviceControllerStage)
      && deviceController != null && requestGenerator != null && requestExecutor != null
      && dataSaver != null && messageSender != null
      && deviceController.next == Successor(DeviceControllerStage)
      && requestGenerator.next == Successor(RequestGeneratorStage)
      && requestExecutor.next == Successor(RequestExecutorStage)
      && dataSaver.next == Successor(DataSaverStage)
      && messageSender.next == Successor(MessageSenderStage)
    }

    /** The five stages BuildChain allocates, each already linked to its successor. */
    static method NewStages()
      returns (dc: DeviceControllers.DeviceController, rg: RequestGenerators.RequestGenerator,
               re: RequestExecutors.RequestExecutor, ds: DataSavers.DataSaver, ms: MsgSender.MessageSender)
      ensures fresh(dc) && fresh(rg) && fresh(re) && fresh(ds) && fresh(ms)
      ensures dc.next == Successor(DeviceControllerStage) && rg.next == Successor(RequestGeneratorStage)
      ensures re.next == Successor(RequestExecutorStage) && ds.next == Successor(DataSaverStage)
      ensures ms.next == Successor(MessageSenderStage)
    {
      dc := new DeviceControllers.DeviceController();
      dc.SetNext(RequestGeneratorStage);
      rg := new RequestGenerators.RequestGenerator();
      rg.SetNext(RequestExecutorStage);
      re := new RequestExecutors.RequestExecutor();
      re.SetNext(DataSaverStage);
      ds := new DataSavers.DataSaver();
      ds.SetNext(MessageSenderStage);
      ms := new MsgSender.MessageSender();
    }

    /** BuildChain: fresh stages, linked in ChainOrder, the first one a DeviceController. */
    method BuildChain()
      modifies this
      ensures Built()
      ensures fresh(deviceController) && fresh(requestGenerator) && fresh(requestExecutor)
      ensures fresh(dataSaver) && fresh(messageSender)
    {
      deviceController, requestGenerator, requestExecutor, dataSaver, messageSender := NewStages();
      first := Some(DeviceControllerStage);
    }

    /** One stage's Handle, with the link it forwards along. */
    method RunStage(stage: Stage, data: Payload, svc: Services) returns (r: Result<Payload, string>, link: Option<Stage>)
      requires Built()
      modifies deviceController`lastDevices
      ensures Built()
      ensures link == Successor(stage)
      ensures stage == MessageSenderStage && r.Success? ==>
        r.value.AlarmList? && forall a :: a in r.value.alarms ==> IsCritical(a.alarmCode)
      ensures stage == DeviceControllerStage && !data.Query? ==> r.Failure?
      // What each stage hands on, as a function of its input; it fails exactly on the wrong shape.
      ensures StageOutput(stage, data, old(deviceController.lastDevices), old(URLsFor(data, svc)), svc) ==
        if r.Success? then Some(r.value) else None
      ensures deviceController.lastDevices ==
        (if stage == DeviceControllerStage && data.Query? then r.value.devices else old(deviceController.lastDevices))
    {
      match stage
      case DeviceControllerStage =>
        r := deviceController.Handle(data, svc.fetchDevices);
        link := deviceController.next;
      case RequestGeneratorStage =>
        r := requestGenerator.Handle(data, svc.clock, svc.token, svc.formatLocal, svc.escape);
        link := requestGenerator.next;
      case RequestExecutorStage =>
        r := requestExecutor.Handle(data, svc.accessToken, svc.vendors);
        link := requestExecutor.next;
      case DataSaverStage =>
        var outcomes;
        r, outcomes := dataSaver.Handle(data, svc.post);
        link := dataSaver.next;
      case MessageSenderStage =>
        var sent;
        r, sent := messageSender.Handle(data, svc.notifier);
        link := messageSender.next;
    }

    /**
     * A stage's Handle with its forwarding: the stage computes its output and, when it
     * has a next stage, returns what that stage's Handle returns on it. `visited` lists
     * the stages that ran, from `stage` on. Run from the DeviceController on a query,
     * the chain hands the URLs of the fetched devices to the rest.
     */
    method RunChain(stage: Stage, data: Payload, svc: Services) returns (r: Result<Payload, string>, visited: seq<Stage>)
      requires Built()
      modifies deviceController`lastDevices
      decreases |ChainOrder| - stage.Rank()
      ensures Built()
      ensures 1 <= |visited| <= |ChainOrder| - stage.Rank()
      ensures forall i :: 0 <= i < |visited| ==> visited[i] == ChainOrder[stage.Rank() + i]
      ensures r.Success? ==> |visited| == |ChainOrder| - stage.Rank()
      ensures stage == DeviceControllerStage && !data.Query? ==> r.Failure? && visited == [DeviceControllerStage]
      ensures stage == DeviceControllerStage && data.Query? ==>
        var devices := DeviceControllers.AfterFetch(svc.fetchDevices(data.params), old(deviceController.lastDevices));
        var urls := RequestGenerators.GeneratedURLs(devices, svc.clock, svc.token, svc.formatLocal, svc.escape);
        && deviceController.lastDevices == devices
        && Downstream(stage, data, old(deviceController.lastDevices), urls, svc) == (if r.Success? then Some(r.value) else None)
      ensures stage != DeviceControllerStage ==>
        && deviceController.lastDevices == old(deviceController.lastDevices)
        && Downstream(stage, data, old(deviceController.lastDevices), URLsFor(data, svc), svc) ==
             (if r.Success? then Some(r.value) else None)
    {
      RankIndexesChainOrder(stage);
      var out, link := RunStage(stage, data, svc);
      if out.Failure? || link.None? {
        return out, [stage];
      }
      var rest;
      r, rest := RunChain(link.value, out.value, svc);
      visited := [stage] + rest;
      if stage == DeviceControllerStage {
        DownstreamIgnores(link.value, out.value, deviceController.lastDevices, old(deviceController.lastDevices),
                          URLsFor(out.value, svc), URLsFor(out.value, svc), svc);
      } else {
        DownstreamIgnores(link.value, out.value, old(deviceController.lastDevices), old(deviceController.lastDevices),
                          URLsFor(out.value, svc), URLsFor(data, svc), svc);
      }
    }

    /**
     * ProcessRequest: without a chain the request comes back unchanged; otherwise it
     * goes to the first stage's Handle, which forwards along the chain. A query comes
     * back as the critical alarms among those polled from the URLs of the fetched
     * devices; anything else fails at the DeviceController.
     */
    method ProcessRequest(request: Payload, svc: Services) returns (r: Result<Payload, string>, visited: seq<Stage>)
      requires first.None? || Built()
      modifies (if deviceController == null then {} else {deviceController})`lastDevices
      ensures first.None? ==> r == Success(request) && visited == []
      ensures first.Some? ==> Built() && 1 <= |visited| <= |ChainOrder| && visited == ChainOrder[..|visited|]
      ensures first.Some? && |visited| < |ChainOrder| ==> r.Failure?
      ensures first.Some? && r.Success? ==>
        visited == ChainOrder && r.value.AlarmList? && forall a :: a in r.value.alarms ==> IsCritical(a.alarmCode)
      ensures first.Some? && !request.Query? ==> r.Failure? && visited == [DeviceControllerStage]
      // A query runs through all five stages, and what comes out is the composition of what each computes.
      ensures first.Some? && request.Query? ==>
        var devices := DeviceControllers.AfterFetch(svc.fetchDevices(request.params), old(deviceController.lastDevices));
        var urls := RequestGenerators.GeneratedURLs(devices, svc.clock, svc.token, svc.formatLocal, svc.escape);
        && visited == ChainOrder && deviceController.lastDevices == devices
        && r == Success(AlarmList(MsgSender.Critical(RequestExecutors.Gather(urls, svc.accessToken, svc.vendors))))
    {
      if first.None? {
        return Success(request), [];
      }
      r, visited := RunChain(DeviceControllerStage, request, svc);
      assert visited == ChainOrder[..|visited|];
      if request.Query? {
        ghost var devices := DeviceControllers.AfterFetch(svc.fetchDevices(request.params), old(deviceController.lastDevices));
        QueryDownstream(request, old(deviceController.lastDevices),
                        RequestGenerators.GeneratedURLs(devices, svc.clock, svc.token, svc.formatLocal, svc.escape), svc);
      }
    }
  }

  /** What the scheduler sees happen: a tick of the 30-second ticker, or a launched run finishing. */
  datatype Event = Tick | RunEnded

  /** Whether the single `running` slot is taken after `events`, starting free. */
  function Busy(events: seq<Event>): bool
    decreases |events|
  {
    if events == [] then false
    else events[|events| - 1] == Tick
  }

  /** Runs launched: ticks that found the slot free. */
  function Launches(events: seq<Event>): nat
    decreases |events|
  {
    if events == [] then 0
    else
      var front := events[..|events| - 1];
      Launches(front) + (if events[|events| - 1] == Tick && !Busy(front) then 1 else 0)
  }

  /** Runs finished. */
  function Ends(events: seq<Event>): nat
    decreases |events|
  {
    if events == [] then 0
    else Ends(events[..|events| - 1]) + (if events[|events| - 1] == RunEnded then 1 else 0)
  }

  /** Only a launched run can finish: every RunEnded comes while the slot is taken. */
  predicate WellFormed(events: seq<Event>) {
    forall k :: 0 <= k < |events| ==> events[k] == RunEnded ==> Busy(events[..k])
  }

  /** At most one run is in flight: launched minus finished is 1 while the slot is taken and 0 otherwise. */
  lemma {:induction false} AtMostOneInFlight(events: seq<Event>)
    requires WellFormed(events)
    ensures Launches(events) == Ends(events) + (if Busy(events) then 1 else 0)
    decreases |events|
  {
    if events != [] {
      var front := events[..|events| - 1];
      assert WellFormed(front) by {
        forall k | 0 <= k < |front| && front[k] == RunEnded
          ensures Busy(front[..k])
        {
          assert events[k] == front[k] && events[..k] == front[..k];
        }
      }
      AtMostOneInFlight(front);
      assert events[..|events| - 1] == front;
    }
  }

  /** The package-level state of director.go: the singleton, the started flag and the one-slot channel. */
  class Scheduler {
    var directorInstance: Director?
    var trackingAlarmsStarted: bool
    var running: bool
    ghost var events: seq<Event>

    ghost predicate Valid()
      reads this
    {
      running == Busy(events) && WellFormed(events)
    }

    constructor ()
      ensures directorInstance == null && !trackingAlarmsStarted && !running && events == []
      ensures Valid()
    {
      directorInstance := null;
      trackingAlarmsStarted := false;
      running := false;
      events := [];
    }

    /** GetDirectorInstance: created on the first call, the same instance on every later one. */
    method GetDirectorInstance() returns (d: Director)
      modifies this`directorInstance
      ensures old(directorInstance) != null ==> d == old(directorInstance)
      ensures old(directorInstance) == null ==> fresh(d) && d.first.None?
      ensures directorInstance == d
    {
      if directorInstance == null {
        directorInstance := new Director();
      }
      d := directorInstance;
    }

    /** InitiateTrackingAlarms' set-up: a second call does nothing; the first sets the flag and builds the chain. */
    method InitiateTrackingAlarms()
      modifies this, directorInstance
      ensures old(trackingAlarmsStarted) ==> unchanged(this)
      ensures !old(trackingAlarmsStarted) ==>
        && trackingAlarmsStarted && directorInstance != null && directorInstance.Built()
        && (old(directorInstance) != null ==> directorInstance == old(directorInstance))
        && running == old(running) && events == old(events)
    {
      if trackingAlarmsStarted {
        return;
      }
      trackingAlarmsStarted := true;
      var director := GetDirectorInstance();
      director.BuildChain();
    }

    /** A tick: `running <- true` succeeds only when the slot is free; otherwise the tick is skipped. */
    method Tick() returns (launched: bool)
      requires Valid()
      modifies this`running, this`events
      ensures events == old(events) + [Event.Tick]
      ensures launched == !old(running)
      ensures running && Valid()
    {
      launched := !running;
      running := true;
      events := events + [Event.Tick];
      assert WellFormed(events) by {
        forall k | 0 <= k < |events| && events[k] == RunEnded
          ensures Busy(events[..k])
        {
          assert k < |old(events)| && events[..k] == old(events)[..k];
        }
      }
    }

    /**
     * A launched run: the tracking query goes through the director's chain, and the
     * deferred `<-running` frees the slot when it ends, whatever the outcome.
     */
    method TrackAlarms(svc: Services) returns (r: Result<Payload, string>, visited: seq<Stage>)
      requires Valid() && running
      requires directorInstance != null && directorInstance.Built()
      modifies this`running, this`events, directorInstance.deviceController
      ensures events == old(events) + [RunEnded]
      ensures !running && Valid()
      ensures 1 <= |visited| <= |ChainOrder| && visited == ChainOrder[..|visited|]
      ensures r.Success? ==> visited == ChainOrder
    {
      r, visited := directorInstance.ProcessRequest(TrackingQuery, svc);
      running := false;
      events := events + [RunEnded];
      assert WellFormed(events) by {
        forall k | 0 <= k < |events| && events[k] == RunEnded
          ensures Busy(events[..k])
        {
          if k == |old(events)| {
            assert events[..k] == old(events);
          } else {
            assert events[..k] == old(events)[..k];
          }
        }
      }
    }
  }
}
