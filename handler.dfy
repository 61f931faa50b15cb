/**
 * The batches that flow between pipeline stages (Go passes them as interface{} and
 * each stage type-asserts the shape it expects), and the names of the stages a
 * stage's `next` link can point at.
 */
module Handlers {
  import opened Alarms
  import opened Devices

  datatype Payload =
    | Query(params: map<string, string>)
    | DeviceList(devices: seq<Device>)
    | UrlList(urls: seq<string>)
    | AlarmList(alarms: seq<Alarm>)

  /** The five stages, in chain order. */
  datatype Stage = DeviceControllerStage | RequestGeneratorStage | RequestExecutorStage | DataSaverStage | MessageSenderStage
  {
    /** Position in the chain DeviceController -> ... -> MessageSender. */
    function Rank(): nat {
      match this
      case DeviceControllerStage => 0
      case RequestGeneratorStage => 1
      case RequestExecutorStage => 2
      case DataSaverStage => 3
      case MessageSenderStage => 4
    }
  }
}
