/**
 * Everything the driver does towards the outside world, as one append-only
 * log: registrations and notifications towards the Ninja Sphere platform,
 * and commands handed to the Webbrick transport.
 */
module Outbox {
  import opened Bus

  /** The four capability channels a device record can carry. */
  datatype ChannelName = OnOff | Brightness | Motion | Temperature

  /** The name under which a channel is exported to the platform. */
  function Label(c: ChannelName): string {
    match c
    case OnOff => "on-off"
    case Brightness => "brightness"
    case Motion => "motion"
    case Temperature => "temperature"
  }

  /** Each channel is exported under a name of its own. */
  lemma LabelsDistinct(a: ChannelName, b: ChannelName)
    ensures Label(a) == Label(b) ==> a == b
  {
  }

  /** The payload a channel carries. */
  datatype Value = Switch(on: bool) | Reading(level: Level)

  /** Calls into the transport library; recorded, never interpreted. */
  datatype Command =
    | SetState(devId: string, on: bool)
    | SetLevel(devId: string, level: Level)
    | ToggleState(devId: string)
    | PollStatus(devId: string)
    | CheckForMessages

  datatype Action =
    | ExportDevice(devId: string)
    | ExportChannel(devId: string, channel: ChannelName, exportName: string)
    | SendState(devId: string, channel: ChannelName, value: Value)   // store and notify
    | SetValue(devId: string, channel: ChannelName, value: Value)    // store only
    | SendMotion(devId: string)                                       // notify only
    | DeviceEvent(devId: string, event: string, payload: string)
    | SendConfig(config: Config)
    | Transport(command: Command)

  /** True of an action that registers something with the platform. */
  predicate IsExport(a: Action) {
    a.ExportDevice? || a.ExportChannel?
  }

  /** Every channel export in the log names the channel it registers under
    * that channel's own label. */
  ghost predicate ChannelsLabelled(log: seq<Action>) {
    forall i :: 0 <= i < |log| && log[i].ExportChannel? ==> log[i].exportName == Label(log[i].channel)
  }

  /** The log itself. Shared by the driver and every device record it creates. */
  class ActionLog {
    var actions: seq<Action>

    constructor ()
      ensures actions == []
    {
      actions := [];
    }

    method Emit(a: Action)
      modifies this
      ensures actions == old(actions) + [a]
    {
      actions := actions + [a];
    }
  }
}
