/**
 * WebbrickDevice: one logical device as the Ninja Sphere platform sees it.
 * The record holds a copy of the transport's device entry, the platform
 * description built at construction, and the last value of each of its
 * capability channels. Every outward effect goes to the shared action log.
 */
module Device {
  import opened Wrappers
  import opened Bus
  import opened Outbox
  import NameSanitizer

  /** model.Device: what the constructor registers with the platform. */
  datatype DeviceInfo = DeviceInfo(
    naturalId: string,
    naturalIdType: string,
    name: string,
    signatures: map<string, string>)

  /** The fixed signature set every record advertises. */
  const Signatures: map<string, string> := map[
    "ninja:manufacturer" := "Webbrick",
    "ninja:productName" := "WebbrickLightDevice",
    "ninja:productType" := "Light",
    "ninja:thingType" := "light"]

  /** The constructor creates every channel, whatever the device's kind. */
  const AllChannels: set<ChannelName> := {OnOff, Brightness, Motion, Temperature}

  /** The platform description of a freshly built record for `id`. */
  function InfoFor(id: BusDevice): DeviceInfo {
    DeviceInfo("device" + id.devId, "light", id.name, Signatures)
  }

  /** The state of a record: its bus entry, its platform description, and
    * the last value stored in each valued channel (None until the first one).
    * The motion channel holds no value. */
  datatype DeviceRecord = DeviceRecord(
    bus: BusDevice,
    info: DeviceInfo,
    onOff: Option<bool>,
    brightness: Option<Level>,
    temperature: Option<Level>)

  /** The state of a record straight after construction. */
  function NewRecord(id: BusDevice): DeviceRecord {
    DeviceRecord(id, InfoFor(id), None, None, None)
  }

  class WebbrickDevice {
    var bus: BusDevice
    const info: DeviceInfo
    const channels: set<ChannelName>
    var onOff: Option<bool>
    var brightness: Option<Level>
    var temperature: Option<Level>
    const log: ActionLog

    function Snapshot(): DeviceRecord
      reads this
    {
      DeviceRecord(bus, info, onOff, brightness, temperature)
    }

    /** NewWebbrickDevice. */
    constructor (id: BusDevice, log: ActionLog)
      ensures Snapshot() == NewRecord(id)
      ensures bus == id
      ensures info.naturalId == "device" + id.devId && info.name == id.name
      ensures onOff == None && brightness == None && temperature == None
      ensures channels == AllChannels
      ensures this.log == log
    {
      bus := id;
      info := InfoFor(id);
      channels := AllChannels;
      onOff, brightness, temperature := None, None, None;
      this.log := log;
    }

    // The channel operations the driver and the setters use. The channel
    // library is not modelled; these bodies are the assumed behaviour:
    // SendState stores and notifies, Set stores only, SendMotion only notifies.

    method SendOnOff(on: bool)
      modifies this, log
      ensures Snapshot() == old(Snapshot()).(onOff := Some(on))
      ensures log.actions == old(log.actions) + [SendState(bus.devId, OnOff, Switch(on))]
    {
      onOff := Some(on);
      log.Emit(SendState(bus.devId, OnOff, Switch(on)));
    }

    method SendBrightness(level: Level)
      modifies this, log
      ensures Snapshot() == old(Snapshot()).(brightness := Some(level))
      ensures log.actions == old(log.actions) + [SendState(bus.devId, Brightness, Reading(level))]
    {
      brightness := Some(level);
      log.Emit(SendState(bus.devId, Brightness, Reading(level)));
    }

    method SetBrightnessValue(level: Level)
      modifies this, log
      ensures Snapshot() == old(Snapshot()).(brightness := Some(level))
      ensures log.actions == old(log.actions) + [SetValue(bus.devId, Brightness, Reading(level))]
    {
      brightness := Some(level);
      log.Emit(SetValue(bus.devId, Brightness, Reading(level)));
    }

    method SendTemperature(level: Level)
      modifies this, log
      ensures Snapshot() == old(Snapshot()).(temperature := Some(level))
      ensures log.actions == old(log.actions) + [SendState(bus.devId, Temperature, Reading(level))]
    {
      temperature := Some(level);
      log.Emit(SendState(bus.devId, Temperature, Reading(level)));
    }

    method SendMotionPulse()
      modifies log
      ensures log.actions == old(log.actions) + [SendMotion(bus.devId)]
    {
      log.Emit(SendMotion(bus.devId));
    }

    /** Asks the bus to change the level, then stores it in the brightness
      * channel without a notification. Never fails. */
    method SetBrightness(level: Level) returns (err: Option<string>)
      modifies this, log
      ensures err == None
      ensures Snapshot() == old(Snapshot()).(brightness := Some(level))
      ensures log.actions == old(log.actions) + [
        Transport(SetLevel(bus.devId, level)),
        SetValue(bus.devId, Brightness, Reading(level))]
    {
      log.Emit(Transport(SetLevel(bus.devId, level)));
      SetBrightnessValue(level);
      err := None;
    }

    /** Asks the bus to switch, then stores and announces the new on-off
      * value. The cached bus state is left as it was. Never fails. */
    method SetOnOff(on: bool) returns (err: Option<string>)
      modifies this, log
      ensures err == None
      ensures Snapshot() == old(Snapshot()).(onOff := Some(on))
      ensures bus == old(bus)
      ensures log.actions == old(log.actions) + [
        Transport(SetState(bus.devId, on)),
        SendState(bus.devId, OnOff, Switch(on))]
    {
      log.Emit(Transport(SetState(bus.devId, on)));
      SendOnOff(on);
      err := None;
    }

    /** Asks the bus to toggle, then announces the cached bus state, which
      * the toggle itself does not change. Never fails. */
    method ToggleOnOff() returns (err: Option<string>)
      modifies this, log
      ensures err == None
      ensures bus == old(bus)
      ensures Snapshot() == old(Snapshot()).(onOff := Some(old(bus.state)))
      ensures log.actions == old(log.actions) + [
        Transport(ToggleState(bus.devId)),
        SendState(bus.devId, OnOff, Switch(old(bus.state)))]
    {
      log.Emit(Transport(ToggleState(bus.devId)));
      SendOnOff(bus.state);
      err := None;
    }

    /** Stores the sanitised name in the bus entry, announces it in one
      * "renamed" event and returns it. The platform description keeps the
      * name it was built with. Never fails. */
    method SetName(name: string) returns (safe: string, err: Option<string>)
      modifies this, log
      ensures safe == NameSanitizer.Sanitize(name)
      ensures NameSanitizer.IsSanitized(safe)
      ensures err == None
      ensures Snapshot() == old(Snapshot()).(bus := old(bus).(name := safe))
      ensures log.actions == old(log.actions) + [DeviceEvent(bus.devId, "renamed", safe)]
    {
      safe := NameSanitizer.Sanitize(name);
      bus := bus.(name := safe);
      log.Emit(DeviceEvent(bus.devId, "renamed", safe));
      err := None;
    }
  }
}
