/**
 * Types owned by the Webbrick transport library (the `webbrick` package):
 * the bus device record, the event message the transport queues, and the
 * driver configuration. None of their behaviour is modelled here, only
 * their shape.
 */
module Bus {
  /** A brightness or temperature level. The transport reports a float64;
    * the driver only passes it through, so it stays uninterpreted here. */
  type Level = real

  /** webbrick.Device: the fields the driver reads or writes. */
  datatype BusDevice = BusDevice(devId: string, name: string, state: bool, level: Level)

  /** One message from webbrick.Events: an event name and the device it concerns. */
  datatype Event = Event(name: string, info: BusDevice)

  /** webbrick.WebbrickDriverConfig. */
  datatype Config = Config(
    name: string,
    initialised: bool,
    numberOfDevices: int,
    pollingMinutes: int,
    pollingActive: bool)
}
