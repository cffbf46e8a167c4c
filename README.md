# Webbrick driver for the Ninja Sphere — a Dafny model

This project models the core of the Ninja Sphere driver for the Webbrick
home-automation bus. That core has two parts.

- **The reconciliation step** (driver.go). The driver's loop takes one
  message at a time from the Webbrick transport's event queue. It dispatches
  on the event name and keeps a process-wide registry from bus device id to
  device record.
  - A found-event for a new id builds one record, exports it, and exports and
    primes the channels its kind calls for.
  - A found-event for a known id refreshes the record and pushes values.
  - Update events overwrite values.
  - A PIR trigger sends a motion pulse.
  - When the queue is empty, the loop polls the transport.
- **The device record** (device.go). This is the constructor and the
  setters the platform calls: `SetOnOff`, `SetBrightness`, `ToggleOnOff` and
  `SetName`. `SetName`'s sanitiser lower-cases the name, deletes everything
  outside `[a-z0-9]` and cuts the result to 16 characters.

The model has the source's own shape:

- `WebbrickDriver` is a class. It holds the registry (`device`), the
  transport's Queried flags, the configuration and a shared `ActionLog`.
  In the Go code `device` is a package-level map shared by every driver
  value (driver.go:28). The model makes it a field of the one driver, so it
  assumes a single driver per process.
- `WebbrickDevice` is a class. It holds the cached bus entry and the last
  value of each channel.
- Every outward effect is one entry in the append-only `ActionLog`. That
  covers exports, channel `SendState`/`Set`, motion pulses, the "renamed"
  event and commands handed to the transport. A channel export records the
  channel object and the name string passed with it.
- The channel library is not part of this model. The model assumes that a
  channel's `SendState` stores the value and notifies the platform, that
  `Set` only stores it, and that `SendMotion` only notifies.
- `WebbrickDriver.Step` is proved equal to the pure `Driver.Tick` /
  `Driver.Reconcile` on an abstract `State`. The properties are lemmas about
  `Reconcile`.
- `Reconcile` is assembled from one function per case of the `switch`:
  `LightUpdated` (driver.go:120-125), `TemperatureUpdated` (driver.go:127-130),
  `Onboard` for a never-seen id (driver.go:154-201), and `Refresh` for a known
  id (driver.go:203-226). `Onboard` is `Filed`, which uses `Created`
  (driver.go:158-166), followed by `Primed` (driver.go:178-201). `Refresh` is
  `Renamed` (driver.go:207), followed by `LightRefreshed` (driver.go:216-219)
  or `TemperatureUpdated` (driver.go:222-224). Their properties are stated
  through `Reconcile` and the lemmas about it.
- The main invariant holds over any run of the loop from process start:
  every registered id has been exported as a device exactly once, and no
  other id has.

Module layout:

- `sanitizer.dfy` (`NameSanitizer`): the pure name sanitiser.
- `device.dfy` (`Device`): the device record.
- `driver.dfy` (`Driver`): the configuration, the dispatch and the driver class.
- `driver_props.dfy` (`DriverProperties`): the lemmas.
- `bus.dfy`, `outbox.dfy`, `wrappers.dfy`: transport types, the action log and `Option`.

Points where the code behaves in a way a reader might not expect, and the model follows the code:

- Onboarding overwrites the record's cached name with the *event* name, for
  example `"newlightchannelfound"` (driver.go:164). A later found-event for
  the same id sets it back to the reported device name (driver.go:207).
- A found-event for a known light pushes the level with `Set`, which stores
  without notifying (driver.go:218). `existinglightchannelfound` uses
  `SendState` (driver.go:125).
- The constructor builds all four channels, whatever the kind
  (device.go:53-56). Only the *exports* depend on the event name.
- Update events for an id that is not registered dereference a nil record,
  which panics in Go (driver.go:122, 130, 139). There is no nil check. The
  model has an explicit `Panicked` outcome that changes nothing, and `Run`
  stops there.
- `SetOnOff` does not update the cached bus state. `ToggleOnOff` announces
  the cached state as it was, not its negation (device.go:75-87).
- The record field is declared `temperature` (device.go:26), but the driver
  uses `temperatureChannel` (driver.go:130, 180-181, 223). The model has one
  temperature channel.
- The dispatch works on event names. No raw category-code classifier exists
  in this code. `Driver.Classify` is the name dispatch of the `switch`.
- `Start` stores the default configuration when the given one is not
  initialised. It still announces the configuration it was *given*
  (driver.go:78-87).

## Model

| member | source | states |
|---|---|---|
| NameSanitizer.Lower | device.go:100 | an upper-case ASCII letter becomes the corresponding lower-case letter; every other character is kept |
| NameSanitizer.LowerAll | device.go:100 | lower-casing keeps the length and lowers each character in place |
| NameSanitizer.StripSingle | device.go:93-100 | a single character survives the deletion exactly when it is in `[a-z0-9]` |
| NameSanitizer.Filtered | device.go:100 | the lower-cased, filtered name holds only `[a-z0-9]` and is no longer than the input |
| NameSanitizer.Strip | device.go:93-100 | the result holds only characters in `[a-z0-9]` and is no longer than its input |
| NameSanitizer.StripAppend | device.go:93-100 | deletion distributes over concatenation, so exactly the legal characters survive, in their original order |
| NameSanitizer.StripKeepsNameChars | device.go:93-100 | a string of legal characters is left untouched by the deletion |
| NameSanitizer.Sanitize | device.go:100-103 | the result is a legal name (only `[a-z0-9]`, at most 16 long), a prefix of the lower-cased filtered name, of length min(16, filtered length) |
| NameSanitizer.SanitizeIdempotent | device.go:100-103 | sanitising a sanitised name returns it unchanged |
| NameSanitizer.SanitizeFixedPoints | device.go:100-103 | a name is unchanged by sanitising if and only if it is at most 16 characters of `[a-z0-9]` |
| NameSanitizer.SanitizeTruncatesLegalName | device.go:101-103 | a name of only legal characters longer than 16 becomes its first 16 characters |
| NameSanitizer.SanitizeExample | device.go:100-103 | "Living Room #1!" becomes "livingroom1" |
| Outbox.LabelsDistinct | driver.go:180-197 | the four names passed when exporting the four channels are pairwise different |
| Device.WebbrickDevice.constructor | device.go:31-57 | the record keeps the bus entry, has natural id "device" + DevID and the bus name as platform name, holds all four channels, and no channel value is set yet |
| Device.WebbrickDevice.SendOnOff | device.go:78 | `onOffChannel.SendState`: stores the value and logs one notification on on-off; nothing else changes |
| Device.WebbrickDevice.SendBrightness | driver.go:125 | `brightnessChannel.SendState`: stores the level and logs one notification on brightness; nothing else changes |
| Device.WebbrickDevice.SetBrightnessValue | device.go:71 | `brightnessChannel.Set`: stores the level and logs one store with no notification (an assumption about the SDK) |
| Device.WebbrickDevice.SendTemperature | driver.go:130 | `temperatureChannel.SendState`: stores the level and logs one notification on temperature |
| Device.WebbrickDevice.SendMotionPulse | driver.go:139 | `motionChannel.SendMotion`: logs one motion pulse and stores nothing |
| Device.WebbrickDevice.SetBrightness | device.go:68-73 | sends SetLevel to the bus, then stores the level in the brightness channel without a notification; nothing else changes; returns no error |
| Device.WebbrickDevice.SetOnOff | device.go:75-80 | sends SetState to the bus, then stores and notifies the on-off value; the cached bus state is unchanged; returns no error |
| Device.WebbrickDevice.ToggleOnOff | device.go:82-87 | sends ToggleState to the bus, then notifies the cached state on on-off; the cached state is not modified; returns no error |
| Device.WebbrickDevice.SetName | device.go:96-110 | stores the sanitised name in the bus entry, emits exactly one "renamed" event carrying it, and returns it with no error; the platform name is unchanged |
| Driver.DefaultConfig | driver.go:38-49 | the fallback configuration is not marked initialised |
| Driver.EffectiveConfig | driver.go:78-81 | the kept configuration is the given one or the default; it is the given one exactly when that is initialised or is itself the default |
| Driver.WebbrickDriver.Start | driver.go:75-88 | keeps the effective configuration, leaves the registry alone, and announces the configuration as given |
| Driver.WebbrickDriver.Stop | driver.go:244-246 | always returns an error, and changes nothing |
| Driver.Classify | driver.go:109-148 | the names outside the nine dispatched ones, and only those, are uninteresting; exactly the three found-event names select onboarding or refresh |
| Driver.Reconcile | driver.go:107-228 | one event changes at most the entry of its own id; the registry, the queried set and the log only grow; records stay filed under their own id; a panic changes nothing; an event is ignored exactly when its name is not dispatched |
| Driver.Tick | driver.go:104-231 | with no pending event the loop only logs one transport poll and leaves the registry and queried flags alone |
| Driver.Run | driver.go:103-233 | the loop over any sequence of turns, ending at a panic; the registry keys, the queried set and the log only grow |
| Driver.WebbrickDriver.constructor | driver.go:28 | the registry starts empty, with no queried ids and no configuration |
| Driver.WebbrickDriver.Step | driver.go:103-231 | one turn of the loop on the objects has exactly the effect `Tick` specifies on the abstract state, and keeps every record filed under its own id and writing to the shared log |
| Driver.WebbrickDriver.HandleEvent | driver.go:107-228 | processing one event on the objects has exactly the effect `Reconcile` specifies |
| Driver.WebbrickDriver.UpdateLight | driver.go:120-125 | overwrites the cached state, then sends state and level on on-off and brightness |
| Driver.WebbrickDriver.UpdateTemperature | driver.go:127-130 | sends the level on the temperature channel |
| Driver.WebbrickDriver.OnboardDevice | driver.go:154-201 | builds, files and exports a record for a new id, then exports and primes the channels of its kind |
| Driver.WebbrickDriver.CreateRecord | driver.go:158-166 | files a fresh record under the id, logs one device export, copies the event name and state into it, marks the id queried; other records are unchanged |
| Driver.WebbrickDriver.PrimeChannels | driver.go:178-201 | exports and primes the channels chosen by the event name |
| Driver.WebbrickDriver.PrimeTemperature | driver.go:178-182 | exports the temperature channel and sends the level on it |
| Driver.WebbrickDriver.PrimeMotion | driver.go:185-189 | exports the motion channel and sends nothing |
| Driver.WebbrickDriver.PrimeLight | driver.go:193-201 | exports on-off and brightness, then sends the state and the level on them |
| Driver.WebbrickDriver.RefreshDevice | driver.go:203-226 | for a known id, refreshes the name, then pushes the values of a light or a temperature sensor |
| Driver.WebbrickDriver.RenameRecord | driver.go:207 | sets the cached name of a known record to the reported name; nothing else changes |
| Driver.WebbrickDriver.RefreshLight | driver.go:216-219 | sends the state on on-off and stores the level in brightness without a notification |
| DriverProperties.OnboardingAddsOneRecord | driver.go:148-161 | a found-event for a new id adds exactly that entry, leaves all others unchanged, and logs exactly one device export, as its first action |
| DriverProperties.OnboardingBookkeeping | driver.go:158-166 | the new record's cached state is the event's state, its cached name is the event name, its natural id is "device" + id, and the id is marked queried |
| DriverProperties.LightOnboarding | driver.go:193-201 | a new light exports exactly on-off and brightness and sends state and level on them; temperature stays unset |
| DriverProperties.TemperatureOnboarding | driver.go:178-182 | a new temperature sensor exports only temperature and sends the level |
| DriverProperties.PirOnboarding | driver.go:185-189 | a new PIR exports only motion and sends nothing |
| DriverProperties.FoundAgainNoExport | driver.go:203-226 | a found-event for a known id adds no entry and exports nothing; it sets the cached name to the reported name and pushes on-off plus a stored level (light), the temperature (sensor) or nothing (PIR) |
| DriverProperties.OnboardingIdempotent | driver.go:154-226 | the second copy of a found-event adds no entry and exports nothing |
| DriverProperties.LightUpdateOverwrites | driver.go:120-125 | a light update leaves cached state, on-off and brightness equal to the reported values whatever they were before, and notifies both |
| DriverProperties.TemperatureUpdateOverwrites | driver.go:127-130 | a temperature update overwrites only the temperature value and notifies it |
| DriverProperties.PirTriggerPulsesOnce | driver.go:136-139 | a PIR trigger for a known id logs exactly one motion pulse and changes no stored state |
| DriverProperties.SeenAgainIsSilent | driver.go:115-116 | a PIR or hub seen again changes nothing and logs nothing |
| DriverProperties.NewWebbrickPolls | driver.go:141-144 | a new hub only starts the transport's status poller for it |
| DriverProperties.UnknownEventIgnored | driver.go:109-228 | an event name outside the dispatch leaves registry, flags and log unchanged |
| DriverProperties.UpdateOfUnknownIdPanics | driver.go:120-139 | light, temperature and trigger updates for an unregistered id panic before changing anything |
| DriverProperties.ExportCountAppend | driver.go:161 | the count of a device's exports over two log segments is the sum of the two counts |
| DriverProperties.ReconcileLogShape | driver.go:107-228 | an event appends to the log; only onboarding appends a device export (once, first) and adds a key; otherwise the keys stay the same |
| DriverProperties.ReconcileKeepsExportedOnce | driver.go:107-228 | "each registered id exported exactly once, no other id exported" is preserved by every event |
| DriverProperties.TickKeepsExportedOnce | driver.go:104-231 | the same invariant is preserved by every turn, poll included |
| DriverProperties.RunExportsEachDeviceOnce | driver.go:103-233 | over any sequence of turns the invariant and the filing of records under their own id are preserved |
| DriverProperties.FromStartEachDeviceExportedOnce | driver.go:28 | from the empty registry, after any run, every registered id has been exported exactly once and no other id has |
| DriverProperties.OtherEventsExportNothing | driver.go:109-148 | an event that is not a found-event exports no device and no channel |
| DriverProperties.OnboardingLabelsChannels | driver.go:178-200 | onboarding exports each channel under the name of that channel |
| DriverProperties.ChannelsLabelledAppend | driver.go:180-197 | two logs whose channel exports are correctly named make a log whose exports are correctly named |
| DriverProperties.ReconcileKeepsLabels | driver.go:107-228 | every event keeps all channel exports paired with their own names |
| DriverProperties.RunKeepsLabels | driver.go:103-233 | any run of the loop keeps all channel exports paired with their own names |
| DriverProperties.FromStartChannelNamesUnambiguous | driver.go:178-200 | from process start, every channel export carries its channel's name, and two exports under one name export the same channel |

## Left out

- The goroutine, the endless `for`/`select` and the `started`/`ready` flags
  (driver.go:83-103, 229-240). The model has one turn (`Step`/`Tick`) and a
  finite sequence of turns (`Run`). It does not model `webbrick.Prepare`
  failing and the loop never starting. `Prepare` itself is not modelled:
  no log entry stands for it.
- Transport calls (`CheckForMessages`, `PollWBStatus`,
  `SetLevel`, `SetState`, `ToggleState`) are opaque log entries. What they
  do on the bus is not modelled.
- Platform SDK plumbing: `NewWebBrickDriver`'s `Init`/`Export` and their
  fatal logs, `GetDeviceInfo`, `GetDriver`, `SetEventHandler`, and the
  internals of `ExportDevice`, `ExportChannel` and the channel objects.
  Exports and channel operations are log entries. The SDK is not part of
  this model. What its channel operations do is an assumption of the model:
  `SendState` stores and notifies, `Set` only stores, `SendMotion` only
  notifies.
- `setInterval` (driver.go:249-264): timer and channel concurrency.
- Logging, `spew.Sdump`, `strconv.FormatFloat` and `LoadModuleInfo`: output only.
- Concurrency between the loop and platform commands that call the setters.
  The model runs every operation sequentially.
- Float arithmetic. Levels are `real` and are passed through with no range
  check, as in the code.
- Nil pointers other than the registry lookups: a nil configuration given to
  `Start`, a nil name given to `SetName`, a `SetName` before any event
  handler is set, and an id missing from the transport's own device table
  when Queried is set (driver.go:166). The model assumes all of these are
  present.
- Device.WebbrickDevice.SetBrightness: takes `brightnessChannel.Set`
  (device.go:71) to be a plain store with no notification. If the SDK's
  `Set` instead dispatches the value as an inbound command back to
  `SetBrightness`, the call would never return. The model does not capture that.
- Device.WebbrickDevice.SetBrightnessValue: is the same assumed plain store
  used for device.go:71 and driver.go:218.
- Driver.WebbrickDriver.RefreshLight: takes `brightnessChannel.Set`
  (driver.go:218) to be a plain store with no notification. If the SDK's
  `Set` instead calls back into `SetBrightness`, which calls `Set` again
  (device.go:71), then a refresh of a known light would recurse without end
  and never return, as the `SetBrightness` line above describes. The model
  does not capture that.
- Driver.WebbrickDriver.Start: the error returned by the platform's
  `SendEvent` is not modelled, and neither is the launch of the loop.
- NameSanitizer.Sanitize: lowers ASCII letters only. Go's `strings.ToLower`
  also maps a few non-ASCII letters to ASCII ones, for example the Kelvin
  sign to `k`. The model deletes those characters instead of keeping them.
- Device.WebbrickDevice.SetName: the Go method returns a pointer to the
  name. The model returns the string itself.
