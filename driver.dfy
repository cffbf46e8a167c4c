/**
 * The Webbrick driver: configuration fallback, the reconciliation of one
 * transport event against the registry of device records, the idle poll,
 * and Stop. `Reconcile` is the specification of one event's processing on
 * an abstract state; `WebbrickDriver.Step` does the same work on the
 * objects and is proved against it.
 */
module Driver {
  import opened Wrappers
  import opened Bus
  import opened Outbox
  import opened Device

  // ---------------------------------------------------------------- config

  /** The configuration used when the one given was never initialised. */
  function DefaultConfig(): (c: Config)
    ensures !c.initialised
  {
    Config("PKHome", false, 0, 5, false)
  }

  /** The configuration Start keeps: the given one if initialised, else the default. */
  function EffectiveConfig(given: Config): (c: Config)
    ensures c == given || c == DefaultConfig()
    ensures c == given <==> given.initialised || given == DefaultConfig()
  {
    if !given.initialised then DefaultConfig() else given
  }

  /** The message Stop always fails with. */
  const StopError := "This driver does not support being stopped. YOU HAVE NO POWER HERE."

  // ---------------------------------------------------------------- events

  /** The three kinds of device the driver onboards. */
  datatype FoundKind = LightFound | TempFound | PirFound

  /** The event names the dispatch distinguishes. */
  datatype EventKind =
    | WebbrickSeen      // "existingwebbrickupdated"
    | LightSeen         // "existinglightchannelfound"
    | TempSeen          // "existingtempupdated"
    | PirSeen           // "existingpirupdated"
    | PirTriggered      // "existingpirtriggered"
    | WebbrickFound     // "newwebbrickfound"
    | DeviceFound(kind: FoundKind)  // "newlightchannelfound", "newtempfound", "newpirfound"
    | Uninteresting     // anything else

  const KnownNames: set<string> := {
    "existingwebbrickupdated", "existinglightchannelfound", "existingtempupdated",
    "existingpirupdated", "existingpirtriggered", "newwebbrickfound",
    "newlightchannelfound", "newtempfound", "newpirfound"}

  /** The case of the dispatch an event name selects. */
  function Classify(name: string): (k: EventKind)
    ensures k.Uninteresting? <==> name !in KnownNames
    ensures k.DeviceFound? <==> name in {"newlightchannelfound", "newtempfound", "newpirfound"}
  {
    if name == "existingwebbrickupdated" then WebbrickSeen
    else if name == "existinglightchannelfound" then LightSeen
    else if name == "existingtempupdated" then TempSeen
    else if name == "existingpirupdated" then PirSeen
    else if name == "existingpirtriggered" then PirTriggered
    else if name == "newwebbrickfound" then WebbrickFound
    else if name == "newlightchannelfound" then DeviceFound(LightFound)
    else if name == "newtempfound" then DeviceFound(TempFound)
    else if name == "newpirfound" then DeviceFound(PirFound)
    else Uninteresting
  }

  // ---------------------------------------------------------------- state

  /** The registry of records by bus id, the ids the transport has been
    * told are queried, and everything sent outward so far. */
  datatype State = State(registry: map<string, DeviceRecord>, queried: set<string>, log: seq<Action>)

  /** How one step ended. `Panicked` is a nil record dereferenced for an id
    * that is not registered: nothing had changed when it happened. */
  datatype Outcome = Handled | Ignored | Polled | Panicked

  datatype StepResult = StepResult(state: State, outcome: Outcome)

  /** The state at process start. */
  const Initial := State(map[], {}, [])

  /** Every record is filed under its own bus id. */
  ghost predicate KeyedById(s: State) {
    forall k :: k in s.registry ==> s.registry[k].bus.devId == k
  }

  /** The record a found-event builds for a never-seen id, after the event
    * name and state have been copied into it. The state copy changes
    * nothing, since the record was built from the same bus entry; it is kept
    * to mirror the assignment at driver.go:165. */
  function Created(msg: Event): DeviceRecord {
    NewRecord(msg.info).(bus := msg.info.(name := msg.name, state := msg.info.state))
  }

  /** The first half of onboarding a never-seen id: file the new record,
    * export it, copy the event name and state into it, mark it queried. */
  function Filed(s: State, msg: Event): State {
    var id := msg.info.devId;
    State(s.registry[id := Created(msg)], s.queried + {id}, s.log + [ExportDevice(id)])
  }

  /** The second half: export the channels the kind calls for and push the
    * event's values through them. */
  function Primed(s: State, info: BusDevice, kind: FoundKind): State
    requires info.devId in s.registry
  {
    var id := info.devId;
    var rec := s.registry[id];
    match kind
    case TempFound =>
      s.(registry := s.registry[id := rec.(temperature := Some(info.level))],
         log := s.log + [ExportChannel(id, Temperature, "temperature"), SendState(id, Temperature, Reading(info.level))])
    case PirFound =>
      s.(log := s.log + [ExportChannel(id, Motion, "motion")])
    case LightFound =>
      s.(registry := s.registry[id := rec.(onOff := Some(info.state), brightness := Some(info.level))],
         log := s.log + [ExportChannel(id, OnOff, "on-off"), ExportChannel(id, Brightness, "brightness"),
                         SendState(id, OnOff, Switch(info.state)), SendState(id, Brightness, Reading(info.level))])
  }

  /** Onboarding of a never-seen id. */
  function Onboard(s: State, msg: Event, kind: FoundKind): State {
    Primed(Filed(s, msg), msg.info, kind)
  }

  /** The copy of the name carried by a found-event for a registered id. */
  function Renamed(s: State, info: BusDevice): State
    requires info.devId in s.registry
  {
    var rec := s.registry[info.devId];
    s.(registry := s.registry[info.devId := rec.(bus := rec.bus.(name := info.name))])
  }

  /** The light part of a refresh: push the state, store the level without a notification. */
  function LightRefreshed(s: State, info: BusDevice): State
    requires info.devId in s.registry
  {
    var id := info.devId;
    State(s.registry[id := s.registry[id].(onOff := Some(info.state), brightness := Some(info.level))], s.queried,
      s.log + [SendState(id, OnOff, Switch(info.state)), SetValue(id, Brightness, Reading(info.level))])
  }

  /** A found-event for an id already registered: refresh the name, and
    * push the reported values of a light or a temperature sensor. */
  function Refresh(s: State, msg: Event, kind: FoundKind): State
    requires msg.info.devId in s.registry
  {
    var s' := Renamed(s, msg.info);
    match kind
    case LightFound => LightRefreshed(s', msg.info)
    case TempFound => TemperatureUpdated(s', msg.info)
    case PirFound => s'
  }

  /** "existinglightchannelfound" for a registered id: overwrite the cached
    * state, then push the reported state and level. */
  function LightUpdated(s: State, info: BusDevice): State
    requires info.devId in s.registry
  {
    var id := info.devId;
    var rec := s.registry[id];
    State(s.registry[id := rec.(bus := rec.bus.(state := info.state),
                                onOff := Some(info.state), brightness := Some(info.level))],
      s.queried,
      s.log + [SendState(id, OnOff, Switch(info.state)), SendState(id, Brightness, Reading(info.level))])
  }

  /** "existingtempupdated" for a registered id: push the reported level. */
  function TemperatureUpdated(s: State, info: BusDevice): State
    requires info.devId in s.registry
  {
    var id := info.devId;
    State(s.registry[id := s.registry[id].(temperature := Some(info.level))], s.queried,
      s.log + [SendState(id, Temperature, Reading(info.level))])
  }

  /** The processing of one transport event. Only the entry for the event's
    * id can change, the registry only grows, the log only grows, and a
    * panic leaves everything as it was. */
  function Reconcile(s: State, msg: Event): (r: StepResult)
    ensures s.registry.Keys <= r.state.registry.Keys <= s.registry.Keys + {msg.info.devId}
    ensures forall k :: k in s.registry && k != msg.info.devId ==> r.state.registry[k] == s.registry[k]
    ensures s.log <= r.state.log
    ensures s.queried <= r.state.queried
    ensures KeyedById(s) ==> KeyedById(r.state)
    ensures r.outcome == Panicked ==> r.state == s
    ensures r.outcome != Polled
    ensures r.outcome == Ignored <==> Classify(msg.name).Uninteresting?
  {
    var id := msg.info.devId;
    match Classify(msg.name)
    case WebbrickSeen => StepResult(s, Handled)
    case LightSeen =>
      if id !in s.registry then StepResult(s, Panicked)
      else StepResult(LightUpdated(s, msg.info), Handled)
    case TempSeen =>
      if id !in s.registry then StepResult(s, Panicked)
      else StepResult(TemperatureUpdated(s, msg.info), Handled)
    case PirSeen => StepResult(s, Handled)
    case PirTriggered =>
      if id !in s.registry then StepResult(s, Panicked)
      else StepResult(s.(log := s.log + [SendMotion(id)]), Handled)
    case WebbrickFound => StepResult(s.(log := s.log + [Transport(PollStatus(id))]), Handled)
    case DeviceFound(kind) =>
      if id !in s.registry then StepResult(Onboard(s, msg, kind), Handled)
      else StepResult(Refresh(s, msg, kind), Handled)
    case Uninteresting => StepResult(s, Ignored)
  }

  /** One turn of the loop: process the pending event, or poll the transport
    * when there is none. */
  function Tick(s: State, next: Option<Event>): (r: StepResult)
    ensures r.outcome == Polled <==> next.None?
    ensures next.None? ==> r.state.registry == s.registry && r.state.queried == s.queried
    ensures next.None? ==> r.state.log == s.log + [Transport(CheckForMessages)]
  {
    match next
    case None => StepResult(s.(log := s.log + [Transport(CheckForMessages)]), Polled)
    case Some(msg) => Reconcile(s, msg)
  }

  /** The loop over a sequence of turns; a panic ends the process. The
    * registry, the queried set and the log only grow over a run. */
  function Run(s: State, turns: seq<Option<Event>>): (r: State)
    ensures s.registry.Keys <= r.registry.Keys
    ensures s.queried <= r.queried
    ensures s.log <= r.log
    ensures turns == [] ==> r == s
    decreases |turns|
  {
    if turns == [] then s
    else
      var r := Tick(s, turns[0]);
      if r.outcome == Panicked then r.state else Run(r.state, turns[1..])
  }

  // ---------------------------------------------------------------- objects

  class WebbrickDriver {
    /** d.config; nil until Start. */
    var config: Option<Config>
    /** The process-wide `device` registry. */
    var device: map<string, WebbrickDevice>
    /** The transport's Queried flags, as the set of ids that carry one. */
    var queried: set<string>
    const out: ActionLog

    ghost predicate Valid()
      reads this, device.Values
    {
      forall k :: k in device ==> device[k].bus.devId == k && device[k].log == out
    }

    ghost function View(): State
      reads this, out, device.Values
    {
      State(map k | k in device :: device[k].Snapshot(), queried, out.actions)
    }

    /** NewWebBrickDriver, with the registry as it is at process start. */
    constructor (out: ActionLog)
      ensures Valid()
      ensures config == None && device == map[] && queried == {}
      ensures this.out == out
    {
      config := None;
      device := map[];
      queried := {};
      this.out := out;
    }

    /** Keeps the given configuration if it was initialised and the default
      * otherwise, then announces the configuration as given. */
    method Start(given: Config)
      modifies this, out
      ensures config == Some(EffectiveConfig(given))
      ensures device == old(device) && queried == old(queried)
      ensures out.actions == old(out.actions) + [SendConfig(given)]
    {
      config := Some(given);
      if !given.initialised {
        config := Some(DefaultConfig());
      }
      out.Emit(SendConfig(given));
    }

    /** Stopping is not supported: always an error, and nothing changes. */
    method Stop() returns (err: Option<string>)
      ensures err.Some? && err.value == StopError
    {
      err := Some(StopError);
    }

    /** One turn of the loop. */
    method Step(next: Option<Event>) returns (outcome: Outcome)
      requires Valid()
      modifies this, out, device.Values
      ensures Valid()
      ensures View() == Tick(old(View()), next).state
      ensures outcome == Tick(old(View()), next).outcome
      ensures config == old(config)
      ensures forall k :: k in old(device) ==> k in device && device[k] == old(device[k])
    {
      match next
      case None =>
        out.Emit(Transport(CheckForMessages));
        outcome := Polled;
        assert View().registry == old(View()).registry;
      case Some(msg) =>
        outcome := HandleEvent(msg);
    }

    /** The body of the `select` case for one event. */
    method HandleEvent(msg: Event) returns (outcome: Outcome)
      requires Valid()
      modifies this, out, device.Values
      ensures Valid()
      ensures View() == Reconcile(old(View()), msg).state
      ensures outcome == Reconcile(old(View()), msg).outcome
      ensures config == old(config)
      ensures forall k :: k in old(device) ==> k in device && device[k] == old(device[k])
    {
      var id := msg.info.devId;
      match Classify(msg.name)
      case WebbrickSeen =>
        outcome := Handled;
      case LightSeen =>
        if id !in device {
          return Panicked;
        }
        UpdateLight(msg.info);
        outcome := Handled;
      case TempSeen =>
        if id !in device {
          return Panicked;
        }
        UpdateTemperature(msg.info);
        outcome := Handled;
      case PirSeen =>
        outcome := Handled;
      case PirTriggered =>
        if id !in device {
          return Panicked;
        }
        device[id].SendMotionPulse();
        assert View().registry == old(View()).registry;
        outcome := Handled;
      case WebbrickFound =>
        out.Emit(Transport(PollStatus(id)));
        assert View().registry == old(View()).registry;
        outcome := Handled;
      case DeviceFound(kind) =>
        if id !in device {
          OnboardDevice(msg, kind);
        } else {
          RefreshDevice(msg, kind);
        }
        outcome := Handled;
      case Uninteresting =>
        outcome := Ignored;
    }

    /** "existinglightchannelfound": overwrite the cached state and push the
      * reported state and level. */
    method UpdateLight(info: BusDevice)
      requires Valid() && info.devId in device
      modifies out, device[info.devId]
      ensures Valid()
      ensures info.devId in old(View()).registry
      ensures View() == LightUpdated(old(View()), info)
    {
      var id := info.devId;
      var rec := device[id];
      ghost var s0 := View();
      ghost var r0 := s0.registry[id];
      assert forall k :: k in device && k != id ==> device[k] != rec;
      rec.bus := rec.bus.(state := info.state);
      rec.SendOnOff(info.state);
      rec.SendBrightness(info.level);
      assert rec.bus.devId == id;
      assert rec.Snapshot() == r0.(bus := r0.bus.(state := info.state),
                                   onOff := Some(info.state), brightness := Some(info.level));
      assert out.actions == s0.log + [SendState(id, OnOff, Switch(info.state)), SendState(id, Brightness, Reading(info.level))];
      assert forall k :: k in device && k != id ==> device[k].Snapshot() == s0.registry[k];
      assert View().registry == s0.registry[id := rec.Snapshot()];
    }

    /** "existingtempupdated": push the reported level. */
    method UpdateTemperature(info: BusDevice)
      requires Valid() && info.devId in device
      modifies out, device[info.devId]
      ensures Valid()
      ensures info.devId in old(View()).registry
      ensures View() == TemperatureUpdated(old(View()), info)
    {
      var id := info.devId;
      var rec := device[id];
      ghost var s0 := View();
      assert forall k :: k in device && k != id ==> device[k] != rec;
      rec.SendTemperature(info.level);
      assert rec.Snapshot() == s0.registry[id].(temperature := Some(info.level));
      assert out.actions == s0.log + [SendState(id, Temperature, Reading(info.level))];
      assert forall k :: k in device && k != id ==> device[k].Snapshot() == s0.registry[k];
      assert View().registry == s0.registry[id := rec.Snapshot()];
    }

    /** A found-event for a never-seen id. */
    method OnboardDevice(msg: Event, kind: FoundKind)
      requires Valid() && msg.info.devId !in device
      modifies this, out
      ensures Valid()
      ensures View() == Onboard(old(View()), msg, kind)
      ensures config == old(config)
      ensures forall k :: k in old(device) ==> k in device && device[k] == old(device[k])
    {
      var rec := CreateRecord(msg);
      assert View().registry == Filed(old(View()), msg).registry;
      PrimeChannels(rec, msg.info, kind);
    }

    /** The part of onboarding common to every kind. */
    method CreateRecord(msg: Event) returns (rec: WebbrickDevice)
      requires Valid() && msg.info.devId !in device
      modifies this, out
      ensures Valid() && fresh(rec)
      ensures config == old(config)
      ensures device == old(device)[msg.info.devId := rec]
      ensures queried == old(queried) + {msg.info.devId}
      ensures out.actions == old(out.actions) + [ExportDevice(msg.info.devId)]
      ensures rec.Snapshot() == Created(msg)
      ensures forall k :: k in old(device) ==> device[k].Snapshot() == old(device[k].Snapshot())
    {
      var id := msg.info.devId;
      rec := new WebbrickDevice(msg.info, out);
      device := device[id := rec];
      out.Emit(ExportDevice(id));
      rec.bus := rec.bus.(name := msg.name);
      // A no-op: the record was built from msg.info; driver.go:165 repeats it too.
      rec.bus := rec.bus.(state := msg.info.state);
      queried := queried + {id};
    }

    /** The channel exports and first values of a freshly filed record. */
    method PrimeChannels(rec: WebbrickDevice, info: BusDevice, kind: FoundKind)
      requires Valid() && info.devId in device && device[info.devId] == rec
      modifies out, rec
      ensures Valid()
      ensures info.devId in old(View()).registry
      ensures View() == Primed(old(View()), info, kind)
    {
      match kind
      case TempFound => PrimeTemperature(rec, info);
      case PirFound => PrimeMotion(rec, info);
      case LightFound => PrimeLight(rec, info);
    }

    method PrimeTemperature(rec: WebbrickDevice, info: BusDevice)
      requires Valid() && info.devId in device && device[info.devId] == rec
      modifies out, rec
      ensures Valid()
      ensures info.devId in old(View()).registry
      ensures View() == Primed(old(View()), info, TempFound)
    {
      var id := info.devId;
      ghost var s0 := View();
      assert forall k :: k in device && k != id ==> device[k] != rec;
      out.Emit(ExportChannel(id, Temperature, "temperature"));
      rec.SendTemperature(info.level);
      assert rec.Snapshot() == s0.registry[id].(temperature := Some(info.level));
      assert out.actions == s0.log + [ExportChannel(id, Temperature, "temperature"), SendState(id, Temperature, Reading(info.level))];
      assert forall k :: k in device && k != id ==> device[k].Snapshot() == s0.registry[k];
      assert View().registry == s0.registry[id := rec.Snapshot()];
    }

    method PrimeMotion(rec: WebbrickDevice, info: BusDevice)
      requires Valid() && info.devId in device && device[info.devId] == rec
      modifies out, rec
      ensures Valid()
      ensures info.devId in old(View()).registry
      ensures View() == Primed(old(View()), info, PirFound)
    {
      out.Emit(ExportChannel(info.devId, Motion, "motion"));
      assert View().registry == old(View()).registry;
    }

    method PrimeLight(rec: WebbrickDevice, info: BusDevice)
      requires Valid() && info.devId in device && device[info.devId] == rec
      modifies out, rec
      ensures Valid()
      ensures info.devId in old(View()).registry
      ensures View() == Primed(old(View()), info, LightFound)
    {
      var id := info.devId;
      ghost var s0 := View();
      assert forall k :: k in device && k != id ==> device[k] != rec;
      out.Emit(ExportChannel(id, OnOff, "on-off"));
      out.Emit(ExportChannel(id, Brightness, "brightness"));
      rec.SendOnOff(info.state);
      rec.SendBrightness(info.level);
      assert rec.Snapshot() == s0.registry[id].(onOff := Some(info.state), brightness := Some(info.level));
      assert out.actions == s0.log + [ExportChannel(id, OnOff, "on-off"), ExportChannel(id, Brightness, "brightness"),
                                      SendState(id, OnOff, Switch(info.state)), SendState(id, Brightness, Reading(info.level))];
      assert forall k :: k in device && k != id ==> device[k].Snapshot() == s0.registry[k];
      assert View().registry == s0.registry[id := rec.Snapshot()];
    }

    /** A found-event for an id already registered. */
    method RefreshDevice(msg: Event, kind: FoundKind)
      requires Valid() && msg.info.devId in device
      modifies out, device[msg.info.devId]
      ensures Valid()
      ensures msg.info.devId in old(View()).registry
      ensures View() == Refresh(old(View()), msg, kind)
    {
      RenameRecord(msg.info);
      match kind
      case LightFound => RefreshLight(msg.info);
      case TempFound => UpdateTemperature(msg.info);
      case PirFound =>
    }

    /** The name refresh of a found-event for a registered id. */
    method RenameRecord(info: BusDevice)
      requires Valid() && info.devId in device
      modifies device[info.devId]
      ensures Valid()
      ensures info.devId in old(View()).registry
      ensures View() == Renamed(old(View()), info)
    {
      var id := info.devId;
      var rec := device[id];
      ghost var s0 := View();
      assert forall k :: k in device && k != id ==> device[k] != rec;
      rec.bus := rec.bus.(name := info.name);
      assert rec.Snapshot() == s0.registry[id].(bus := s0.registry[id].bus.(name := info.name));
      assert forall k :: k in device && k != id ==> device[k].Snapshot() == s0.registry[k];
      assert View().registry == s0.registry[id := rec.Snapshot()];
    }

    /** The light part of a refresh: push the state, store the level. */
    method RefreshLight(info: BusDevice)
      requires Valid() && info.devId in device
      modifies out, device[info.devId]
      ensures Valid()
      ensures info.devId in old(View()).registry
      ensures View() == LightRefreshed(old(View()), info)
    {
      var id := info.devId;
      var rec := device[id];
      ghost var s0 := View();
      assert forall k :: k in device && k != id ==> device[k] != rec;
      rec.SendOnOff(info.state);
      rec.SetBrightnessValue(info.level);
      assert rec.Snapshot() == s0.registry[id].(onOff := Some(info.state), brightness := Some(info.level));
      assert out.actions == s0.log + [SendState(id, OnOff, Switch(info.state)), SetValue(id, Brightness, Reading(info.level))];
      assert forall k :: k in device && k != id ==> device[k].Snapshot() == s0.registry[k];
      assert View().registry == s0.registry[id := rec.Snapshot()];
    }
  }
}
