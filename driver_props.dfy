/**
 * Properties of the reconciliation step: what one event does to the
 * registry and to the outward log, and the invariant that every registered
 * id has been exported exactly once over any run of the loop.
 */
module DriverProperties {
  import opened Wrappers
  import opened Bus
  import opened Outbox
  import opened Device
  import opened Driver

  /** A found-event for an id the registry does not hold yet. */
  predicate IsOnboarding(s: State, msg: Event) {
    Classify(msg.name).DeviceFound? && msg.info.devId !in s.registry
  }

  /** No action in `d` exports a device. */
  ghost predicate NoDeviceExport(d: seq<Action>) {
    forall i :: 0 <= i < |d| ==> !d[i].ExportDevice?
  }

  /** No action in `d` exports anything. */
  ghost predicate NoExport(d: seq<Action>) {
    forall i :: 0 <= i < |d| ==> !IsExport(d[i])
  }

  // ------------------------------------------------------------ onboarding

  /** A found-event for a new id adds exactly that id, leaves every other
    * entry alone, and exports the device once, as its first action. */
  lemma OnboardingAddsOneRecord(s: State, msg: Event)
    requires IsOnboarding(s, msg)
    ensures var r := Reconcile(s, msg);
      && r.outcome == Handled
      && r.state.registry.Keys == s.registry.Keys + {msg.info.devId}
      && (forall k :: k in s.registry ==> r.state.registry[k] == s.registry[k])
      && |r.state.log| > |s.log|
      && r.state.log[|s.log|] == ExportDevice(msg.info.devId)
      && NoDeviceExport(r.state.log[|s.log| + 1..])
  {
  }

  /** Onboarding copies the event's state and the event's NAME into the
    * bus entry, keeps the reported name as the platform name, derives the
    * natural id, and marks the id queried. */
  lemma OnboardingBookkeeping(s: State, msg: Event)
    requires IsOnboarding(s, msg)
    ensures var r := Reconcile(s, msg);
      var rec := r.state.registry[msg.info.devId];
      && rec.bus == msg.info.(name := msg.name)
      && rec.bus.state == msg.info.state
      && rec.info.naturalId == "device" + msg.info.devId
      && rec.info.name == msg.info.name
      && r.state.queried == s.queried + {msg.info.devId}
  {
  }

  /** A new light exports exactly on-off and brightness and sends the
    * reported state and level through them; its temperature stays unset. */
  lemma LightOnboarding(s: State, info: BusDevice)
    requires info.devId !in s.registry
    ensures var r := Reconcile(s, Event("newlightchannelfound", info));
      var id := info.devId;
      var rec := r.state.registry[id];
      && r.state.log == s.log + [
           ExportDevice(id), ExportChannel(id, OnOff, "on-off"), ExportChannel(id, Brightness, "brightness"),
           SendState(id, OnOff, Switch(info.state)), SendState(id, Brightness, Reading(info.level))]
      && rec.onOff == Some(info.state)
      && rec.brightness == Some(info.level)
      && rec.temperature == None
  {
  }

  /** A new temperature sensor exports only its temperature channel and sends the level. */
  lemma TemperatureOnboarding(s: State, info: BusDevice)
    requires info.devId !in s.registry
    ensures var r := Reconcile(s, Event("newtempfound", info));
      var id := info.devId;
      var rec := r.state.registry[id];
      && r.state.log == s.log + [
           ExportDevice(id), ExportChannel(id, Temperature, "temperature"), SendState(id, Temperature, Reading(info.level))]
      && rec.temperature == Some(info.level)
      && rec.onOff == None && rec.brightness == None
  {
  }

  /** A new PIR sensor exports only its motion channel and sends nothing. */
  lemma PirOnboarding(s: State, info: BusDevice)
    requires info.devId !in s.registry
    ensures var r := Reconcile(s, Event("newpirfound", info));
      var id := info.devId;
      var rec := r.state.registry[id];
      && r.state.log == s.log + [ExportDevice(id), ExportChannel(id, Motion, "motion")]
      && rec.onOff == None && rec.brightness == None && rec.temperature == None
  {
  }

  /** A found-event for a registered id adds no entry and exports nothing;
    * it refreshes the name from the event, and only a light or a
    * temperature sensor pushes values. */
  lemma FoundAgainNoExport(s: State, msg: Event)
    requires Classify(msg.name).DeviceFound? && msg.info.devId in s.registry
    ensures var r := Reconcile(s, msg);
      var id := msg.info.devId;
      var before := s.registry[id];
      var rec := r.state.registry[id];
      && r.outcome == Handled
      && r.state.registry.Keys == s.registry.Keys
      && r.state.queried == s.queried
      && NoExport(r.state.log[|s.log|..])
      && rec.bus == before.bus.(name := msg.info.name)
      && rec.info == before.info
      && (forall k :: k in s.registry && k != id ==> r.state.registry[k] == s.registry[k])
      && r.state.log == s.log + match Classify(msg.name).kind
           case LightFound => [SendState(id, OnOff, Switch(msg.info.state)), SetValue(id, Brightness, Reading(msg.info.level))]
           case TempFound => [SendState(id, Temperature, Reading(msg.info.level))]
           case PirFound => []
  {
  }

  /** Sending the same found-event twice: the second adds no entry and
    * exports nothing. */
  lemma OnboardingIdempotent(s: State, msg: Event)
    requires Classify(msg.name).DeviceFound?
    ensures var r1 := Reconcile(s, msg);
      var r2 := Reconcile(r1.state, msg);
      && r2.state.registry.Keys == r1.state.registry.Keys
      && NoExport(r2.state.log[|r1.state.log|..])
  {
    var r1 := Reconcile(s, msg);
    assert msg.info.devId in r1.state.registry;
    FoundAgainNoExport(r1.state, msg);
  }

  // ------------------------------------------------------------ updates

  /** A light update overwrites the cached state and both channel values
    * with the reported ones, whatever they were, and notifies both. */
  lemma LightUpdateOverwrites(s: State, info: BusDevice)
    requires info.devId in s.registry
    ensures var r := Reconcile(s, Event("existinglightchannelfound", info));
      var id := info.devId;
      var rec := r.state.registry[id];
      && r.outcome == Handled
      && rec.bus.state == info.state
      && rec.onOff == Some(info.state)
      && rec.brightness == Some(info.level)
      && rec.bus.name == s.registry[id].bus.name
      && r.state.registry.Keys == s.registry.Keys
      && r.state.log == s.log + [SendState(id, OnOff, Switch(info.state)), SendState(id, Brightness, Reading(info.level))]
  {
  }

  /** A temperature update overwrites the temperature value and notifies it. */
  lemma TemperatureUpdateOverwrites(s: State, info: BusDevice)
    requires info.devId in s.registry
    ensures var r := Reconcile(s, Event("existingtempupdated", info));
      var id := info.devId;
      && r.state.registry == s.registry[id := s.registry[id].(temperature := Some(info.level))]
      && r.state.log == s.log + [SendState(id, Temperature, Reading(info.level))]
  {
  }

  /** A PIR trigger for a registered id sends exactly one motion pulse and
    * changes nothing stored. */
  lemma PirTriggerPulsesOnce(s: State, info: BusDevice)
    requires info.devId in s.registry
    ensures var r := Reconcile(s, Event("existingpirtriggered", info));
      && r.state.registry == s.registry
      && r.state.queried == s.queried
      && r.state.log == s.log + [SendMotion(info.devId)]
  {
  }

  /** A PIR or hub seen again changes nothing and sends nothing, registered or not. */
  lemma SeenAgainIsSilent(s: State, msg: Event)
    requires msg.name == "existingpirupdated" || msg.name == "existingwebbrickupdated"
    ensures Reconcile(s, msg) == StepResult(s, Handled)
  {
  }

  /** A new hub only starts the transport's status poller for it. */
  lemma NewWebbrickPolls(s: State, info: BusDevice)
    ensures Reconcile(s, Event("newwebbrickfound", info))
         == StepResult(s.(log := s.log + [Transport(PollStatus(info.devId))]), Handled)
  {
  }

  /** An event name outside the dispatch changes nothing. */
  lemma UnknownEventIgnored(s: State, msg: Event)
    requires msg.name !in KnownNames
    ensures Reconcile(s, msg) == StepResult(s, Ignored)
  {
  }

  /** The update cases index the registry without a nil check: for an id
    * that is not registered they panic, before changing anything. */
  lemma UpdateOfUnknownIdPanics(s: State, msg: Event)
    requires msg.name in {"existinglightchannelfound", "existingtempupdated", "existingpirtriggered"}
    requires msg.info.devId !in s.registry
    ensures Reconcile(s, msg) == StepResult(s, Panicked)
  {
  }

  // ------------------------------------------------------------ exactly one export

  /** How many times the log exports the device `id`. */
  function ExportCount(log: seq<Action>, id: string): nat {
    if log == [] then 0
    else (if log[0] == ExportDevice(id) then 1 else 0) + ExportCount(log[1..], id)
  }

  lemma {:induction false} ExportCountAppend(a: seq<Action>, b: seq<Action>, id: string)
    ensures ExportCount(a + b, id) == ExportCount(a, id) + ExportCount(b, id)
  {
    if a != [] {
      assert (a + b)[1..] == a[1..] + b;
      ExportCountAppend(a[1..], b, id);
    } else {
      assert a + b == b;
    }
  }

  lemma {:induction false} ExportCountNone(d: seq<Action>, id: string)
    requires NoDeviceExport(d)
    ensures ExportCount(d, id) == 0
  {
    if d != [] {
      assert NoDeviceExport(d[1..]) by {
        forall i | 0 <= i < |d[1..]| ensures !d[1..][i].ExportDevice? {
          assert d[1..][i] == d[i + 1];
        }
      }
      ExportCountNone(d[1..], id);
    }
  }

  /** Every registered id has been exported exactly once, and no other id at all. */
  ghost predicate ExportedOnce(s: State) {
    forall id :: ExportCount(s.log, id) == if id in s.registry then 1 else 0
  }

  /** What one event appends to the log, as far as device exports go. */
  lemma ReconcileLogShape(s: State, msg: Event)
    ensures var r := Reconcile(s, msg);
      var d := r.state.log[|s.log|..];
      && r.state.log == s.log + d
      && (IsOnboarding(s, msg) ==>
            |d| > 0 && d[0] == ExportDevice(msg.info.devId) && NoDeviceExport(d[1..])
            && r.state.registry.Keys == s.registry.Keys + {msg.info.devId})
      && (!IsOnboarding(s, msg) ==>
            NoDeviceExport(d) && r.state.registry.Keys == s.registry.Keys)
  {
    var r := Reconcile(s, msg);
    if IsOnboarding(s, msg) {
      OnboardingAddsOneRecord(s, msg);
    } else if Classify(msg.name).DeviceFound? {
      FoundAgainNoExport(s, msg);
    }
  }

  lemma ReconcileKeepsExportedOnce(s: State, msg: Event)
    requires ExportedOnce(s)
    ensures ExportedOnce(Reconcile(s, msg).state)
  {
    var r := Reconcile(s, msg).state;
    var d := r.log[|s.log|..];
    ReconcileLogShape(s, msg);
    forall id
      ensures ExportCount(r.log, id) == if id in r.registry then 1 else 0
    {
      ExportCountAppend(s.log, d, id);
      if IsOnboarding(s, msg) {
        assert d == [d[0]] + d[1..];
        ExportCountAppend([d[0]], d[1..], id);
        ExportCountNone(d[1..], id);
        assert ExportCount([d[0]], id) == if id == msg.info.devId then 1 else 0;
      } else {
        ExportCountNone(d, id);
      }
    }
  }

  lemma TickKeepsExportedOnce(s: State, next: Option<Event>)
    requires ExportedOnce(s)
    ensures ExportedOnce(Tick(s, next).state)
  {
    match next
    case Some(msg) =>
      ReconcileKeepsExportedOnce(s, msg);
    case None =>
      var r := Tick(s, next).state;
      forall id
        ensures ExportCount(r.log, id) == if id in r.registry then 1 else 0
      {
        ExportCountAppend(s.log, [Transport(CheckForMessages)], id);
      }
  }

  /** Over any run of the loop from process start, each registered id has
    * been exported exactly once and nothing else has been exported as a
    * device; every record is filed under its own id. */
  lemma {:induction false} RunExportsEachDeviceOnce(s: State, turns: seq<Option<Event>>)
    requires ExportedOnce(s) && KeyedById(s)
    ensures ExportedOnce(Run(s, turns)) && KeyedById(Run(s, turns))
    decreases |turns|
  {
    if turns != [] {
      TickKeepsExportedOnce(s, turns[0]);
      var r := Tick(s, turns[0]);
      if r.outcome != Panicked {
        RunExportsEachDeviceOnce(r.state, turns[1..]);
      }
    }
  }

  /** The start state satisfies the invariant, so every reachable state does. */
  lemma FromStartEachDeviceExportedOnce(turns: seq<Option<Event>>)
    ensures var s := Run(Initial, turns);
      forall id :: ExportCount(s.log, id) == if id in s.registry then 1 else 0
  {
    RunExportsEachDeviceOnce(Initial, turns);
  }

  // ------------------------------------------------------------ channel labels

  lemma {:induction false} ChannelsLabelledAppend(a: seq<Action>, b: seq<Action>)
    requires ChannelsLabelled(a) && ChannelsLabelled(b)
    ensures ChannelsLabelled(a + b)
  {
    forall i | 0 <= i < |a + b| && (a + b)[i].ExportChannel?
      ensures (a + b)[i].exportName == Label((a + b)[i].channel)
    {
      if i >= |a| {
        assert (a + b)[i] == b[i - |a|];
      }
    }
  }

  /** Only a found-event can export anything. */
  lemma OtherEventsExportNothing(s: State, msg: Event)
    requires !Classify(msg.name).DeviceFound?
    ensures var r := Reconcile(s, msg).state;
      s.log <= r.log && NoExport(r.log[|s.log|..])
  {
  }

  /** The channel exports of an onboarding carry the names of their channels. */
  lemma OnboardingLabelsChannels(s: State, msg: Event)
    requires IsOnboarding(s, msg)
    ensures var r := Reconcile(s, msg).state;
      s.log <= r.log && ChannelsLabelled(r.log[|s.log|..])
  {
    var id := msg.info.devId;
    var info := msg.info;
    var lit: seq<Action>;
    if msg.name == "newtempfound" {
      TemperatureOnboarding(s, info);
      lit := [ExportDevice(id), ExportChannel(id, Temperature, "temperature"), SendState(id, Temperature, Reading(info.level))];
    } else if msg.name == "newpirfound" {
      PirOnboarding(s, info);
      lit := [ExportDevice(id), ExportChannel(id, Motion, "motion")];
    } else {
      LightOnboarding(s, info);
      lit := [ExportDevice(id), ExportChannel(id, OnOff, "on-off"), ExportChannel(id, Brightness, "brightness"),
              SendState(id, OnOff, Switch(info.state)), SendState(id, Brightness, Reading(info.level))];
    }
    var r := Reconcile(s, Event(msg.name, info)).state;
    assert r.log == s.log + lit;
    assert r.log[|s.log|..] == lit;
    assert ChannelsLabelled(lit);
  }

  /** Each event exports a channel only under the name of that channel:
    * "temperature", "motion", "on-off" and "brightness" go with the
    * channel objects of the same name. */
  lemma ReconcileKeepsLabels(s: State, msg: Event)
    requires ChannelsLabelled(s.log)
    ensures ChannelsLabelled(Reconcile(s, msg).state.log)
  {
    var r := Reconcile(s, msg).state;
    var d := r.log[|s.log|..];
    assert r.log == s.log + d;
    if IsOnboarding(s, msg) {
      OnboardingLabelsChannels(s, msg);
    } else if Classify(msg.name).DeviceFound? {
      FoundAgainNoExport(s, msg);
    } else {
      OtherEventsExportNothing(s, msg);
    }
    ChannelsLabelledAppend(s.log, d);
  }

  /** Over any run from process start, every channel export in the log
    * carries the label of the channel it registers. */
  lemma {:induction false} RunKeepsLabels(s: State, turns: seq<Option<Event>>)
    requires ChannelsLabelled(s.log)
    ensures ChannelsLabelled(Run(s, turns).log)
    decreases |turns|
  {
    if turns != [] {
      var r := Tick(s, turns[0]);
      match turns[0] {
        case Some(msg) => ReconcileKeepsLabels(s, msg);
        case None => ChannelsLabelledAppend(s.log, [Transport(CheckForMessages)]);
      }
      if r.outcome != Panicked {
        RunKeepsLabels(r.state, turns[1..]);
      }
    }
  }

  /** From process start, the platform sees each channel under its own name:
    * two channel exports with the same name export the same channel. */
  lemma FromStartChannelNamesUnambiguous(turns: seq<Option<Event>>)
    ensures var log := Run(Initial, turns).log;
      && ChannelsLabelled(log)
      && forall i, j ::
           (0 <= i < |log| && 0 <= j < |log| && log[i].ExportChannel? && log[j].ExportChannel?
            && log[i].exportName == log[j].exportName)
           ==> log[i].channel == log[j].channel
  {
    var log := Run(Initial, turns).log;
    RunKeepsLabels(Initial, turns);
    forall i, j | 0 <= i < |log| && 0 <= j < |log| && log[i].ExportChannel? && log[j].ExportChannel?
      && log[i].exportName == log[j].exportName
      ensures log[i].channel == log[j].channel
    {
      LabelsDistinct(log[i].channel, log[j].channel);
    }
  }
}
