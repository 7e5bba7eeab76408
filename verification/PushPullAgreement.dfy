/** Push equals pull: the properties the state reporter derives from a cache and
    the StateReport the directive router assembles from it, compared. */
module PushPullAgreement {
  import opened AlexaModel
  import opened JsNumbers
  import opened ModeMaps
  import opened PushMapping
  import opened PullReport
  import ColorText
  import RangeControl
  import RateControl
  import StateReporter

  /** ReportState answers `key` with `value`. */
  ghost predicate Answers(report: seq<Property>, key: PropKey, value: Value) {
    exists q :: q in report && q.key == key && q.value == value
  }

  /** A blind or window whose row is nevertheless a garage door with a mode: the
      push path would send a mode the pull path does not know. TYPE_MAP gives
      neither type a ModeController. */
  predicate Misrendered(c: Control, d: Device) {
    c.kind in {Jalousie, Window} && d.category == GarageDoor && ModeController in d.capabilities
  }

  // ----- Membership in the report --------------------------------------------------

  lemma InConcat<T>(a: seq<T>, b: seq<T>, c: seq<T>, d: seq<T>, e: seq<T>, f: seq<T>, g: seq<T>, x: T)
    ensures x in a + b + c + d + e + f + g
      <==> x in a || x in b || x in c || x in d || x in e || x in f || x in g
  {
  }

  lemma InConcat6<T>(a: seq<T>, b: seq<T>, c: seq<T>, d: seq<T>, e: seq<T>, f: seq<T>, x: T)
    ensures x in a + b + c + d + e + f <==> x in a || x in b || x in c || x in d || x in e || x in f
  {
  }

  const POWER_KEY := PropKey(PowerController, NoInstance, PowerState)

  lemma WithAudioPowerKeeps(e: Endpoint, power: Option<bool>, ps: seq<Property>, p: Property)
    requires p in ps && (p.key != POWER_KEY || power.None?)
    ensures p in WithAudioPower(e, power, ps)
  {
    if PowerController in e.capabilities && power.Some? {
      ReplaceKeeps(ps, Prop(PowerController, NoInstance, PowerState, OnOff(power.value)), p);
    }
  }

  lemma ViaPower(e: Endpoint, c: Control, cache: Cache, moods: MoodParser, p: Property)
    requires p in PowerBlock(e, c, cache, moods) && c.kind !in AUDIO_TYPES
    ensures p in Report(e, c, cache, moods)
  {
    InConcat(PowerBlock(e, c, cache, moods), LightModeBlock(e, c, cache, moods), ModeBlocks(e, c, cache),
             ColorBlocks(e, c, cache), RangeBlock(e, c, cache), SensorBlocks(e, c, cache), AudioBlocks(e, c, cache), p);
    WithAudioPowerKeeps(e, AudioPower(c, cache), BeforeAudioPower(e, c, cache, moods), p);
  }

  lemma ViaOther(e: Endpoint, c: Control, cache: Cache, moods: MoodParser, p: Property)
    requires
      || p in LightModeBlock(e, c, cache, moods) || p in ModeBlocks(e, c, cache) || p in ColorBlocks(e, c, cache)
      || p in RangeBlock(e, c, cache) || p in SensorBlocks(e, c, cache) || p in AudioBlocks(e, c, cache)
    requires p.key != POWER_KEY
    ensures p in Report(e, c, cache, moods)
  {
    InConcat(PowerBlock(e, c, cache, moods), LightModeBlock(e, c, cache, moods), ModeBlocks(e, c, cache),
             ColorBlocks(e, c, cache), RangeBlock(e, c, cache), SensorBlocks(e, c, cache), AudioBlocks(e, c, cache), p);
    WithAudioPowerKeeps(e, AudioPower(c, cache), BeforeAudioPower(e, c, cache, moods), p);
  }

  lemma {:induction false} ReplaceKeeps(ps: seq<Property>, r: Property, p: Property)
    requires p in ps && p.key != r.key
    ensures p in Replace(ps, r)
  {
    if ps[0] != p {
      if ps[0].key != r.key { ReplaceKeeps(ps[1..], r, p); }
    }
  }

  lemma {:induction false} ReplaceMembers(ps: seq<Property>, r: Property)
    ensures r in Replace(ps, r)
    ensures forall q :: q in Replace(ps, r) ==> q == r || q in ps
  {
    if ps != [] && ps[0].key != r.key { ReplaceMembers(ps[1..], r); }
  }

  // ----- Forward: what is pushed is answered -----------------------------------------

  // Per block: one lemma per kind of control that pushes into it, then all of them.

  lemma SwitchPower(c: Control, d: Device, cache: Cache, moods: MoodParser, state: StateName, n: real, p: Property)
    requires c.kind in {Switch, TimedSwitch}
    requires ValueOf(c, cache, state) == Some(n) && p in MapNumber(c, d, cache, state, n) && Advertised(d, p)
    requires p.key == POWER_KEY
    ensures p in PowerBlock(ToEndpoint(d), c, cache, moods)
  {
  }

  lemma DimmerPower(c: Control, d: Device, cache: Cache, moods: MoodParser, state: StateName, n: real, p: Property)
    requires c.kind == Dimmer
    requires ValueOf(c, cache, state) == Some(n) && p in MapNumber(c, d, cache, state, n) && Advertised(d, p)
    requires p.key == POWER_KEY
    ensures p in PowerBlock(ToEndpoint(d), c, cache, moods)
  {
  }

  lemma ScenePower(c: Control, d: Device, cache: Cache, moods: MoodParser, state: StateName, n: real, p: Property)
    requires c.kind == LightController
    requires ValueOf(c, cache, state) == Some(n) && p in MapNumber(c, d, cache, state, n) && Advertised(d, p)
    requires p.key == POWER_KEY
    ensures p in PowerBlock(ToEndpoint(d), c, cache, moods)
  {
  }

  lemma AcPower(c: Control, d: Device, cache: Cache, moods: MoodParser, state: StateName, n: real, p: Property)
    requires c.kind == ACControl
    requires ValueOf(c, cache, state) == Some(n) && p in MapNumber(c, d, cache, state, n) && Advertised(d, p)
    requires p.key == POWER_KEY
    ensures p in PowerBlock(ToEndpoint(d), c, cache, moods)
  {
  }

  /** Both states of a ventilation derive the power the report derives. */
  lemma VentilationPower(c: Control, d: Device, cache: Cache, moods: MoodParser, state: StateName, n: real, p: Property)
    requires c.kind == Ventilation
    requires ValueOf(c, cache, state) == Some(n) && p in MapNumber(c, d, cache, state, n) && Advertised(d, p)
    requires p.key == POWER_KEY
    ensures p in PowerBlock(ToEndpoint(d), c, cache, moods)
  {
  }

  lemma PowerPlaced(c: Control, d: Device, cache: Cache, moods: MoodParser, state: StateName, n: real, p: Property)
    requires c.kind in {Switch, TimedSwitch, Dimmer, LightController, ACControl, Ventilation}
    requires ValueOf(c, cache, state) == Some(n) && p in MapNumber(c, d, cache, state, n) && Advertised(d, p)
    requires p.key == POWER_KEY
    ensures p in PowerBlock(ToEndpoint(d), c, cache, moods)
  {
    if c.kind == Dimmer { DimmerPower(c, d, cache, moods, state, n, p); }
    else if c.kind == LightController { ScenePower(c, d, cache, moods, state, n, p); }
    else if c.kind == ACControl { AcPower(c, d, cache, moods, state, n, p); }
    else if c.kind == Ventilation { VentilationPower(c, d, cache, moods, state, n, p); }
    else { SwitchPower(c, d, cache, moods, state, n, p); }
  }

  lemma BlindMaps(c: Control, d: Device, cache: Cache, state: StateName, n: real, p: Property)
    requires c.kind in {Jalousie, Window, Gate} && p in MapNumber(c, d, cache, state, n)
    ensures state == PositionState && p in MapBlind(c, d, n)
  {
  }

  lemma BlindReads(c: Control, d: Device, cache: Cache, n: real, p: Property)
    requires c.kind in {Jalousie, Window, Gate} && ValueOf(c, cache, PositionState) == Some(n)
    requires p in MapBlind(c, d, n) && p.key.iface == RangeController
    ensures var v := RangeControl.ResolveRangeValue(ToEndpoint(d), c, cache); v.Some? && p == RangeProp(BlindPosition, v.value)
    ensures !(d.category == GarageDoor && ModeController in d.capabilities)
  {
  }

  lemma BlindRange(c: Control, d: Device, cache: Cache, moods: MoodParser, state: StateName, n: real, p: Property)
    requires c.kind in {Jalousie, Window, Gate} && !Misrendered(c, d)
    requires ValueOf(c, cache, state) == Some(n) && p in MapNumber(c, d, cache, state, n) && Advertised(d, p)
    requires p.key.iface == RangeController
    ensures p in RangeBlock(ToEndpoint(d), c, cache)
  {
    BlindMaps(c, d, cache, state, n, p);
    BlindReads(c, d, cache, n, p);
  }

  lemma SliderRange(c: Control, d: Device, cache: Cache, moods: MoodParser, state: StateName, n: real, p: Property)
    requires c.kind in {Slider, ValueSelector}
    requires ValueOf(c, cache, state) == Some(n) && p in MapNumber(c, d, cache, state, n) && Advertised(d, p)
    requires p.key.iface == RangeController
    ensures p in RangeBlock(ToEndpoint(d), c, cache)
  {
  }

  lemma VentRange(c: Control, d: Device, cache: Cache, moods: MoodParser, state: StateName, n: real, p: Property)
    requires c.kind == Ventilation
    requires ValueOf(c, cache, state) == Some(n) && p in MapNumber(c, d, cache, state, n) && Advertised(d, p)
    requires p.key.iface == RangeController
    ensures p in RangeBlock(ToEndpoint(d), c, cache)
  {
  }

  lemma RangePlaced(c: Control, d: Device, cache: Cache, moods: MoodParser, state: StateName, n: real, p: Property)
    requires c.kind in {Jalousie, Window, Gate, Slider, ValueSelector, Ventilation} && !Misrendered(c, d)
    requires ValueOf(c, cache, state) == Some(n) && p in MapNumber(c, d, cache, state, n) && Advertised(d, p)
    requires p.key.iface == RangeController
    ensures p in RangeBlock(ToEndpoint(d), c, cache)
  {
    if c.kind == Ventilation { VentRange(c, d, cache, moods, state, n, p); }
    else if c.kind in {Slider, ValueSelector} { SliderRange(c, d, cache, moods, state, n, p); }
    else { BlindRange(c, d, cache, moods, state, n, p); }
  }

  lemma ModesPlaced(e: Endpoint, fan: Option<Value>, vent: Option<Value>, radio: Option<Value>, slot: Option<Value>,
                    binary: Option<Value>)
    requires ModeController in e.capabilities
    ensures fan.Some? ==> ModeProp(AcFanSpeed, fan.value) in ModeBlocksOf(e, fan, vent, radio, slot, binary)
    ensures vent.Some? ==> ModeProp(VentMode, vent.value) in ModeBlocksOf(e, fan, vent, radio, slot, binary)
    ensures radio.Some? ==> ModeProp(RadioOutput, radio.value) in ModeBlocksOf(e, fan, vent, radio, slot, binary)
    ensures slot.Some? ==> ModeProp(SequenceSlot, slot.value) in ModeBlocksOf(e, fan, vent, radio, slot, binary)
  {
  }

  lemma ModesReported(e: Endpoint, c: Control, cache: Cache)
    requires ModeController in e.capabilities
    ensures var fan, vent := AsTrunc(Read(c, cache, ACControl, FanState)), AsTrunc(Read(c, cache, Ventilation, ModeState));
      && (fan.Some? ==> ModeProp(AcFanSpeed, fan.value) in ModeBlocks(e, c, cache))
      && (vent.Some? ==> ModeProp(VentMode, vent.value) in ModeBlocks(e, c, cache))
    ensures var radio, slot := AsTrunc(Read(c, cache, Radio, ActiveOutput)), AsTrunc(Read(c, cache, Sequential, ActiveSequence));
      && (radio.Some? ==> ModeProp(RadioOutput, radio.value) in ModeBlocks(e, c, cache))
      && (slot.Some? ==> ModeProp(SequenceSlot, slot.value) in ModeBlocks(e, c, cache))
  {
    ModesPlaced(e, AsTrunc(Read(c, cache, ACControl, FanState)), AsTrunc(Read(c, cache, Ventilation, ModeState)),
      AsTrunc(Read(c, cache, Radio, ActiveOutput)), AsTrunc(Read(c, cache, Sequential, ActiveSequence)),
      AsSlot(BinarySensorWord(e, c, cache)));
  }

  lemma GarageMode(c: Control, d: Device, cache: Cache, moods: MoodParser, state: StateName, n: real, p: Property)
    requires c.kind == Gate
    requires ValueOf(c, cache, state) == Some(n) && p in MapNumber(c, d, cache, state, n) && Advertised(d, p)
    requires p.key.iface == ModeController
    ensures p in ModeBlocks(ToEndpoint(d), c, cache)
  {
  }

  lemma RadioMaps(c: Control, d: Device, cache: Cache, state: StateName, n: real, p: Property)
    requires c.kind in {Radio, Sequential} && p in MapNumber(c, d, cache, state, n)
    ensures if c.kind == Radio then state == ActiveOutput && p == ModeProp(RadioOutput, TruncText(n))
            else state == ActiveSequence && p == ModeProp(SequenceSlot, TruncText(n))
  {
  }

  lemma RadioMode(c: Control, d: Device, cache: Cache, moods: MoodParser, state: StateName, n: real, p: Property)
    requires c.kind in {Radio, Sequential}
    requires ValueOf(c, cache, state) == Some(n) && p in MapNumber(c, d, cache, state, n) && Advertised(d, p)
    requires p.key.iface == ModeController
    ensures p in ModeBlocks(ToEndpoint(d), c, cache)
  {
    RadioMaps(c, d, cache, state, n, p);
    ModesReported(ToEndpoint(d), c, cache);
  }

  lemma ClimateModeMaps(c: Control, d: Device, cache: Cache, state: StateName, n: real, p: Property)
    requires c.kind in {ACControl, Ventilation} && p in MapNumber(c, d, cache, state, n) && p.key.iface == ModeController
    ensures if c.kind == ACControl then state == FanState && p == ModeProp(AcFanSpeed, TruncText(n))
            else state == ModeState && p == ModeProp(VentMode, TruncText(n))
  {
  }

  lemma ClimateMode(c: Control, d: Device, cache: Cache, moods: MoodParser, state: StateName, n: real, p: Property)
    requires c.kind in {ACControl, Ventilation}
    requires ValueOf(c, cache, state) == Some(n) && p in MapNumber(c, d, cache, state, n) && Advertised(d, p)
    requires p.key.iface == ModeController
    ensures p in ModeBlocks(ToEndpoint(d), c, cache)
  {
    ClimateModeMaps(c, d, cache, state, n, p);
    ModesReported(ToEndpoint(d), c, cache);
  }

  lemma DetectorMaps(c: Control, d: Device, cache: Cache, state: StateName, n: real, p: Property)
    requires c.kind in {PresenceDetector, InfoOnlyDigital} && p in MapNumber(c, d, cache, state, n)
    ensures state == ActiveState
    ensures var w := Polarize(n != 0.0, d.sensorPolarityInverted);
      p == Sensor(MotionSensor, w) || p == BinarySlot(w) || (c.kind == InfoOnlyDigital && p == Sensor(ContactSensor, w))
  {
  }

  lemma DetectorRead(c: Control, d: Device, cache: Cache, n: real)
    requires c.kind in {PresenceDetector, InfoOnlyDigital} && ValueOf(c, cache, ActiveState) == Some(n)
    ensures var w := Polarize(n != 0.0, d.sensorPolarityInverted);
      && BinarySensorWord(ToEndpoint(d), c, cache) == Some(w) && MotionWord(ToEndpoint(d), c, cache) == Some(w)
      && (c.kind == InfoOnlyDigital ==> ContactWord(ToEndpoint(d), c, cache) == Some(w))
  {
  }

  lemma SlotAnswered(c: Control, d: Device, cache: Cache, w: Word)
    requires BinarySensorWord(ToEndpoint(d), c, cache) == Some(w) && Advertised(d, BinarySlot(w))
    ensures BinarySlot(w) in ModeBlocks(ToEndpoint(d), c, cache)
  {
    var e := ToEndpoint(d);
    SlotPlaced(e, AsTrunc(Read(c, cache, ACControl, FanState)), AsTrunc(Read(c, cache, Ventilation, ModeState)),
      AsTrunc(Read(c, cache, Radio, ActiveOutput)), AsTrunc(Read(c, cache, Sequential, ActiveSequence)), w);
  }

  lemma SlotPlaced(e: Endpoint, fan: Option<Value>, vent: Option<Value>, radio: Option<Value>, slot: Option<Value>, w: Word)
    requires ModeController in e.capabilities
    ensures BinarySlot(w) in ModeBlocksOf(e, fan, vent, radio, slot, AsSlot(Some(w)))
  {
  }

  lemma MotionAnswered(c: Control, d: Device, cache: Cache, w: Word)
    requires MotionWord(ToEndpoint(d), c, cache) == Some(w) && Advertised(d, Sensor(MotionSensor, w))
    ensures Sensor(MotionSensor, w) in SensorBlocks(ToEndpoint(d), c, cache)
  {
    MotionPlaced(ToEndpoint(d),
      AsReading(SetpointOf(c, cache), c.scale), AsWord(ThermostatWord(c, cache)),
      AsReading(TemperatureOf(c, cache), c.scale), AsRounded(HumidityOf(c, cache)), w,
      AsWord(ContactWord(ToEndpoint(d), c, cache)));
  }

  lemma MotionPlaced(e: Endpoint, setpoint: Option<Value>, mode: Option<Value>, temperature: Option<Value>,
                     humidity: Option<Value>, w: Word, contact: Option<Value>)
    requires MotionSensor in e.capabilities
    ensures Sensor(MotionSensor, w) in SensorBlocksOf(e, setpoint, mode, temperature, humidity, AsWord(Some(w)), contact)
  {
  }

  lemma ContactAnswered(c: Control, d: Device, cache: Cache, w: Word)
    requires ContactWord(ToEndpoint(d), c, cache) == Some(w) && Advertised(d, Sensor(ContactSensor, w))
    ensures Sensor(ContactSensor, w) in SensorBlocks(ToEndpoint(d), c, cache)
  {
    ContactPlaced(ToEndpoint(d),
      AsReading(SetpointOf(c, cache), c.scale), AsWord(ThermostatWord(c, cache)),
      AsReading(TemperatureOf(c, cache), c.scale), AsRounded(HumidityOf(c, cache)),
      AsWord(MotionWord(ToEndpoint(d), c, cache)), w);
  }

  lemma ContactPlaced(e: Endpoint, setpoint: Option<Value>, mode: Option<Value>, temperature: Option<Value>,
                      humidity: Option<Value>, motion: Option<Value>, w: Word)
    requires ContactSensor in e.capabilities
    ensures Sensor(ContactSensor, w) in SensorBlocksOf(e, setpoint, mode, temperature, humidity, motion, AsWord(Some(w)))
  {
  }

  lemma DetectorMode(c: Control, d: Device, cache: Cache, moods: MoodParser, state: StateName, n: real, p: Property)
    requires c.kind in {PresenceDetector, InfoOnlyDigital}
    requires ValueOf(c, cache, state) == Some(n) && p in MapNumber(c, d, cache, state, n) && Advertised(d, p)
    requires p.key.iface == ModeController
    ensures p in ModeBlocks(ToEndpoint(d), c, cache)
  {
    DetectorMaps(c, d, cache, state, n, p);
    DetectorRead(c, d, cache, n);
    SlotAnswered(c, d, cache, Polarize(n != 0.0, d.sensorPolarityInverted));
  }

  lemma ModePlaced(c: Control, d: Device, cache: Cache, moods: MoodParser, state: StateName, n: real, p: Property)
    requires c.kind in {Gate, Radio, Sequential, ACControl, Ventilation, PresenceDetector, InfoOnlyDigital}
    requires ValueOf(c, cache, state) == Some(n) && p in MapNumber(c, d, cache, state, n) && Advertised(d, p)
    requires p.key.iface == ModeController
    ensures p in ModeBlocks(ToEndpoint(d), c, cache)
  {
    if c.kind == Gate { GarageMode(c, d, cache, moods, state, n, p); }
    else if c.kind in {ACControl, Ventilation} { ClimateMode(c, d, cache, moods, state, n, p); }
    else if c.kind in {PresenceDetector, InfoOnlyDigital} { DetectorMode(c, d, cache, moods, state, n, p); }
    else { RadioMode(c, d, cache, moods, state, n, p); }
  }

  lemma RoomSensor(c: Control, d: Device, cache: Cache, moods: MoodParser, state: StateName, n: real, p: Property)
    requires c.kind == IRoomControllerV2
    requires ValueOf(c, cache, state) == Some(n) && p in MapNumber(c, d, cache, state, n) && Advertised(d, p)
    requires p.key.iface in {ThermostatController, TemperatureSensor, HumiditySensor, MotionSensor, ContactSensor}
    ensures p in SensorBlocks(ToEndpoint(d), c, cache)
  {
  }

  lemma AcSensor(c: Control, d: Device, cache: Cache, moods: MoodParser, state: StateName, n: real, p: Property)
    requires c.kind == ACControl
    requires ValueOf(c, cache, state) == Some(n) && p in MapNumber(c, d, cache, state, n) && Advertised(d, p)
    requires p.key.iface in {ThermostatController, TemperatureSensor, HumiditySensor, MotionSensor, ContactSensor}
    ensures p in SensorBlocks(ToEndpoint(d), c, cache)
  {
  }

  lemma VentSensor(c: Control, d: Device, cache: Cache, moods: MoodParser, state: StateName, n: real, p: Property)
    requires c.kind == Ventilation
    requires ValueOf(c, cache, state) == Some(n) && p in MapNumber(c, d, cache, state, n) && Advertised(d, p)
    requires p.key.iface in {ThermostatController, TemperatureSensor, HumiditySensor, MotionSensor, ContactSensor}
    ensures p in SensorBlocks(ToEndpoint(d), c, cache)
  {
  }

  lemma AnalogSensor(c: Control, d: Device, cache: Cache, moods: MoodParser, state: StateName, n: real, p: Property)
    requires c.kind == InfoOnlyAnalog
    requires ValueOf(c, cache, state) == Some(n) && p in MapNumber(c, d, cache, state, n) && Advertised(d, p)
    requires p.key.iface in {ThermostatController, TemperatureSensor, HumiditySensor, MotionSensor, ContactSensor}
    ensures p in SensorBlocks(ToEndpoint(d), c, cache)
  {
  }

  lemma DetectorSensor(c: Control, d: Device, cache: Cache, moods: MoodParser, state: StateName, n: real, p: Property)
    requires c.kind in {PresenceDetector, InfoOnlyDigital}
    requires ValueOf(c, cache, state) == Some(n) && p in MapNumber(c, d, cache, state, n) && Advertised(d, p)
    requires p.key.iface in {MotionSensor, ContactSensor}
    ensures p in SensorBlocks(ToEndpoint(d), c, cache)
  {
    DetectorMaps(c, d, cache, state, n, p);
    DetectorRead(c, d, cache, n);
    var w := Polarize(n != 0.0, d.sensorPolarityInverted);
    if p.key.iface == MotionSensor { MotionAnswered(c, d, cache, w); } else { ContactAnswered(c, d, cache, w); }
  }

  lemma DetectorIface(c: Control, d: Device, cache: Cache, state: StateName, n: real, p: Property)
    requires c.kind in {PresenceDetector, InfoOnlyDigital} && p in MapNumber(c, d, cache, state, n)
    ensures p.key.iface in {ModeController, MotionSensor, ContactSensor}
  {
    DetectorMaps(c, d, cache, state, n, p);
  }

  lemma SensorPlaced(c: Control, d: Device, cache: Cache, moods: MoodParser, state: StateName, n: real, p: Property)
    requires c.kind in {IRoomControllerV2, ACControl, Ventilation, InfoOnlyAnalog, PresenceDetector, InfoOnlyDigital}
    requires ValueOf(c, cache, state) == Some(n) && p in MapNumber(c, d, cache, state, n) && Advertised(d, p)
    requires p.key.iface in {ThermostatController, TemperatureSensor, HumiditySensor, MotionSensor, ContactSensor}
    ensures p in SensorBlocks(ToEndpoint(d), c, cache)
  {
    if c.kind == IRoomControllerV2 { RoomSensor(c, d, cache, moods, state, n, p); }
    else if c.kind == ACControl { AcSensor(c, d, cache, moods, state, n, p); }
    else if c.kind == Ventilation { VentSensor(c, d, cache, moods, state, n, p); }
    else if c.kind == InfoOnlyAnalog { AnalogSensor(c, d, cache, moods, state, n, p); }
    else {
      DetectorIface(c, d, cache, state, n, p);
      DetectorSensor(c, d, cache, moods, state, n, p);
    }
  }

  lemma DimmerPlaced(c: Control, d: Device, cache: Cache, moods: MoodParser, state: StateName, n: real, p: Property)
    requires c.kind == Dimmer
    requires ValueOf(c, cache, state) == Some(n) && p in MapNumber(c, d, cache, state, n) && Advertised(d, p)
    requires p.key != POWER_KEY
    ensures p in ColorBlocks(ToEndpoint(d), c, cache)
  {
  }

  lemma ScenePlaced(c: Control, d: Device, cache: Cache, moods: MoodParser, state: StateName, n: real, p: Property)
    requires c.kind == LightController
    requires ValueOf(c, cache, state) == Some(n) && p in MapNumber(c, d, cache, state, n) && Advertised(d, p)
    requires p.key != POWER_KEY
    ensures p in LightModeBlock(ToEndpoint(d), c, cache, moods)
  {
  }

  lemma AudioAnswered(c: Control, d: Device, cache: Cache, state: StateName, n: real, p: Property)
    requires c.kind in AUDIO_TYPES
    requires ValueOf(c, cache, state) == Some(n) && p in MapAudio(state, n) && Advertised(d, p)
    requires p.key != POWER_KEY
    ensures p in AudioBlocks(ToEndpoint(d), c, cache)
  {
  }

  /** An audio zone's power reaches the report by replacing the stub. */
  lemma AudioPowerReplaces(e: Endpoint, power: Option<bool>, ps: seq<Property>, p: Property)
    requires PowerController in e.capabilities && power.Some? && p == Power(power.value)
    ensures p in WithAudioPower(e, power, ps)
  {
    ReplaceMembers(ps, p);
  }

  lemma AudioPowerRead(c: Control, d: Device, cache: Cache, n: real, p: Property)
    requires c.kind in AUDIO_TYPES
    requires ValueOf(c, cache, PowerStateName) == Some(n) && p == Power(n != 0.0) && Advertised(d, p)
    ensures PowerController in ToEndpoint(d).capabilities
    ensures AudioPower(c, cache).Some? && p == Power(AudioPower(c, cache).value)
  {
  }

  lemma ViaAudioPower(e: Endpoint, c: Control, cache: Cache, moods: MoodParser, p: Property)
    requires PowerController in e.capabilities && AudioPower(c, cache).Some? && p == Power(AudioPower(c, cache).value)
    ensures p in Report(e, c, cache, moods)
  {
    AudioPowerReplaces(e, AudioPower(c, cache), BeforeAudioPower(e, c, cache, moods), p);
  }

  lemma AudioStateAnswered(c: Control, d: Device, cache: Cache, moods: MoodParser, state: StateName, n: real, p: Property)
    requires c.kind in AUDIO_TYPES
    requires ValueOf(c, cache, state) == Some(n) && p in MapAudio(state, n) && Advertised(d, p)
    ensures p in Report(ToEndpoint(d), c, cache, moods)
  {
    if p.key == POWER_KEY {
      AudioPowerRead(c, d, cache, n, p);
      ViaAudioPower(ToEndpoint(d), c, cache, moods, p);
    } else {
      AudioAnswered(c, d, cache, state, n, p);
      ViaOther(ToEndpoint(d), c, cache, moods, p);
    }
  }

  /** The interfaces each kind of control pushes besides power. */
  predicate PushesOther(kind: ControlType, iface: Interface) {
    match kind
    case Jalousie => iface == RangeController
    case Window => iface == RangeController
    case Slider => iface == RangeController
    case ValueSelector => iface == RangeController
    case Gate => iface == RangeController || iface == ModeController
    case Dimmer => iface == BrightnessController
    case Radio => iface == ModeController
    case Sequential => iface == ModeController
    case LightController => iface == ModeController
    case PresenceDetector => iface == ModeController || iface == MotionSensor
    case InfoOnlyDigital => iface == ModeController || iface == MotionSensor || iface == ContactSensor
    case InfoOnlyAnalog => iface == TemperatureSensor || iface == HumiditySensor
    case IRoomControllerV2 => iface == ThermostatController || iface == TemperatureSensor || iface == HumiditySensor
    case ACControl => iface == ModeController || iface == ThermostatController || iface == TemperatureSensor
    case Ventilation =>
      iface == ModeController || iface == RangeController || iface == TemperatureSensor || iface == HumiditySensor
    case _ => false
  }

  const POWER_TYPES: set<ControlType> := {Switch, TimedSwitch, Dimmer, LightController, ACControl, Ventilation}

  lemma CoverPushes(c: Control, d: Device, cache: Cache, state: StateName, n: real, p: Property)
    requires p in MapNumber(c, d, cache, state, n) && !Misrendered(c, d)
    requires c.kind in {Jalousie, Window, Gate, Slider, ValueSelector, Radio, Sequential}
    ensures p.key != POWER_KEY && PushesOther(c.kind, p.key.iface)
  {
  }

  lemma ClimatePushes(c: Control, d: Device, cache: Cache, state: StateName, n: real, p: Property)
    requires p in MapNumber(c, d, cache, state, n)
    requires c.kind in {IRoomControllerV2, ACControl, Ventilation, PresenceDetector, InfoOnlyDigital, InfoOnlyAnalog}
    ensures if p.key == POWER_KEY then c.kind in POWER_TYPES else PushesOther(c.kind, p.key.iface)
  {
  }

  lemma LightPushes(c: Control, d: Device, cache: Cache, state: StateName, n: real, p: Property)
    requires p in MapNumber(c, d, cache, state, n)
    requires c.kind in {Switch, TimedSwitch, Dimmer, LightController, ColorPickerV2, WindowMonitor, LightControllerV2, UnmappedType}
    ensures if p.key == POWER_KEY then c.kind in POWER_TYPES else PushesOther(c.kind, p.key.iface)
  {
  }

  lemma KindPushes(c: Control, d: Device, cache: Cache, state: StateName, n: real, p: Property)
    requires p in MapNumber(c, d, cache, state, n) && !Misrendered(c, d) && c.kind !in AUDIO_TYPES
    ensures if p.key == POWER_KEY then c.kind in POWER_TYPES else PushesOther(c.kind, p.key.iface)
  {
    if c.kind in {Jalousie, Window, Gate, Slider, ValueSelector, Radio, Sequential} { CoverPushes(c, d, cache, state, n, p); }
    else if c.kind in {IRoomControllerV2, ACControl, Ventilation, PresenceDetector, InfoOnlyDigital, InfoOnlyAnalog} {
      ClimatePushes(c, d, cache, state, n, p);
    } else { LightPushes(c, d, cache, state, n, p); }
  }

  lemma AudioPushes(c: Control, d: Device, cache: Cache, state: StateName, n: real)
    requires c.kind in AUDIO_TYPES
    ensures MapNumber(c, d, cache, state, n) == MapAudio(state, n)
  {
  }

  lemma AudioReported(c: Control, d: Device, cache: Cache, moods: MoodParser, state: StateName, n: real, p: Property)
    requires c.kind in AUDIO_TYPES
    requires ValueOf(c, cache, state) == Some(n) && p in MapNumber(c, d, cache, state, n) && Advertised(d, p)
    ensures p in Report(ToEndpoint(d), c, cache, moods)
  {
    AudioPushes(c, d, cache, state, n);
    AudioStateAnswered(c, d, cache, moods, state, n, p);
  }

  /** The block a pushed property is in, by its key. */
  lemma OtherPlaced(c: Control, d: Device, cache: Cache, moods: MoodParser, state: StateName, n: real, p: Property)
    requires PushesOther(c.kind, p.key.iface) && p.key != POWER_KEY && !Misrendered(c, d)
    requires ValueOf(c, cache, state) == Some(n) && p in MapNumber(c, d, cache, state, n) && Advertised(d, p)
    ensures p in LightModeBlock(ToEndpoint(d), c, cache, moods) || p in ModeBlocks(ToEndpoint(d), c, cache) || p in ColorBlocks(ToEndpoint(d), c, cache)
      || p in RangeBlock(ToEndpoint(d), c, cache) || p in SensorBlocks(ToEndpoint(d), c, cache)
  {
    if c.kind == Dimmer { DimmerPlaced(c, d, cache, moods, state, n, p); }
    else if c.kind == LightController { ScenePlaced(c, d, cache, moods, state, n, p); }
    else if p.key.iface == RangeController { RangePlaced(c, d, cache, moods, state, n, p); }
    else if p.key.iface == ModeController { ModePlaced(c, d, cache, moods, state, n, p); }
    else { SensorPlaced(c, d, cache, moods, state, n, p); }
  }

  /** The property sits in the block its key belongs to. */
  ghost predicate InBlocks(e: Endpoint, c: Control, cache: Cache, moods: MoodParser, p: Property) {
    if p.key == POWER_KEY then p in PowerBlock(e, c, cache, moods)
    else
      || p in LightModeBlock(e, c, cache, moods) || p in ModeBlocks(e, c, cache) || p in ColorBlocks(e, c, cache)
      || p in RangeBlock(e, c, cache) || p in SensorBlocks(e, c, cache)
  }

  lemma ViaBlocks(e: Endpoint, c: Control, cache: Cache, moods: MoodParser, p: Property)
    requires InBlocks(e, c, cache, moods, p) && c.kind !in AUDIO_TYPES
    ensures p in Report(e, c, cache, moods)
  {
    if p.key == POWER_KEY { ViaPower(e, c, cache, moods, p); } else { ViaOther(e, c, cache, moods, p); }
  }

  lemma PowerNumberPlaced(c: Control, d: Device, cache: Cache, moods: MoodParser, state: StateName, n: real, p: Property)
    requires c.kind !in AUDIO_TYPES && p.key == POWER_KEY && !Misrendered(c, d)
    requires ValueOf(c, cache, state) == Some(n) && p in MapNumber(c, d, cache, state, n) && Advertised(d, p)
    ensures p in PowerBlock(ToEndpoint(d), c, cache, moods)
  {
    KindPushes(c, d, cache, state, n, p);
    PowerPlaced(c, d, cache, moods, state, n, p);
  }

  lemma OtherNumberPlaced(c: Control, d: Device, cache: Cache, moods: MoodParser, state: StateName, n: real, p: Property)
    requires c.kind !in AUDIO_TYPES && p.key != POWER_KEY && !Misrendered(c, d)
    requires ValueOf(c, cache, state) == Some(n) && p in MapNumber(c, d, cache, state, n) && Advertised(d, p)
    ensures InBlocks(ToEndpoint(d), c, cache, moods, p)
  {
    KindPushes(c, d, cache, state, n, p);
    OtherPlaced(c, d, cache, moods, state, n, p);
  }

  lemma NumberAnswered(c: Control, d: Device, cache: Cache, moods: MoodParser, state: StateName, n: real, p: Property)
    requires !Misrendered(c, d)
    requires ValueOf(c, cache, state) == Some(n) && p in MapNumber(c, d, cache, state, n) && Advertised(d, p)
    ensures p in Report(ToEndpoint(d), c, cache, moods)
  {
    if c.kind in AUDIO_TYPES {
      AudioReported(c, d, cache, moods, state, n, p);
    } else {
      if p.key == POWER_KEY { PowerNumberPlaced(c, d, cache, moods, state, n, p); }
      else { OtherNumberPlaced(c, d, cache, moods, state, n, p); }
      ViaBlocks(ToEndpoint(d), c, cache, moods, p);
    }
  }

  lemma ColorPowerAnswered(e: Endpoint, c: Control, cache: Cache, moods: MoodParser, m: ColorText.ColorMode)
    requires c.kind == ColorPickerV2 && ColorPickerState(c, cache) == Some(m) && PowerController in e.capabilities
    ensures Power(m.brightness > 0) in PowerBlock(e, c, cache, moods)
  {
    assert LightLikeState(c, cache, moods).None?;
    assert PowerReading(c, cache, moods) == Some(m.brightness > 0);
  }

  lemma ColorModeAnswered(e: Endpoint, m: ColorText.ColorMode, p: Property)
    requires p in ColorProps(m) && p.key != POWER_KEY && p.key.iface in e.capabilities
    ensures p in ColorBlocksOf(e, Some(m), None)
  {
  }

  lemma ColorRead(c: Control, cache: Cache, text: string)
    requires c.kind == ColorPickerV2 && TextOf(c, cache, ColorState) == Some(text)
    ensures ColorPickerState(c, cache) == ColorText.ParseColorState(text)
  {
  }

  lemma ColorTextMaps(c: Control, d: Device, moods: MoodParser, text: string, p: Property)
    requires c.kind == ColorPickerV2 && p in MapText(c, d, moods, ColorState, text)
    ensures ColorText.ParseColorState(text).Some? && p in ColorProps(ColorText.ParseColorState(text).value)
  {
  }

  lemma PowerOfColor(m: ColorText.ColorMode, p: Property)
    requires p in ColorProps(m) && p.key == POWER_KEY
    ensures p == Power(m.brightness > 0)
  {
  }

  lemma ColorAnswered(c: Control, d: Device, cache: Cache, moods: MoodParser, text: string, m: Option<ColorText.ColorMode>, p: Property)
    requires c.kind == ColorPickerV2 && m == ColorText.ParseColorState(text)
    requires TextOf(c, cache, ColorState) == Some(text) && m.Some? && p in ColorProps(m.value) && Advertised(d, p)
    ensures if p.key == POWER_KEY then p in PowerBlock(ToEndpoint(d), c, cache, moods) else p in ColorBlocks(ToEndpoint(d), c, cache)
  {
    ColorRead(c, cache, text);
    if p.key == POWER_KEY {
      ColorPowerAnswered(ToEndpoint(d), c, cache, moods, m.value);
      PowerOfColor(m.value, p);
    } else {
      ColorModeAnswered(ToEndpoint(d), m.value, p);
    }
  }

  lemma WindowRead(c: Control, d: Device, cache: Cache, text: string)
    requires c.kind == WindowMonitor && TextOf(c, cache, WindowStates) == Some(text)
    ensures var w := Polarize(AllClosed(text), d.sensorPolarityInverted);
      && BinarySensorWord(ToEndpoint(d), c, cache) == Some(w) && ContactWord(ToEndpoint(d), c, cache) == Some(w)
  {
  }

  lemma WindowMaps(c: Control, d: Device, moods: MoodParser, text: string, p: Property)
    requires c.kind == WindowMonitor && p in MapText(c, d, moods, WindowStates, text)
    ensures var w := Polarize(AllClosed(text), d.sensorPolarityInverted); p == Sensor(ContactSensor, w) || p == BinarySlot(w)
  {
  }

  lemma WindowAnswered(c: Control, d: Device, cache: Cache, moods: MoodParser, text: string, p: Property)
    requires c.kind == WindowMonitor
    requires TextOf(c, cache, WindowStates) == Some(text) && p in MapText(c, d, moods, WindowStates, text) && Advertised(d, p)
    ensures p.key != POWER_KEY
    ensures if p.key.iface == ModeController then p in ModeBlocks(ToEndpoint(d), c, cache) else p in SensorBlocks(ToEndpoint(d), c, cache)
  {
    var w := Polarize(AllClosed(text), d.sensorPolarityInverted);
    WindowRead(c, d, cache, text);
    WindowMaps(c, d, moods, text, p);
    if p == BinarySlot(w) { SlotAnswered(c, d, cache, w); } else { ContactAnswered(c, d, cache, w); }
  }

  lemma MoodAnswered(c: Control, d: Device, cache: Cache, moods: MoodParser, text: string, p: Property)
    requires c.kind == LightControllerV2
    requires TextOf(c, cache, ActiveMoods) == Some(text) && p in MapText(c, d, moods, ActiveMoods, text) && Advertised(d, p)
    ensures if p.key == POWER_KEY then p in PowerBlock(ToEndpoint(d), c, cache, moods)
            else p in LightModeBlock(ToEndpoint(d), c, cache, moods)
  {
  }

  /** An empty text of anything but a mood controller pushes nothing. */
  lemma EmptyTextMaps(c: Control, d: Device, moods: MoodParser, state: StateName, text: string, p: Property)
    requires text == "" && moods(text) == [] && p in MapText(c, d, moods, state, text)
    ensures c.kind == LightControllerV2 && state == ActiveMoods && p == Power(false)
  {
    EmptyColor(text);
  }

  lemma EmptyColor(text: string)
    requires text == ""
    ensures ColorText.ParseColorState(text).None?
  {
  }

  lemma NoMoodIsRead(c: Control, cache: Cache, moods: MoodParser)
    requires c.kind == LightControllerV2 && TextOf(c, cache, ActiveMoods) == None
    ensures PowerReading(c, cache, moods) == None
  {
  }

  /** An empty `activeMoods` text is pushed as OFF; the pull path treats it as
      missing and answers with the OFF stub. */
  lemma EmptyMoodsAnswered(c: Control, d: Device, cache: Cache, moods: MoodParser)
    requires c.kind == LightControllerV2 && TextOf(c, cache, ActiveMoods) == None && PowerController in d.capabilities
    ensures Property(POWER_KEY, OnOff(false), STUB_UNCERTAINTY) in Report(ToEndpoint(d), c, cache, moods)
  {
    NoMoodIsRead(c, cache, moods);
    ViaPower(ToEndpoint(d), c, cache, moods, Property(POWER_KEY, OnOff(false), STUB_UNCERTAINTY));
  }

  lemma TextKinds(c: Control, d: Device, moods: MoodParser, state: StateName, text: string, p: Property)
    requires p in MapText(c, d, moods, state, text)
    ensures (c.kind, state) in {(ColorPickerV2, ColorState), (WindowMonitor, WindowStates), (LightControllerV2, ActiveMoods)}
  {
  }

  lemma TextPlaced(c: Control, d: Device, cache: Cache, moods: MoodParser, state: StateName, text: string, p: Property)
    requires TextOf(c, cache, state) == Some(text)
    requires p in MapText(c, d, moods, state, text) && Advertised(d, p)
    ensures InBlocks(ToEndpoint(d), c, cache, moods, p) && c.kind !in AUDIO_TYPES
  {
    TextKinds(c, d, moods, state, text, p);
    if c.kind == ColorPickerV2 {
      ColorTextMaps(c, d, moods, text, p);
      ColorAnswered(c, d, cache, moods, text, ColorText.ParseColorState(text), p);
    } else if c.kind == WindowMonitor {
      WindowAnswered(c, d, cache, moods, text, p);
    } else {
      MoodAnswered(c, d, cache, moods, text, p);
    }
  }

  lemma TextAnswered(c: Control, d: Device, cache: Cache, moods: MoodParser, state: StateName, text: string, p: Property)
    requires TextOf(c, cache, state) == Some(text)
    requires p in MapText(c, d, moods, state, text) && Advertised(d, p)
    ensures p in Report(ToEndpoint(d), c, cache, moods)
  {
    TextPlaced(c, d, cache, moods, state, text, p);
    ViaBlocks(ToEndpoint(d), c, cache, moods, p);
  }

  /** The one difference in certainty: an empty `activeMoods` text, on a row that
      advertises power. */
  predicate EmptyMoods(c: Control, d: Device, cache: Cache) {
    c.kind == LightControllerV2 && PowerController in d.capabilities
    && var u := StateUuid(c, ActiveMoods);
       u.Some? && u.value !in cache.values && u.value in cache.texts && cache.texts[u.value] == ""
  }

  /** What a state maps to, by what the cache holds for it. */
  lemma MapsAs(c: Control, d: Device, cache: Cache, moods: MoodParser, s: (StateName, Uuid))
    ensures s.1 in cache.values ==> MapState(c, d, cache, moods, s) == MapNumber(c, d, cache, s.0, cache.values[s.1])
    ensures s.1 !in cache.values && s.1 in cache.texts ==>
      MapState(c, d, cache, moods, s) == MapText(c, d, moods, s.0, cache.texts[s.1])
    ensures s.1 !in cache.values && s.1 !in cache.texts ==> MapState(c, d, cache, moods, s) == []
  {
  }

  lemma NumberIsReported(c: Control, d: Device, cache: Cache, moods: MoodParser, s: (StateName, Uuid), n: real, p: Property)
    requires WellFormed(c) && s in c.states && !Misrendered(c, d) && s.1 in cache.values && cache.values[s.1] == n
    requires p in MapNumber(c, d, cache, s.0, n) && Advertised(d, p)
    ensures p in Report(ToEndpoint(d), c, cache, moods)
  {
    StateUuidUnique(c, s.0, s.1);
    NumberAnswered(c, d, cache, moods, s.0, n, p);
  }

  lemma TextIsReported(c: Control, d: Device, cache: Cache, moods: MoodParser, s: (StateName, Uuid), text: string, p: Property)
    requires WellFormed(c) && s in c.states && s.1 in cache.texts && cache.texts[s.1] == text && text != ""
    requires p in MapText(c, d, moods, s.0, text) && Advertised(d, p)
    ensures p in Report(ToEndpoint(d), c, cache, moods)
  {
    StateUuidUnique(c, s.0, s.1);
    TextAnswered(c, d, cache, moods, s.0, text, p);
  }

  lemma EmptyTextIsReported(c: Control, d: Device, cache: Cache, moods: MoodParser, s: (StateName, Uuid), text: string, p: Property)
    requires WellFormed(c) && s in c.states && text == "" && moods(text) == []
    requires s.1 !in cache.values && s.1 in cache.texts && cache.texts[s.1] == text
    requires p in MapText(c, d, moods, s.0, text) && Advertised(d, p)
    ensures p == Power(false) && EmptyMoods(c, d, cache)
    ensures Property(POWER_KEY, OnOff(false), STUB_UNCERTAINTY) in Report(ToEndpoint(d), c, cache, moods)
  {
    StateUuidUnique(c, s.0, s.1);
    EmptyTextMaps(c, d, moods, s.0, text, p);
    EmptyMoodsAnswered(c, d, cache, moods);
  }

  lemma PushedIsReported(c: Control, d: Device, cache: Cache, moods: MoodParser, s: (StateName, Uuid), p: Property)
    requires WellFormed(c) && s in c.states && moods("") == [] && !Misrendered(c, d)
    requires p in MapState(c, d, cache, moods, s) && Advertised(d, p)
    ensures var report := Report(ToEndpoint(d), c, cache, moods);
      p in report || (EmptyMoods(c, d, cache) && Property(p.key, p.value, STUB_UNCERTAINTY) in report)
  {
    MapsAs(c, d, cache, moods, s);
    if s.1 in cache.values {
      NumberIsReported(c, d, cache, moods, s, cache.values[s.1], p);
    } else if cache.texts[s.1] != "" {
      TextIsReported(c, d, cache, moods, s, cache.texts[s.1], p);
    } else {
      EmptyTextIsReported(c, d, cache, moods, s, cache.texts[s.1], p);
    }
  }

  /** Whatever the mapper yields for a cached state, ReportState answers with the
      same namespace, instance, name and value. */
  lemma PushedIsAnswered(c: Control, d: Device, cache: Cache, moods: MoodParser, s: (StateName, Uuid), p: Property)
    requires WellFormed(c) && s in c.states && moods("") == [] && !Misrendered(c, d)
    requires p in MapState(c, d, cache, moods, s) && Advertised(d, p)
    ensures Answers(Report(ToEndpoint(d), c, cache, moods), p.key, p.value)
  {
    PushedIsReported(c, d, cache, moods, s, p);
    ReportedIsAnswered(Report(ToEndpoint(d), c, cache, moods), p);
  }

  lemma ReportedIsAnswered(report: seq<Property>, p: Property)
    requires p in report || Property(p.key, p.value, STUB_UNCERTAINTY) in report
    ensures Answers(report, p.key, p.value)
  {
  }

  // ----- Reverse: what is known is pushed ---------------------------------------------

  /** Some cached state of the control makes the mapper yield `p`. */
  ghost predicate Pushed(c: Control, d: Device, cache: Cache, moods: MoodParser, p: Property) {
    exists s :: s in c.states && p in MapState(c, d, cache, moods, s)
  }

  /** A text that the row would have to send is cached behind a number of the same
      state UUID, and the push path looks at the number only. */
  predicate HiddenText(c: Control, d: Device, cache: Cache, moods: MoodParser, s: (StateName, Uuid)) {
    && s.1 in cache.values && s.1 in cache.texts && cache.texts[s.1] != ""
    && FilterAdvertised(d, MapText(c, d, moods, s.0, cache.texts[s.1])) != []
  }

  predicate HidesText(c: Control, d: Device, cache: Cache, moods: MoodParser) {
    exists s :: s in c.states && HiddenText(c, d, cache, moods, s)
  }

  lemma NumberPushed(c: Control, d: Device, cache: Cache, moods: MoodParser, state: StateName, p: Property)
    requires ValueOf(c, cache, state).Some? && p in MapNumber(c, d, cache, state, ValueOf(c, cache, state).value)
    ensures Pushed(c, d, cache, moods, p)
  {
    var s := (state, StateUuid(c, state).value);
    assert MapState(c, d, cache, moods, s) == MapNumber(c, d, cache, state, ValueOf(c, cache, state).value);
  }

  lemma TextPushed(c: Control, d: Device, cache: Cache, moods: MoodParser, state: StateName, p: Property)
    requires !HidesText(c, d, cache, moods) && Advertised(d, p)
    requires TextOf(c, cache, state).Some? && p in MapText(c, d, moods, state, TextOf(c, cache, state).value)
    ensures Pushed(c, d, cache, moods, p)
  {
    var s := (state, StateUuid(c, state).value);
    assert s.1 !in cache.values by { assert !HiddenText(c, d, cache, moods, s); }
    assert MapState(c, d, cache, moods, s) == MapText(c, d, moods, state, TextOf(c, cache, state).value);
  }

  /** A certain power state is what the generic block read. */
  lemma CertainPower(e: Endpoint, c: Control, cache: Cache, moods: MoodParser, p: Property)
    requires p in PowerBlock(e, c, cache, moods) && p.uncertainty == 0
    ensures PowerReading(c, cache, moods).Some? && p == Power(PowerReading(c, cache, moods).value)
  {
    CertainPowerOf(e, PowerReading(c, cache, moods), p);
  }

  lemma CertainPowerOf(e: Endpoint, reading: Option<bool>, p: Property)
    requires p in PowerBlockOf(e, reading) && p.uncertainty == 0
    ensures reading.Some? && p == Power(reading.value)
  {
  }

  lemma SwitchReads(c: Control, cache: Cache, moods: MoodParser)
    requires c.kind in {Switch, TimedSwitch}
    ensures PowerReading(c, cache, moods) == NonZero(ValueOf(c, cache, ActiveState))
  {
  }

  lemma DimmerReads(c: Control, cache: Cache, moods: MoodParser)
    requires c.kind == Dimmer
    ensures PowerReading(c, cache, moods) == NonZero(ValueOf(c, cache, PositionState))
  {
  }

  lemma SceneReads(c: Control, cache: Cache, moods: MoodParser)
    requires c.kind == LightController
    ensures var v := ValueOf(c, cache, ActiveScene);
      PowerReading(c, cache, moods) == if v.Some? then Some(Trunc(v.value) != OFF_SCENE_ID) else None
  {
  }

  lemma MoodReads(c: Control, cache: Cache, moods: MoodParser)
    requires c.kind == LightControllerV2
    ensures var text := TextOf(c, cache, ActiveMoods);
      PowerReading(c, cache, moods) == if text.Some? then Some(!MoodsOff(moods(text.value))) else None
  {
  }

  lemma VentilationReads(c: Control, cache: Cache, moods: MoodParser)
    requires c.kind == Ventilation
    ensures PowerReading(c, cache, moods) == VentPower(c, cache)
  {
  }

  lemma SwitchPowerKnown(c: Control, d: Device, cache: Cache, moods: MoodParser, p: Property)
    requires c.kind in {Switch, TimedSwitch}
    requires p in PowerBlock(ToEndpoint(d), c, cache, moods) && p.uncertainty == 0
    ensures Pushed(c, d, cache, moods, p)
  {
    CertainPower(ToEndpoint(d), c, cache, moods, p);
    SwitchReads(c, cache, moods);
    NumberPushed(c, d, cache, moods, ActiveState, p);
  }

  lemma DimmerPowerKnown(c: Control, d: Device, cache: Cache, moods: MoodParser, p: Property)
    requires c.kind == Dimmer
    requires p in PowerBlock(ToEndpoint(d), c, cache, moods) && p.uncertainty == 0
    ensures Pushed(c, d, cache, moods, p)
  {
    CertainPower(ToEndpoint(d), c, cache, moods, p);
    DimmerReads(c, cache, moods);
    NumberPushed(c, d, cache, moods, PositionState, p);
  }

  lemma ScenePowerKnown(c: Control, d: Device, cache: Cache, moods: MoodParser, p: Property)
    requires c.kind == LightController
    requires p in PowerBlock(ToEndpoint(d), c, cache, moods) && p.uncertainty == 0
    ensures Pushed(c, d, cache, moods, p)
  {
    CertainPower(ToEndpoint(d), c, cache, moods, p);
    SceneReads(c, cache, moods);
    NumberPushed(c, d, cache, moods, ActiveScene, p);
  }

  lemma AcPowerKnown(c: Control, d: Device, cache: Cache, moods: MoodParser, p: Property)
    requires c.kind == ACControl
    requires p in PowerBlock(ToEndpoint(d), c, cache, moods) && p.uncertainty == 0
    ensures Pushed(c, d, cache, moods, p)
  {
    AcPushed(c, d, cache, moods, StatusState, p);
  }

  lemma PowerKnown(c: Control, d: Device, cache: Cache, moods: MoodParser, p: Property)
    requires c.kind in {Switch, TimedSwitch, Dimmer, LightController, ACControl}
    requires p in PowerBlock(ToEndpoint(d), c, cache, moods) && p.uncertainty == 0
    ensures Pushed(c, d, cache, moods, p)
  {
    if c.kind == Dimmer { DimmerPowerKnown(c, d, cache, moods, p); }
    else if c.kind == LightController { ScenePowerKnown(c, d, cache, moods, p); }
    else if c.kind == ACControl { AcPowerKnown(c, d, cache, moods, p); }
    else { SwitchPowerKnown(c, d, cache, moods, p); }
  }

  lemma VentPowerMaps(c: Control, cache: Cache)
    ensures var speed, profile := ValueOf(c, cache, SpeedState), ValueOf(c, cache, ActiveTimerProfile);
      var on := VentPower(c, cache);
      && (on.Some? ==> speed.Some? || profile.Some?)
      && (on.Some? && speed.Some? ==> Power(on.value) in MapVentilation(c, cache, SpeedState, speed.value))
      && (on.Some? && profile.Some? ==> Power(on.value) in MapVentilation(c, cache, ActiveTimerProfile, profile.value))
  {
  }

  lemma VentPowerKnown(c: Control, d: Device, cache: Cache, moods: MoodParser, p: Property)
    requires c.kind == Ventilation
    requires p in PowerBlock(ToEndpoint(d), c, cache, moods) && p.uncertainty == 0
    ensures Pushed(c, d, cache, moods, p)
  {
    CertainPower(ToEndpoint(d), c, cache, moods, p);
    VentilationReads(c, cache, moods);
    VentPowerMaps(c, cache);
    VentPushed(c, d, cache, moods, if ValueOf(c, cache, SpeedState).Some? then SpeedState else ActiveTimerProfile, p);
  }

  lemma ColorPowerKnown(c: Control, d: Device, cache: Cache, moods: MoodParser, p: Property)
    requires c.kind == ColorPickerV2 && !HidesText(c, d, cache, moods) && Advertised(d, p)
    requires p in PowerBlock(ToEndpoint(d), c, cache, moods) && p.uncertainty == 0
    ensures Pushed(c, d, cache, moods, p)
  {
    ColorPowerRead(c, cache, moods);
    ColorPushed(c, d, cache, moods, p);
  }

  lemma ColorPowerRead(c: Control, cache: Cache, moods: MoodParser)
    requires c.kind == ColorPickerV2
    ensures var color := ColorPickerState(c, cache);
      PowerReading(c, cache, moods) == if color.Some? then Some(color.value.brightness > 0) else None
  {
  }

  lemma MoodPowerKnown(c: Control, d: Device, cache: Cache, moods: MoodParser, p: Property)
    requires c.kind == LightControllerV2 && !HidesText(c, d, cache, moods) && Advertised(d, p)
    requires p in PowerBlock(ToEndpoint(d), c, cache, moods) && p.uncertainty == 0
    ensures Pushed(c, d, cache, moods, p)
  {
    CertainPower(ToEndpoint(d), c, cache, moods, p);
    MoodReads(c, cache, moods);
    TextPushed(c, d, cache, moods, ActiveMoods, p);
  }

  lemma PowerIsStub(e: Endpoint, c: Control, cache: Cache, moods: MoodParser, p: Property)
    requires p in PowerBlock(e, c, cache, moods) && p.uncertainty == 0
    ensures c.kind in {Switch, TimedSwitch, Dimmer, LightController, ACControl, Ventilation, ColorPickerV2, LightControllerV2}
  {
  }

  lemma SceneKnown(c: Control, d: Device, cache: Cache, moods: MoodParser, p: Property)
    requires c.kind == LightController && p in LightModeBlock(ToEndpoint(d), c, cache, moods)
    ensures Pushed(c, d, cache, moods, p)
  {
    NumberPushed(c, d, cache, moods, ActiveScene, p);
  }

  lemma MoodKnown(c: Control, d: Device, cache: Cache, moods: MoodParser, p: Property)
    requires c.kind != LightController && !HidesText(c, d, cache, moods) && Advertised(d, p) && p in LightModeBlock(ToEndpoint(d), c, cache, moods)
    ensures Pushed(c, d, cache, moods, p)
  {
    assert c.kind == LightControllerV2;
    TextPushed(c, d, cache, moods, ActiveMoods, p);
  }

  lemma LightModeKnown(c: Control, d: Device, cache: Cache, moods: MoodParser, p: Property)
    requires !HidesText(c, d, cache, moods) && Advertised(d, p) && p in LightModeBlock(ToEndpoint(d), c, cache, moods)
    ensures Pushed(c, d, cache, moods, p)
  {
    if c.kind == LightController { SceneKnown(c, d, cache, moods, p); } else { MoodKnown(c, d, cache, moods, p); }
  }

  lemma RangeKnown(c: Control, d: Device, cache: Cache, moods: MoodParser, p: Property)
    requires !Misrendered(c, d) && p in RangeBlock(ToEndpoint(d), c, cache)
    ensures Pushed(c, d, cache, moods, p)
  {
    var state := match c.kind
      case Slider => ValueState
      case ValueSelector => ValueState
      case Ventilation => SpeedState
      case _ => PositionState;
    NumberPushed(c, d, cache, moods, state, p);
  }

  lemma RoomPushed(c: Control, d: Device, cache: Cache, moods: MoodParser, state: StateName, p: Property)
    requires c.kind == IRoomControllerV2 && ValueOf(c, cache, state).Some?
    requires p in MapRoom(c, state, ValueOf(c, cache, state).value)
    ensures Pushed(c, d, cache, moods, p)
  {
    NumberPushed(c, d, cache, moods, state, p);
  }

  lemma AcPushed(c: Control, d: Device, cache: Cache, moods: MoodParser, state: StateName, p: Property)
    requires c.kind == ACControl && ValueOf(c, cache, state).Some?
    requires p in MapAc(c, state, ValueOf(c, cache, state).value)
    ensures Pushed(c, d, cache, moods, p)
  {
    NumberPushed(c, d, cache, moods, state, p);
  }

  lemma VentPushed(c: Control, d: Device, cache: Cache, moods: MoodParser, state: StateName, p: Property)
    requires c.kind == Ventilation && ValueOf(c, cache, state).Some?
    requires p in MapVentilation(c, cache, state, ValueOf(c, cache, state).value)
    ensures Pushed(c, d, cache, moods, p)
  {
    NumberPushed(c, d, cache, moods, state, p);
  }

  lemma AudioPushed(c: Control, d: Device, cache: Cache, moods: MoodParser, state: StateName, p: Property)
    requires c.kind in AUDIO_TYPES && ValueOf(c, cache, state).Some?
    requires p in MapAudio(state, ValueOf(c, cache, state).value)
    ensures Pushed(c, d, cache, moods, p)
  {
    AudioPushes(c, d, cache, state, ValueOf(c, cache, state).value);
    NumberPushed(c, d, cache, moods, state, p);
  }

  lemma AnalogPushed(c: Control, d: Device, cache: Cache, moods: MoodParser, p: Property)
    requires c.kind == InfoOnlyAnalog && ValueOf(c, cache, ValueState).Some?
    requires p in [TemperatureProp(ValueOf(c, cache, ValueState).value, c.scale), HumidityProp(ValueOf(c, cache, ValueState).value)]
    ensures Pushed(c, d, cache, moods, p)
  {
    NumberPushed(c, d, cache, moods, ValueState, p);
  }

  lemma DetectorPushed(c: Control, d: Device, cache: Cache, moods: MoodParser, p: Property)
    requires c.kind in {PresenceDetector, InfoOnlyDigital} && ValueOf(c, cache, ActiveState).Some?
    requires var n := ValueOf(c, cache, ActiveState).value;
      p in if c.kind == PresenceDetector then MapPresence(d, n) else MapDigital(d, n)
    ensures Pushed(c, d, cache, moods, p)
  {
    NumberPushed(c, d, cache, moods, ActiveState, p);
  }

  lemma WindowPushed(c: Control, d: Device, cache: Cache, moods: MoodParser, p: Property)
    requires c.kind == WindowMonitor && !HidesText(c, d, cache, moods) && Advertised(d, p) && TextOf(c, cache, WindowStates).Some?
    requires var w := Polarize(AllClosed(TextOf(c, cache, WindowStates).value), d.sensorPolarityInverted);
      p == Sensor(ContactSensor, w) || p == BinarySlot(w)
    ensures Pushed(c, d, cache, moods, p)
  {
    WindowMapsBoth(c, d, moods, TextOf(c, cache, WindowStates).value);
    TextPushed(c, d, cache, moods, WindowStates, p);
  }

  lemma WindowMapsBoth(c: Control, d: Device, moods: MoodParser, text: string)
    requires c.kind == WindowMonitor && text != ""
    ensures var w := Polarize(AllClosed(text), d.sensorPolarityInverted);
      MapText(c, d, moods, WindowStates, text) == [Sensor(ContactSensor, w), BinarySlot(w)]
  {
  }

  lemma ColorMaps(c: Control, d: Device, moods: MoodParser, text: string)
    requires c.kind == ColorPickerV2 && ColorText.ParseColorState(text).Some?
    ensures MapText(c, d, moods, ColorState, text) == ColorProps(ColorText.ParseColorState(text).value)
  {
  }

  lemma ColorPushed(c: Control, d: Device, cache: Cache, moods: MoodParser, p: Property)
    requires c.kind == ColorPickerV2 && !HidesText(c, d, cache, moods) && Advertised(d, p)
    requires ColorPickerState(c, cache).Some? && p in ColorProps(ColorPickerState(c, cache).value)
    ensures Pushed(c, d, cache, moods, p)
  {
    var text := TextOf(c, cache, ColorState).value;
    ColorRead(c, cache, text);
    ColorMaps(c, d, moods, text);
    TextPushed(c, d, cache, moods, ColorState, p);
  }

  lemma SlotKnown(c: Control, d: Device, cache: Cache, moods: MoodParser, p: Property)
    requires !HidesText(c, d, cache, moods) && Advertised(d, p)
    requires p in Block(ToEndpoint(d), ModeController, BinarySensor, Mode, AsSlot(BinarySensorWord(ToEndpoint(d), c, cache)))
    ensures Pushed(c, d, cache, moods, p)
  {
    if c.kind == WindowMonitor { WindowPushed(c, d, cache, moods, p); } else { DetectorPushed(c, d, cache, moods, p); }
  }

  lemma ModeMember(e: Endpoint, fan: Option<Value>, vent: Option<Value>, radio: Option<Value>,
                   slot: Option<Value>, binary: Option<Value>, p: Property)
    requires p in ModeBlocksOf(e, fan, vent, radio, slot, binary)
    ensures p.key.instance == AcFanSpeed ==> fan.Some? && p == ModeProp(AcFanSpeed, fan.value)
    ensures p.key.instance == VentMode ==> vent.Some? && p == ModeProp(VentMode, vent.value)
    ensures p.key.instance == RadioOutput ==> radio.Some? && p == ModeProp(RadioOutput, radio.value)
    ensures p.key.instance == SequenceSlot ==> slot.Some? && p == ModeProp(SequenceSlot, slot.value)
    ensures p.key.instance == BinarySensor ==> binary.Some? && p == ModeProp(BinarySensor, binary.value)
    ensures p.key.instance in {AcFanSpeed, VentMode, RadioOutput, SequenceSlot, BinarySensor}
    ensures p.key.iface in e.capabilities
  {
  }

  lemma FanKnown(c: Control, d: Device, cache: Cache, moods: MoodParser, v: Value)
    requires AsTrunc(Read(c, cache, ACControl, FanState)) == Some(v)
    ensures Pushed(c, d, cache, moods, ModeProp(AcFanSpeed, v))
  {
    AcPushed(c, d, cache, moods, FanState, ModeProp(AcFanSpeed, v));
  }

  lemma VentModeKnown(c: Control, d: Device, cache: Cache, moods: MoodParser, v: Value)
    requires AsTrunc(Read(c, cache, Ventilation, ModeState)) == Some(v)
    ensures Pushed(c, d, cache, moods, ModeProp(VentMode, v))
  {
    VentPushed(c, d, cache, moods, ModeState, ModeProp(VentMode, v));
  }

  lemma RadioKnown(c: Control, d: Device, cache: Cache, moods: MoodParser, v: Value)
    requires AsTrunc(Read(c, cache, Radio, ActiveOutput)) == Some(v)
    ensures Pushed(c, d, cache, moods, ModeProp(RadioOutput, v))
  {
    NumberPushed(c, d, cache, moods, ActiveOutput, ModeProp(RadioOutput, v));
  }

  lemma SequenceKnown(c: Control, d: Device, cache: Cache, moods: MoodParser, v: Value)
    requires AsTrunc(Read(c, cache, Sequential, ActiveSequence)) == Some(v)
    ensures Pushed(c, d, cache, moods, ModeProp(SequenceSlot, v))
  {
    NumberPushed(c, d, cache, moods, ActiveSequence, ModeProp(SequenceSlot, v));
  }

  lemma GarageKnown(c: Control, d: Device, cache: Cache, moods: MoodParser, p: Property)
    requires p in GarageBlock(ToEndpoint(d), c, cache)
    ensures Pushed(c, d, cache, moods, p)
  {
    NumberPushed(c, d, cache, moods, PositionState, p);
  }

  lemma ModeKnown(c: Control, d: Device, cache: Cache, moods: MoodParser, p: Property)
    requires !HidesText(c, d, cache, moods) && Advertised(d, p) && p in ModeBlocks(ToEndpoint(d), c, cache)
    ensures Pushed(c, d, cache, moods, p)
  {
    var e := ToEndpoint(d);
    var fan, vent := AsTrunc(Read(c, cache, ACControl, FanState)), AsTrunc(Read(c, cache, Ventilation, ModeState));
    var radio, slot := AsTrunc(Read(c, cache, Radio, ActiveOutput)), AsTrunc(Read(c, cache, Sequential, ActiveSequence));
    if p in GarageBlock(e, c, cache) {
      GarageKnown(c, d, cache, moods, p);
    } else {
      ModeMember(e, fan, vent, radio, slot, AsSlot(BinarySensorWord(e, c, cache)), p);
      if p.key.instance == AcFanSpeed { FanKnown(c, d, cache, moods, fan.value); }
      else if p.key.instance == VentMode { VentModeKnown(c, d, cache, moods, vent.value); }
      else if p.key.instance == RadioOutput { RadioKnown(c, d, cache, moods, radio.value); }
      else if p.key.instance == SequenceSlot { SequenceKnown(c, d, cache, moods, slot.value); }
      else { SlotKnown(c, d, cache, moods, p); }
    }
  }

  lemma DimmerPushed(c: Control, d: Device, cache: Cache, moods: MoodParser, p: Property)
    requires DimmerBrightness(c, cache).Some?
    requires p == Prop(BrightnessController, NoInstance, Brightness, Number(DimmerBrightness(c, cache).value as real))
    ensures Pushed(c, d, cache, moods, p)
  {
    var n := ValueOf(c, cache, PositionState).value;
    assert MapNumber(c, d, cache, PositionState, n) == MapDimmer(c, cache, n);
    NumberPushed(c, d, cache, moods, PositionState, p);
  }

  lemma ColorKnown(c: Control, d: Device, cache: Cache, moods: MoodParser, p: Property)
    requires !HidesText(c, d, cache, moods) && Advertised(d, p) && p in ColorBlocks(ToEndpoint(d), c, cache)
    ensures Pushed(c, d, cache, moods, p)
  {
    var color := ColorPickerState(c, cache);
    if color.Some? {
      ColorModeKnown(ToEndpoint(d), color.value, p);
      ColorPushed(c, d, cache, moods, p);
    } else {
      DimmerKnown(ToEndpoint(d), DimmerBrightness(c, cache), p);
      DimmerPushed(c, d, cache, moods, p);
    }
  }

  lemma ColorModeKnown(e: Endpoint, m: ColorText.ColorMode, p: Property)
    requires p in ColorBlocksOf(e, Some(m), None)
    ensures p in ColorProps(m)
  {
  }

  lemma DimmerKnown(e: Endpoint, dimmer: Option<int>, p: Property)
    requires p in ColorBlocksOf(e, None, dimmer)
    ensures dimmer.Some? && p == Prop(BrightnessController, NoInstance, Brightness, Number(dimmer.value as real))
  {
  }

  lemma AudioMember(e: Endpoint, volume: Option<Value>, muted: Option<Value>, play: Option<Value>,
                    shuffle: Option<Value>, repeat: Option<Value>, source: Option<Value>, p: Property)
    requires p in AudioBlocksOf(e, volume, muted, play, shuffle, repeat, source)
    ensures p.key.name == Volume ==> volume.Some? && p == Prop(Speaker, NoInstance, Volume, volume.value)
    ensures p.key.name == Muted ==> muted.Some? && p == Prop(Speaker, NoInstance, Muted, muted.value)
    ensures p.key.name == PlaybackState ==>
      play.Some? && p == Prop(PlaybackStateReporter, NoInstance, PlaybackState, play.value)
    ensures p.key.name == ToggleState ==>
      shuffle.Some? && p == Prop(ToggleController, AudioShuffle, ToggleState, shuffle.value)
    ensures p.key.instance == AudioRepeat ==> repeat.Some? && p == ModeProp(AudioRepeat, repeat.value)
    ensures p.key.instance == AudioSource ==> source.Some? && p == ModeProp(AudioSource, source.value)
    ensures p.key.name in {Volume, Muted, PlaybackState, ToggleState} || p.key.instance in {AudioRepeat, AudioSource}
    ensures p.key.iface in e.capabilities
  {
    InConcat6(Block(e, Speaker, NoInstance, Volume, volume), Block(e, Speaker, NoInstance, Muted, muted),
      Block(e, PlaybackStateReporter, NoInstance, PlaybackState, play),
      Block(e, ToggleController, AudioShuffle, ToggleState, shuffle),
      Block(e, ModeController, AudioRepeat, Mode, repeat), Block(e, ModeController, AudioSource, Mode, source), p);
  }

  lemma VolumeKnown(c: Control, d: Device, cache: Cache, moods: MoodParser, v: Value)
    requires AsVolume(ReadAudio(c, cache, VolumeState)) == Some(v)
    ensures Pushed(c, d, cache, moods, Prop(Speaker, NoInstance, Volume, v))
  {
    AudioPushed(c, d, cache, moods, VolumeState, Prop(Speaker, NoInstance, Volume, v));
  }

  lemma MutedKnown(c: Control, d: Device, cache: Cache, moods: MoodParser, v: Value)
    requires AsMuted(AudioPower(c, cache)) == Some(v)
    ensures Pushed(c, d, cache, moods, Prop(Speaker, NoInstance, Muted, v))
  {
    AudioPushed(c, d, cache, moods, PowerStateName, Prop(Speaker, NoInstance, Muted, v));
  }

  lemma PlayKnown(c: Control, d: Device, cache: Cache, moods: MoodParser, v: Value)
    requires AsWord(Decode(ReadAudio(c, cache, PlayState), PlaybackStateOf)) == Some(v)
    ensures Pushed(c, d, cache, moods, Prop(PlaybackStateReporter, NoInstance, PlaybackState, v))
  {
    AudioPushed(c, d, cache, moods, PlayState, Prop(PlaybackStateReporter, NoInstance, PlaybackState, v));
  }

  lemma ShuffleKnown(c: Control, d: Device, cache: Cache, moods: MoodParser, v: Value)
    requires AsOnOff(ReadAudio(c, cache, ShuffleState)) == Some(v)
    ensures Pushed(c, d, cache, moods, Prop(ToggleController, AudioShuffle, ToggleState, v))
  {
    AudioPushed(c, d, cache, moods, ShuffleState, Prop(ToggleController, AudioShuffle, ToggleState, v));
  }

  lemma RepeatKnown(c: Control, d: Device, cache: Cache, moods: MoodParser, v: Value)
    requires AsWord(Decode(ReadAudio(c, cache, RepeatState), RepeatModeOf)) == Some(v)
    ensures Pushed(c, d, cache, moods, ModeProp(AudioRepeat, v))
  {
    AudioPushed(c, d, cache, moods, RepeatState, ModeProp(AudioRepeat, v));
  }

  lemma SourceKnown(c: Control, d: Device, cache: Cache, moods: MoodParser, v: Value)
    requires AsText(ReadAudio(c, cache, SourceState)) == Some(v)
    ensures Pushed(c, d, cache, moods, ModeProp(AudioSource, v))
  {
    AudioPushed(c, d, cache, moods, SourceState, ModeProp(AudioSource, v));
  }

  lemma AudioKnown(c: Control, d: Device, cache: Cache, moods: MoodParser, p: Property)
    requires p in AudioBlocks(ToEndpoint(d), c, cache)
    ensures Pushed(c, d, cache, moods, p)
  {
    var volume, muted := AsVolume(ReadAudio(c, cache, VolumeState)), AsMuted(AudioPower(c, cache));
    var play, shuffle :=
      AsWord(Decode(ReadAudio(c, cache, PlayState), PlaybackStateOf)), AsOnOff(ReadAudio(c, cache, ShuffleState));
    var repeat, source :=
      AsWord(Decode(ReadAudio(c, cache, RepeatState), RepeatModeOf)), AsText(ReadAudio(c, cache, SourceState));
    AudioMember(ToEndpoint(d), volume, muted, play, shuffle, repeat, source, p);
    if p.key.name == Volume { VolumeKnown(c, d, cache, moods, volume.value); }
    else if p.key.name == Muted { MutedKnown(c, d, cache, moods, muted.value); }
    else if p.key.name == PlaybackState { PlayKnown(c, d, cache, moods, play.value); }
    else if p.key.name == ToggleState { ShuffleKnown(c, d, cache, moods, shuffle.value); }
    else if p.key.instance == AudioRepeat { RepeatKnown(c, d, cache, moods, repeat.value); }
    else { SourceKnown(c, d, cache, moods, source.value); }
  }

  lemma SensorMember(e: Endpoint, setpoint: Option<Value>, mode: Option<Value>, temperature: Option<Value>,
                     humidity: Option<Value>, motion: Option<Value>, contact: Option<Value>, p: Property)
    requires p in SensorBlocksOf(e, setpoint, mode, temperature, humidity, motion, contact)
    ensures p.key.name == TargetSetpoint ==>
      setpoint.Some? && p == Prop(ThermostatController, NoInstance, TargetSetpoint, setpoint.value)
    ensures p.key.name == ThermostatMode ==>
      mode.Some? && p == Prop(ThermostatController, NoInstance, ThermostatMode, mode.value)
    ensures p.key.name == Temperature ==>
      temperature.Some? && p == Prop(TemperatureSensor, NoInstance, Temperature, temperature.value)
    ensures p.key.name == RelativeHumidity ==>
      humidity.Some? && p == Prop(HumiditySensor, NoInstance, RelativeHumidity, humidity.value)
    ensures p.key.name == DetectionState && p.key.iface == MotionSensor ==>
      motion.Some? && p == Prop(MotionSensor, NoInstance, DetectionState, motion.value)
    ensures p.key.name == DetectionState && p.key.iface != MotionSensor ==>
      contact.Some? && p == Prop(ContactSensor, NoInstance, DetectionState, contact.value)
    ensures p.key.name in {TargetSetpoint, ThermostatMode, Temperature, RelativeHumidity, DetectionState}
    ensures p.key.iface in e.capabilities
  {
    InConcat6(Block(e, ThermostatController, NoInstance, TargetSetpoint, setpoint),
      Block(e, ThermostatController, NoInstance, ThermostatMode, mode),
      Block(e, TemperatureSensor, NoInstance, Temperature, temperature),
      Block(e, HumiditySensor, NoInstance, RelativeHumidity, humidity),
      Block(e, MotionSensor, NoInstance, DetectionState, motion),
      Block(e, ContactSensor, NoInstance, DetectionState, contact), p);
  }

  lemma SetpointKnown(c: Control, d: Device, cache: Cache, moods: MoodParser, v: real)
    requires SetpointOf(c, cache) == Some(v)
    ensures Pushed(c, d, cache, moods, SetpointProp(v, c.scale))
  {
    if c.kind == ACControl { AcPushed(c, d, cache, moods, TargetTemperature, SetpointProp(v, c.scale)); }
    else { RoomPushed(c, d, cache, moods, TempTarget, SetpointProp(v, c.scale)); }
  }

  lemma ThermostatKnown(c: Control, d: Device, cache: Cache, moods: MoodParser, w: Word)
    requires ThermostatWord(c, cache) == Some(w)
    ensures Pushed(c, d, cache, moods, Prop(ThermostatController, NoInstance, ThermostatMode, Symbol(w)))
  {
    var p := Prop(ThermostatController, NoInstance, ThermostatMode, Symbol(w));
    if c.kind == ACControl { AcPushed(c, d, cache, moods, ModeState, p); }
    else { RoomPushed(c, d, cache, moods, OperatingMode, p); }
  }

  lemma TemperatureKnown(c: Control, d: Device, cache: Cache, moods: MoodParser, v: real)
    requires TemperatureOf(c, cache) == Some(v)
    ensures Pushed(c, d, cache, moods, TemperatureProp(v, c.scale))
  {
    var p := TemperatureProp(v, c.scale);
    match c.kind
    case InfoOnlyAnalog => AnalogPushed(c, d, cache, moods, p);
    case ACControl => AcPushed(c, d, cache, moods, TemperatureState, p);
    case Ventilation => VentPushed(c, d, cache, moods, TemperatureIndoor, p);
    case _ => RoomPushed(c, d, cache, moods, TempActual, p);
  }

  lemma HumidityKnown(c: Control, d: Device, cache: Cache, moods: MoodParser, v: real)
    requires HumidityOf(c, cache) == Some(v)
    ensures Pushed(c, d, cache, moods, HumidityProp(v))
  {
    match c.kind
    case Ventilation => VentPushed(c, d, cache, moods, HumidityIndoor, HumidityProp(v));
    case IRoomControllerV2 => RoomPushed(c, d, cache, moods, HumidityActual, HumidityProp(v));
    case _ => AnalogPushed(c, d, cache, moods, HumidityProp(v));
  }

  lemma MotionKnown(c: Control, d: Device, cache: Cache, moods: MoodParser, w: Word)
    requires MotionWord(ToEndpoint(d), c, cache) == Some(w)
    ensures Pushed(c, d, cache, moods, Sensor(MotionSensor, w))
  {
    DetectorPushed(c, d, cache, moods, Sensor(MotionSensor, w));
  }

  lemma ContactKnown(c: Control, d: Device, cache: Cache, moods: MoodParser, w: Word)
    requires !HidesText(c, d, cache, moods) && Advertised(d, Sensor(ContactSensor, w)) && ContactWord(ToEndpoint(d), c, cache) == Some(w)
    ensures Pushed(c, d, cache, moods, Sensor(ContactSensor, w))
  {
    if c.kind == WindowMonitor { WindowPushed(c, d, cache, moods, Sensor(ContactSensor, w)); }
    else { DetectorPushed(c, d, cache, moods, Sensor(ContactSensor, w)); }
  }

  lemma SensorKnown(c: Control, d: Device, cache: Cache, moods: MoodParser, p: Property)
    requires !HidesText(c, d, cache, moods) && Advertised(d, p) && p in SensorBlocks(ToEndpoint(d), c, cache)
    ensures Pushed(c, d, cache, moods, p)
  {
    var e := ToEndpoint(d);
    SensorMember(e,
      AsReading(SetpointOf(c, cache), c.scale), AsWord(ThermostatWord(c, cache)),
      AsReading(TemperatureOf(c, cache), c.scale), AsRounded(HumidityOf(c, cache)),
      AsWord(MotionWord(e, c, cache)), AsWord(ContactWord(e, c, cache)), p);
    if p.key.name == TargetSetpoint { SetpointKnown(c, d, cache, moods, SetpointOf(c, cache).value); }
    else if p.key.name == ThermostatMode { ThermostatKnown(c, d, cache, moods, ThermostatWord(c, cache).value); }
    else if p.key.name == Temperature { TemperatureKnown(c, d, cache, moods, TemperatureOf(c, cache).value); }
    else if p.key.name == RelativeHumidity { HumidityKnown(c, d, cache, moods, HumidityOf(c, cache).value); }
    else if p.key.iface == MotionSensor { MotionKnown(c, d, cache, moods, MotionWord(e, c, cache).value); }
    else { ContactKnown(c, d, cache, moods, ContactWord(e, c, cache).value); }
  }

  lemma PowerBlockKnown(c: Control, d: Device, cache: Cache, moods: MoodParser, p: Property)
    requires !HidesText(c, d, cache, moods) && Advertised(d, p) && p in PowerBlock(ToEndpoint(d), c, cache, moods) && p.uncertainty == 0
    ensures Pushed(c, d, cache, moods, p)
  {
    PowerIsStub(ToEndpoint(d), c, cache, moods, p);
    if c.kind == ColorPickerV2 { ColorPowerKnown(c, d, cache, moods, p); }
    else if c.kind == LightControllerV2 { MoodPowerKnown(c, d, cache, moods, p); }
    else if c.kind == Ventilation { VentPowerKnown(c, d, cache, moods, p); }
    else { PowerKnown(c, d, cache, moods, p); }
  }

  lemma BlocksOf(e: Endpoint, c: Control, cache: Cache, moods: MoodParser, p: Property)
    requires p in BeforeAudioPower(e, c, cache, moods)
    ensures
      || p in PowerBlock(e, c, cache, moods) || p in LightModeBlock(e, c, cache, moods)
      || p in ModeBlocks(e, c, cache) || p in ColorBlocks(e, c, cache) || p in RangeBlock(e, c, cache)
      || p in SensorBlocks(e, c, cache) || p in AudioBlocks(e, c, cache)
  {
    InConcat(PowerBlock(e, c, cache, moods), LightModeBlock(e, c, cache, moods), ModeBlocks(e, c, cache),
             ColorBlocks(e, c, cache), RangeBlock(e, c, cache), SensorBlocks(e, c, cache), AudioBlocks(e, c, cache), p);
  }

  lemma BlockKnown(c: Control, d: Device, cache: Cache, moods: MoodParser, p: Property)
    requires !HidesText(c, d, cache, moods) && Advertised(d, p) && !Misrendered(c, d)
    requires p in BeforeAudioPower(ToEndpoint(d), c, cache, moods) && p.uncertainty == 0
    ensures Pushed(c, d, cache, moods, p)
  {
    var e := ToEndpoint(d);
    BlocksOf(e, c, cache, moods, p);
    if p in PowerBlock(e, c, cache, moods) { PowerBlockKnown(c, d, cache, moods, p); }
    else if p in LightModeBlock(e, c, cache, moods) { LightModeKnown(c, d, cache, moods, p); }
    else if p in ModeBlocks(e, c, cache) { ModeKnown(c, d, cache, moods, p); }
    else if p in ColorBlocks(e, c, cache) { ColorKnown(c, d, cache, moods, p); }
    else if p in RangeBlock(e, c, cache) { RangeKnown(c, d, cache, moods, p); }
    else if p in SensorBlocks(e, c, cache) { SensorKnown(c, d, cache, moods, p); }
    else { AudioKnown(c, d, cache, moods, p); }
  }

  lemma CertainIsPushed(c: Control, d: Device, cache: Cache, moods: MoodParser, p: Property)
    requires !HidesText(c, d, cache, moods) && Advertised(d, p) && !Misrendered(c, d)
    requires p in Report(ToEndpoint(d), c, cache, moods) && Certain(p)
    ensures Pushed(c, d, cache, moods, p)
  {
    ReportMembers(ToEndpoint(d), c, cache, moods, p);
    if p in BeforeAudioPower(ToEndpoint(d), c, cache, moods) {
      BlockKnown(c, d, cache, moods, p);
    } else {
      AudioPowerKnown(c, d, cache, moods, p);
    }
  }

  /** A text control pushes nothing but its one text. */
  lemma OnlyOneText(c: Control, d: Device, cache: Cache, moods: MoodParser, state: StateName, text: string)
    requires MapText(c, d, moods, state, text) != []
    ensures forall other: StateName, n: real :: MapNumber(c, d, cache, other, n) == []
    ensures forall other: StateName, later: string :: other != state ==> MapText(c, d, moods, other, later) == []
  {
  }

  lemma HiddenIsNotPushed(c: Control, d: Device, cache: Cache, moods: MoodParser, s: (StateName, Uuid), p: Property)
    requires WellFormed(c) && s in c.states && HiddenText(c, d, cache, moods, s)
    ensures !Pushed(c, d, cache, moods, p)
  {
    OnlyOneText(c, d, cache, moods, s.0, cache.texts[s.1]);
    forall t | t in c.states ensures MapState(c, d, cache, moods, t) == [] {
      StateUuidUnique(c, s.0, s.1);
      StateUuidUnique(c, t.0, t.1);
    }
  }

  lemma HiddenIsReported(c: Control, d: Device, cache: Cache, moods: MoodParser, s: (StateName, Uuid)) returns (p: Property)
    requires WellFormed(c) && s in c.states && HiddenText(c, d, cache, moods, s)
    ensures p in Report(ToEndpoint(d), c, cache, moods) && Certain(p)
  {
    var text := cache.texts[s.1];
    var sent := FilterAdvertised(d, MapText(c, d, moods, s.0, text));
    p := sent[0];
    assert p in sent;
    StateUuidUnique(c, s.0, s.1);
    TextAnswered(c, d, cache, moods, s.0, text, p);
    TextIsCertain(c, d, moods, s.0, text, p);
  }

  lemma CertainIsAdvertised(c: Control, d: Device, cache: Cache, moods: MoodParser, p: Property)
    requires p in Report(ToEndpoint(d), c, cache, moods) && Certain(p)
    ensures Advertised(d, p)
  {
    ReportAnswersOnce(ToEndpoint(d), c, cache, moods);
  }

  /** Everything ReportState answers with certainty, connectivity aside, is what some
      cached state makes the push path send, exactly when no text that the row would
      have to send is cached behind a number. */
  lemma KnownIsPushedIff(c: Control, d: Device, cache: Cache, moods: MoodParser)
    requires WellFormed(c) && !Misrendered(c, d)
    ensures (forall p :: p in Report(ToEndpoint(d), c, cache, moods) && Certain(p) ==> Pushed(c, d, cache, moods, p))
            <==> !HidesText(c, d, cache, moods)
  {
    if HidesText(c, d, cache, moods) {
      var s :| s in c.states && HiddenText(c, d, cache, moods, s);
      var p := HiddenIsReported(c, d, cache, moods, s);
      HiddenIsNotPushed(c, d, cache, moods, s, p);
    } else {
      forall p | p in Report(ToEndpoint(d), c, cache, moods) && Certain(p) ensures Pushed(c, d, cache, moods, p) {
        CertainIsAdvertised(c, d, cache, moods, p);
        CertainIsPushed(c, d, cache, moods, p);
      }
    }
  }

  lemma ReportMembers(e: Endpoint, c: Control, cache: Cache, moods: MoodParser, p: Property)
    requires p in Report(e, c, cache, moods) && p.key.iface != EndpointHealth
    ensures p in BeforeAudioPower(e, c, cache, moods)
      || (PowerController in e.capabilities && AudioPower(c, cache).Some? && p == Power(AudioPower(c, cache).value))
  {
    BeforeHealth(e, AudioPower(c, cache), BeforeAudioPower(e, c, cache, moods), p);
  }

  lemma BeforeHealth(e: Endpoint, power: Option<bool>, ps: seq<Property>, p: Property)
    requires p in WithAudioPower(e, power, ps) + [HEALTH] && p.key.iface != EndpointHealth
    ensures p in ps || (PowerController in e.capabilities && power.Some? && p == Power(power.value))
  {
    WithAudioPowerMembers(e, power, ps, p);
  }

  lemma WithAudioPowerMembers(e: Endpoint, power: Option<bool>, ps: seq<Property>, p: Property)
    requires p in WithAudioPower(e, power, ps)
    ensures p in ps || (PowerController in e.capabilities && power.Some? && p == Power(power.value))
  {
    if power.Some? { ReplaceMembers(ps, Power(power.value)); }
  }

  lemma AudioPowerKnown(c: Control, d: Device, cache: Cache, moods: MoodParser, p: Property)
    requires AudioPower(c, cache).Some? && p == Power(AudioPower(c, cache).value)
    ensures Pushed(c, d, cache, moods, p)
  {
    AudioPushed(c, d, cache, moods, PowerStateName, p);
  }

  // ----- The report answers every key once ---------------------------------------------

  /** The group of blocks a key belongs to. */
  function GroupOf(key: PropKey): nat {
    match key.iface
    case PowerController => 0
    case ModeController =>
      if key.instance in {LightMood, LightScene} then 1 else if key.instance in {AudioRepeat, AudioSource} then 6 else 2
    case BrightnessController => 3
    case ColorController => 3
    case ColorTemperatureController => 3
    case RangeController => 4
    case ThermostatController => 5
    case TemperatureSensor => 5
    case HumiditySensor => 5
    case MotionSensor => 5
    case ContactSensor => 5
    case Speaker => 6
    case PlaybackStateReporter => 6
    case ToggleController => 6
    case _ => 7
  }

  /** Every property of `ps` is of group `g`, enabled by a capability, and the only one with its key. */
  ghost predicate Grouped(ps: seq<Property>, e: Endpoint, g: nat) {
    && (forall p :: p in ps ==> GroupOf(p.key) == g && p.key.iface in e.capabilities)
    && (forall p, q :: p in ps && q in ps && p.key == q.key ==> p == q)
  }

  lemma ModesGrouped(e: Endpoint, fan: Option<Value>, vent: Option<Value>, radio: Option<Value>, slot: Option<Value>, binary: Option<Value>)
    ensures Grouped(ModeBlocksOf(e, fan, vent, radio, slot, binary), e, 2)
  {
    var ps := ModeBlocksOf(e, fan, vent, radio, slot, binary);
    forall p | p in ps ensures GroupOf(p.key) == 2 && p.key.iface in e.capabilities {
      ModeMember(e, fan, vent, radio, slot, binary, p);
    }
    forall p, q | p in ps && q in ps && p.key == q.key ensures p == q {
      ModeMember(e, fan, vent, radio, slot, binary, p);
      ModeMember(e, fan, vent, radio, slot, binary, q);
    }
  }

  lemma SensorsGrouped(e: Endpoint, setpoint: Option<Value>, mode: Option<Value>, temperature: Option<Value>, humidity: Option<Value>, motion: Option<Value>, contact: Option<Value>)
    ensures Grouped(SensorBlocksOf(e, setpoint, mode, temperature, humidity, motion, contact), e, 5)
  {
    var ps := SensorBlocksOf(e, setpoint, mode, temperature, humidity, motion, contact);
    forall p | p in ps ensures GroupOf(p.key) == 5 && p.key.iface in e.capabilities {
      SensorMember(e, setpoint, mode, temperature, humidity, motion, contact, p);
    }
    forall p, q | p in ps && q in ps && p.key == q.key ensures p == q {
      SensorMember(e, setpoint, mode, temperature, humidity, motion, contact, p);
      SensorMember(e, setpoint, mode, temperature, humidity, motion, contact, q);
    }
  }

  lemma AudioGrouped(e: Endpoint, volume: Option<Value>, muted: Option<Value>, play: Option<Value>, shuffle: Option<Value>, repeat: Option<Value>, source: Option<Value>)
    ensures Grouped(AudioBlocksOf(e, volume, muted, play, shuffle, repeat, source), e, 6)
  {
    var ps := AudioBlocksOf(e, volume, muted, play, shuffle, repeat, source);
    forall p | p in ps ensures GroupOf(p.key) == 6 && p.key.iface in e.capabilities {
      AudioMember(e, volume, muted, play, shuffle, repeat, source, p);
    }
    forall p, q | p in ps && q in ps && p.key == q.key ensures p == q {
      AudioMember(e, volume, muted, play, shuffle, repeat, source, p);
      AudioMember(e, volume, muted, play, shuffle, repeat, source, q);
    }
  }

  lemma ColorsGrouped(e: Endpoint, color: Option<ColorText.ColorMode>, dimmer: Option<int>)
    requires color.None? || dimmer.None?
    ensures Grouped(ColorBlocksOf(e, color, dimmer), e, 3)
  {
  }

  lemma ModesAndGarageGrouped(e: Endpoint, c: Control, cache: Cache)
    ensures Grouped(ModeBlocks(e, c, cache), e, 2)
  {
    var fan, vent := AsTrunc(Read(c, cache, ACControl, FanState)), AsTrunc(Read(c, cache, Ventilation, ModeState));
    var radio, slot := AsTrunc(Read(c, cache, Radio, ActiveOutput)), AsTrunc(Read(c, cache, Sequential, ActiveSequence));
    var binary := AsSlot(BinarySensorWord(e, c, cache));
    ModesGrouped(e, fan, vent, radio, slot, binary);
    GarageJoins(e, ModeBlocksOf(e, fan, vent, radio, slot, binary), GarageBlock(e, c, cache));
    forall p | p in ModeBlocksOf(e, fan, vent, radio, slot, binary) ensures p.key.instance != GarageDoorPosition {
      ModeMember(e, fan, vent, radio, slot, binary, p);
    }
  }

  lemma GarageJoins(e: Endpoint, modes: seq<Property>, garage: seq<Property>)
    requires Grouped(modes, e, 2) && |garage| <= 1
    requires forall p :: p in garage ==> ModeController in e.capabilities && p.key == PropKey(ModeController, GarageDoorPosition, Mode)
    ensures (forall p :: p in modes ==> p.key.instance != GarageDoorPosition) ==> Grouped(modes + garage, e, 2)
  {
  }

  lemma InItsGroup(e: Endpoint, a: seq<Property>, b: seq<Property>, c: seq<Property>, d: seq<Property>,
                   f: seq<Property>, g: seq<Property>, h: seq<Property>, p: Property)
    requires Grouped(a, e, 0) && Grouped(b, e, 1) && Grouped(c, e, 2) && Grouped(d, e, 3)
    requires Grouped(f, e, 4) && Grouped(g, e, 5) && Grouped(h, e, 6)
    requires p in a + b + c + d + f + g + h
    ensures GroupOf(p.key) < 7 && p in [a, b, c, d, f, g, h][GroupOf(p.key)] && p.key.iface in e.capabilities
  {
    InConcat(a, b, c, d, f, g, h, p);
  }

  lemma GroupsConsistent(e: Endpoint, a: seq<Property>, b: seq<Property>, c: seq<Property>, d: seq<Property>,
                         f: seq<Property>, g: seq<Property>, h: seq<Property>)
    requires Grouped(a, e, 0) && Grouped(b, e, 1) && Grouped(c, e, 2) && Grouped(d, e, 3)
    requires Grouped(f, e, 4) && Grouped(g, e, 5) && Grouped(h, e, 6)
    ensures Consistent(a + b + c + d + f + g + h, e)
    ensures forall i :: |a| <= i < |a + b + c + d + f + g + h| ==> GroupOf((a + b + c + d + f + g + h)[i].key) != 0
  {
    var all := a + b + c + d + f + g + h;
    forall p | p in all ensures GroupOf(p.key) < 7 && p in [a, b, c, d, f, g, h][GroupOf(p.key)] && p.key.iface in e.capabilities {
      InItsGroup(e, a, b, c, d, f, g, h, p);
    }
    forall i | |a| <= i < |all| ensures GroupOf(all[i].key) != 0 {
      NotInFirst(a, b, c, d, f, g, h, i);
    }
  }

  lemma NotInFirst<T>(a: seq<T>, b: seq<T>, c: seq<T>, d: seq<T>, f: seq<T>, g: seq<T>, h: seq<T>, i: nat)
    requires |a| <= i < |a + b + c + d + f + g + h|
    ensures var x := (a + b + c + d + f + g + h)[i]; x in b || x in c || x in d || x in f || x in g || x in h
  {
  }

  /** A property per key, each enabled by a capability. */
  ghost predicate Consistent(ps: seq<Property>, e: Endpoint) {
    && (forall p :: p in ps ==> p.key.iface in e.capabilities && GroupOf(p.key) < 7)
    && (forall p, q :: p in ps && q in ps && p.key == q.key ==> p == q)
  }

  lemma PowerGrouped(e: Endpoint, c: Control, cache: Cache, moods: MoodParser)
    ensures Grouped(PowerBlock(e, c, cache, moods), e, 0)
    ensures |PowerBlock(e, c, cache, moods)| == if PowerController in e.capabilities then 1 else 0
    ensures forall p :: p in PowerBlock(e, c, cache, moods) ==> p.key == POWER_KEY
  {
  }

  lemma LightGrouped(e: Endpoint, c: Control, cache: Cache, moods: MoodParser)
    ensures Grouped(LightModeBlock(e, c, cache, moods), e, 1)
  {
  }

  lemma ColorGrouped(e: Endpoint, c: Control, cache: Cache)
    ensures Grouped(ColorBlocks(e, c, cache), e, 3)
  {
    ColorsGrouped(e, ColorPickerState(c, cache), DimmerBrightness(c, cache));
  }

  lemma RangeGrouped(e: Endpoint, c: Control, cache: Cache)
    ensures Grouped(RangeBlock(e, c, cache), e, 4)
  {
  }

  lemma SensorGrouped(e: Endpoint, c: Control, cache: Cache)
    ensures Grouped(SensorBlocks(e, c, cache), e, 5)
  {
    SensorsGrouped(e,
      AsReading(SetpointOf(c, cache), c.scale), AsWord(ThermostatWord(c, cache)),
      AsReading(TemperatureOf(c, cache), c.scale), AsRounded(HumidityOf(c, cache)),
      AsWord(MotionWord(e, c, cache)), AsWord(ContactWord(e, c, cache)));
  }

  lemma AudioBlocksGrouped(e: Endpoint, c: Control, cache: Cache)
    ensures Grouped(AudioBlocks(e, c, cache), e, 6)
  {
    AudioGrouped(e,
      AsVolume(ReadAudio(c, cache, VolumeState)), AsMuted(AudioPower(c, cache)),
      AsWord(Decode(ReadAudio(c, cache, PlayState), PlaybackStateOf)), AsOnOff(ReadAudio(c, cache, ShuffleState)),
      AsWord(Decode(ReadAudio(c, cache, RepeatState), RepeatModeOf)), AsText(ReadAudio(c, cache, SourceState)));
  }

  lemma BlocksConsistent(e: Endpoint, c: Control, cache: Cache, moods: MoodParser)
    ensures Consistent(BeforeAudioPower(e, c, cache, moods), e)
    ensures PowerController in e.capabilities ==> PowerComesFirst(BeforeAudioPower(e, c, cache, moods))
  {
    PowerGrouped(e, c, cache, moods);
    LightGrouped(e, c, cache, moods);
    ModesAndGarageGrouped(e, c, cache);
    ColorGrouped(e, c, cache);
    RangeGrouped(e, c, cache);
    SensorGrouped(e, c, cache);
    AudioBlocksGrouped(e, c, cache);
    GroupsConsistent(e, PowerBlock(e, c, cache, moods), LightModeBlock(e, c, cache, moods), ModeBlocks(e, c, cache),
      ColorBlocks(e, c, cache), RangeBlock(e, c, cache), SensorBlocks(e, c, cache), AudioBlocks(e, c, cache));
  }

  ghost predicate PowerComesFirst(ps: seq<Property>) {
    && ps != [] && ps[0].key == POWER_KEY
    && forall i :: 1 <= i < |ps| ==> GroupOf(ps[i].key) != 0
  }

  lemma AudioPowerConsistent(e: Endpoint, power: Option<bool>, ps: seq<Property>)
    requires Consistent(ps, e) && (PowerController in e.capabilities ==> PowerComesFirst(ps))
    ensures Consistent(WithAudioPower(e, power, ps), e)
  {
    if PowerController in e.capabilities && power.Some? {
      assert WithAudioPower(e, power, ps) == [Power(power.value)] + ps[1..];
    }
  }

  /** ReportState answers each key once: no two of its properties share a key, and
      besides connectivity it only reports advertised interfaces. */
  lemma ReportAnswersOnce(e: Endpoint, c: Control, cache: Cache, moods: MoodParser)
    ensures var report := Report(e, c, cache, moods);
      && (forall p, q :: p in report && q in report && p.key == q.key ==> p == q)
      && (forall p :: p in report ==> p == HEALTH || (p.key.iface in e.capabilities && p.key.iface != EndpointHealth))
  {
    BlocksConsistent(e, c, cache, moods);
    AudioPowerConsistent(e, AudioPower(c, cache), BeforeAudioPower(e, c, cache, moods));
    HealthJoins(e, WithAudioPower(e, AudioPower(c, cache), BeforeAudioPower(e, c, cache, moods)));
  }

  lemma HealthJoins(e: Endpoint, ps: seq<Property>)
    requires Consistent(ps, e)
    ensures forall p, q :: p in ps + [HEALTH] && q in ps + [HEALTH] && p.key == q.key ==> p == q
    ensures forall p :: p in ps + [HEALTH] ==> p == HEALTH || (p.key.iface in e.capabilities && p.key.iface != EndpointHealth)
  {
  }

  // ----- The startup snapshot ------------------------------------------------------------

  lemma {:induction false} ReplaceKeys(ps: seq<Property>, r: Property)
    requires DistinctKeys(ps)
    ensures DistinctKeys(Replace(ps, r))
    ensures forall q :: q in Replace(ps, r) <==> q == r || (q in ps && q.key != r.key)
  {
    if ps != [] {
      assert forall q :: q in ps <==> q == ps[0] || q in ps[1..];
      if ps[0].key == r.key {
        assert Replace(ps, r) == [r] + ps[1..];
      } else {
        assert DistinctKeys(ps[1..]);
        ReplaceKeys(ps[1..], r);
        assert Replace(ps, r) == [ps[0]] + Replace(ps[1..], r);
        forall i | 1 <= i < |Replace(ps, r)| ensures Replace(ps, r)[i].key != ps[0].key {
          assert Replace(ps, r)[i] in Replace(ps[1..], r);
        }
      }
    }
  }

  ghost predicate DistinctKeys(ps: seq<Property>) {
    forall i, j :: 0 <= i < j < |ps| ==> ps[i].key != ps[j].key
  }

  /** Deduplication keeps one property per key, and the members themselves when
      no two of them disagree. */
  lemma {:induction false} DedupeMembers(ps: seq<Property>)
    ensures DistinctKeys(Dedupe(ps))
    ensures forall q :: q in Dedupe(ps) ==> q in ps
    ensures (forall p, q :: p in ps && q in ps && p.key == q.key ==> p == q) ==> forall q :: q in ps ==> q in Dedupe(ps)
  {
    if ps != [] {
      var front, last := ps[..|ps| - 1], ps[|ps| - 1];
      DedupeMembers(front);
      ReplaceKeys(Dedupe(front), last);
      assert forall q :: q in ps <==> q in front || q == last;
    }
  }

  /** What ReportState answers with certainty, connectivity aside. */
  predicate Certain(p: Property) {
    p.uncertainty == 0 && p.key.iface != EndpointHealth
  }

  lemma ActuatorIsCertain(c: Control, d: Device, cache: Cache, state: StateName, n: real)
    requires c.kind in {Switch, TimedSwitch, Dimmer, Jalousie, Window, Gate, Slider, Radio, Sequential, ValueSelector, LightController}
    ensures forall p :: p in MapNumber(c, d, cache, state, n) ==> Certain(p)
  {
  }

  lemma ClimateIsCertain(c: Control, d: Device, cache: Cache, state: StateName, n: real)
    requires c.kind in {IRoomControllerV2, ACControl, Ventilation, InfoOnlyAnalog}
    ensures forall p :: p in MapNumber(c, d, cache, state, n) ==> Certain(p)
  {
  }

  lemma AudioIsCertain(state: StateName, n: real)
    ensures forall p :: p in MapAudio(state, n) ==> Certain(p)
  {
  }

  lemma RestIsCertain(c: Control, d: Device, cache: Cache, state: StateName, n: real)
    requires c.kind in {PresenceDetector, InfoOnlyDigital, WindowMonitor, LightControllerV2, ColorPickerV2, UnmappedType}
    ensures forall p :: p in MapNumber(c, d, cache, state, n) ==> Certain(p)
  {
  }

  lemma NumberIsCertain(c: Control, d: Device, cache: Cache, state: StateName, n: real, p: Property)
    requires p in MapNumber(c, d, cache, state, n)
    ensures Certain(p)
  {
    if c.kind in AUDIO_TYPES { AudioPushes(c, d, cache, state, n); AudioIsCertain(state, n); }
    else if c.kind in {IRoomControllerV2, ACControl, Ventilation, InfoOnlyAnalog} { ClimateIsCertain(c, d, cache, state, n); }
    else if c.kind in {PresenceDetector, InfoOnlyDigital, WindowMonitor, LightControllerV2, ColorPickerV2, UnmappedType} {
      RestIsCertain(c, d, cache, state, n);
    } else { ActuatorIsCertain(c, d, cache, state, n); }
  }

  lemma TextIsCertain(c: Control, d: Device, moods: MoodParser, state: StateName, text: string, p: Property)
    requires p in MapText(c, d, moods, state, text)
    ensures Certain(p)
  {
  }

  lemma PushedIsCertain(c: Control, d: Device, cache: Cache, moods: MoodParser, s: (StateName, Uuid), p: Property)
    requires p in MapState(c, d, cache, moods, s)
    ensures Certain(p)
  {
    if s.1 in cache.values { NumberIsCertain(c, d, cache, s.0, cache.values[s.1], p); }
    else { TextIsCertain(c, d, moods, s.0, cache.texts[s.1], p); }
  }

  /** The two states a ventilation derives its power from, like any two states of
      any control, never push different values for one key. */
  lemma PushedOnce(c: Control, d: Device, cache: Cache, moods: MoodParser,
                   s: (StateName, Uuid), t: (StateName, Uuid), p: Property, q: Property)
    requires WellFormed(c) && moods("") == [] && !Misrendered(c, d) && s in c.states && t in c.states
    requires p in MapState(c, d, cache, moods, s) && Advertised(d, p)
    requires q in MapState(c, d, cache, moods, t) && Advertised(d, q) && p.key == q.key
    ensures p == q
  {
    PushedIsAnswered(c, d, cache, moods, s, p);
    PushedIsAnswered(c, d, cache, moods, t, q);
    PushedIsCertain(c, d, cache, moods, s, p);
    PushedIsCertain(c, d, cache, moods, t, q);
    AnswersAgree(ToEndpoint(d), c, cache, moods, p.key, p.value, q.value);
  }

  lemma AnswersAgree(e: Endpoint, c: Control, cache: Cache, moods: MoodParser, key: PropKey, v: Value, w: Value)
    requires Answers(Report(e, c, cache, moods), key, v) && Answers(Report(e, c, cache, moods), key, w)
    ensures v == w
  {
    ReportAnswersOnce(e, c, cache, moods);
  }

  lemma SnapshotMembers(c: Control, d: Device, cache: Cache, moods: MoodParser, p: Property)
    requires WellFormed(c) && moods("") == [] && !Misrendered(c, d)
    ensures p in Snapshot(c, d, cache, moods) <==> Pushed(c, d, cache, moods, p) && Advertised(d, p)
  {
    var collected := Collect(c, d, cache, moods, c.states);
    var filtered := FilterAdvertised(d, collected);
    forall a, b | a in filtered && b in filtered && a.key == b.key ensures a == b {
      var s :| s in c.states && a in MapState(c, d, cache, moods, s);
      var t :| t in c.states && b in MapState(c, d, cache, moods, t);
      PushedOnce(c, d, cache, moods, s, t, a, b);
    }
    DedupeMembers(filtered);
    assert p in filtered <==> p in collected && Advertised(d, p);
  }

  lemma AdvertisedIsAnswered(c: Control, d: Device, cache: Cache, moods: MoodParser, p: Property)
    requires WellFormed(c) && moods("") == [] && !Misrendered(c, d)
    requires Pushed(c, d, cache, moods, p) && Advertised(d, p)
    ensures Answers(Report(ToEndpoint(d), c, cache, moods), p.key, p.value) && Certain(p)
  {
    var s :| s in c.states && p in MapState(c, d, cache, moods, s);
    PushedIsAnswered(c, d, cache, moods, s, p);
    PushedIsCertain(c, d, cache, moods, s, p);
  }

  lemma AdvertisedIsReported(c: Control, d: Device, cache: Cache, moods: MoodParser, p: Property)
    requires WellFormed(c) && moods("") == [] && !Misrendered(c, d) && !EmptyMoods(c, d, cache)
    requires Pushed(c, d, cache, moods, p) && Advertised(d, p)
    ensures p in Report(ToEndpoint(d), c, cache, moods)
  {
    var s :| s in c.states && p in MapState(c, d, cache, moods, s);
    PushedIsReported(c, d, cache, moods, s, p);
  }

  lemma SnapshotIsAnswered(c: Control, d: Device, cache: Cache, moods: MoodParser, p: Property)
    requires WellFormed(c) && moods("") == [] && !Misrendered(c, d) && p in Snapshot(c, d, cache, moods)
    ensures Answers(Report(ToEndpoint(d), c, cache, moods), p.key, p.value) && Certain(p)
    ensures !EmptyMoods(c, d, cache) ==> p in Report(ToEndpoint(d), c, cache, moods)
  {
    SnapshotMembers(c, d, cache, moods, p);
    AdvertisedIsAnswered(c, d, cache, moods, p);
    if !EmptyMoods(c, d, cache) { AdvertisedIsReported(c, d, cache, moods, p); }
  }

  lemma CertainIsInSnapshotIff(c: Control, d: Device, cache: Cache, moods: MoodParser)
    requires WellFormed(c) && moods("") == [] && !Misrendered(c, d)
    ensures (forall p :: p in Report(ToEndpoint(d), c, cache, moods) && Certain(p) ==> p in Snapshot(c, d, cache, moods))
            <==> !HidesText(c, d, cache, moods)
  {
    KnownIsPushedIff(c, d, cache, moods);
    forall p | p in Report(ToEndpoint(d), c, cache, moods) && Certain(p)
      ensures p in Snapshot(c, d, cache, moods) <==> Pushed(c, d, cache, moods, p)
    {
      CertainIsAdvertised(c, d, cache, moods, p);
      SnapshotMembers(c, d, cache, moods, p);
    }
  }

  /** The OFF that an empty `activeMoods` text makes the push path send is not in the
      report, because the report has the uncertain OFF under that key. */
  lemma EmptyMoodsPart(c: Control, d: Device, cache: Cache, moods: MoodParser)
    requires WellFormed(c) && moods("") == [] && !Misrendered(c, d) && EmptyMoods(c, d, cache)
    ensures Power(false) in Snapshot(c, d, cache, moods) && Power(false) !in Report(ToEndpoint(d), c, cache, moods)
  {
    EmptyMoodsPushed(c, d, cache, moods);
    SnapshotMembers(c, d, cache, moods, Power(false));
    EmptyMoodsNotReported(c, d, cache, moods, Power(false));
  }

  lemma EmptyMoodsNotReported(c: Control, d: Device, cache: Cache, moods: MoodParser, p: Property)
    requires EmptyMoods(c, d, cache) && p == Power(false)
    ensures p !in Report(ToEndpoint(d), c, cache, moods)
  {
    EmptyMoodsAnswered(c, d, cache, moods);
    if p in Report(ToEndpoint(d), c, cache, moods) {
      AnsweredOnce(ToEndpoint(d), c, cache, moods, p, Property(POWER_KEY, OnOff(false), STUB_UNCERTAINTY));
    }
  }

  lemma AnsweredOnce(e: Endpoint, c: Control, cache: Cache, moods: MoodParser, p: Property, q: Property)
    requires p in Report(e, c, cache, moods) && q in Report(e, c, cache, moods) && p.key == q.key
    ensures p == q
  {
    ReportAnswersOnce(e, c, cache, moods);
  }

  lemma EmptyMoodsPushed(c: Control, d: Device, cache: Cache, moods: MoodParser)
    requires moods("") == [] && EmptyMoods(c, d, cache)
    ensures Pushed(c, d, cache, moods, Power(false)) && Advertised(d, Power(false))
  {
    var s := (ActiveMoods, StateUuid(c, ActiveMoods).value);
    MapsAs(c, d, cache, moods, s);
    NoMoodMaps(c, d, moods, cache.texts[s.1]);
  }

  lemma NoMoodMaps(c: Control, d: Device, moods: MoodParser, text: string)
    requires c.kind == LightControllerV2 && moods(text) == []
    ensures Power(false) in MapText(c, d, moods, ActiveMoods, text)
  {
  }

  lemma SnapshotKeysDistinct(c: Control, d: Device, cache: Cache, moods: MoodParser)
    ensures DistinctKeys(Snapshot(c, d, cache, moods))
  {
    DedupeMembers(FilterAdvertised(d, Collect(c, d, cache, moods, c.states)));
  }

  /** The startup snapshot and the StateReport: the snapshot has one value per key,
      ReportState answers each of them, every snapshot property is in the report
      exactly when no empty `activeMoods` text is pushed as a certain OFF, and every
      certain answer is in the snapshot exactly when no text hides behind a number. */
  lemma SnapshotEqualsReport(c: Control, d: Device, cache: Cache, moods: MoodParser)
    requires WellFormed(c) && moods("") == [] && !Misrendered(c, d)
    ensures DistinctKeys(Snapshot(c, d, cache, moods))
    ensures forall p :: p in Snapshot(c, d, cache, moods) ==>
      Certain(p) && Answers(Report(ToEndpoint(d), c, cache, moods), p.key, p.value)
    ensures (forall p :: p in Snapshot(c, d, cache, moods) ==> p in Report(ToEndpoint(d), c, cache, moods))
            <==> !EmptyMoods(c, d, cache)
    ensures (forall p :: p in Report(ToEndpoint(d), c, cache, moods) && Certain(p) ==> p in Snapshot(c, d, cache, moods))
            <==> !HidesText(c, d, cache, moods)
  {
    SnapshotKeysDistinct(c, d, cache, moods);
    CertainIsInSnapshotIff(c, d, cache, moods);
    if EmptyMoods(c, d, cache) { EmptyMoodsPart(c, d, cache, moods); }
    forall p | p in Snapshot(c, d, cache, moods)
      ensures Answers(Report(ToEndpoint(d), c, cache, moods), p.key, p.value) && Certain(p)
      ensures !EmptyMoods(c, d, cache) ==> p in Report(ToEndpoint(d), c, cache, moods)
    {
      SnapshotIsAnswered(c, d, cache, moods, p);
    }
  }

  // ----- Where push and pull part --------------------------------------------------------

  lemma MisrenderedPushes(c: Control, d: Device, cache: Cache, moods: MoodParser, n: real)
    returns (s: (StateName, Uuid), p: Property)
    requires Misrendered(c, d) && ValueOf(c, cache, PositionState) == Some(n)
    ensures s in c.states && p in MapState(c, d, cache, moods, s) && Advertised(d, p)
    ensures p == ModeProp(GarageDoorPosition, Symbol(GarageModeOf(n))) && p.key == POSITION_MODE_KEY
  {
    s := (PositionState, StateUuid(c, PositionState).value);
    p := ModeProp(GarageDoorPosition, Symbol(GarageModeOf(n)));
    assert MapState(c, d, cache, moods, s) == MapBlind(c, d, n);
  }

  const POSITION_MODE_KEY := PropKey(ModeController, GarageDoorPosition, Mode)

  lemma NoPositionMode(e: Endpoint, c: Control, cache: Cache, p: Property)
    requires c.kind != Gate && p in ModeBlocks(e, c, cache)
    ensures p.key != POSITION_MODE_KEY
  {
    assert GarageBlock(e, c, cache) == [];
    ModeMember(e,
      AsTrunc(Read(c, cache, ACControl, FanState)), AsTrunc(Read(c, cache, Ventilation, ModeState)),
      AsTrunc(Read(c, cache, Radio, ActiveOutput)), AsTrunc(Read(c, cache, Sequential, ActiveSequence)),
      AsSlot(BinarySensorWord(e, c, cache)), p);
  }

  lemma AbsentFromGroups(e: Endpoint, a: seq<Property>, b: seq<Property>, c: seq<Property>, d: seq<Property>,
                         f: seq<Property>, g: seq<Property>, h: seq<Property>)
    requires Grouped(a, e, 0) && Grouped(b, e, 1) && Grouped(c, e, 2) && Grouped(d, e, 3)
    requires Grouped(f, e, 4) && Grouped(g, e, 5) && Grouped(h, e, 6)
    requires forall p :: p in c ==> p.key != POSITION_MODE_KEY
    ensures forall p :: p in a + b + c + d + f + g + h ==> p.key != POSITION_MODE_KEY
  {
    forall p | p in a + b + c + d + f + g + h ensures p.key != POSITION_MODE_KEY {
      InItsGroup(e, a, b, c, d, f, g, h, p);
    }
  }

  lemma AbsentBeforePower(e: Endpoint, c: Control, cache: Cache, moods: MoodParser)
    requires c.kind != Gate
    ensures forall p :: p in BeforeAudioPower(e, c, cache, moods) ==> p.key != POSITION_MODE_KEY
  {
    PowerGrouped(e, c, cache, moods);
    LightGrouped(e, c, cache, moods);
    ModesAndGarageGrouped(e, c, cache);
    ColorGrouped(e, c, cache);
    RangeGrouped(e, c, cache);
    SensorGrouped(e, c, cache);
    AudioBlocksGrouped(e, c, cache);
    forall p | p in ModeBlocks(e, c, cache) ensures p.key != POSITION_MODE_KEY { NoPositionMode(e, c, cache, p); }
    AbsentFromGroups(e, PowerBlock(e, c, cache, moods), LightModeBlock(e, c, cache, moods), ModeBlocks(e, c, cache),
      ColorBlocks(e, c, cache), RangeBlock(e, c, cache), SensorBlocks(e, c, cache), AudioBlocks(e, c, cache));
  }

  lemma AbsentAfterPower(e: Endpoint, power: Option<bool>, ps: seq<Property>)
    requires forall p :: p in ps ==> p.key != POSITION_MODE_KEY
    ensures forall p :: p in WithAudioPower(e, power, ps) + [HEALTH] ==> p.key != POSITION_MODE_KEY
  {
    if power.Some? { ReplaceMembers(ps, Power(power.value)); }
  }

  lemma OnlyGatesReportAPositionMode(e: Endpoint, c: Control, cache: Cache, moods: MoodParser, value: Value)
    requires c.kind != Gate
    ensures !Answers(Report(e, c, cache, moods), POSITION_MODE_KEY, value)
  {
    AbsentBeforePower(e, c, cache, moods);
    AbsentAfterPower(e, AudioPower(c, cache), BeforeAudioPower(e, c, cache, moods));
  }

  lemma UncachedBlindPushesNothing(c: Control, d: Device, cache: Cache, moods: MoodParser, s: (StateName, Uuid))
    requires WellFormed(c) && s in c.states && c.kind in {Jalousie, Window} && ValueOf(c, cache, PositionState).None?
    ensures MapState(c, d, cache, moods, s) == []
  {
    StateUuidUnique(c, s.0, s.1);
  }

  lemma MisrenderedParts(c: Control, d: Device, cache: Cache, moods: MoodParser, n: real)
    requires Misrendered(c, d) && ValueOf(c, cache, PositionState) == Some(n)
    ensures var p := ModeProp(GarageDoorPosition, Symbol(GarageModeOf(n)));
      && Pushed(c, d, cache, moods, p) && Advertised(d, p)
      && !Answers(Report(ToEndpoint(d), c, cache, moods), p.key, p.value)
  {
    var s, p := MisrenderedPushes(c, d, cache, moods, n);
    OnlyGatesReportAPositionMode(ToEndpoint(d), c, cache, moods, p.value);
    assert Pushed(c, d, cache, moods, p);
  }

  /** Push equals pull on a cache, exactly when no Jalousie or Window with a cached
      position is shown as a garage door with a mode. */
  lemma PushEqualsPullIff(c: Control, d: Device, cache: Cache, moods: MoodParser)
    requires WellFormed(c) && moods("") == []
    ensures (forall p :: Pushed(c, d, cache, moods, p) && Advertised(d, p)
               ==> Answers(Report(ToEndpoint(d), c, cache, moods), p.key, p.value))
            <==> !(Misrendered(c, d) && ValueOf(c, cache, PositionState).Some?)
  {
    if Misrendered(c, d) && ValueOf(c, cache, PositionState).Some? {
      MisrenderedParts(c, d, cache, moods, ValueOf(c, cache, PositionState).value);
    } else {
      forall p | Pushed(c, d, cache, moods, p) && Advertised(d, p)
        ensures Answers(Report(ToEndpoint(d), c, cache, moods), p.key, p.value)
      {
        if Misrendered(c, d) {
          var s :| s in c.states && p in MapState(c, d, cache, moods, s);
          UncachedBlindPushesNothing(c, d, cache, moods, s);
        } else {
          AdvertisedIsAnswered(c, d, cache, moods, p);
        }
      }
    }
  }

  /** A live report carries tenths of a degree while ReportState answers with the
      raw reading: the two are at most 0.05 apart, and equal exactly when the
      reading is a multiple of a tenth. Every other live value is answered as is. */
  lemma LiveReportIsAnswered(c: Control, d: Device, cache: Cache, moods: MoodParser, p: Property)
    requires WellFormed(c) && moods("") == [] && !Misrendered(c, d)
    requires Pushed(c, d, cache, moods, p) && Advertised(d, p)
    ensures Answers(Report(ToEndpoint(d), c, cache, moods), p.key, p.value)
    ensures var live := RateControl.Quantise(p);
      if p.key.iface == TemperatureSensor && p.key.name == Temperature && p.value.Reading? then
        && live.key == p.key && live.value.Reading? && live.value.scale == p.value.scale
        && Abs(live.value.number - p.value.number) <= 0.05
        && (Answers(Report(ToEndpoint(d), c, cache, moods), live.key, live.value) <==> RateControl.OnTenth(p.value.number))
      else live == p
  {
    AdvertisedIsAnswered(c, d, cache, moods, p);
    RateControl.QuantiseReading(p);
    var live := RateControl.Quantise(p);
    if Answers(Report(ToEndpoint(d), c, cache, moods), live.key, live.value) {
      AnswersAgree(ToEndpoint(d), c, cache, moods, p.key, p.value, live.value);
    }
  }

  /** From the cache event to the answer: whatever the reporter observes for an event
      whose value is in the cache, ReportState answers, up to the tenth of a degree. */
  lemma ObservationIsAnswered(r: StateReporter.StateReporter, uuid: Uuid, input: Input, cache: Cache, now: int,
                              e: RateControl.Event) returns (p: Property)
    requires r.reverseIndex == StateReporter.IndexDevices(r.devices, r.controls) && r.moods("") == []
    requires CachedInput(cache, uuid) == Some(input) && e in r.Observed(uuid, input, cache, now)
    requires e.Observe? && e.device in r.controls && WellFormed(r.controls[e.device])
    requires var d := StateReporter.FindDevice(r.devices, e.device); d.Some? ==> !Misrendered(r.controls[e.device], d.value)
    ensures e.property == RateControl.Quantise(p)
    ensures StateReporter.IsEnabled(r.devices, e.device)
    ensures Answers(Report(ToEndpoint(StateReporter.FindDevice(r.devices, e.device).value), r.controls[e.device], cache, r.moods),
                    p.key, p.value)
  {
    StateReporter.ObservedIsPushed(r, uuid, input, cache, now, e);
    var c, d := r.controls[e.device], StateReporter.FindDevice(r.devices, e.device).value;
    var s, q :| s in c.states && q in MapState(c, d, cache, r.moods, s) && Advertised(d, q)
                && e.property == RateControl.Quantise(q);
    p := q;
    PushedIsAnswered(c, d, cache, r.moods, s, p);
  }

  // ----- Inputs on which they part -------------------------------------------------------

  function OneState(kind: ControlType, name: StateName): Control {
    Control(kind, [(name, "u")], Celsius, Bounds(0.0, 100.0, 1.0), false)
  }

  function Row(category: Category, capabilities: set<Interface>): Device {
    Device("d", true, category, capabilities, false, false)
  }

  lemma OneStateIsKnown(kind: ControlType, name: StateName)
    ensures WellFormed(OneState(kind, name)) && StateUuid(OneState(kind, name), name) == Some("u")
    ensures (name, "u") in OneState(kind, name).states
  {
    assert OneState(kind, name).states[0] == (name, "u");
  }

  /** A half-open blind shown as a garage door with a mode: the mode is pushed, and
      ReportState does not answer it. */
  lemma GarageRowParts(moods: MoodParser)
    requires moods("") == []
    ensures var c, d := OneState(Jalousie, PositionState), Row(GarageDoor, {ModeController});
      var cache := Cache(map["u" := 0.5], map[]);
      var p := ModeProp(GarageDoorPosition, Symbol(PositionUp));
      && Pushed(c, d, cache, moods, p) && Advertised(d, p)
      && !Answers(Report(ToEndpoint(d), c, cache, moods), p.key, p.value)
  {
    var c, d := OneState(Jalousie, PositionState), Row(GarageDoor, {ModeController});
    var cache := Cache(map["u" := 0.5], map[]);
    OneStateIsKnown(Jalousie, PositionState);
    HalfOpen();
    MisrenderedParts(c, d, cache, moods, 0.5);
  }

  lemma HalfOpen()
    ensures GarageModeOf(0.5) == PositionUp
  {
    RoundUnique(50.0, 50);
  }

  lemma RoomTemperaturePushed(c: Control, d: Device, cache: Cache, moods: MoodParser, n: real, p: Property)
    requires c.kind == IRoomControllerV2 && ValueOf(c, cache, TempActual) == Some(n) && TemperatureSensor in d.capabilities
    requires p == TemperatureProp(n, c.scale)
    ensures Pushed(c, d, cache, moods, p) && Advertised(d, p)
  {
    RoomPushed(c, d, cache, moods, TempActual, p);
  }

  lemma OffTenthParts(c: Control, d: Device, cache: Cache, moods: MoodParser, n: real, p: Property, live: Property)
    requires WellFormed(c) && moods("") == [] && !Misrendered(c, d)
    requires c.kind == IRoomControllerV2 && ValueOf(c, cache, TempActual) == Some(n) && TemperatureSensor in d.capabilities
    requires p == TemperatureProp(n, c.scale) && live == RateControl.Quantise(p) && !RateControl.OnTenth(n)
    ensures Pushed(c, d, cache, moods, p) && Advertised(d, p)
    ensures Answers(Report(ToEndpoint(d), c, cache, moods), p.key, p.value)
    ensures !Answers(Report(ToEndpoint(d), c, cache, moods), p.key, live.value)
  {
    RoomTemperaturePushed(c, d, cache, moods, n, p);
    LiveReportIsAnswered(c, d, cache, moods, p);
  }

  lemma Tenths(scale: Scale)
    ensures RateControl.Quantise(TemperatureProp(21.34, scale)) == TemperatureProp(21.3, scale)
    ensures !RateControl.OnTenth(21.34)
  {
    RoundUnique(213.4, 213);
  }

  /** 21.34 degrees: 21.3 is pushed, and ReportState answers 21.34. */
  lemma TenthsPart(moods: MoodParser)
    requires moods("") == []
    ensures var c, d := OneState(IRoomControllerV2, TempActual), Row(OtherCategory, {TemperatureSensor});
      var cache := Cache(map["u" := 21.34], map[]);
      var p, report := TemperatureProp(21.34, Celsius), Report(ToEndpoint(d), c, cache, moods);
      && Pushed(c, d, cache, moods, p) && Advertised(d, p)
      && RateControl.Quantise(p) == TemperatureProp(21.3, Celsius)
      && Answers(report, p.key, p.value) && !Answers(report, p.key, Reading(21.3, Celsius))
  {
    OneStateIsKnown(IRoomControllerV2, TempActual);
    Tenths(Celsius);
    OffTenthParts(OneState(IRoomControllerV2, TempActual), Row(OtherCategory, {TemperatureSensor}), Cache(map["u" := 21.34], map[]),
                  moods, 21.34, TemperatureProp(21.34, Celsius), TemperatureProp(21.3, Celsius));
  }

  /** An empty `activeMoods` text: a certain OFF is in the snapshot, an uncertain one
      in the report. */
  lemma EmptyMoodsRowParts(moods: MoodParser)
    requires moods("") == []
    ensures var c, d := OneState(LightControllerV2, ActiveMoods), Row(OtherCategory, {PowerController});
      var cache := Cache(map[], map["u" := ""]);
      Power(false) in Snapshot(c, d, cache, moods) && Power(false) !in Report(ToEndpoint(d), c, cache, moods)
  {
    OneStateIsKnown(LightControllerV2, ActiveMoods);
    EmptyMoodsPart(OneState(LightControllerV2, ActiveMoods), Row(OtherCategory, {PowerController}),
                   Cache(map[], map["u" := ""]), moods);
  }

  lemma MoodTextIsHidden(c: Control, d: Device, cache: Cache, moods: MoodParser, s: (StateName, Uuid), text: string)
    requires c.kind == LightControllerV2 && s.0 == ActiveMoods && PowerController in d.capabilities
    requires s.1 in cache.values && s.1 in cache.texts && cache.texts[s.1] == text && text != ""
    ensures HiddenText(c, d, cache, moods, s)
  {
    var p := Power(!MoodsOff(moods(text)));
    assert p in MapText(c, d, moods, ActiveMoods, text) && Advertised(d, p);
  }

  /** A number and a mood text cached for one state: ReportState answers from the
      text what the push path, which sees the number, never sends. */
  lemma NumberHidesTextParts(moods: MoodParser) returns (p: Property)
    ensures var c, d := OneState(LightControllerV2, ActiveMoods), Row(OtherCategory, {PowerController});
      var cache := Cache(map["u" := 1.0], map["u" := "778"]);
      p in Report(ToEndpoint(d), c, cache, moods) && Certain(p) && !Pushed(c, d, cache, moods, p)
  {
    var c, d := OneState(LightControllerV2, ActiveMoods), Row(OtherCategory, {PowerController});
    var cache := Cache(map["u" := 1.0], map["u" := "778"]);
    OneStateIsKnown(LightControllerV2, ActiveMoods);
    MoodTextIsHidden(c, d, cache, moods, (ActiveMoods, "u"), cache.texts["u"]);
    p := HiddenIsReported(c, d, cache, moods, (ActiveMoods, "u"));
    HiddenIsNotPushed(c, d, cache, moods, (ActiveMoods, "u"), p);
  }

  // ----- The order of a control's states -------------------------------------------------

  /** The same control with its `states` listed in another order. */
  ghost predicate Reordered(c: Control, r: Control) {
    && WellFormed(c) && WellFormed(r) && r == c.(states := r.states)
    && forall s :: s in c.states <==> s in r.states
  }

  lemma ReorderedValue(c: Control, r: Control, cache: Cache, name: StateName)
    requires Reordered(c, r)
    ensures ValueOf(c, cache, name) == ValueOf(r, cache, name)
  {
    var u, v := StateUuid(c, name), StateUuid(r, name);
    if u.Some? { StateUuidUnique(r, name, u.value); }
    if v.Some? { StateUuidUnique(c, name, v.value); }
  }

  lemma ReorderedDimmer(c: Control, r: Control, cache: Cache, n: real)
    requires Reordered(c, r)
    ensures MapDimmer(c, cache, n) == MapDimmer(r, cache, n)
  {
    ReorderedValue(c, r, cache, MinState);
    ReorderedValue(c, r, cache, MaxState);
  }

  lemma ReorderedVentilation(c: Control, r: Control, cache: Cache, state: StateName, n: real)
    requires Reordered(c, r)
    ensures MapVentilation(c, cache, state, n) == MapVentilation(r, cache, state, n)
  {
    ReorderedValue(c, r, cache, ActiveTimerProfile);
    ReorderedValue(c, r, cache, SpeedState);
  }

  lemma ReorderedBlind(c: Control, r: Control, d: Device, n: real)
    requires Reordered(c, r)
    ensures MapBlind(c, d, n) == MapBlind(r, d, n) && MapSlider(c, d, n) == MapSlider(r, d, n)
  {
    assert RangeControl.RangeBoundsFor(c) == RangeControl.RangeBoundsFor(r);
  }

  lemma ReorderedClimate(c: Control, r: Control, state: StateName, n: real)
    requires Reordered(c, r)
    ensures MapRoom(c, state, n) == MapRoom(r, state, n) && MapAc(c, state, n) == MapAc(r, state, n)
  {
  }

  lemma ReorderedCover(c: Control, r: Control, d: Device, cache: Cache, state: StateName, n: real)
    requires Reordered(c, r) && c.kind in {Jalousie, Window, Gate, Slider, IRoomControllerV2, ACControl}
    ensures MapNumber(c, d, cache, state, n) == MapNumber(r, d, cache, state, n)
  {
    ReorderedBlind(c, r, d, n);
    ReorderedClimate(c, r, state, n);
  }

  lemma ReorderedCached(c: Control, r: Control, d: Device, cache: Cache, state: StateName, n: real)
    requires Reordered(c, r) && c.kind in {Dimmer, Ventilation}
    ensures MapNumber(c, d, cache, state, n) == MapNumber(r, d, cache, state, n)
  {
    ReorderedDimmer(c, r, cache, n);
    ReorderedVentilation(c, r, cache, state, n);
  }

  lemma ReorderedOther(c: Control, r: Control, d: Device, cache: Cache, state: StateName, n: real)
    requires Reordered(c, r)
    requires c.kind !in {Jalousie, Window, Gate, Slider, IRoomControllerV2, ACControl, Dimmer, Ventilation}
    ensures MapNumber(c, d, cache, state, n) == MapNumber(r, d, cache, state, n)
  {
  }

  lemma ReorderedNumber(c: Control, r: Control, d: Device, cache: Cache, state: StateName, n: real)
    requires Reordered(c, r)
    ensures MapNumber(c, d, cache, state, n) == MapNumber(r, d, cache, state, n)
  {
    if c.kind in {Jalousie, Window, Gate, Slider, IRoomControllerV2, ACControl} { ReorderedCover(c, r, d, cache, state, n); }
    else if c.kind in {Dimmer, Ventilation} { ReorderedCached(c, r, d, cache, state, n); }
    else { ReorderedOther(c, r, d, cache, state, n); }
  }

  lemma ReorderedMap(c: Control, r: Control, d: Device, cache: Cache, moods: MoodParser, s: (StateName, Uuid))
    requires Reordered(c, r)
    ensures MapState(c, d, cache, moods, s) == MapState(r, d, cache, moods, s)
  {
    if s.1 in cache.values { ReorderedNumber(c, r, d, cache, s.0, cache.values[s.1]); }
  }

  /** The last-wins deduplication does not depend on the order of the states. */
  lemma SnapshotIgnoresStateOrder(c: Control, r: Control, d: Device, cache: Cache, moods: MoodParser, p: Property)
    requires Reordered(c, r) && moods("") == [] && !Misrendered(c, d)
    ensures p in Snapshot(c, d, cache, moods) <==> p in Snapshot(r, d, cache, moods)
  {
    SnapshotMembers(c, d, cache, moods, p);
    SnapshotMembers(r, d, cache, moods, p);
    forall s | s in c.states ensures MapState(c, d, cache, moods, s) == MapState(r, d, cache, moods, s) {
      ReorderedMap(c, r, d, cache, moods, s);
    }
  }
}
