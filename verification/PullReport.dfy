/** The pull path: `_handleReportState` of the directive router and its resolvers,
    written independently of the push path. */
module PullReport {
  import opened AlexaModel
  import opened JsNumbers
  import opened ModeMaps
  import ColorText
  import Scaling
  import RangeControl
  import PushMapping

  type MoodParser = PushMapping.MoodParser

  const STUB_UNCERTAINTY := 60000
  const AUDIO_TYPES: set<ControlType> := {AudioZone, AudioZoneV2}

  /** One property if the capability is advertised and the resolver found a value. */
  function Block(e: Endpoint, iface: Interface, instance: Instance, name: PropertyName, value: Option<Value>): seq<Property> {
    if iface in e.capabilities && value.Some? then [Prop(iface, instance, name, value.value)] else []
  }

  // ----- Resolvers ------------------------------------------------------------

  /** Every resolver checks the control type before it reads the cache. */
  function Read(c: Control, cache: Cache, kind: ControlType, name: StateName): Option<real> {
    if c.kind == kind then ValueOf(c, cache, name) else None
  }

  function ReadAudio(c: Control, cache: Cache, name: StateName): Option<real> {
    if c.kind in AUDIO_TYPES then ValueOf(c, cache, name) else None
  }

  function ReadText(c: Control, cache: Cache, kind: ControlType, name: StateName): Option<string> {
    if c.kind == kind then TextOf(c, cache, name) else None
  }

  /** `{ powerState, mode }` of a mood or scene controller. */
  datatype LightLike = LightLike(on: bool, mode: Option<Value>)

  function LightControllerState(c: Control, cache: Cache, moods: MoodParser): Option<LightLike> {
    match ReadText(c, cache, LightControllerV2, ActiveMoods)
    case None => None
    case Some(text) =>
      var ids := moods(text);
      if |ids| == 0 then Some(LightLike(false, None))
      else Some(LightLike(!(|ids| == 1 && ids[0] == OFF_MOOD_ID), Some(Numeral(ids[0] as real))))
  }

  function LightSceneState(c: Control, cache: Cache): Option<LightLike> {
    match Read(c, cache, LightController, ActiveScene)
    case None => None
    case Some(v) => Some(LightLike(Trunc(v) != OFF_SCENE_ID, Some(Numeral(Trunc(v) as real))))
  }

  function LightLikeState(c: Control, cache: Cache, moods: MoodParser): Option<LightLike> {
    var light := LightControllerState(c, cache, moods);
    if light.Some? then light else LightSceneState(c, cache)
  }

  function ColorPickerState(c: Control, cache: Cache): Option<ColorText.ColorMode> {
    match ReadText(c, cache, ColorPickerV2, ColorState)
    case None => None
    case Some(text) => ColorText.ParseColorState(text)
  }

  function DimmerBrightness(c: Control, cache: Cache): Option<int> {
    match Read(c, cache, Dimmer, PositionState)
    case None => None
    case Some(p) => Some(Scaling.DimmerToBrightness(p, ValueOf(c, cache, MinState), ValueOf(c, cache, MaxState)))
  }

  function AudioPower(c: Control, cache: Cache): Option<bool> {
    match ReadAudio(c, cache, PowerStateName)
    case None => None
    case Some(v) => Some(v != 0.0)
  }

  /** Power of a ventilation, derived from the timer profile and the speed. */
  function VentPower(c: Control, cache: Cache): Option<bool> {
    var profile := ValueOf(c, cache, ActiveTimerProfile);
    var speed := RangeControl.VentSpeedOf(c, cache);
    if profile.None? && speed.None? then None
    else
      var zero := if speed.Some? then speed.value == 0 else true;
      Some(!(profile.Some? && Trunc(profile.value) == RangeControl.VENT_MANUAL_PROFILE && zero))
  }

  function NonZero(v: Option<real>): Option<bool> {
    match v
    case None => None
    case Some(x) => Some(x != 0.0)
  }

  /** The power state the generic block knows; None leaves the OFF stub. */
  function PowerReading(c: Control, cache: Cache, moods: MoodParser): Option<bool> {
    var light := LightLikeState(c, cache, moods);
    var color := ColorPickerState(c, cache);
    var dimmer := Read(c, cache, Dimmer, PositionState);
    if light.Some? then Some(light.value.on)
    else if color.Some? then Some(color.value.brightness > 0)
    else if dimmer.Some? then Some(dimmer.value != 0.0)
    else if c.kind == ACControl then NonZero(ValueOf(c, cache, StatusState))
    else if c.kind == Ventilation then VentPower(c, cache)
    else if c.kind == Switch || c.kind == TimedSwitch then NonZero(ValueOf(c, cache, ActiveState))
    else None
  }

  function DigitalWord(e: Endpoint, v: Option<real>): Option<Word> {
    match v
    case None => None
    case Some(x) => Some(Polarize(x != 0.0, e.sensorPolarityInverted))
  }

  function WindowWord(e: Endpoint, c: Control, cache: Cache): Option<Word> {
    match ReadText(c, cache, WindowMonitor, WindowStates)
    case None => None
    case Some(text) => Some(Polarize(AllClosed(text), e.sensorPolarityInverted))
  }

  function MotionWord(e: Endpoint, c: Control, cache: Cache): Option<Word> {
    if c.kind == InfoOnlyDigital then DigitalWord(e, ValueOf(c, cache, ActiveState))
    else DigitalWord(e, Read(c, cache, PresenceDetector, ActiveState))
  }

  function ContactWord(e: Endpoint, c: Control, cache: Cache): Option<Word> {
    if c.kind == InfoOnlyDigital then DigitalWord(e, ValueOf(c, cache, ActiveState))
    else WindowWord(e, c, cache)
  }

  function BinarySensorWord(e: Endpoint, c: Control, cache: Cache): Option<Word> {
    if c.kind == PresenceDetector || c.kind == InfoOnlyDigital then DigitalWord(e, ValueOf(c, cache, ActiveState))
    else WindowWord(e, c, cache)
  }

  predicate IsGarageEndpoint(e: Endpoint, c: Control) {
    ModeController in e.capabilities && GarageDoor in e.displayCategories && c.kind == Gate
  }

  function RangeInstanceFor(kind: ControlType): Instance {
    match kind
    case Slider => SliderValue
    case Ventilation => VentSpeed
    case ValueSelector => ValueSelectorRange
    case _ => BlindPosition
  }

  function TemperatureOf(c: Control, cache: Cache): Option<real> {
    match c.kind
    case InfoOnlyAnalog => ValueOf(c, cache, ValueState)
    case ACControl => ValueOf(c, cache, TemperatureState)
    case Ventilation => ValueOf(c, cache, TemperatureIndoor)
    case _ => Read(c, cache, IRoomControllerV2, TempActual)
  }

  function HumidityOf(c: Control, cache: Cache): Option<real> {
    match c.kind
    case Ventilation => ValueOf(c, cache, HumidityIndoor)
    case IRoomControllerV2 => ValueOf(c, cache, HumidityActual)
    case _ => Read(c, cache, InfoOnlyAnalog, ValueState)
  }

  function SetpointOf(c: Control, cache: Cache): Option<real> {
    if c.kind == ACControl then ValueOf(c, cache, TargetTemperature) else Read(c, cache, IRoomControllerV2, TempTarget)
  }

  function ThermostatWord(c: Control, cache: Cache): Option<Word> {
    var v := if c.kind == ACControl then ValueOf(c, cache, ModeState) else Read(c, cache, IRoomControllerV2, OperatingMode);
    if v.None? then None else if c.kind == ACControl then AcModeOf(v.value) else ThermostatModeOf(v.value)
  }

  // ----- Value wrappers ---------------------------------------------------------

  function AsTrunc(v: Option<real>): Option<Value> {
    if v.None? then None else Some(Numeral(Trunc(v.value) as real))
  }

  function AsText(v: Option<real>): Option<Value> {
    if v.None? then None else Some(Numeral(v.value))
  }

  function AsNumber(v: Option<real>): Option<Value> {
    if v.None? then None else Some(Number(v.value))
  }

  function AsInt(v: Option<int>): Option<Value> {
    if v.None? then None else Some(Number(v.value as real))
  }

  function AsReading(v: Option<real>, scale: Scale): Option<Value> {
    if v.None? then None else Some(Reading(v.value, scale))
  }

  function AsWord(w: Option<Word>): Option<Value> {
    if w.None? then None else Some(Symbol(w.value))
  }

  function AsSlot(w: Option<Word>): Option<Value> {
    if w.None? then None else Some(Symbol(SlotOf(w.value)))
  }

  function AsRounded(v: Option<real>): Option<Value> {
    if v.None? then None else Some(Number(Round(v.value) as real))
  }

  function AsVolume(v: Option<real>): Option<Value> {
    if v.None? then None else Some(Number(Clamp(Round(v.value), 0, 100) as real))
  }

  function AsMuted(power: Option<bool>): Option<Value> {
    if power.None? then None else Some(Flag(!power.value))
  }

  function AsOnOff(v: Option<real>): Option<Value> {
    if v.None? then None else Some(OnOff(v.value != 0.0))
  }

  function Decode(v: Option<real>, table: real -> Option<Word>): Option<Word> {
    if v.None? then None else table(v.value)
  }

  // ----- Blocks, in the order they are pushed ------------------------------------

  function PowerBlock(e: Endpoint, c: Control, cache: Cache, moods: MoodParser): seq<Property> {
    PowerBlockOf(e, PowerReading(c, cache, moods))
  }

  function PowerBlockOf(e: Endpoint, reading: Option<bool>): seq<Property> {
    if PowerController !in e.capabilities then []
    else
      if reading.Some? then [Prop(PowerController, NoInstance, PowerState, OnOff(reading.value))]
      else [Property(PropKey(PowerController, NoInstance, PowerState), OnOff(false), STUB_UNCERTAINTY)]
  }

  function LightModeBlock(e: Endpoint, c: Control, cache: Cache, moods: MoodParser): seq<Property> {
    var light := LightLikeState(c, cache, moods);
    var instance := if LightSceneState(c, cache).Some? then LightScene else LightMood;
    Block(e, ModeController, instance, Mode, if light.Some? then light.value.mode else None)
  }

  function ModeBlocks(e: Endpoint, c: Control, cache: Cache): seq<Property> {
    ModeBlocksOf(e,
      AsTrunc(Read(c, cache, ACControl, FanState)), AsTrunc(Read(c, cache, Ventilation, ModeState)),
      AsTrunc(Read(c, cache, Radio, ActiveOutput)), AsTrunc(Read(c, cache, Sequential, ActiveSequence)),
      AsSlot(BinarySensorWord(e, c, cache)))
    + GarageBlock(e, c, cache)
  }

  function ModeBlocksOf(e: Endpoint, fan: Option<Value>, vent: Option<Value>, radio: Option<Value>,
                        slot: Option<Value>, binary: Option<Value>): seq<Property>
  {
    Block(e, ModeController, AcFanSpeed, Mode, fan)
    + Block(e, ModeController, VentMode, Mode, vent)
    + Block(e, ModeController, RadioOutput, Mode, radio)
    + Block(e, ModeController, SequenceSlot, Mode, slot)
    + Block(e, ModeController, BinarySensor, Mode, binary)
  }

  function GarageBlock(e: Endpoint, c: Control, cache: Cache): seq<Property> {
    var position := ValueOf(c, cache, PositionState);
    if IsGarageEndpoint(e, c) && position.Some?
    then [Prop(ModeController, GarageDoorPosition, Mode, Symbol(GarageModeOf(position.value)))] else []
  }

  function ColorBlocks(e: Endpoint, c: Control, cache: Cache): seq<Property> {
    ColorBlocksOf(e, ColorPickerState(c, cache), DimmerBrightness(c, cache))
  }

  function ColorBlocksOf(e: Endpoint, color: Option<ColorText.ColorMode>, dimmer: Option<int>): seq<Property> {
    Block(e, BrightnessController, NoInstance, Brightness,
          if color.Some? then Some(Number(color.value.brightness as real)) else None)
    + Block(e, BrightnessController, NoInstance, Brightness, AsInt(dimmer))
    + Block(e, ColorController, NoInstance, Color,
            if color.Some? && color.value.Hsv?
            then Some(Hsb(color.value.hue, color.value.saturation as real / 100.0, color.value.brightness as real / 100.0))
            else None)
    + Block(e, ColorTemperatureController, NoInstance, ColorTemperatureInKelvin,
            if color.Some? && color.value.Temp? then Some(Number(color.value.kelvin as real)) else None)
  }

  function RangeBlock(e: Endpoint, c: Control, cache: Cache): seq<Property> {
    if IsGarageEndpoint(e, c) then []
    else Block(e, RangeController, RangeInstanceFor(c.kind), RangeValue, AsNumber(RangeControl.ResolveRangeValue(e, c, cache)))
  }

  function SensorBlocks(e: Endpoint, c: Control, cache: Cache): seq<Property> {
    SensorBlocksOf(e,
      AsReading(SetpointOf(c, cache), c.scale), AsWord(ThermostatWord(c, cache)),
      AsReading(TemperatureOf(c, cache), c.scale), AsRounded(HumidityOf(c, cache)),
      AsWord(MotionWord(e, c, cache)), AsWord(ContactWord(e, c, cache)))
  }

  function SensorBlocksOf(e: Endpoint, setpoint: Option<Value>, mode: Option<Value>, temperature: Option<Value>,
                          humidity: Option<Value>, motion: Option<Value>, contact: Option<Value>): seq<Property>
  {
    Block(e, ThermostatController, NoInstance, TargetSetpoint, setpoint)
    + Block(e, ThermostatController, NoInstance, ThermostatMode, mode)
    + Block(e, TemperatureSensor, NoInstance, Temperature, temperature)
    + Block(e, HumiditySensor, NoInstance, RelativeHumidity, humidity)
    + Block(e, MotionSensor, NoInstance, DetectionState, motion)
    + Block(e, ContactSensor, NoInstance, DetectionState, contact)
  }

  function AudioBlocks(e: Endpoint, c: Control, cache: Cache): seq<Property> {
    AudioBlocksOf(e,
      AsVolume(ReadAudio(c, cache, VolumeState)), AsMuted(AudioPower(c, cache)),
      AsWord(Decode(ReadAudio(c, cache, PlayState), PlaybackStateOf)), AsOnOff(ReadAudio(c, cache, ShuffleState)),
      AsWord(Decode(ReadAudio(c, cache, RepeatState), RepeatModeOf)), AsText(ReadAudio(c, cache, SourceState)))
  }

  function AudioBlocksOf(e: Endpoint, volume: Option<Value>, muted: Option<Value>, play: Option<Value>,
                         shuffle: Option<Value>, repeat: Option<Value>, source: Option<Value>): seq<Property>
  {
    Block(e, Speaker, NoInstance, Volume, volume)
    + Block(e, Speaker, NoInstance, Muted, muted)
    + Block(e, PlaybackStateReporter, NoInstance, PlaybackState, play)
    + Block(e, ToggleController, AudioShuffle, ToggleState, shuffle)
    + Block(e, ModeController, AudioRepeat, Mode, repeat)
    + Block(e, ModeController, AudioSource, Mode, source)
  }

  const HEALTH := Prop(EndpointHealth, NoInstance, Connectivity, Symbol(Ok))

  function BeforeAudioPower(e: Endpoint, c: Control, cache: Cache, moods: MoodParser): seq<Property> {
    PowerBlock(e, c, cache, moods) + LightModeBlock(e, c, cache, moods) + ModeBlocks(e, c, cache)
    + ColorBlocks(e, c, cache) + RangeBlock(e, c, cache) + SensorBlocks(e, c, cache) + AudioBlocks(e, c, cache)
  }

  /** Audio endpoints get their power stub overwritten by the power state the zone reports. */
  function WithAudioPower(e: Endpoint, power: Option<bool>, ps: seq<Property>): seq<Property> {
    if PowerController in e.capabilities && power.Some?
    then PushMapping.Replace(ps, Prop(PowerController, NoInstance, PowerState, OnOff(power.value)))
    else ps
  }

  /** The StateReport's `context.properties`. */
  function Report(e: Endpoint, c: Control, cache: Cache, moods: MoodParser): seq<Property> {
    WithAudioPower(e, AudioPower(c, cache), BeforeAudioPower(e, c, cache, moods)) + [HEALTH]
  }

  /** `_handleReportState`: the properties are pushed block after block. */
  method HandleReportState(e: Endpoint, c: Control, cache: Cache, moods: MoodParser) returns (properties: seq<Property>)
    ensures properties == Report(e, c, cache, moods)
  {
    properties := PowerBlock(e, c, cache, moods);
    properties := properties + LightModeBlock(e, c, cache, moods);
    properties := properties + ModeBlocks(e, c, cache);
    properties := properties + ColorBlocks(e, c, cache);
    properties := properties + RangeBlock(e, c, cache);
    properties := properties + SensorBlocks(e, c, cache);
    properties := properties + AudioBlocks(e, c, cache);
    if PowerController in e.capabilities {
      var power := AudioPower(c, cache);
      if power.Some? {
        properties := PushMapping.Replace(properties, Prop(PowerController, NoInstance, PowerState, OnOff(power.value)));
      }
    }
    properties := properties + [HEALTH];
  }
}
