/** The push path: `_mapToProperties` and `_currentPropertiesForDevice` of the
    state reporter. */
module PushMapping {
  import opened AlexaModel
  import opened JsNumbers
  import opened ModeMaps
  import ColorText
  import Scaling
  import RangeControl

  /** A cached state as the mapper receives it. */
  datatype Input = NumberInput(number: real) | TextInput(text: string)

  /** `parseActiveMoods`, which accepts JSON as well as bare lists, is a parameter. */
  type MoodParser = string -> seq<int>

  function Power(on: bool): Property {
    Prop(PowerController, NoInstance, PowerState, OnOff(on))
  }

  function ModeProp(instance: Instance, value: Value): Property {
    Prop(ModeController, instance, Mode, value)
  }

  function WordProp(iface: Interface, instance: Instance, name: PropertyName, w: Option<Word>): seq<Property> {
    if w.None? then [] else [Prop(iface, instance, name, Symbol(w.value))]
  }

  function Sensor(iface: Interface, w: Word): Property {
    Prop(iface, NoInstance, DetectionState, Symbol(w))
  }

  function BinarySlot(w: Word): Property {
    ModeProp(BinarySensor, Symbol(SlotOf(w)))
  }

  function TemperatureProp(n: real, scale: Scale): Property {
    Prop(TemperatureSensor, NoInstance, Temperature, Reading(n, scale))
  }

  function HumidityProp(n: real): Property {
    Prop(HumiditySensor, NoInstance, RelativeHumidity, Number(Round(n) as real))
  }

  function SetpointProp(n: real, scale: Scale): Property {
    Prop(ThermostatController, NoInstance, TargetSetpoint, Reading(n, scale))
  }

  function RangeProp(instance: Instance, n: real): Property {
    Prop(RangeController, instance, RangeValue, Number(n))
  }

  function TruncText(n: real): Value {
    Numeral(Trunc(n) as real)
  }

  /** `_mapToProperties` for a numeric state event. */
  function MapNumber(c: Control, d: Device, cache: Cache, state: StateName, n: real): seq<Property> {
    match c.kind
    case Switch => if state == ActiveState then [Power(n != 0.0)] else []
    case TimedSwitch => if state == ActiveState then [Power(n != 0.0)] else []
    case Dimmer => if state == PositionState then MapDimmer(c, cache, n) else []
    case Jalousie => if state == PositionState then MapBlind(c, d, n) else []
    case Window => if state == PositionState then MapBlind(c, d, n) else []
    case Gate => if state == PositionState then MapBlind(c, d, n) else []
    case Slider => if state == ValueState then MapSlider(c, d, n) else []
    case IRoomControllerV2 => MapRoom(c, state, n)
    case ACControl => MapAc(c, state, n)
    case Ventilation => MapVentilation(c, cache, state, n)
    case Radio => if state == ActiveOutput then [ModeProp(RadioOutput, TruncText(n))] else []
    case Sequential => if state == ActiveSequence then [ModeProp(SequenceSlot, TruncText(n))] else []
    case ValueSelector => if state == ValueState then [RangeProp(ValueSelectorRange, n)] else []
    case AudioZone => MapAudio(state, n)
    case AudioZoneV2 => MapAudio(state, n)
    case PresenceDetector => if state == ActiveState then MapPresence(d, n) else []
    case InfoOnlyDigital => if state == ActiveState then MapDigital(d, n) else []
    case InfoOnlyAnalog => if state == ValueState then [TemperatureProp(n, c.scale), HumidityProp(n)] else []
    case LightController => if state == ActiveScene then MapScene(n) else []
    case _ => []
  }

  function MapScene(n: real): seq<Property> {
    [Power(Trunc(n) != OFF_SCENE_ID), ModeProp(LightScene, TruncText(n))]
  }

  /** `position` in native bounds; the live `min` and `max` states scale it. */
  function MapDimmer(c: Control, cache: Cache, n: real): seq<Property> {
    [Power(n != 0.0),
     Prop(BrightnessController, NoInstance, Brightness,
          Number(Scaling.DimmerToBrightness(n, ValueOf(c, cache, MinState), ValueOf(c, cache, MaxState)) as real))]
  }

  function MapSlider(c: Control, d: Device, n: real): seq<Property> {
    [RangeProp(SliderValue, if d.rangeAxisInverted then Scaling.MirrorInRange(n, RangeControl.RangeBoundsFor(c)) else n)]
  }

  function MapRoom(c: Control, state: StateName, n: real): seq<Property> {
    match state
    case TempActual => [TemperatureProp(n, c.scale)]
    case TempTarget => [SetpointProp(n, c.scale)]
    case OperatingMode => WordProp(ThermostatController, NoInstance, ThermostatMode, ThermostatModeOf(n))
    case HumidityActual => [HumidityProp(n)]
    case _ => []
  }

  function MapAc(c: Control, state: StateName, n: real): seq<Property> {
    match state
    case StatusState => [Power(n != 0.0)]
    case TemperatureState => [TemperatureProp(n, c.scale)]
    case TargetTemperature => [SetpointProp(n, c.scale)]
    case ModeState => WordProp(ThermostatController, NoInstance, ThermostatMode, AcModeOf(n))
    case FanState => [ModeProp(AcFanSpeed, TruncText(n))]
    case _ => []
  }

  /** Power is derived from the timer profile and the speed: whichever of the two
      changed, the other one is looked up in the cache. */
  function MapVentilation(c: Control, cache: Cache, state: StateName, n: real): seq<Property> {
    match state
    case SpeedState =>
      var speed := Clamp(Round(n), 0, 100);
      var profile := ValueOf(c, cache, ActiveTimerProfile);
      var off := profile.Some? && Trunc(profile.value) == RangeControl.VENT_MANUAL_PROFILE && speed == 0;
      [RangeProp(VentSpeed, speed as real), Power(!off)]
    case ActiveTimerProfile =>
      var cached := ValueOf(c, cache, SpeedState);
      var speed := if cached.Some? then Clamp(Round(cached.value), 0, 100) else 0;
      var off := Trunc(n) == RangeControl.VENT_MANUAL_PROFILE && speed == 0;
      [Power(!off)]
    case ModeState => [ModeProp(VentMode, TruncText(n))]
    case TemperatureIndoor => [TemperatureProp(n, c.scale)]
    case HumidityIndoor => [HumidityProp(n)]
    case _ => []
  }

  function MapPresence(d: Device, n: real): seq<Property> {
    var w := Polarize(n != 0.0, d.sensorPolarityInverted);
    [Sensor(MotionSensor, w), BinarySlot(w)]
  }

  function MapDigital(d: Device, n: real): seq<Property> {
    var w := Polarize(n != 0.0, d.sensorPolarityInverted);
    [Sensor(MotionSensor, w), Sensor(ContactSensor, w), BinarySlot(w)]
  }

  /** A Gate shown as a garage door reports a mode, every other blind a range.
      The choice looks at the device row only, not at the control type. */
  function MapBlind(c: Control, d: Device, n: real): seq<Property> {
    if d.category == GarageDoor && ModeController in d.capabilities then
      [ModeProp(GarageDoorPosition, Symbol(GarageModeOf(n)))]
    else
      var raw := Clamp(Round(n * 100.0), 0, 100) as real;
      [RangeProp(BlindPosition, if d.rangeAxisInverted then Scaling.MirrorInRange(raw, RangeControl.RangeBoundsFor(c)) else raw)]
  }

  function MapAudio(state: StateName, n: real): seq<Property> {
    match state
    case VolumeState => [Prop(Speaker, NoInstance, Volume, Number(Clamp(Round(n), 0, 100) as real))]
    case PowerStateName => [Power(n != 0.0), Prop(Speaker, NoInstance, Muted, Flag(n == 0.0))]
    case PlayState => WordProp(PlaybackStateReporter, NoInstance, PlaybackState, PlaybackStateOf(n))
    case ShuffleState => [Prop(ToggleController, AudioShuffle, ToggleState, OnOff(n != 0.0))]
    case RepeatState => WordProp(ModeController, AudioRepeat, Mode, RepeatModeOf(n))
    case SourceState => [ModeProp(AudioSource, Numeral(n))]
    case _ => []
  }

  function ColorProps(m: ColorText.ColorMode): seq<Property> {
    [Power(m.brightness > 0),
     Prop(BrightnessController, NoInstance, Brightness, Number(m.brightness as real)),
     match m
     case Hsv(h, s, b) => Prop(ColorController, NoInstance, Color, Hsb(h, s as real / 100.0, b as real / 100.0))
     case Temp(_, k) => Prop(ColorTemperatureController, NoInstance, ColorTemperatureInKelvin, Number(k as real))]
  }

  predicate MoodsOff(ids: seq<int>) {
    |ids| == 0 || (|ids| == 1 && ids[0] == OFF_MOOD_ID)
  }

  /** `_mapToProperties` for a text state event. */
  function MapText(c: Control, d: Device, moods: MoodParser, state: StateName, text: string): seq<Property> {
    match (c.kind, state)
    case (ColorPickerV2, ColorState) =>
      var m := ColorText.ParseColorState(text);
      if m.None? then [] else ColorProps(m.value)
    case (WindowMonitor, WindowStates) =>
      if text == "" then []
      else
        var w := Polarize(AllClosed(text), d.sensorPolarityInverted);
        [Sensor(ContactSensor, w), BinarySlot(w)]
    case (LightControllerV2, ActiveMoods) =>
      var ids := moods(text);
      [Power(!MoodsOff(ids))] + (if |ids| > 0 then [ModeProp(LightMood, Numeral(ids[0] as real))] else [])
    case _ => []
  }

  function MapToProperties(c: Control, d: Device, cache: Cache, moods: MoodParser, state: StateName, input: Input)
    : seq<Property>
  {
    match input
    case NumberInput(n) => MapNumber(c, d, cache, state, n)
    case TextInput(t) => MapText(c, d, moods, state, t)
  }

  /** The per-capability opt-out that both the live path and the snapshot apply. */
  predicate Advertised(d: Device, p: Property) {
    var capability := CapabilityFor(p.key.iface);
    capability.None? || capability.value in d.capabilities
  }

  function FilterAdvertised(d: Device, ps: seq<Property>): (r: seq<Property>)
    ensures forall p :: p in r <==> p in ps && Advertised(d, p)
  {
    if ps == [] then []
    else (if Advertised(d, ps[0]) then [ps[0]] else []) + FilterAdvertised(d, ps[1..])
  }

  /** What the cache holds for a state UUID: a number first, else a text. */
  function CachedInput(cache: Cache, u: Uuid): Option<Input> {
    if u in cache.values then Some(NumberInput(cache.values[u]))
    else if u in cache.texts then Some(TextInput(cache.texts[u]))
    else None
  }

  function MapState(c: Control, d: Device, cache: Cache, moods: MoodParser, state: (StateName, Uuid)): seq<Property> {
    match CachedInput(cache, state.1)
    case None => []
    case Some(input) => MapToProperties(c, d, cache, moods, state.0, input)
  }

  /** The properties of all states in the order of the control's `states`. */
  function Collect(c: Control, d: Device, cache: Cache, moods: MoodParser, states: seq<(StateName, Uuid)>): (r: seq<Property>)
    ensures forall p :: p in r <==> exists s :: s in states && p in MapState(c, d, cache, moods, s)
  {
    if states == [] then []
    else
      var front := states[..|states| - 1];
      var last := states[|states| - 1];
      assert forall s :: s in states <==> s in front || s == last;
      Collect(c, d, cache, moods, front) + MapState(c, d, cache, moods, last)
  }

  /** Deduplicate by key: the last occurrence wins, in the place of the first. */
  function Dedupe(ps: seq<Property>): seq<Property> {
    if ps == [] then [] else Replace(Dedupe(ps[..|ps| - 1]), ps[|ps| - 1])
  }

  /** `Map.set`: overwrite in place or append. */
  function Replace(ps: seq<Property>, p: Property): seq<Property> {
    if ps == [] then [p]
    else if ps[0].key == p.key then [p] + ps[1..]
    else [ps[0]] + Replace(ps[1..], p)
  }

  /** `_currentPropertiesForDevice`, the loops over the states and the filtered list. */
  method CurrentPropertiesForDevice(c: Control, d: Device, cache: Cache, moods: MoodParser)
    returns (properties: seq<Property>)
    ensures properties == Snapshot(c, d, cache, moods)
  {
    var collected: seq<Property> := [];
    for i := 0 to |c.states|
      invariant collected == Collect(c, d, cache, moods, c.states[..i])
    {
      assert c.states[..i + 1][..i] == c.states[..i];
      collected := collected + MapState(c, d, cache, moods, c.states[i]);
    }
    assert c.states[..|c.states|] == c.states;
    var filtered := FilterAdvertised(d, collected);
    properties := [];
    for i := 0 to |filtered|
      invariant properties == Dedupe(filtered[..i])
    {
      assert filtered[..i + 1][..i] == filtered[..i];
      properties := Replace(properties, filtered[i]);
    }
    assert filtered[..|filtered|] == filtered;
  }

  function Snapshot(c: Control, d: Device, cache: Cache, moods: MoodParser): seq<Property> {
    Dedupe(FilterAdvertised(d, Collect(c, d, cache, moods, c.states)))
  }
}
