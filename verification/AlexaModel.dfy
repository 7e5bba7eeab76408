/** Data shared by the push path (state-reporter) and the pull path
    (directive-router): Alexa properties, Loxone controls, the picker's device
    rows and the state cache as both paths read it. Every number is finite;
    `timeOfSample` is not modelled. */
module AlexaModel {

  datatype Option<+T> = None | Some(value: T)

  type Uuid = string

  /** An Alexa interface, which is also the capability string that enables it. */
  datatype Interface =
    | PowerController | ModeController | BrightnessController | ColorController
    | ColorTemperatureController | RangeController | ThermostatController
    | TemperatureSensor | Speaker | PlaybackStateReporter | ToggleController
    | MotionSensor | ContactSensor | HumiditySensor
    | SceneController | PlaybackController | EndpointHealth

  datatype Instance =
    | NoInstance | LightMood | LightScene | GarageDoorPosition | BlindPosition
    | SliderValue | AcFanSpeed | VentSpeed | VentMode | RadioOutput | SequenceSlot
    | BinarySensor | ValueSelectorRange | AudioShuffle | AudioRepeat | AudioSource

  datatype PropertyName =
    | PowerState | Mode | Brightness | Color | ColorTemperatureInKelvin | RangeValue
    | TargetSetpoint | ThermostatMode | Temperature | RelativeHumidity | Volume
    | Muted | PlaybackState | ToggleState | DetectionState | Connectivity

  datatype Scale = Celsius | Fahrenheit

  datatype Word =
    | On | Off | Auto | Heat | Cool | Detected | NotDetected | PositionUp
    | PositionDown | Stopped | Paused | Playing | RepeatOff | RepeatAll | RepeatOne
    | SlotZero | SlotOne | Ok

  /** The JSON value of a property. `Numeral` is a number sent as text. */
  datatype Value =
    | Symbol(word: Word)
    | Number(number: real)
    | Numeral(number: real)
    | Flag(flag: bool)
    | Reading(number: real, scale: Scale)
    | Hsb(hue: int, saturation: real, brightness: real)

  datatype PropKey = PropKey(iface: Interface, instance: Instance, name: PropertyName)

  datatype Property = Property(key: PropKey, value: Value, uncertainty: nat)

  /** A property whose value is certain. */
  function Prop(iface: Interface, instance: Instance, name: PropertyName, value: Value): Property {
    Property(PropKey(iface, instance, name), value, 0)
  }

  /** The capability a device row must list for a property of `iface` to be
      sent; EndpointHealth needs none. */
  function CapabilityFor(iface: Interface): Option<Interface> {
    if iface in {EndpointHealth, SceneController, PlaybackController} then None else Some(iface)
  }

  datatype ControlType =
    | Switch | TimedSwitch | Dimmer | ColorPickerV2 | Jalousie | Window | Gate | Slider
    | IRoomControllerV2 | ACControl | Ventilation | Radio | Sequential | ValueSelector
    | AudioZone | AudioZoneV2 | PresenceDetector | InfoOnlyDigital | InfoOnlyAnalog
    | WindowMonitor | LightController | LightControllerV2 | UnmappedType

  datatype StateName =
    | ActiveState | PositionState | MinState | MaxState | StepState | ColorState | ValueState
    | TempActual | TempTarget | OperatingMode | HumidityActual | StatusState
    | TemperatureState | TargetTemperature | ModeState | FanState | SpeedState
    | ActiveTimerProfile | TemperatureIndoor | HumidityIndoor | ActiveOutput
    | ActiveSequence | VolumeState | PowerStateName | PlayState | ShuffleState
    | RepeatState | SourceState | WindowStates | ActiveScene | ActiveMoods | UnmappedState

  datatype Bounds = Bounds(min: real, max: real, step: real)

  /** A Loxone control as the structure cache returns it: its type, its ordered
      `states` object, the temperature scale read from `details.format`, the
      slider bounds and the increase-only flag from `details`. */
  datatype Control = Control(
    kind: ControlType,
    states: seq<(StateName, Uuid)>,
    scale: Scale,
    slider: Bounds,
    increaseOnly: bool)

  /** The keys of a JavaScript object are distinct. */
  predicate WellFormed(c: Control) {
    forall i, j :: 0 <= i < j < |c.states| ==> c.states[i].0 != c.states[j].0
  }

  datatype Category = GarageDoor | OtherCategory

  /** One sanitised row of devices.json. */
  datatype Device = Device(
    uuid: Uuid,
    enabled: bool,
    category: Category,
    capabilities: set<Interface>,
    rangeAxisInverted: bool,
    sensorPolarityInverted: bool)

  /** What `toEndpoints` hands to the directive router for a device row. */
  datatype Endpoint = Endpoint(
    uuid: Uuid,
    displayCategories: seq<Category>,
    capabilities: set<Interface>,
    rangeAxisInverted: bool,
    sensorPolarityInverted: bool)

  function ToEndpoint(d: Device): Endpoint {
    Endpoint(d.uuid, [d.category], d.capabilities, d.rangeAxisInverted, d.sensorPolarityInverted)
  }

  /** `endpointIdFor`: prefix, and every '/' becomes '_'. */
  function EndpointIdFor(uuid: Uuid): string {
    "alexa-" + seq(|uuid|, i requires 0 <= i < |uuid| => if uuid[i] == '/' then '_' else uuid[i])
  }

  datatype Cache = Cache(values: map<Uuid, real>, texts: map<Uuid, string>)

  /** `control.states?.[name]`. */
  function StateUuid(c: Control, name: StateName): (r: Option<Uuid>)
    ensures r.Some? ==> (name, r.value) in c.states
    ensures r.None? ==> forall u :: (name, u) !in c.states
  {
    FindState(c.states, name)
  }

  function FindState(states: seq<(StateName, Uuid)>, name: StateName): (r: Option<Uuid>)
    ensures r.Some? ==> (name, r.value) in states
    ensures r.None? ==> forall u :: (name, u) !in states
  {
    if states == [] then None
    else if states[0].0 == name then
      assert states[0] == (name, states[0].1);
      Some(states[0].1)
    else FindState(states[1..], name)
  }

  /** The cached finite number behind a state, if there is one. */
  function ValueOf(c: Control, cache: Cache, name: StateName): Option<real> {
    match StateUuid(c, name)
    case None => None
    case Some(u) => if u in cache.values then Some(cache.values[u]) else None
  }

  /** The cached text behind a state; the resolvers treat "" as missing. */
  function TextOf(c: Control, cache: Cache, name: StateName): Option<string> {
    match StateUuid(c, name)
    case None => None
    case Some(u) =>
      if u in cache.texts && cache.texts[u] != "" then Some(cache.texts[u]) else None
  }

  lemma StateUuidUnique(c: Control, name: StateName, u: Uuid)
    requires WellFormed(c)
    requires (name, u) in c.states
    ensures StateUuid(c, name) == Some(u)
  {
    var i :| 0 <= i < |c.states| && c.states[i] == (name, u);
    var v := StateUuid(c, name);
    var j :| 0 <= j < |c.states| && c.states[j] == (name, v.value);
    assert i == j;
  }
}
