/** RangeController: the SetRangeValue / AdjustRangeValue handler, the value
    ReportState reads back, and ValueSelector snapping. */
module RangeControl {
  import opened AlexaModel
  import opened JsNumbers
  import opened Scaling

  const BLIND_TYPES: set<ControlType> := {Jalousie, Window, Gate}
  const BLIND_BOUNDS := Bounds(0.0, 100.0, 1.0)
  const VENT_MANUAL_PROFILE := -1

  datatype RangeRequest = SetTo(value: real) | AdjustBy(delta: real)

  datatype RangeCommand =
    | ManualPosition(position: real)
    | MoveToPosition(position: real)
    | CloseGate | OpenGate | PartiallyOpenGate
    | RawValue(value: real)
    | SetTimer(seconds: int, speed: int, mode: int)

  datatype RangeError = InvalidDirective | InvalidValue

  datatype RangeOutcome = Refused(error: RangeError) | Commanded(command: RangeCommand, echoed: real)

  // ----- Reading -------------------------------------------------------------

  /** `rangeBoundsFor` */
  function RangeBoundsFor(c: Control): Bounds {
    if c.kind == Slider then c.slider else BLIND_BOUNDS
  }

  /** `_resolveValueSelectorBounds`: live bounds, 0..100 step 1 for each one missing. */
  function ValueSelectorBounds(c: Control, cache: Cache): (b: Bounds)
    ensures b.step > 0.0
  {
    var min, max, step := ValueOf(c, cache, MinState), ValueOf(c, cache, MaxState), ValueOf(c, cache, StepState);
    Bounds(if min.Some? then min.value else 0.0,
           if max.Some? then max.value else 100.0,
           if step.Some? && step.value > 0.0 then step.value else 1.0)
  }

  function VentSpeedOf(c: Control, cache: Cache): Option<int> {
    match ValueOf(c, cache, SpeedState)
    case None => None
    case Some(v) => Some(Clamp(Round(v), 0, 100))
  }

  function VentModeOf(c: Control, cache: Cache): Option<int> {
    match ValueOf(c, cache, ModeState)
    case None => None
    case Some(v) => Some(Trunc(v))
  }

  /** `_resolveRangeValue`: Alexa-space value of whatever the control reports.
      Ventilation and ValueSelector return before the axis flag is applied. */
  function ResolveRangeValue(e: Endpoint, c: Control, cache: Cache): Option<real> {
    var raw :=
      if c.kind == Slider then ValueOf(c, cache, ValueState)
      else if c.kind in BLIND_TYPES then
        match ValueOf(c, cache, PositionState)
        case None => None
        case Some(v) => Some(Clamp(Round(v * 100.0), 0, 100) as real)
      else if c.kind == Ventilation then
        match VentSpeedOf(c, cache)
        case None => None
        case Some(s) => Some(s as real)
      else if c.kind == ValueSelector then ValueOf(c, cache, ValueState)
      else None;
    if raw.None? || c.kind == Ventilation || c.kind == ValueSelector then raw
    else if e.rangeAxisInverted then Some(MirrorInRange(raw.value, RangeBoundsFor(c)))
    else raw
  }

  // ----- Writing -------------------------------------------------------------

  function BoundsAtDirective(c: Control, cache: Cache): Bounds {
    if c.kind == ValueSelector then ValueSelectorBounds(c, cache) else RangeBoundsFor(c)
  }

  /** The requested value, clamped: absolute, or relative to the cached one (open
      for blinds, the minimum for everything else when nothing is cached). */
  function ClampedRequest(e: Endpoint, c: Control, cache: Cache, request: RangeRequest): real {
    var b := BoundsAtDirective(c, cache);
    match request
    case SetTo(v) => ClampReal(v, b.min, b.max)
    case AdjustBy(d) =>
      var current := ResolveRangeValue(e, c, cache);
      var base := if current.Some? then current.value else if c.kind in BLIND_TYPES then b.max else b.min;
      ClampReal(base + d, b.min, b.max)
  }

  /** The nearest point of the step grid anchored at the minimum. */
  function GridPoint(target: real, b: Bounds): real
    requires b.step > 0.0
  {
    b.min + Round((target - b.min) / b.step) as real * b.step
  }

  /** Snap to the step grid anchored at the minimum, then clamp again. */
  function Snap(target: real, b: Bounds): real
    requires b.step > 0.0
  {
    ClampReal(GridPoint(target, b), b.min, b.max)
  }

  function Quantised(c: Control, cache: Cache, target: real): real {
    if c.kind == Slider then target
    else if c.kind == ValueSelector then Snap(target, ValueSelectorBounds(c, cache))
    else Round(target) as real
  }

  function GateVerb(target: real): RangeCommand {
    if target <= 0.0 then CloseGate else if target >= 100.0 then OpenGate else PartiallyOpenGate
  }

  function WireCommand(c: Control, cache: Cache, hours: real, loxoneTarget: real): Option<RangeCommand> {
    match c.kind
    case Jalousie => Some(ManualPosition(loxoneTarget))
    case Window => Some(MoveToPosition(loxoneTarget))
    case Gate => Some(GateVerb(loxoneTarget))
    case Slider => Some(RawValue(loxoneTarget))
    case ValueSelector => Some(RawValue(loxoneTarget))
    case Ventilation =>
      var seconds := Round(hours * 3600.0);
      var mode := VentModeOf(c, cache);
      Some(SetTimer(if seconds < 1 then 1 else seconds, Clamp(Round(loxoneTarget), 0, 100),
                    if mode.Some? then mode.value else 0))
    case _ => None
  }

  function SetRange(e: Endpoint, c: Control, cache: Cache, hours: real, request: RangeRequest): RangeOutcome {
    if request.AdjustBy? && c.kind == ValueSelector && c.increaseOnly && request.delta < 0.0
      then Refused(InvalidValue)
    else Send(e, c, cache, hours, Quantised(c, cache, ClampedRequest(e, c, cache, request)))
  }

  /** Apply the axis flag to the quantised target and pick the wire verb. */
  function Send(e: Endpoint, c: Control, cache: Cache, hours: real, target: real): RangeOutcome {
    var loxone := if e.rangeAxisInverted then MirrorInRange(target, BoundsAtDirective(c, cache)) else target;
    match WireCommand(c, cache, hours, loxone)
    case None => Refused(InvalidDirective)
    case Some(command) => Commanded(command, target)
  }

  /** `_handleSetRangeValue`, with the target reassigned step by step. */
  method HandleSetRangeValue(e: Endpoint, c: Control, cache: Cache, hours: real, request: RangeRequest)
    returns (outcome: RangeOutcome)
    ensures outcome == SetRange(e, c, cache, hours, request)
  {
    var bounds := if c.kind == ValueSelector then ValueSelectorBounds(c, cache) else RangeBoundsFor(c);
    var target: real;
    match request {
      case AdjustBy(delta) =>
        if c.kind == ValueSelector && c.increaseOnly && delta < 0.0 {
          return Refused(InvalidValue);
        }
        var fallback := if c.kind in BLIND_TYPES then bounds.max else bounds.min;
        var current := ResolveRangeValue(e, c, cache);
        target := ClampReal((if current.Some? then current.value else fallback) + delta, bounds.min, bounds.max);
      case SetTo(value) =>
        target := ClampReal(value, bounds.min, bounds.max);
    }
    assert target == ClampedRequest(e, c, cache, request);
    if c.kind == Slider {
    } else if c.kind == ValueSelector {
      target := GridPoint(target, bounds);
      target := ClampReal(target, bounds.min, bounds.max);
    } else {
      target := Round(target) as real;
    }
    assert target == Quantised(c, cache, ClampedRequest(e, c, cache, request));
    var loxoneTarget := target;
    if e.rangeAxisInverted {
      loxoneTarget := MirrorInRange(target, bounds);
    }
    var command := WireCommand(c, cache, hours, loxoneTarget);
    if command.None? {
      return Refused(InvalidDirective);
    }
    return Commanded(command.value, target);
  }

  // ----- Snapping --------------------------------------------------------------

  lemma StepError(t: real, b: Bounds)
    requires b.step > 0.0
    ensures var g := GridPoint(t, b);
      t - b.step / 2.0 <= g <= t + b.step / 2.0
  {
    var q := (t - b.min) / b.step;
    assert q * b.step == t - b.min;
    GridError(q, Round(q) as real, b.step, Round(q) as real * b.step);
  }

  lemma GridError(q: real, k: real, s: real, g: real)
    requires s > 0.0 && k - 0.5 <= q <= k + 0.5 && g == k * s
    ensures q * s - s / 2.0 <= g <= q * s + s / 2.0
  {
    HalfStep(q - k, s, q * s - g);
    HalfStep(k - q, s, g - q * s);
  }

  lemma HalfStep(d: real, s: real, m: real)
    requires d <= 0.5 && s > 0.0 && m == d * s
    ensures m <= s / 2.0
  {
    MulMono(d, 0.5, s);
  }

  /** A snapped value is within the bounds and within half a step of the target. */
  lemma SnapNear(t: real, b: Bounds)
    requires b.min <= t <= b.max && b.step > 0.0
    ensures b.min <= Snap(t, b) <= b.max
    ensures Abs(Snap(t, b) - t) <= b.step / 2.0
  {
    StepError(t, b);
  }

  lemma GridMonotone(t1: real, t2: real, b: Bounds)
    requires t1 <= t2 && b.step > 0.0
    ensures GridPoint(t1, b) <= GridPoint(t2, b)
  {
    var q1, q2 := (t1 - b.min) / b.step, (t2 - b.min) / b.step;
    DivMono(t1 - b.min, t2 - b.min, b.step);
    RoundMonotone(q1, q2);
    MulMono(Round(q1) as real, Round(q2) as real, b.step);
  }

  lemma SnapMonotone(t1: real, t2: real, b: Bounds)
    requires t1 <= t2 && b.min <= b.max && b.step > 0.0
    ensures Snap(t1, b) <= Snap(t2, b)
  {
    GridMonotone(t1, t2, b);
  }

  lemma GridIndexExact(k: int, s: real, d: real)
    requires s > 0.0 && d == k as real * s
    ensures d / s == k as real
  {
  }

  /** A grid point snaps to itself. */
  lemma GridPointFixed(t: real, b: Bounds)
    requires b.step > 0.0
    ensures GridPoint(GridPoint(t, b), b) == GridPoint(t, b)
  {
    var k := Round((t - b.min) / b.step);
    var m := k as real * b.step;
    GridIndexExact(k, b.step, m);
    assert GridPoint(t, b) - b.min == m;
    RoundUnique(k as real, k);
  }

  /** Snapping what was sent changes nothing, even when the last step is cut
      short by the maximum. */
  lemma SnapFixedPoint(t: real, b: Bounds)
    requires b.min <= t <= b.max && b.step > 0.0
    ensures Snap(Snap(t, b), b) == Snap(t, b)
  {
    var g := GridPoint(t, b);
    GridPointFixed(t, b);
    GridMonotone(b.min, t, b);
    MinimumIsOnGrid(b);
    if g > b.max {
      GridMonotone(t, b.max, b);
    }
  }

  lemma MinimumIsOnGrid(b: Bounds)
    requires b.step > 0.0
    ensures GridPoint(b.min, b) == b.min
  {
    assert (b.min - b.min) / b.step == 0.0;
    RoundUnique(0.0, 0);
  }

  lemma ClampedInBounds(e: Endpoint, c: Control, cache: Cache, request: RangeRequest)
    requires var b := BoundsAtDirective(c, cache); b.min <= b.max
    ensures var b := BoundsAtDirective(c, cache); b.min <= ClampedRequest(e, c, cache, request) <= b.max
  {
  }

  /** What the handler sends to a ValueSelector: in the live bounds, within half a
      step of the clamped request, and a fixed point of snapping. */
  lemma SentValueIsItsOwnSnap(e: Endpoint, c: Control, cache: Cache, hours: real, request: RangeRequest)
    requires c.kind == ValueSelector && SetRange(e, c, cache, hours, request).Commanded?
    requires var b := ValueSelectorBounds(c, cache); b.min <= b.max
    ensures var b := ValueSelectorBounds(c, cache);
      var echoed := SetRange(e, c, cache, hours, request).echoed;
      && b.min <= echoed <= b.max
      && Abs(echoed - ClampedRequest(e, c, cache, request)) <= b.step / 2.0
      && Snap(echoed, b) == echoed
  {
    var b := ValueSelectorBounds(c, cache);
    var t := ClampedRequest(e, c, cache, request);
    ClampedInBounds(e, c, cache, request);
    SnapNear(t, b);
    SnapFixedPoint(t, b);
  }

  /** A larger request of the same kind never sends a smaller value. */
  lemma SentValueMonotone(e: Endpoint, c: Control, cache: Cache, hours: real, r1: RangeRequest, r2: RangeRequest)
    requires c.kind == ValueSelector && var b := ValueSelectorBounds(c, cache); b.min <= b.max
    requires SetRange(e, c, cache, hours, r1).Commanded? && SetRange(e, c, cache, hours, r2).Commanded?
    requires (r1.SetTo? && r2.SetTo? && r1.value <= r2.value) || (r1.AdjustBy? && r2.AdjustBy? && r1.delta <= r2.delta)
    ensures SetRange(e, c, cache, hours, r1).echoed <= SetRange(e, c, cache, hours, r2).echoed
  {
    var b := ValueSelectorBounds(c, cache);
    ClampMonotone(e, c, cache, r1, r2);
    SnapMonotone(ClampedRequest(e, c, cache, r1), ClampedRequest(e, c, cache, r2), b);
  }

  lemma ClampMonotone(e: Endpoint, c: Control, cache: Cache, r1: RangeRequest, r2: RangeRequest)
    requires var b := BoundsAtDirective(c, cache); b.min <= b.max
    requires (r1.SetTo? && r2.SetTo? && r1.value <= r2.value) || (r1.AdjustBy? && r2.AdjustBy? && r1.delta <= r2.delta)
    ensures ClampedRequest(e, c, cache, r1) <= ClampedRequest(e, c, cache, r2)
  {
  }

  function AdjustOutcome(e: Endpoint, c: Control, cache: Cache, hours: real, delta: real): RangeOutcome {
    SetRange(e, c, cache, hours, AdjustBy(delta))
  }

  /** A ValueSelector gets the snapped request, unless it is a decrease of an
      increase-only control. */
  lemma SelectorSends(e: Endpoint, c: Control, cache: Cache, hours: real, request: RangeRequest)
    requires c.kind == ValueSelector
    ensures var refused := request.AdjustBy? && c.increaseOnly && request.delta < 0.0;
      && (SetRange(e, c, cache, hours, request).Commanded? <==> !refused)
      && (!refused ==> SetRange(e, c, cache, hours, request).echoed
                         == Snap(ClampedRequest(e, c, cache, request), ValueSelectorBounds(c, cache)))
  {
  }

  lemma AdjustTarget(e: Endpoint, c: Control, cache: Cache, delta: real)
    requires c.kind == ValueSelector && ValueOf(c, cache, ValueState).Some?
    ensures var b := ValueSelectorBounds(c, cache);
      ClampedRequest(e, c, cache, AdjustBy(delta)) == ClampReal(ValueOf(c, cache, ValueState).value + delta, b.min, b.max)
  {
  }

  lemma AdjustIsSnap(e: Endpoint, c: Control, cache: Cache, hours: real, delta: real)
    requires c.kind == ValueSelector && c.increaseOnly && ValueOf(c, cache, ValueState).Some?
    ensures AdjustOutcome(e, c, cache, hours, delta).Commanded? <==> delta >= 0.0
    ensures delta >= 0.0 ==>
      var b := ValueSelectorBounds(c, cache);
      AdjustOutcome(e, c, cache, hours, delta).echoed
        == Snap(ClampReal(ValueOf(c, cache, ValueState).value + delta, b.min, b.max), b)
  {
    SelectorSends(e, c, cache, hours, AdjustBy(delta));
    AdjustTarget(e, c, cache, delta);
  }

  /** Adding something never ends below standing still. */
  lemma AdjustedSnapRises(current: real, d: real, b: Bounds)
    requires b.min <= current <= b.max && b.step > 0.0 && d >= 0.0
    ensures Snap(ClampReal(current + d, b.min, b.max), b) >= Snap(current, b)
  {
    SnapMonotone(current, ClampReal(current + d, b.min, b.max), b);
  }

  lemma StandingStill(e: Endpoint, c: Control, cache: Cache, hours: real)
    requires c.kind == ValueSelector && c.increaseOnly && ValueOf(c, cache, ValueState).Some?
    requires var b := ValueSelectorBounds(c, cache); b.min <= ValueOf(c, cache, ValueState).value <= b.max
    ensures AdjustOutcome(e, c, cache, hours, 0.0).Commanded?
    ensures AdjustOutcome(e, c, cache, hours, 0.0).echoed
         == Snap(ValueOf(c, cache, ValueState).value, ValueSelectorBounds(c, cache))
  {
    AdjustIsSnap(e, c, cache, hours, 0.0);
  }

  /** On an increase-only control with a value inside its live bounds, no accepted
      adjustment lowers the value if and only if the value is not above its own
      snap, which covers every value the handler ever sent. */
  lemma IncreaseOnlyNeverLowersIff(e: Endpoint, c: Control, cache: Cache, hours: real)
    requires c.kind == ValueSelector && c.increaseOnly && ValueOf(c, cache, ValueState).Some?
    requires var b := ValueSelectorBounds(c, cache); b.min <= ValueOf(c, cache, ValueState).value <= b.max
    ensures var current := ValueOf(c, cache, ValueState).value;
      (forall d: real :: AdjustOutcome(e, c, cache, hours, d).Commanded? ==>
         AdjustOutcome(e, c, cache, hours, d).echoed >= current)
      <==> Snap(current, ValueSelectorBounds(c, cache)) >= current
  {
    var b := ValueSelectorBounds(c, cache);
    var current := ValueOf(c, cache, ValueState).value;
    StandingStill(e, c, cache, hours);
    forall d: real | AdjustOutcome(e, c, cache, hours, d).Commanded?
      ensures AdjustOutcome(e, c, cache, hours, d).echoed >= Snap(current, b)
    {
      AdjustIsSnap(e, c, cache, hours, d);
      AdjustedSnapRises(current, d, b);
    }
  }

  // ----- Write, settle, read back -------------------------------------------------

  /** The state the Miniserver reports once the control rests where it was sent;
      a partially open gate may stop anywhere. */
  function SettledState(command: RangeCommand): Option<(StateName, real)> {
    match command
    case ManualPosition(p) => Some((PositionState, p / 100.0))
    case MoveToPosition(p) => Some((PositionState, p / 100.0))
    case OpenGate => Some((PositionState, 1.0))
    case CloseGate => Some((PositionState, 0.0))
    case PartiallyOpenGate => None
    case RawValue(v) => Some((ValueState, v))
    case SetTimer(_, speed, _) => Some((SpeedState, speed as real))
  }

  predicate Reports(c: Control, cache: Cache, state: (StateName, real)) {
    ValueOf(c, cache, state.0) == Some(state.1)
  }

  /** What the handler echoed to Alexa is what ReportState answers once the
      control settled (`later` is any cache in which it did), for every request
      and either axis, on blinds, windows, sliders and a gate sent to an end.
      ValueSelector and Ventilation mirror the axis when writing but not when
      reading, so for them it holds exactly when the flag is off or the clamped
      and snapped request is the middle of the range. */
  lemma WriteSettleRead(e: Endpoint, c: Control, cache: Cache, later: Cache, hours: real, request: RangeRequest)
    requires SetRange(e, c, cache, hours, request).Commanded?
    requires var settled := SettledState(SetRange(e, c, cache, hours, request).command);
      settled.Some? && Reports(c, later, settled.value)
    ensures var echoed := SetRange(e, c, cache, hours, request).echoed;
      ResolveRangeValue(e, c, later) == Some(echoed) <==>
        (c.kind in {ValueSelector, Ventilation} && e.rangeAxisInverted ==>
           var b := BoundsAtDirective(c, cache);
           Quantised(c, cache, ClampedRequest(e, c, cache, request)) == (b.min + b.max) / 2.0)
  {
    var target := Quantised(c, cache, ClampedRequest(e, c, cache, request));
    if c.kind != Slider && c.kind != ValueSelector {
      WholePercent(ClampedRequest(e, c, cache, request));
    }
    SendSettles(e, c, cache, later, hours, target);
  }

  lemma InvertedSelectorSends(e: Endpoint, c: Control, cache: Cache, hours: real, v: real)
    requires c.kind == ValueSelector && e.rangeAxisInverted
    requires var b := ValueSelectorBounds(c, cache); b.min <= v <= b.max && Snap(v, b) == v
    ensures var b := ValueSelectorBounds(c, cache);
      SetRange(e, c, cache, hours, SetTo(v)) == Commanded(RawValue(MirrorInRange(v, b)), v)
  {
    assert ClampedRequest(e, c, cache, SetTo(v)) == v;
    assert Quantised(c, cache, v) == v;
  }

  lemma SelectorReads(e: Endpoint, c: Control, cache: Cache)
    requires c.kind == ValueSelector
    ensures ResolveRangeValue(e, c, cache) == ValueOf(c, cache, ValueState)
  {
  }

  lemma ThirtyIsOnTheGrid()
    ensures Snap(30.0, BLIND_BOUNDS) == 30.0
  {
    RoundUnique(30.0, 30);
    assert (30.0 - 0.0) / 1.0 == 30.0;
    assert GridPoint(30.0, BLIND_BOUNDS) == 30.0;
  }

  /** A ValueSelector whose row inverts the axis, asked for 30: 70 is sent, and 70
      is read back although 30 was echoed. */
  lemma InvertedSelectorReadsBackMirrored(hours: real)
    ensures var c := Control(ValueSelector, [(ValueState, "u")], Celsius, BLIND_BOUNDS, false);
      var e := Endpoint("d", [OtherCategory], {RangeController}, true, false);
      && SetRange(e, c, Cache(map[], map[]), hours, SetTo(30.0)) == Commanded(RawValue(70.0), 30.0)
      && ResolveRangeValue(e, c, Cache(map["u" := 70.0], map[])) == Some(70.0)
  {
    var c := Control(ValueSelector, [(ValueState, "u")], Celsius, BLIND_BOUNDS, false);
    var e := Endpoint("d", [OtherCategory], {RangeController}, true, false);
    assert ValueSelectorBounds(c, Cache(map[], map[])) == BLIND_BOUNDS;
    ThirtyIsOnTheGrid();
    InvertedSelectorSends(e, c, Cache(map[], map[]), hours, 30.0);
    SelectorReads(e, c, Cache(map["u" := 70.0], map[]));
  }

  lemma WholePercent(request: real)
    requires 0.0 <= request <= 100.0
    ensures 0 <= Round(request) <= 100
    ensures Round(Round(request) as real) == Round(request)
  {
    RoundBetween(request, 0, 100);
    RoundUnique(Round(request) as real, Round(request));
  }

  ghost predicate SettledIn(e: Endpoint, c: Control, cache: Cache, later: Cache, hours: real, target: real) {
    var outcome := Send(e, c, cache, hours, target);
    && outcome.Commanded?
    && SettledState(outcome.command).Some?
    && Reports(c, later, SettledState(outcome.command).value)
  }

  lemma SendSettles(e: Endpoint, c: Control, cache: Cache, later: Cache, hours: real, target: real)
    requires c.kind != Slider && c.kind != ValueSelector ==>
      0.0 <= target <= 100.0 && target == Round(target) as real
    requires SettledIn(e, c, cache, later, hours, target)
    ensures ResolveRangeValue(e, c, later) == Some(target) <==>
        (c.kind in {ValueSelector, Ventilation} ==>
           !e.rangeAxisInverted || MirrorInRange(target, BoundsAtDirective(c, cache)) == target)
  {
    if c.kind in BLIND_TYPES {
      BlindSend(e, c, cache, later, hours, target);
      BlindSettles(e, c, later, target);
    } else if c.kind == Ventilation {
      VentSend(e, c, cache, later, hours, target);
      VentSettles(e, c, later, target);
    } else {
      RawSend(e, c, cache, later, hours, target);
    }
  }

  lemma BlindSend(e: Endpoint, c: Control, cache: Cache, later: Cache, hours: real, target: real)
    requires c.kind in BLIND_TYPES && 0.0 <= target <= 100.0
    requires SettledIn(e, c, cache, later, hours, target)
    ensures ValueOf(c, later, PositionState)
      == Some((if e.rangeAxisInverted then 100.0 - target else target) / 100.0)
  {
  }

  lemma VentCommand(e: Endpoint, c: Control, cache: Cache, hours: real, target: real)
    requires c.kind == Ventilation
    ensures var speed := Clamp(Round(if e.rangeAxisInverted then 100.0 - target else target), 0, 100);
      var outcome := Send(e, c, cache, hours, target);
      outcome.Commanded? && SettledState(outcome.command) == Some((SpeedState, speed as real))
  {
  }

  lemma VentSend(e: Endpoint, c: Control, cache: Cache, later: Cache, hours: real, target: real)
    requires c.kind == Ventilation
    requires SettledIn(e, c, cache, later, hours, target)
    ensures ValueOf(c, later, SpeedState)
      == Some(Clamp(Round(if e.rangeAxisInverted then 100.0 - target else target), 0, 100) as real)
  {
    VentCommand(e, c, cache, hours, target);
  }

  lemma RawCommand(e: Endpoint, c: Control, cache: Cache, hours: real, target: real)
    requires c.kind == Slider || c.kind == ValueSelector
    ensures var raw := if e.rangeAxisInverted then MirrorInRange(target, BoundsAtDirective(c, cache)) else target;
      Send(e, c, cache, hours, target) == Commanded(RawValue(raw), target)
  {
  }

  lemma RawSend(e: Endpoint, c: Control, cache: Cache, later: Cache, hours: real, target: real)
    requires c.kind == Slider || c.kind == ValueSelector
    requires SettledIn(e, c, cache, later, hours, target)
    ensures ValueOf(c, later, ValueState)
      == Some(if e.rangeAxisInverted then MirrorInRange(target, BoundsAtDirective(c, cache)) else target)
  {
    RawCommand(e, c, cache, hours, target);
  }

  lemma VentSettles(e: Endpoint, c: Control, later: Cache, echoed: real)
    requires c.kind == Ventilation
    requires 0.0 <= echoed <= 100.0 && echoed == Round(echoed) as real
    requires ValueOf(c, later, SpeedState)
      == Some(Clamp(Round(if e.rangeAxisInverted then 100.0 - echoed else echoed), 0, 100) as real)
    ensures ResolveRangeValue(e, c, later) == Some(if e.rangeAxisInverted then 100.0 - echoed else echoed)
  {
    var n := Round(echoed);
    var m := if e.rangeAxisInverted then 100 - n else n;
    RoundUnique(m as real, m);
  }

  lemma BlindSettles(e: Endpoint, c: Control, later: Cache, echoed: real)
    requires c.kind in BLIND_TYPES
    requires 0.0 <= echoed <= 100.0 && echoed == Round(echoed) as real
    requires ValueOf(c, later, PositionState)
      == Some((if e.rangeAxisInverted then 100.0 - echoed else echoed) / 100.0)
    ensures ResolveRangeValue(e, c, later) == Some(echoed)
  {
    var n := Round(echoed);
    var m := if e.rangeAxisInverted then 100 - n else n;
    assert ValueOf(c, later, PositionState).value * 100.0 == m as real;
    RoundUnique(m as real, m);
  }
}
