/** Proactive-report rate control: duplicate suppression and the deferring
    minimum interval, as a state machine over cache events and timer firings
    with one monotone clock in milliseconds. */
module RateControl {
  import opened AlexaModel
  import opened JsNumbers

  datatype ReportKey = ReportKey(endpoint: string, prop: PropKey)

  datatype Sent = Sent(value: Value, at: int)

  datatype Held = Held(device: Uuid, property: Property, due: int)

  /** `_lastSent` and `_pending`. */
  datatype Limiter = Limiter(lastSent: map<ReportKey, Sent>, pending: map<ReportKey, Held>)

  datatype Verdict = Duplicate | Deferred | Ready

  function KeyOf(device: Uuid, p: Property): ReportKey {
    ReportKey(EndpointIdFor(device), p.key)
  }

  /** THROTTLED_PROPERTIES, looked up by namespace and name. */
  predicate Throttled(key: PropKey) {
    || (key.iface == TemperatureSensor && key.name == Temperature)
    || (key.iface == HumiditySensor && key.name == RelativeHumidity)
  }

  /** Temperatures are reported in tenths of a degree, nothing else changes. */
  function Quantise(p: Property): Property {
    if p.key.iface == TemperatureSensor && p.key.name == Temperature && p.value.Reading? then
      p.(value := Reading(Round(p.value.number * 10.0) as real / 10.0, p.value.scale))
    else p
  }

  function Judge(g: Limiter, key: ReportKey, p: Property, now: int, interval: nat): Verdict {
    if key in g.lastSent && g.lastSent[key].value == p.value then Duplicate
    else if interval > 0 && Throttled(p.key) && key in g.lastSent && now - g.lastSent[key].at < interval
      then Deferred
    else Ready
  }

  /** The limiter after one quantised property: a duplicate changes nothing, not
      even a held value; a deferral keeps the deadline of a value already held;
      a report sent now cancels what was held. */
  function Admit(g: Limiter, device: Uuid, p: Property, now: int, interval: nat): Limiter {
    var key := KeyOf(device, p);
    match Judge(g, key, p, now, interval)
    case Duplicate => g
    case Deferred =>
      var due := if key in g.pending then g.pending[key].due
                 else now + Later(g.lastSent[key].at + interval - now);
      g.(pending := g.pending[key := Held(device, p, due)])
    case Ready => Limiter(g.lastSent[key := Sent(p.value, now)], g.pending - {key})
  }

  /** The delay handed to setTimeout is never negative. */
  function Later(delay: int): nat {
    if delay < 0 then 0 else delay
  }

  /** One event carries several properties; those judged Ready are sent together. */
  function AdmitAll(g: Limiter, device: Uuid, ps: seq<Property>, now: int, interval: nat)
    : (r: (Limiter, seq<Property>))
  {
    if ps == [] then (g, [])
    else
      var (h, ready) := AdmitAll(g, device, ps[..|ps| - 1], now, interval);
      var p := ps[|ps| - 1];
      (Admit(h, device, p, now, interval),
       if Judge(h, KeyOf(device, p), p, now, interval) == Ready then ready + [p] else ready)
  }

  // ----- Runs ---------------------------------------------------------------

  /** A value handed to `_dispatch`. */
  datatype Handover = Handover(key: ReportKey, value: Value, at: int)

  datatype World = World(limiter: Limiter, clock: int, enabled: set<Uuid>, log: seq<Handover>)

  datatype Event =
    | Observe(device: Uuid, property: Property, now: int)
    | Fire(key: ReportKey, now: int)
    | Reconfigure(enabled: set<Uuid>)

  /** The clock never runs backwards and a timer never fires early. */
  predicate Possible(w: World, e: Event) {
    match e
    case Observe(_, _, now) => w.clock <= now
    case Fire(key, now) => w.clock <= now && key in w.limiter.pending && w.limiter.pending[key].due <= now
    case Reconfigure(_) => true
  }

  /** `_onCacheChangeInner` ignores a disabled device; `_flush` forgets the held
      value before it looks at the device, and then sends only if it is enabled. */
  function Step(w: World, e: Event, interval: nat): World
    requires Possible(w, e)
  {
    match e
    case Observe(device, p, now) =>
      var key := KeyOf(device, p);
      if device !in w.enabled then w.(clock := now)
      else if Judge(w.limiter, key, p, now, interval) == Ready then
        w.(limiter := Admit(w.limiter, device, p, now, interval), clock := now,
           log := w.log + [Handover(key, p.value, now)])
      else w.(limiter := Admit(w.limiter, device, p, now, interval), clock := now)
    case Fire(key, now) => FlushWorld(w, key, now)
    case Reconfigure(enabled) => w.(enabled := enabled)
  }

  function FlushLimiter(g: Limiter, key: ReportKey, enabled: set<Uuid>, now: int): Limiter {
    if key !in g.pending then g
    else if g.pending[key].device !in enabled then g.(pending := g.pending - {key})
    else Limiter(g.lastSent[key := Sent(g.pending[key].property.value, now)], g.pending - {key})
  }

  function FlushWorld(w: World, key: ReportKey, now: int): World
    requires key in w.limiter.pending
  {
    var held := w.limiter.pending[key];
    w.(limiter := FlushLimiter(w.limiter, key, w.enabled, now), clock := now,
       log := if held.device in w.enabled then w.log + [Handover(key, held.property.value, now)] else w.log)
  }

  predicate ValidRun(w: World, es: seq<Event>, interval: nat)
    decreases |es|
  {
    es == [] || (Possible(w, es[0]) && ValidRun(Step(w, es[0], interval), es[1..], interval))
  }

  function Run(w: World, es: seq<Event>, interval: nat): World
    requires ValidRun(w, es, interval)
    decreases |es|
  {
    if es == [] then w else Run(Step(w, es[0], interval), es[1..], interval)
  }

  const FRESH: Limiter := Limiter(map[], map[])

  function Start(clock: int, enabled: set<Uuid>): World {
    World(FRESH, clock, enabled, [])
  }

  /** What Alexa was told about one key, oldest first. */
  function Reports(log: seq<Handover>, key: ReportKey): seq<Sent> {
    if log == [] then []
    else
      var h := log[|log| - 1];
      Reports(log[..|log| - 1], key) + (if h.key == key then [Sent(h.value, h.at)] else [])
  }

  // ----- Floor and no repeats -----------------------------------------------

  /** Two successive reports never carry the same value, never go back in time,
      and on a throttled property are at least the interval apart. */
  ghost predicate Spaced(rs: seq<Sent>, key: ReportKey, interval: nat) {
    forall i :: 0 <= i < |rs| - 1 ==>
      && rs[i].value != rs[i + 1].value
      && rs[i].at <= rs[i + 1].at
      && (Throttled(key.prop) ==> rs[i].at + interval <= rs[i + 1].at)
  }

  ghost predicate KeyInv(w: World, key: ReportKey, interval: nat) {
    var rs := Reports(w.log, key);
    && Spaced(rs, key, interval)
    && (key in w.limiter.lastSent <==> rs != [])
    && (rs != [] ==> w.limiter.lastSent[key] == rs[|rs| - 1] && rs[|rs| - 1].at <= w.clock)
    && (key in w.limiter.pending ==>
        && key in w.limiter.lastSent
        && Throttled(key.prop)
        && w.limiter.pending[key].property.value != w.limiter.lastSent[key].value
        && w.limiter.pending[key].due == w.limiter.lastSent[key].at + interval
        && KeyOf(w.limiter.pending[key].device, w.limiter.pending[key].property) == key)
  }

  lemma ReportsAppend(log: seq<Handover>, h: Handover, key: ReportKey)
    ensures Reports(log + [h], key) == Reports(log, key) + (if h.key == key then [Sent(h.value, h.at)] else [])
  {
    assert (log + [h])[..|log|] == log;
  }

  /** One more report keeps the spacing when it differs from the last one and
      respects the floor. */
  lemma SpacedExtends(rs: seq<Sent>, s: Sent, key: ReportKey, interval: nat)
    requires Spaced(rs, key, interval)
    requires rs != [] ==>
      var last := rs[|rs| - 1];
      last.value != s.value && last.at <= s.at && (Throttled(key.prop) ==> last.at + interval <= s.at)
    ensures Spaced(rs + [s], key, interval)
  {
  }

  /** An observation that is not reported now changes at most what is held. */
  lemma WaitKeepsKeyInv(w: World, e: Event, key: ReportKey, interval: nat)
    requires KeyInv(w, key, interval) && Possible(w, e) && e.Observe?
    requires e.device !in w.enabled || Judge(w.limiter, KeyOf(e.device, e.property), e.property, e.now, interval) != Ready
    ensures KeyInv(Step(w, e, interval), key, interval)
  {
  }

  lemma ReportKeepsKeyInv(w: World, e: Event, key: ReportKey, interval: nat)
    requires KeyInv(w, key, interval) && Possible(w, e) && e.Observe? && e.device in w.enabled
    requires Judge(w.limiter, KeyOf(e.device, e.property), e.property, e.now, interval) == Ready
    ensures KeyInv(Step(w, e, interval), key, interval)
  {
    var h := Handover(KeyOf(e.device, e.property), e.property.value, e.now);
    ReportsAppend(w.log, h, key);
    if h.key == key {
      SpacedExtends(Reports(w.log, key), Sent(h.value, h.at), key, interval);
    }
  }

  lemma ObserveKeepsKeyInv(w: World, e: Event, key: ReportKey, interval: nat)
    requires KeyInv(w, key, interval) && Possible(w, e) && e.Observe?
    ensures KeyInv(Step(w, e, interval), key, interval)
  {
    if e.device in w.enabled && Judge(w.limiter, KeyOf(e.device, e.property), e.property, e.now, interval) == Ready {
      ReportKeepsKeyInv(w, e, key, interval);
    } else {
      WaitKeepsKeyInv(w, e, key, interval);
    }
  }

  lemma FireKeepsKeyInv(w: World, e: Event, key: ReportKey, interval: nat)
    requires KeyInv(w, key, interval) && Possible(w, e) && e.Fire?
    ensures KeyInv(Step(w, e, interval), key, interval)
  {
    var held := w.limiter.pending[e.key];
    if held.device in w.enabled {
      var h := Handover(e.key, held.property.value, e.now);
      ReportsAppend(w.log, h, key);
      if e.key == key {
        SpacedExtends(Reports(w.log, key), Sent(h.value, h.at), key, interval);
      }
    }
  }

  lemma StepKeepsKeyInv(w: World, e: Event, key: ReportKey, interval: nat)
    requires KeyInv(w, key, interval) && Possible(w, e)
    ensures KeyInv(Step(w, e, interval), key, interval)
  {
    match e
    case Observe(_, _, _) => ObserveKeepsKeyInv(w, e, key, interval);
    case Fire(_, _) => FireKeepsKeyInv(w, e, key, interval);
    case Reconfigure(_) =>
  }

  lemma {:induction false} RunKeepsKeyInv(w: World, es: seq<Event>, key: ReportKey, interval: nat)
    requires KeyInv(w, key, interval) && ValidRun(w, es, interval)
    ensures KeyInv(Run(w, es, interval), key, interval)
    decreases |es|
  {
    if es != [] {
      StepKeepsKeyInv(w, es[0], key, interval);
      RunKeepsKeyInv(Step(w, es[0], interval), es[1..], key, interval);
    }
  }

  /** In every reachable state a held value differs from the last one sent and its
      deadline is the end of that window, however often it was overwritten. */
  lemma ReachableKeyInv(clock: int, enabled: set<Uuid>, es: seq<Event>, key: ReportKey, interval: nat)
    requires ValidRun(Start(clock, enabled), es, interval)
    ensures KeyInv(Run(Start(clock, enabled), es, interval), key, interval)
  {
    assert KeyInv(Start(clock, enabled), key, interval);
    RunKeepsKeyInv(Start(clock, enabled), es, key, interval);
  }

  /** The last thing Alexa was told about a key. */
  function LastReport(w: World, key: ReportKey): Option<Sent> {
    var rs := Reports(w.log, key);
    if rs == [] then None else Some(rs[|rs| - 1])
  }

  lemma LastReportIsLastSent(w: World, key: ReportKey, interval: nat)
    requires KeyInv(w, key, interval)
    ensures LastReport(w, key) == if key in w.limiter.lastSent then Some(w.limiter.lastSent[key]) else None
  {
  }

  /** Floor and no repeats, for every run of a freshly started reporter. */
  lemma FloorAndNoRepeats(clock: int, enabled: set<Uuid>, es: seq<Event>, key: ReportKey, interval: nat)
    requires ValidRun(Start(clock, enabled), es, interval)
    ensures Spaced(Reports(Run(Start(clock, enabled), es, interval).log, key), key, interval)
  {
    ReachableKeyInv(clock, enabled, es, key, interval);
  }

  // ----- Deferral never loses the last change, and exactly when it does ------

  predicate Concerns(e: Event, key: ReportKey) {
    e.Observe? && KeyOf(e.device, e.property) == key
  }

  /** Some firing of `key` in `es` found the device of the held value disabled
      or gone, so the value was dropped instead of sent. */
  predicate DropsHeld(w: World, es: seq<Event>, key: ReportKey, interval: nat)
    requires ValidRun(w, es, interval)
    decreases |es|
  {
    if es == [] then false
    else
      || (es[0].Fire? && es[0].key == key && w.limiter.pending[key].device !in w.enabled)
      || DropsHeld(Step(w, es[0], interval), es[1..], key, interval)
  }

  /** The guard of the branch that misbehaves: the new value equals the last one
      sent while another value is still waiting for its window to close. */
  predicate ReturnsWhileHeld(g: Limiter, key: ReportKey, p: Property) {
    key in g.pending && key in g.lastSent && g.lastSent[key].value == p.value
  }

  /** With no further change of `key`, either nothing was held and nothing moves,
      or the held value waits, or it was sent, or it was dropped. */
  lemma {:induction false} QuietRun(w: World, es: seq<Event>, key: ReportKey, interval: nat)
    requires ValidRun(w, es, interval)
    requires forall e :: e in es ==> !Concerns(e, key)
    ensures var v := Run(w, es, interval);
      if key !in w.limiter.pending then
        && key !in v.limiter.pending && !DropsHeld(w, es, key, interval)
        && (key in v.limiter.lastSent <==> key in w.limiter.lastSent)
        && (key in w.limiter.lastSent ==> v.limiter.lastSent[key] == w.limiter.lastSent[key])
      else if key in v.limiter.pending then
        && v.limiter.pending[key] == w.limiter.pending[key] && !DropsHeld(w, es, key, interval)
        && (key in v.limiter.lastSent <==> key in w.limiter.lastSent)
        && (key in w.limiter.lastSent ==> v.limiter.lastSent[key] == w.limiter.lastSent[key])
      else if DropsHeld(w, es, key, interval) then
        && (key in v.limiter.lastSent <==> key in w.limiter.lastSent)
        && (key in w.limiter.lastSent ==> v.limiter.lastSent[key] == w.limiter.lastSent[key])
      else
        key in v.limiter.lastSent && v.limiter.lastSent[key].value == w.limiter.pending[key].property.value
    decreases |es|
  {
    if es != [] {
      assert !Concerns(es[0], key);
      forall e | e in es[1..] ensures !Concerns(e, key) { assert e in es; }
      QuietRun(Step(w, es[0], interval), es[1..], key, interval);
    }
  }

  /** What Alexa ends up holding for `key` once nothing of it is held any more. */
  lemma SettledValue(w: World, es: seq<Event>, key: ReportKey, interval: nat)
    requires ValidRun(w, es, interval) && key in w.limiter.lastSent
    requires forall e :: e in es ==> !Concerns(e, key)
    requires key !in Run(w, es, interval).limiter.pending
    ensures var sent := Run(w, es, interval).limiter.lastSent;
      && key in sent
      && sent[key].value ==
           if key in w.limiter.pending && !DropsHeld(w, es, key, interval)
           then w.limiter.pending[key].property.value else w.limiter.lastSent[key].value
  {
    QuietRun(w, es, key, interval);
  }

  /** The three verdicts, from a state that satisfies the invariant. */
  lemma AfterObserve(w: World, device: Uuid, p: Property, now: int, interval: nat)
    requires KeyInv(w, KeyOf(device, p), interval) && device in w.enabled && w.clock <= now
    ensures var key := KeyOf(device, p);
      var v := Step(w, Observe(device, p, now), interval).limiter;
      && key in v.lastSent
      && match Judge(w.limiter, key, p, now, interval)
         case Ready => v.lastSent[key].value == p.value && key !in v.pending
         case Deferred => key in v.pending && v.pending[key].property == p && v.lastSent[key].value != p.value
         case Duplicate => v == w.limiter && v.lastSent[key].value == p.value
                           && (key in v.pending ==> v.pending[key].property.value != p.value)
  {
  }

  /** In every run: take any change `p` of a key on an enabled device, let
      anything happen except a further change of that key, and let the window
      close. The value Alexa then holds for the key is the newest one if and
      only if the change did not return to the last-sent value while another
      value was held, and a deferred value was not dropped because its device
      had been disabled when its timer fired. */
  lemma NewestValueArrivesIff(
      clock: int, enabled: set<Uuid>, before: seq<Event>,
      device: Uuid, p: Property, now: int, after: seq<Event>, interval: nat)
    requires ValidRun(Start(clock, enabled), before, interval)
    requires var w := Run(Start(clock, enabled), before, interval);
      && device in w.enabled && Possible(w, Observe(device, p, now))
      && ValidRun(Step(w, Observe(device, p, now), interval), after, interval)
    requires forall e :: e in after ==> !Concerns(e, KeyOf(device, p))
    requires var w := Run(Start(clock, enabled), before, interval);
      KeyOf(device, p) !in Run(Step(w, Observe(device, p, now), interval), after, interval).limiter.pending
    ensures var w := Run(Start(clock, enabled), before, interval);
      var v := Step(w, Observe(device, p, now), interval);
      var final := Run(v, after, interval);
      var key := KeyOf(device, p);
      var dropped := DropsHeld(v, after, key, interval);
      && LastReport(final, key).Some?
      && (LastReport(final, key).value.value == p.value <==>
            && (ReturnsWhileHeld(w.limiter, key, p) ==> dropped)
            && (Judge(w.limiter, key, p, now, interval) == Deferred ==> !dropped))
  {
    var key := KeyOf(device, p);
    ReachableKeyInv(clock, enabled, before, key, interval);
    var w := Run(Start(clock, enabled), before, interval);
    var e := Observe(device, p, now);
    AfterObserve(w, device, p, now, interval);
    ObserveKeepsKeyInv(w, e, key, interval);
    var v := Step(w, e, interval);
    RunKeepsKeyInv(v, after, key, interval);
    SettledValue(v, after, key, interval);
    LastReportIsLastSent(Run(v, after, interval), key, interval);
  }

  /** As long as no device is reconfigured: the newest value arrives exactly when
      the change did not return to the last-sent value while another was held. */
  lemma NewestValueArrivesWhileEnabled(
      clock: int, enabled: set<Uuid>, before: seq<Event>,
      device: Uuid, p: Property, now: int, after: seq<Event>, interval: nat)
    requires forall e :: e in before || e in after ==> !e.Reconfigure?
    requires device in enabled && ValidRun(Start(clock, enabled), before, interval)
    requires var w := Run(Start(clock, enabled), before, interval);
      && w.clock <= now
      && ValidRun(Step(w, Observe(device, p, now), interval), after, interval)
    requires forall e :: e in after ==> !Concerns(e, KeyOf(device, p))
    requires var w := Run(Start(clock, enabled), before, interval);
      KeyOf(device, p) !in Run(Step(w, Observe(device, p, now), interval), after, interval).limiter.pending
    ensures var w := Run(Start(clock, enabled), before, interval);
      var final := Run(Step(w, Observe(device, p, now), interval), after, interval);
      var key := KeyOf(device, p);
      && LastReport(final, key).Some?
      && (LastReport(final, key).value.value == p.value <==> !ReturnsWhileHeld(w.limiter, key, p))
  {
    var key := KeyOf(device, p);
    StaysEnabled(Start(clock, enabled), before, interval);
    var w := Run(Start(clock, enabled), before, interval);
    ReachableHeldEnabled(clock, enabled, before, interval);
    var v := Step(w, Observe(device, p, now), interval);
    NeverDrops(v, after, key, interval);
    NewestValueArrivesIff(clock, enabled, before, device, p, now, after, interval);
  }

  lemma {:induction false} StaysEnabled(w: World, es: seq<Event>, interval: nat)
    requires ValidRun(w, es, interval) && forall e :: e in es ==> !e.Reconfigure?
    ensures Run(w, es, interval).enabled == w.enabled
    decreases |es|
  {
    if es != [] {
      assert es[0] in es;
      StaysEnabled(Step(w, es[0], interval), es[1..], interval);
    }
  }

  /** Only values of enabled devices are ever held. */
  predicate HeldEnabled(w: World) {
    forall key :: key in w.limiter.pending ==> w.limiter.pending[key].device in w.enabled
  }

  lemma {:induction false} ReachableHeldEnabled(clock: int, enabled: set<Uuid>, es: seq<Event>, interval: nat)
    requires ValidRun(Start(clock, enabled), es, interval) && forall e :: e in es ==> !e.Reconfigure?
    ensures HeldEnabled(Run(Start(clock, enabled), es, interval))
  {
    RunKeepsHeldEnabled(Start(clock, enabled), es, interval);
  }

  lemma {:induction false} RunKeepsHeldEnabled(w: World, es: seq<Event>, interval: nat)
    requires ValidRun(w, es, interval) && HeldEnabled(w) && forall e :: e in es ==> !e.Reconfigure?
    ensures HeldEnabled(Run(w, es, interval))
    decreases |es|
  {
    if es != [] {
      assert es[0] in es;
      RunKeepsHeldEnabled(Step(w, es[0], interval), es[1..], interval);
    }
  }

  lemma {:induction false} NeverDrops(w: World, es: seq<Event>, key: ReportKey, interval: nat)
    requires ValidRun(w, es, interval) && HeldEnabled(w) && forall e :: e in es ==> !e.Reconfigure?
    ensures !DropsHeld(w, es, key, interval)
    decreases |es|
  {
    if es != [] {
      assert es[0] in es;
      NeverDrops(Step(w, es[0], interval), es[1..], key, interval);
    }
  }

  const TEMPERATURE_KEY := PropKey(TemperatureSensor, NoInstance, Temperature)

  function Degrees(x: real): Property {
    Property(TEMPERATURE_KEY, Reading(x, Celsius), 0)
  }

  /** A has been sent at 0; B, if it is held, is due at 30000. */
  function AfterA(device: Uuid, held: bool, clock: int): World {
    var key := KeyOf(device, Degrees(20.0));
    World(Limiter(map[key := Sent(Degrees(20.0).value, 0)], if held then map[key := Held(device, Degrees(21.0), 30000)] else map[]),
          clock, {device}, [Handover(key, Degrees(20.0).value, 0)])
  }

  lemma SendsA(device: Uuid)
    ensures Step(Start(0, {device}), Observe(device, Degrees(20.0), 0), 30000) == AfterA(device, false, 0)
  {
    var none: map<ReportKey, Held> := map[];
    assert none - {KeyOf(device, Degrees(20.0))} == none;
  }

  lemma HoldsB(device: Uuid)
    ensures Step(AfterA(device, false, 0), Observe(device, Degrees(21.0), 10), 30000) == AfterA(device, true, 10)
  {
  }

  lemma IgnoresA(device: Uuid)
    ensures Step(AfterA(device, true, 10), Observe(device, Degrees(20.0), 20), 30000) == AfterA(device, true, 20)
  {
  }

  lemma SendsB(device: Uuid)
    ensures var key := KeyOf(device, Degrees(20.0));
      var w := AfterA(device, true, 20);
      && Possible(w, Fire(key, 30000))
      && Step(w, Fire(key, 30000), 30000).limiter.pending == map[]
      && Step(w, Fire(key, 30000), 30000).log == w.log + [Handover(key, Degrees(21.0).value, 30000)]
  {
  }

  /** The documented promise fails on A, B, A inside one window: the last change
      went back to A, and yet B is what is sent last. */
  lemma ReturnInsideWindowSendsStaleValue(device: Uuid)
    ensures var a, b := Degrees(20.0), Degrees(21.0);
      var key := KeyOf(device, a);
      var es := [Observe(device, a, 0), Observe(device, b, 10), Observe(device, a, 20), Fire(key, 30000)];
      && ValidRun(Start(0, {device}), es, 30000)
      && var w := Run(Start(0, {device}), es, 30000);
         && w.limiter.pending == map[]
         && w.log == [Handover(key, a.value, 0), Handover(key, b.value, 30000)]
  {
    var a, b := Degrees(20.0), Degrees(21.0);
    var e1, e2, e3, e4 := Observe(device, a, 0), Observe(device, b, 10), Observe(device, a, 20), Fire(KeyOf(device, a), 30000);
    var w1, w2, w3 := AfterA(device, false, 0), AfterA(device, true, 10), AfterA(device, true, 20);
    SendsA(device);
    HoldsB(device);
    IgnoresA(device);
    SendsB(device);
    RunOne(w3, e4, [], 30000);
    RunOne(w2, e3, [e4], 30000);
    RunOne(w1, e2, [e3, e4], 30000);
    RunOne(Start(0, {device}), e1, [e2, e3, e4], 30000);
  }

  lemma RunOne(w: World, e: Event, es: seq<Event>, interval: nat)
    requires Possible(w, e) && ValidRun(Step(w, e, interval), es, interval)
    ensures ValidRun(w, [e] + es, interval)
    ensures Run(w, [e] + es, interval) == Run(Step(w, e, interval), es, interval)
  {
    assert ([e] + es)[1..] == es;
  }

  // ----- Events carrying several properties ----------------------------------

  function Observations(device: Uuid, ps: seq<Property>, now: int): seq<Event> {
    seq(|ps|, i requires 0 <= i < |ps| => Observe(device, ps[i], now))
  }

  function Handovers(device: Uuid, ps: seq<Property>, now: int): seq<Handover> {
    seq(|ps|, i requires 0 <= i < |ps| => Handover(KeyOf(device, ps[i]), ps[i].value, now))
  }

  lemma {:induction false} RunAppend(w: World, es: seq<Event>, e: Event, interval: nat)
    requires ValidRun(w, es, interval) && Possible(Run(w, es, interval), e)
    ensures ValidRun(w, es + [e], interval)
    ensures Run(w, es + [e], interval) == Step(Run(w, es, interval), e, interval)
    decreases |es|
  {
    if es == [] {
      assert [e][1..] == [];
      assert es + [e] == [e];
    } else {
      assert (es + [e])[1..] == es[1..] + [e];
      RunAppend(Step(w, es[0], interval), es[1..], e, interval);
    }
  }

  /** One cache event with several properties is the run of its single
      observations, so every result about runs covers it. */
  lemma {:induction false} AdmitAllIsRun(w: World, device: Uuid, ps: seq<Property>, now: int, interval: nat)
    requires device in w.enabled && w.clock <= now
    ensures var es := Observations(device, ps, now);
      && ValidRun(w, es, interval)
      && var (limiter, ready) := AdmitAll(w.limiter, device, ps, now, interval);
         Run(w, es, interval) ==
           World(limiter, if ps == [] then w.clock else now, w.enabled, w.log + Handovers(device, ready, now))
    decreases |ps|
  {
    if ps == [] {
      assert w.log + [] == w.log;
    } else {
      var front, p := ps[..|ps| - 1], ps[|ps| - 1];
      AdmitAllIsRun(w, device, front, now, interval);
      var es := Observations(device, front, now);
      assert Observations(device, ps, now) == es + [Observe(device, p, now)];
      RunAppend(w, es, Observe(device, p, now), interval);
      var (limiter, ready) := AdmitAll(w.limiter, device, front, now, interval);
      assert Handovers(device, ready + [p], now) == Handovers(device, ready, now) + [Handover(KeyOf(device, p), p.value, now)];
      assert w.log + (Handovers(device, ready, now) + [Handover(KeyOf(device, p), p.value, now)])
          == (w.log + Handovers(device, ready, now)) + [Handover(KeyOf(device, p), p.value, now)];
    }
  }

  // ----- Quantisation ---------------------------------------------------------

  predicate OnTenth(x: real) {
    (x * 10.0).Floor as real == x * 10.0
  }

  /** Quantising twice changes nothing more, moves a temperature by at most half
      a step, and leaves it alone exactly when it already is on a tenth. */
  lemma QuantiseReading(p: Property)
    ensures Quantise(Quantise(p)) == Quantise(p)
    ensures Quantise(p).key == p.key
    ensures p.key.iface == TemperatureSensor && p.key.name == Temperature && p.value.Reading? ==>
      && Quantise(p).value.Reading? && Quantise(p).value.scale == p.value.scale
      && Abs(Quantise(p).value.number - p.value.number) <= 0.05
      && (Quantise(p) == p <==> OnTenth(p.value.number))
  {
    if p.key.iface == TemperatureSensor && p.key.name == Temperature && p.value.Reading? {
      var n := Round(p.value.number * 10.0);
      assert Quantise(p).value.number == n as real / 10.0;
      RoundUnique(n as real / 10.0 * 10.0, n);
      if OnTenth(p.value.number) {
        RoundUnique(p.value.number * 10.0, (p.value.number * 10.0).Floor);
      }
    }
  }
}
