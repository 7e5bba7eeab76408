/** The reporter object: the reverse index from state UUIDs to devices, and the
    handlers that drive the rate control. Every handler is proved to be the
    corresponding step, or run of steps, of `RateControl`. */
module StateReporter {
  import opened AlexaModel
  import opened PushMapping
  import opened RateControl

  /** `devicesConfig.list().find(d => d.uuid === uuid)` */
  function FindDevice(devices: seq<Device>, uuid: Uuid): (r: Option<Device>)
    ensures r.Some? ==> r.value in devices && r.value.uuid == uuid
    ensures r.None? ==> forall d :: d in devices ==> d.uuid != uuid
  {
    if devices == [] then None
    else if devices[0].uuid == uuid then Some(devices[0])
    else FindDevice(devices[1..], uuid)
  }

  predicate IsEnabled(devices: seq<Device>, uuid: Uuid) {
    var d := FindDevice(devices, uuid);
    d.Some? && d.value.enabled
  }

  function EnabledUuids(devices: seq<Device>): (r: set<Uuid>)
    ensures forall u :: u in r <==> IsEnabled(devices, u)
  {
    set d | d in devices && IsEnabled(devices, d.uuid) :: d.uuid
  }

  datatype Indexed = Indexed(owner: Uuid, state: StateName)

  /** The states of one device, later ones winning. */
  function IndexStates(index: map<Uuid, Indexed>, owner: Uuid, states: seq<(StateName, Uuid)>): map<Uuid, Indexed> {
    if states == [] then index
    else
      var last := states[|states| - 1];
      var before := IndexStates(index, owner, states[..|states| - 1]);
      if last.1 == "" then before else before[last.1 := Indexed(owner, last.0)]
  }

  function IndexDevices(devices: seq<Device>, controls: map<Uuid, Control>): map<Uuid, Indexed> {
    if devices == [] then map[]
    else
      var last := devices[|devices| - 1];
      var before := IndexDevices(devices[..|devices| - 1], controls);
      if last.enabled && last.uuid in controls then IndexStates(before, last.uuid, controls[last.uuid].states) else before
  }

  /** `u` is the state `entry.state` of an enabled row for `entry.owner`. */
  ghost predicate Watches(devices: seq<Device>, controls: map<Uuid, Control>, u: Uuid, entry: Indexed) {
    && u != "" && entry.owner in controls && (entry.state, u) in controls[entry.owner].states
    && exists d :: d in devices && d.uuid == entry.owner && d.enabled
  }

  lemma {:induction false} IndexStatesExact(index: map<Uuid, Indexed>, owner: Uuid, states: seq<(StateName, Uuid)>, u: Uuid)
    ensures u in IndexStates(index, owner, states) <==> u in index || (u != "" && exists n :: (n, u) in states)
    ensures u in IndexStates(index, owner, states) ==>
      || (IndexStates(index, owner, states)[u].owner == owner && u != ""
          && (IndexStates(index, owner, states)[u].state, u) in states)
      || (u in index && IndexStates(index, owner, states)[u] == index[u])
  {
    if states != [] {
      var front, last := states[..|states| - 1], states[|states| - 1];
      IndexStatesExact(index, owner, front, u);
      assert forall s :: s in states <==> s in front || s == last;
    }
  }

  /** The index holds exactly the state UUIDs of the enabled devices, and each
      entry names a device and a state that really own the UUID. */
  lemma {:induction false} IndexIsExact(devices: seq<Device>, controls: map<Uuid, Control>, u: Uuid)
    ensures u in IndexDevices(devices, controls) <==> exists entry :: Watches(devices, controls, u, entry)
    ensures u in IndexDevices(devices, controls) ==> Watches(devices, controls, u, IndexDevices(devices, controls)[u])
  {
    if devices != [] {
      var front, last := devices[..|devices| - 1], devices[|devices| - 1];
      IndexIsExact(front, controls, u);
      assert forall d :: d in devices <==> d in front || d == last;
      var before := IndexDevices(front, controls);
      if u in before {
        assert Watches(devices, controls, u, before[u]);
      }
      if last.enabled && last.uuid in controls {
        IndexStatesExact(before, last.uuid, controls[last.uuid].states, u);
        forall n | u != "" && (n, u) in controls[last.uuid].states ensures Watches(devices, controls, u, Indexed(last.uuid, n)) {
        }
      }
      forall entry | Watches(devices, controls, u, entry) ensures u in IndexDevices(devices, controls) {
        if !Watches(front, controls, u, entry) {
          assert last.uuid == entry.owner && last.enabled;
        }
      }
    }
  }

  function QuantiseAll(ps: seq<Property>): seq<Property> {
    seq(|ps|, i requires 0 <= i < |ps| => Quantise(ps[i]))
  }

  class StateReporter {
    const interval: nat
    const moods: MoodParser
    var devices: seq<Device>
    var controls: map<Uuid, Control>
    var reverseIndex: map<Uuid, Indexed>
    var lastSent: map<ReportKey, Sent>
    var pending: map<ReportKey, Held>
    var clock: int
    /** Everything handed to `_dispatch` by the live path, oldest first. */
    var dispatched: seq<Handover>

    function Abs(): World
      reads this
    {
      World(Limiter(lastSent, pending), clock, EnabledUuids(devices), dispatched)
    }

    constructor (interval: nat, moods: MoodParser, devices: seq<Device>, controls: map<Uuid, Control>, clock: int)
      ensures this.interval == interval && this.moods == moods
      ensures this.devices == devices && this.controls == controls
      ensures reverseIndex == IndexDevices(devices, controls)
      ensures Abs() == Start(clock, EnabledUuids(devices))
    {
      this.interval, this.moods := interval, moods;
      this.devices, this.controls, this.clock := devices, controls, clock;
      reverseIndex, lastSent, pending, dispatched := map[], map[], map[], [];
      new;
      BuildIndex();
    }

    /** `_buildIndex` */
    method BuildIndex()
      modifies `reverseIndex
      ensures reverseIndex == IndexDevices(devices, controls)
    {
      var index: map<Uuid, Indexed> := map[];
      for i := 0 to |devices|
        invariant index == IndexDevices(devices[..i], controls)
      {
        var device := devices[i];
        ghost var before := index;
        assert devices[..i + 1][..i] == devices[..i];
        if device.enabled && device.uuid in controls {
          var states := controls[device.uuid].states;
          for j := 0 to |states|
            invariant index == IndexStates(before, device.uuid, states[..j])
          {
            assert states[..j + 1][..j] == states[..j];
            if states[j].1 != "" {
              index := index[states[j].1 := Indexed(device.uuid, states[j].0)];
            }
          }
          assert states[..|states|] == states;
        }
      }
      assert devices[..|devices|] == devices;
      reverseIndex := index;
    }

    /** devices.json changed: the rows are replaced and the index rebuilt; what is
        held and what was sent stay as they are. */
    method OnDevicesChange(rows: seq<Device>)
      modifies `devices, `reverseIndex
      ensures devices == rows && reverseIndex == IndexDevices(rows, controls)
      ensures Abs() == Step(old(Abs()), Reconfigure(EnabledUuids(rows)), interval)
    {
      devices := rows;
      BuildIndex();
    }

    /** The observations one cache event amounts to: none for a state nobody
        watches or a device that is disabled or gone, else one per advertised
        property, quantised. */
    function Observed(uuid: Uuid, input: Input, cache: Cache, now: int): seq<Event>
      reads this
    {
      if uuid !in reverseIndex then []
      else
        var entry := reverseIndex[uuid];
        var device := FindDevice(devices, entry.owner);
        if device.None? || !device.value.enabled || entry.owner !in controls then []
        else
          var mapped := MapToProperties(controls[entry.owner], device.value, cache, moods, entry.state, input);
          Observations(entry.owner, QuantiseAll(FilterAdvertised(device.value, mapped)), now)
    }

    /** `_onCacheChangeInner`: the loop over the filtered properties is the run of
        the single observations. */
    method OnCacheChange(uuid: Uuid, input: Input, cache: Cache, now: int)
      requires clock <= now
      modifies `lastSent, `pending, `clock, `dispatched
      ensures ValidRun(old(Abs()), old(Observed(uuid, input, cache, now)), interval)
      ensures Abs() == Run(old(Abs()), old(Observed(uuid, input, cache, now)), interval)
    {
      if uuid !in reverseIndex { return; }
      var entry := reverseIndex[uuid];
      var device := FindDevice(devices, entry.owner);
      if device.None? || !device.value.enabled || entry.owner !in controls { return; }
      var mapped := MapToProperties(controls[entry.owner], device.value, cache, moods, entry.state, input);
      var filtered := FilterAdvertised(device.value, mapped);
      if |filtered| == 0 { return; }
      ghost var was := Abs();
      var ready := RateControlled(entry.owner, filtered, now);
      clock := now;
      Emit(entry.owner, ready, now);
      AdmitAllIsRun(was, entry.owner, QuantiseAll(filtered), now, interval);
    }

    /** The loop that fills `ready`: skip duplicates, hold what is too early, and
        let a report sent now cancel what was held. */
    method RateControlled(owner: Uuid, filtered: seq<Property>, now: int) returns (ready: seq<Property>)
      modifies `lastSent, `pending
      ensures (Limiter(lastSent, pending), ready)
           == AdmitAll(old(Limiter(lastSent, pending)), owner, QuantiseAll(filtered), now, interval)
    {
      ghost var was, quantised := Limiter(lastSent, pending), QuantiseAll(filtered);
      ready := [];
      for i := 0 to |filtered|
        invariant (Limiter(lastSent, pending), ready) == AdmitAll(was, owner, quantised[..i], now, interval)
      {
        var p := Quantise(filtered[i]);
        assert quantised[..i + 1][..i] == quantised[..i] && quantised[..i + 1][i] == p;
        var key := KeyOf(owner, p);
        if key in lastSent && lastSent[key].value == p.value {
          continue;
        }
        if interval > 0 && Throttled(p.key) && key in lastSent && now - lastSent[key].at < interval {
          Defer(key, owner, p, lastSent[key].at + interval - now, now);
          continue;
        }
        ready := ready + [p];
        lastSent := lastSent[key := Sent(p.value, now)];
        CancelPending(key);
      }
      assert quantised[..|filtered|] == quantised;
    }

    /** `_defer`: a value already held is replaced, its timer keeps running. */
    method Defer(key: ReportKey, device: Uuid, p: Property, delay: int, now: int)
      modifies `pending
      ensures pending == old(pending)[key := Held(device, p, if key in old(pending) then old(pending)[key].due else now + Later(delay))]
    {
      if key in pending {
        pending := pending[key := pending[key].(device := device, property := p)];
        return;
      }
      pending := pending[key := Held(device, p, now + Later(delay))];
    }

    method CancelPending(key: ReportKey)
      modifies `pending
      ensures pending == old(pending) - {key}
    {
      pending := pending - {key};
    }

    /** `_emit`: the properties of one report, in order. */
    method Emit(device: Uuid, properties: seq<Property>, now: int)
      modifies `dispatched
      ensures dispatched == old(dispatched) + Handovers(device, properties, now)
    {
      dispatched := dispatched + Handovers(device, properties, now);
    }

    /** `_flush`: the timer of `key` fired. */
    method Flush(key: ReportKey, now: int)
      requires clock <= now && (key in pending ==> pending[key].due <= now)
      modifies `lastSent, `pending, `clock, `dispatched
      ensures key in old(pending) ==> Abs() == Step(old(Abs()), Fire(key, now), interval)
      ensures key !in old(pending) ==> Abs() == old(Abs()).(clock := now)
    {
      clock := now;
      if key !in pending { return; }
      var entry := pending[key];
      pending := pending - {key};
      var device := FindDevice(devices, entry.device);
      if device.None? || !device.value.enabled { return; }
      lastSent := lastSent[key := Sent(entry.property.value, now)];
      dispatched := dispatched + [Handover(key, entry.property.value, now)];
    }

    /** `stop`: every timer is cleared and nothing is remembered. */
    method Stop()
      modifies `lastSent, `pending
      ensures Abs() == old(Abs()).(limiter := FRESH)
    {
      pending, lastSent := map[], map[];
    }
  }

  /** What the live path observes for a state is what the cache makes the snapshot
      push: the event carries the value the cache already holds. */
  lemma ObservedIsPushed(r: StateReporter, uuid: Uuid, input: Input, cache: Cache, now: int, e: Event)
    requires r.reverseIndex == IndexDevices(r.devices, r.controls)
    requires CachedInput(cache, uuid) == Some(input) && e in r.Observed(uuid, input, cache, now)
    ensures e.Observe? && e.device in r.controls && IsEnabled(r.devices, e.device)
    ensures exists s, p :: (
      && s in r.controls[e.device].states
      && p in MapState(r.controls[e.device], FindDevice(r.devices, e.device).value, cache, r.moods, s)
      && Advertised(FindDevice(r.devices, e.device).value, p) && e.property == Quantise(p))
  {
    IndexIsExact(r.devices, r.controls, uuid);
    var entry := r.reverseIndex[uuid];
    var device := FindDevice(r.devices, entry.owner).value;
    var filtered := FilterAdvertised(device, MapToProperties(r.controls[entry.owner], device, cache, r.moods, entry.state, input));
    var i :| 0 <= i < |filtered| && e == Observe(entry.owner, Quantise(filtered[i]), now);
    assert filtered[i] in filtered;
    assert filtered[i] in MapState(r.controls[entry.owner], device, cache, r.moods, (entry.state, uuid));
  }
}
