/** Both machines on one clock: a plugin whose old socket has gone silent dials the
    bridge again, is refused with 4006 while the bridge still believes in that socket,
    and retries with its doubling backoff until the slot has gone stale. */
module Readmission {
  import opened AlexaModel
  import opened JsNumbers
  import opened Routing
  import Client = BridgeClient
  import Relay

  const SLOT_IN_USE := 4006

  /** The user, its silent old socket, the first socket of the new dials, and how many
      sockets the client had created with that one: its next ones follow in order. */
  datatype Setup = Setup(user: User, silent: Socket, first: Socket, created: nat,
                         plugin: Client.Config, bridge: Relay.Config)

  /** `refused` are the dials the bridge turned away in favour of the old socket,
      `admitted` those it let in. */
  datatype World = World(now: int, client: Client.Client, relay: Relay.Relay, refused: set<Socket>, admitted: set<Socket>)

  datatype Event = AtPlugin(plugin: Client.Event) | AtBridge(bridge: Relay.Event)

  /** The socket of a dial appears at the bridge only after the client has dialled,
      and the client is welcomed only after the bridge has let a dial in. */
  predicate Possible(x: World, e: Event, now: int, s: Setup) {
    x.now <= now
    && match e
       case AtPlugin(p) => Client.Possible(x.client, p, now) && (p.Welcome? ==> x.admitted != {})
       case AtBridge(b) =>
         && Relay.Possible(x.relay, b, now)
         && (b.Receive? || b.Connect? ==> b.ws < s.first || b.ws - s.first <= x.client.created - s.created)
  }

  /** The hello of a dial, on a connection that has not completed the handshake. */
  predicate IsHello(x: World, e: Event, s: Setup) {
    && e.AtBridge? && e.bridge.Receive? && e.bridge.message == Relay.Hello(Some(s.user))
    && e.bridge.ws >= s.first && e.bridge.ws in x.relay.conns && x.relay.conns[e.bridge.ws].user.None?
  }

  function Verdict(x: World, ws: Socket, now: int, s: Setup): Decision {
    TryAdd(x.relay.slots, s.user, ws, Relay.OpenSockets(x.relay.conns), now, s.bridge.staleMs).1
  }

  predicate TurnsAway(x: World, e: Event, now: int, s: Setup) {
    IsHello(x, e, s) && Verdict(x, e.bridge.ws, now, s) == Rejected && Owns(x.relay.slots, s.user, s.silent)
  }

  predicate LetsIn(x: World, e: Event, now: int, s: Setup) {
    IsHello(x, e, s) && Verdict(x, e.bridge.ws, now, s) != Rejected
  }

  function Next(x: World, e: Event, now: int, s: Setup): World
    requires Possible(x, e, now, s)
  {
    World(now,
          if e.AtPlugin? then Client.Step(x.client, e.plugin, now, s.plugin) else x.client,
          if e.AtBridge? then Relay.Step(x.relay, e.bridge, now, s.bridge) else x.relay,
          if TurnsAway(x, e, now, s) then x.refused + {e.bridge.ws} else x.refused,
          if LetsIn(x, e, now, s) then x.admitted + {e.bridge.ws} else x.admitted)
  }

  datatype Timed = Timed(event: Event, now: int)

  predicate ValidRun(x: World, es: seq<Timed>, s: Setup)
    decreases |es|
  {
    es == [] || (Possible(x, es[0].event, es[0].now, s) && ValidRun(Next(x, es[0].event, es[0].now, s), es[1..], s))
  }

  function Run(x: World, es: seq<Timed>, s: Setup): World
    requires ValidRun(x, es, s)
    decreases |es|
  {
    if es == [] then x else Run(Next(x, es[0].event, es[0].now, s), es[1..], s)
  }

  /** Nobody forces a reconnect or turns the switch on, both of which reset the
      backoff as a welcome does, and the old socket says nothing. Dials may fail,
      be lost or be delayed, and anything may happen on other sockets. */
  predicate Unaided(e: Event, s: Setup) {
    match e
    case AtPlugin(p) => !p.ForceReconnect? && !(p.SetEnabled? && p.enabled)
    case AtBridge(b) => !(b.Receive? && b.ws == s.silent)
  }

  predicate UnaidedRun(es: seq<Timed>, s: Setup) {
    forall i :: 0 <= i < |es| ==> Unaided(es[i].event, s)
  }

  /** The client has just dialled, after the old socket was last heard of. */
  ghost predicate Starts(x: World, s: Setup) {
    && Client.Inv(x.client, s.plugin) && Relay.Inv(x.relay) && x.client.now <= x.now && x.relay.now <= x.now
    && x.client.ws == Some(Client.Live) && !x.client.stopped && !x.client.suspended && x.client.created == s.created
    && Owns(x.relay.slots, s.user, s.silent) && s.silent < s.first && x.relay.slots[s.user].lastSeenAt <= x.client.now
    && x.refused == {} && x.admitted == {}
  }

  /** A restarted plugin starts like this: its former process still owns the slot as
      socket 1, and its first dial is on its way. */
  lemma RestartStarts(user: User, plugin: Client.Config, bridge: Relay.Config) returns (x: World, s: Setup)
    ensures s == Setup(user, 1, 2, 1, plugin, bridge) && Starts(x, s)
    ensures x.client.tries == 0 && x.client.now == x.now == x.relay.slots[user].lastSeenAt && x.relay.conns[1].open
    ensures forall ws :: ws in x.relay.seen ==> ws < 2
  {
    s := Setup(user, 1, 2, 1, plugin, bridge);
    var made, dial := Client.Fresh(plugin), Client.Start(Client.Luck(true, 1.0));
    assert Client.Min(plugin.initialMs * 1, plugin.maxMs) <= plugin.maxMs;
    Client.StepKeepsInv(made, dial, 0, plugin);
    var connected := Relay.Step(Relay.EMPTY, Relay.Connect(1), 0, bridge);
    var hello := Relay.Receive(1, Relay.Hello(Some(user)));
    Relay.StepKeepsInv(Relay.EMPTY, Relay.Connect(1), 0, bridge);
    Relay.StepKeepsInv(connected, hello, 0, bridge);
    x := World(0, Client.Step(made, dial, 0, plugin), Relay.Step(connected, hello, 0, bridge), {}, {});
  }

  // ----- The plugin's side: dials take time -----------------------------------------------

  /** The shortest delay the jitter allows. */
  function MinDelay(backoff: nat, cfg: Client.Config): (d: int)
    ensures d >= 0
  {
    Client.Min(Round(backoff as real * 0.75), cfg.maxMs)
  }

  /** The shortest total of `n` successive delays after `k` earlier retries. */
  function SumOfDelays(k: nat, n: nat, cfg: Client.Config): (s: int)
    ensures s >= 0
    decreases n
  {
    if n == 0 then 0 else MinDelay(Client.BackoffAfter(k, cfg), cfg) + SumOfDelays(k + 1, n - 1, cfg)
  }

  lemma ScaleUp(b: real, jitter: real, product: real)
    requires b >= 0.0 && jitter >= 0.75 && product == b * jitter
    ensures product >= b * 0.75
  {
    assert b * jitter - b * 0.75 == b * (jitter - 0.75);
  }

  lemma DelayAtLeast(backoff: nat, jitter: real, cfg: Client.Config)
    requires jitter >= 0.75
    ensures Client.Delay(backoff, jitter, cfg) >= MinDelay(backoff, cfg)
  {
    ScaleUp(backoff as real, jitter, backoff as real * jitter);
    RoundMonotone(backoff as real * 0.75, backoff as real * jitter);
  }

  lemma {:induction false} SumsGrow(k: nat, n: nat, m: nat, cfg: Client.Config)
    requires n <= m
    ensures SumOfDelays(k, n, cfg) <= SumOfDelays(k, m, cfg)
    decreases n
  {
    if n > 0 { SumsGrow(k + 1, n - 1, m - 1, cfg); }
  }

  lemma {:induction false} SumOneMore(k: nat, n: nat, cfg: Client.Config)
    ensures SumOfDelays(k, n + 1, cfg) == SumOfDelays(k, n, cfg) + MinDelay(Client.BackoffAfter(k + n, cfg), cfg)
    decreases n
  {
    if n == 0 {
      assert SumOfDelays(k + 1, 0, cfg) == 0;
    } else {
      SumOneMore(k + 1, n - 1, cfg);
    }
  }

  /** Every retry scheduled since `start` has cost at least its shortest delay: once
      its timer has fired, in elapsed time, before that, in the timer's deadline. */
  ghost predicate Paced(start: Client.Client, c: Client.Client, cfg: Client.Config) {
    && start.tries <= c.tries && start.created <= c.created && start.now <= c.now
    && var retries, dials := c.tries - start.tries, c.created - start.created;
       && (c.timer.Some? ==> dials < retries && c.timer.value >= start.now + SumOfDelays(start.tries, retries, cfg))
       && (c.timer.None? && !c.stopped && !c.suspended ==>
             dials <= retries && c.now >= start.now + SumOfDelays(start.tries, retries, cfg))
       && c.now >= start.now + SumOfDelays(start.tries, dials, cfg)
  }

  lemma ScheduleIsPaced(start: Client.Client, c: Client.Client, jitter: real, cfg: Client.Config)
    requires 0.75 <= jitter && c.backoff == Client.BackoffAfter(c.tries, cfg)
    requires Paced(start, c, cfg) && c.timer.None?
    ensures Paced(start, Client.ScheduleReconnect(c, jitter, cfg), cfg)
  {
    if !c.stopped && !c.suspended {
      DelayAtLeast(c.backoff, jitter, cfg);
      SumOneMore(start.tries, c.tries - start.tries, cfg);
    }
  }

  /** The timer fires: a new socket, or a constructor that throws and another retry. */
  lemma FiringIsPaced(start: Client.Client, c: Client.Client, l: Client.Luck, now: int, cfg: Client.Config)
    requires Client.Inv(c, cfg) && Paced(start, c, cfg) && Client.Possible(c, Client.TimerFires(l), now)
    ensures Paced(start, Client.Step(c, Client.TimerFires(l), now, cfg), cfg)
  {
    var retries, dials := c.tries - start.tries, c.created - start.created;
    var fired := c.(now := now, timer := None);
    SumsGrow(start.tries, dials + 1, retries, cfg);
    SumsGrow(start.tries, dials, dials + 1, cfg);
    assert Paced(start, fired, cfg);
    if !l.constructed { ScheduleIsPaced(start, fired.(givenUp := false), l.jitter, cfg); }
  }

  /** Only a welcome, a forced reconnect and the switch reset the backoff. */
  lemma StepIsPaced(start: Client.Client, c: Client.Client, e: Client.Event, now: int, cfg: Client.Config)
    requires Client.Inv(c, cfg) && c.started && Paced(start, c, cfg) && Client.Possible(c, e, now)
    requires !e.Welcome? && !e.ForceReconnect? && !(e.SetEnabled? && e.enabled)
    ensures Paced(start, Client.Step(c, e, now, cfg), cfg)
  {
    match e
    case TimerFires(l) => FiringIsPaced(start, c, l, now, cfg);
    case CloseSettles(l) =>
      var gone := c.(now := now, ws := None);
      if !c.stopped && !c.suspended {
        ScheduleIsPaced(start, gone.(wantsReconnect := false), l.jitter, cfg);
      }
    case _ =>
  }

  // ----- Both sides -------------------------------------------------------------------------

  /** While nothing has been admitted: the client keeps its pace, the slot is the old
      socket's as it was or not its any more, and whoever was refused had dialled
      within the staleness window. */
  ghost predicate Holds(x0: World, x: World, s: Setup) {
    && Client.Inv(x.client, s.plugin) && Relay.Inv(x.relay) && x.client.now <= x.now && x.relay.now <= x.now
    && x.client.started && x.admitted == {} && Paced(x0.client, x.client, s.plugin)
    && s.user in x0.relay.slots
    && (Owns(x.relay.slots, s.user, s.silent) ==> x.relay.slots[s.user] == x0.relay.slots[s.user])
    && forall ws :: ws in x.refused ==>
         s.first <= ws && SumOfDelays(x0.client.tries, ws - s.first, s.plugin) <= s.bridge.staleMs
  }

  /** A dial that is refused has been dialled while the slot was still fresh. */
  lemma RefusedIsEarly(x0: World, x: World, e: Event, now: int, s: Setup)
    requires Starts(x0, s) && Holds(x0, x, s) && Possible(x, e, now, s) && TurnsAway(x, e, now, s)
    ensures s.first <= e.bridge.ws
    ensures SumOfDelays(x0.client.tries, e.bridge.ws - s.first, s.plugin) <= s.bridge.staleMs
  {
    var m: nat := e.bridge.ws - s.first;
    SumsGrow(x0.client.tries, m, x.client.created - s.created, s.plugin);
    assert now - x.relay.slots[s.user].lastSeenAt <= s.bridge.staleMs;
  }

  lemma PluginStepHolds(x0: World, x: World, p: Client.Event, now: int, s: Setup)
    requires Starts(x0, s) && Holds(x0, x, s) && Possible(x, AtPlugin(p), now, s) && Unaided(AtPlugin(p), s)
    ensures Holds(x0, Next(x, AtPlugin(p), now, s), s)
  {
    Client.StepKeepsInv(x.client, p, now, s.plugin);
    StepIsPaced(x0.client, x.client, p, now, s.plugin);
  }

  /** What a step of the bridge does to the slot while the old socket is silent. */
  lemma SlotStays(x0: World, x: World, b: Relay.Event, now: int, s: Setup)
    requires Relay.Inv(x.relay) && s.user in x0.relay.slots && Possible(x, AtBridge(b), now, s) && Unaided(AtBridge(b), s)
    requires Owns(x.relay.slots, s.user, s.silent) ==> x.relay.slots[s.user] == x0.relay.slots[s.user]
    ensures var after := Relay.Step(x.relay, b, now, s.bridge);
      && Relay.Inv(after) && after.now == now
      && (Owns(after.slots, s.user, s.silent) ==> after.slots[s.user] == x0.relay.slots[s.user])
  {
    Relay.StepKeepsInv(x.relay, b, now, s.bridge);
    Relay.StepSetsClock(x.relay, b, now, s.bridge);
    if Owns(Relay.Step(x.relay, b, now, s.bridge).slots, s.user, s.silent) {
      Relay.SilentSlotStays(x.relay, b, now, s.user, s.silent, s.bridge);
    }
  }

  /** Time passing at the bridge changes nothing about the pace of the dials. */
  lemma BridgeStepHolds(x0: World, x: World, b: Relay.Event, now: int, s: Setup)
    requires Starts(x0, s) && Holds(x0, x, s) && Possible(x, AtBridge(b), now, s) && Unaided(AtBridge(b), s)
    requires Next(x, AtBridge(b), now, s).admitted == {}
    ensures Holds(x0, Next(x, AtBridge(b), now, s), s)
  {
    SlotStays(x0, x, b, now, s);
    if TurnsAway(x, AtBridge(b), now, s) { RefusedIsEarly(x0, x, AtBridge(b), now, s); }
    BridgeStepKeeps(x0, x, Next(x, AtBridge(b), now, s), s);
  }

  lemma BridgeStepKeeps(x0: World, x: World, y: World, s: Setup)
    requires Holds(x0, x, s) && y.client == x.client && x.now <= y.now && y.admitted == {}
    requires Relay.Inv(y.relay) && y.relay.now <= y.now
    requires Owns(y.relay.slots, s.user, s.silent) ==> y.relay.slots[s.user] == x0.relay.slots[s.user]
    requires forall ws :: ws in y.refused && ws !in x.refused ==>
      s.first <= ws && SumOfDelays(x0.client.tries, ws - s.first, s.plugin) <= s.bridge.staleMs
    ensures Holds(x0, y, s)
  {
  }

  lemma {:induction false} CountsGrow(x: World, es: seq<Timed>, s: Setup)
    requires ValidRun(x, es, s)
    ensures x.admitted <= Run(x, es, s).admitted && x.refused <= Run(x, es, s).refused
    decreases |es|
  {
    if es != [] { CountsGrow(Next(x, es[0].event, es[0].now, s), es[1..], s); }
  }

  lemma {:induction false} RunHolds(x0: World, x: World, es: seq<Timed>, s: Setup)
    requires Starts(x0, s) && Holds(x0, x, s) && ValidRun(x, es, s) && UnaidedRun(es, s)
    requires Run(x, es, s).admitted == {}
    ensures Holds(x0, Run(x, es, s), s)
    decreases |es|
  {
    if es != [] {
      var next := Next(x, es[0].event, es[0].now, s);
      CountsGrow(next, es[1..], s);
      assert Unaided(es[0].event, s);
      if es[0].event.AtPlugin? { PluginStepHolds(x0, x, es[0].event.plugin, es[0].now, s); }
      else { BridgeStepHolds(x0, x, es[0].event.bridge, es[0].now, s); }
      RunHolds(x0, next, es[1..], s);
    }
  }

  lemma StartHolds(x: World, s: Setup)
    requires Starts(x, s)
    ensures Holds(x, x, s)
  {
    assert SumOfDelays(x.client.tries, 0, s.plugin) == 0;
  }

  lemma EarlyDials(refused: set<Socket>, k: nat, n: nat, s: Setup)
    requires SumOfDelays(k, n, s.plugin) > s.bridge.staleMs
    requires forall ws :: ws in refused ==> s.first <= ws && SumOfDelays(k, ws - s.first, s.plugin) <= s.bridge.staleMs
    ensures forall ws :: ws in refused ==> s.first <= ws < s.first + n
  {
    forall ws | ws in refused ensures ws < s.first + n {
      if ws >= s.first + n { SumsGrow(k, n, ws - s.first, s.plugin); }
    }
  }

  /** Bounded readmission. In every run of the two machines in which the old socket
      stays silent and nobody interferes at the plugin, with dials failing, frames
      delayed and timers late as they please: if `n` successive delays are sure to
      exceed the staleness window, then until a dial is admitted only the first `n`
      dials can have been refused. */
  lemma AtMostNRefusals(x: World, es: seq<Timed>, n: nat, s: Setup)
    requires Starts(x, s) && ValidRun(x, es, s) && UnaidedRun(es, s) && Run(x, es, s).admitted == {}
    requires SumOfDelays(x.client.tries, n, s.plugin) > s.bridge.staleMs
    ensures forall ws :: ws in Run(x, es, s).refused ==> s.first <= ws < s.first + n
    ensures |Run(x, es, s).refused| <= n
  {
    StartHolds(x, s);
    RunHolds(x, x, es, s);
    EarlyDials(Run(x, es, s).refused, x.client.tries, n, s);
    DialsCounted(Run(x, es, s).refused, s.first, n);
  }

  lemma {:induction false} DialsCounted(dials: set<Socket>, first: Socket, n: nat)
    requires forall ws :: ws in dials ==> first <= ws < first + n
    ensures |dials| <= n
    decreases n
  {
    if n > 0 {
      DialsCounted(dials - {first + n - 1}, first, n - 1);
    }
  }

  lemma LateIsNotTurnedAway(x0: World, y: World, e: Event, now: int, n: nat, s: Setup)
    requires Starts(x0, s) && Holds(x0, y, s) && Possible(y, e, now, s) && IsHello(y, e, s) && e.bridge.ws >= s.first + n
    requires SumOfDelays(x0.client.tries, n, s.plugin) > s.bridge.staleMs
    ensures !TurnsAway(y, e, now, s)
  {
    if TurnsAway(y, e, now, s) {
      RefusedIsEarly(x0, y, e, now, s);
      SumsGrow(x0.client.tries, n, e.bridge.ws - s.first, s.plugin);
    }
  }

  lemma NotTurnedAwayIsAdmitted(y: World, e: Event, now: int, s: Setup)
    requires Relay.Inv(y.relay) && Possible(y, e, now, s) && IsHello(y, e, s) && !TurnsAway(y, e, now, s)
    requires s.user !in y.relay.slots || Owns(y.relay.slots, s.user, s.silent)
    ensures var after := Next(y, e, now, s);
      && after.admitted == y.admitted + {e.bridge.ws}
      && s.user in after.relay.slots && after.relay.slots[s.user] == Slot(e.bridge.ws, now)
  {
    Relay.AdmittedHelloOwns(y.relay, e.bridge.ws, s.user, now, s.bridge);
  }

  /** And the dial after those `n` is admitted as soon as its hello arrives, unless
      somebody else has taken the slot. */
  lemma NextDialIsAdmitted(x: World, es: seq<Timed>, n: nat, e: Event, now: int, s: Setup)
    requires Starts(x, s) && ValidRun(x, es, s) && UnaidedRun(es, s) && Run(x, es, s).admitted == {}
    requires SumOfDelays(x.client.tries, n, s.plugin) > s.bridge.staleMs
    requires Possible(Run(x, es, s), e, now, s) && IsHello(Run(x, es, s), e, s) && e.bridge.ws >= s.first + n
    requires var slots := Run(x, es, s).relay.slots; s.user !in slots || Owns(slots, s.user, s.silent)
    ensures var after := Next(Run(x, es, s), e, now, s);
      && after.admitted == {e.bridge.ws}
      && s.user in after.relay.slots && after.relay.slots[s.user] == Slot(e.bridge.ws, now)
  {
    var y := Run(x, es, s);
    StartHolds(x, s);
    RunHolds(x, x, es, s);
    LateIsNotTurnedAway(x, y, e, now, n, s);
    NotTurnedAwayIsAdmitted(y, e, now, s);
  }

  // ----- The bound is attained ----------------------------------------------------------------

  /** Dial number `m` is on its way and none of its frames has reached the bridge. */
  ghost predicate Dialling(x: World, m: nat, s: Setup) {
    && Client.Inv(x.client, s.plugin) && Relay.Inv(x.relay) && x.client.now == x.now && x.relay.now <= x.now
    && x.client.ws == Some(Client.Live) && !x.client.stopped && !x.client.suspended
    && x.client.created == s.created + m && x.admitted == {}
    && Owns(x.relay.slots, s.user, s.silent) && x.relay.conns[s.silent].open && s.silent < s.first
    && forall ws :: ws in x.relay.seen ==> ws < s.first + m
  }

  lemma {:induction false} RunAppend(x: World, a: seq<Timed>, b: seq<Timed>, s: Setup)
    requires ValidRun(x, a, s) && ValidRun(Run(x, a, s), b, s)
    ensures ValidRun(x, a + b, s) && Run(x, a + b, s) == Run(Run(x, a, s), b, s)
    decreases |a|
  {
    if a == [] {
      assert a + b == b;
    } else {
      assert (a + b)[1..] == a[1..] + b;
      RunAppend(Next(x, a[0].event, a[0].now, s), a[1..], b, s);
    }
  }

  lemma RunOne(x: World, e: Timed, s: Setup)
    requires Possible(x, e.event, e.now, s)
    ensures ValidRun(x, [e], s) && Run(x, [e], s) == Next(x, e.event, e.now, s)
  {
    assert [e][1..] == [];
  }

  lemma HelloRefused(x: World, ws: Socket, s: Setup) returns (y: World)
    requires Relay.Inv(x.relay) && x.relay.now <= x.now && x.admitted == {}
    requires s.first <= ws && ws - s.first <= x.client.created - s.created
    requires ws in x.relay.conns && x.relay.conns[ws].user.None? && Owns(x.relay.slots, s.user, s.silent) && s.silent < s.first
    requires x.relay.conns[s.silent].open && x.now - x.relay.slots[s.user].lastSeenAt <= s.bridge.staleMs
    ensures var e := AtBridge(Relay.Receive(ws, Relay.Hello(Some(s.user))));
      Possible(x, e, x.now, s) && y == Next(x, e, x.now, s)
    ensures y.client == x.client && y.now == x.now && y.admitted == {} && y.refused == x.refused + {ws}
    ensures Relay.Inv(y.relay) && y.relay.now == x.now && y.relay.slots == x.relay.slots && y.relay.seen == x.relay.seen
    ensures y.relay.conns[s.silent].open
  {
    var hello := Relay.Receive(ws, Relay.Hello(Some(s.user)));
    Relay.StepKeepsInv(x.relay, hello, x.now, s.bridge);
    Relay.RefusedHelloChangesNothing(x.relay, ws, s.user, x.now, s.bridge);
    y := Next(x, AtBridge(hello), x.now, s);
  }

  lemma Connected(x: World, m: nat, s: Setup) returns (y: World)
    requires Dialling(x, m, s)
    ensures var e := AtBridge(Relay.Connect(s.first + m)); Possible(x, e, x.now, s) && y == Next(x, e, x.now, s)
    ensures y.client == x.client && y.now == x.now && y.admitted == {} && y.refused == x.refused
    ensures Relay.Inv(y.relay) && y.relay.now == x.now && y.relay.slots == x.relay.slots
    ensures y.relay.seen == x.relay.seen + {s.first + m}
    ensures s.first + m in y.relay.conns && y.relay.conns[s.first + m].user.None?
    ensures s.silent in y.relay.conns && y.relay.conns[s.silent].open
  {
    assert x.relay.conns[s.silent].user == Some(s.user);
    Relay.StepKeepsInv(x.relay, Relay.Connect(s.first + m), x.now, s.bridge);
    y := Next(x, AtBridge(Relay.Connect(s.first + m)), x.now, s);
  }

  lemma RunTwo(x: World, e: Timed, y: World, f: Timed, z: World, s: Setup)
    requires Possible(x, e.event, e.now, s) && y == Next(x, e.event, e.now, s)
    requires Possible(y, f.event, f.now, s) && z == Next(y, f.event, f.now, s)
    ensures ValidRun(x, [e, f], s) && Run(x, [e, f], s) == z
  {
    RunOne(x, e, s);
    RunOne(y, f, s);
    RunAppend(x, [e], [f], s);
    assert [e] + [f] == [e, f];
  }

  /** The bridge sees the connection and refuses its hello. */
  lemma Refused(x: World, m: nat, s: Setup) returns (es: seq<Timed>, y: World)
    requires Dialling(x, m, s) && x.now - x.relay.slots[s.user].lastSeenAt <= s.bridge.staleMs
    ensures ValidRun(x, es, s) && UnaidedRun(es, s) && Run(x, es, s) == y
    ensures y.client == x.client && y.now == x.now && Relay.Inv(y.relay) && y.relay.now == x.now
    ensures y.relay.slots == x.relay.slots && y.relay.conns[s.silent].open && y.relay.seen == x.relay.seen + {s.first + m}
    ensures y.admitted == {} && y.refused == x.refused + {s.first + m}
  {
    var ws := s.first + m;
    var connect := Timed(AtBridge(Relay.Connect(ws)), x.now);
    var hello := Timed(AtBridge(Relay.Receive(ws, Relay.Hello(Some(s.user)))), x.now);
    var open := Connected(x, m, s);
    y := HelloRefused(open, ws, s);
    RunTwo(x, connect, open, hello, y, s);
    es := [connect, hello];
  }

  /** The client sees the close, waits the shortest delay and dials again. */
  lemma DialsAgain(x: World, s: Setup) returns (es: seq<Timed>, y: World)
    requires Client.Inv(x.client, s.plugin) && x.client.now == x.now && x.client.ws == Some(Client.Live)
    requires !x.client.stopped && !x.client.suspended
    ensures ValidRun(x, es, s) && UnaidedRun(es, s) && Run(x, es, s) == y
    ensures y.relay == x.relay && y.refused == x.refused && y.admitted == x.admitted
    ensures y.now == y.client.now == x.now + MinDelay(Client.BackoffAfter(x.client.tries, s.plugin), s.plugin)
    ensures Client.Inv(y.client, s.plugin) && y.client.ws == Some(Client.Live) && !y.client.stopped && !y.client.suspended
    ensures y.client.created == x.client.created + 1 && y.client.tries == x.client.tries + 1
  {
    var luck := Client.Luck(true, 0.75);
    var later := x.now + MinDelay(Client.BackoffAfter(x.client.tries, s.plugin), s.plugin);
    var close := Timed(AtPlugin(Client.CloseEvent(SLOT_IN_USE)), x.now);
    var settle := Timed(AtPlugin(Client.CloseSettles(luck)), x.now);
    var fire := Timed(AtPlugin(Client.TimerFires(luck)), later);
    var closed := Next(x, close.event, x.now, s);
    Client.StepKeepsInv(x.client, close.event.plugin, x.now, s.plugin);
    var settled := Next(closed, settle.event, x.now, s);
    Client.StepKeepsInv(closed.client, settle.event.plugin, x.now, s.plugin);
    assert settled.client.timer == Some(later);
    y := Next(settled, fire.event, later, s);
    Client.StepKeepsInv(settled.client, fire.event.plugin, later, s.plugin);
    RunOne(x, close, s);
    RunOne(closed, settle, s);
    RunOne(settled, fire, s);
    RunAppend(x, [close], [settle], s);
    RunAppend(x, [close] + [settle], [fire], s);
    es := [close] + [settle] + [fire];
  }

  /** One refused dial and the next one on its way. */
  lemma OneRound(x: World, m: nat, s: Setup) returns (es: seq<Timed>, z: World)
    requires Dialling(x, m, s) && x.now - x.relay.slots[s.user].lastSeenAt <= s.bridge.staleMs
    ensures ValidRun(x, es, s) && UnaidedRun(es, s) && Run(x, es, s) == z
    ensures Dialling(z, m + 1, s) && z.relay.slots == x.relay.slots && s.first + m in z.refused
    ensures z.client.tries == x.client.tries + 1
    ensures z.now == x.now + MinDelay(Client.BackoffAfter(x.client.tries, s.plugin), s.plugin)
  {
    var front, y := Refused(x, m, s);
    var back;
    back, z := DialsAgain(y, s);
    RunAppend(x, front, back, s);
    es := front + back;
  }

  /** A run without help that refuses every dial from `lo` up to `hi`. */
  ghost predicate RefusesAll(x: World, es: seq<Timed>, lo: Socket, hi: Socket, s: Setup) {
    && ValidRun(x, es, s) && UnaidedRun(es, s) && Run(x, es, s).admitted == {}
    && forall ws :: lo <= ws < hi ==> ws in Run(x, es, s).refused
  }

  lemma RefusesOneMore(x: World, front: seq<Timed>, z: World, rest: seq<Timed>, lo: Socket, hi: Socket, s: Setup)
    requires ValidRun(x, front, s) && UnaidedRun(front, s) && Run(x, front, s) == z
    requires lo in z.refused && RefusesAll(z, rest, lo + 1, hi, s)
    ensures RefusesAll(x, front + rest, lo, hi, s)
  {
    RunAppend(x, front, rest, s);
    CountsGrow(z, rest, s);
  }

  lemma {:induction false} RefusedAgainAndAgain(x: World, m: nat, n: nat, s: Setup) returns (es: seq<Timed>)
    requires Dialling(x, m, s) && n > 0
    requires x.now + SumOfDelays(x.client.tries, n - 1, s.plugin) <= x.relay.slots[s.user].lastSeenAt + s.bridge.staleMs
    ensures RefusesAll(x, es, s.first + m, s.first + m + n, s)
    decreases n
  {
    if n == 1 {
      var y;
      es, y := Refused(x, m, s);
    } else {
      var front, z := OneRound(x, m, s);
      var rest := RefusedAgainAndAgain(z, m + 1, n - 1, s);
      RefusesOneMore(x, front, z, rest, s.first + m, s.first + m + n, s);
      es := front + rest;
    }
  }

  /** With the shortest jitter and no latency, a client that dials while the slot is
      fresh is refused as often as the sums allow. */
  lemma RefusalsAttained(x: World, n: nat, s: Setup) returns (es: seq<Timed>)
    requires Starts(x, s) && x.client.now == x.now && x.relay.conns[s.silent].open && n > 0
    requires forall ws :: ws in x.relay.seen ==> ws < s.first
    requires x.now + SumOfDelays(x.client.tries, n - 1, s.plugin) <= x.relay.slots[s.user].lastSeenAt + s.bridge.staleMs
    ensures ValidRun(x, es, s) && UnaidedRun(es, s) && Run(x, es, s).admitted == {}
    ensures forall ws :: s.first <= ws < s.first + n ==> ws in Run(x, es, s).refused
  {
    es := RefusedAgainAndAgain(x, 0, n, s);
  }

  const DEFAULTS := Client.Config(1000, 60000)
  const DEFAULT_STALE_MS: nat := 60000

  lemma DefaultSums()
    ensures SumOfDelays(0, 7, DEFAULTS) == 92250 && SumOfDelays(0, 6, DEFAULTS) == 47250
  {
    assert Client.Pow2(1) == 2 && Client.Pow2(2) == 4 && Client.Pow2(3) == 8;
    assert Client.Pow2(4) == 16 && Client.Pow2(5) == 32 && Client.Pow2(6) == 64;
    DefaultDelay(0, 1000); DefaultDelay(1, 2000); DefaultDelay(2, 4000); DefaultDelay(3, 8000);
    DefaultDelay(4, 16000); DefaultDelay(5, 32000); DefaultDelay(6, 60000);
    assert SumOfDelays(7, 0, DEFAULTS) == 0 && SumOfDelays(6, 0, DEFAULTS) == 0;
    assert SumOfDelays(6, 1, DEFAULTS) == 45000;
    assert SumOfDelays(5, 2, DEFAULTS) == 69000 && SumOfDelays(5, 1, DEFAULTS) == 24000;
    assert SumOfDelays(4, 3, DEFAULTS) == 81000 && SumOfDelays(4, 2, DEFAULTS) == 36000;
    assert SumOfDelays(3, 4, DEFAULTS) == 87000 && SumOfDelays(3, 3, DEFAULTS) == 42000;
    assert SumOfDelays(2, 5, DEFAULTS) == 90000 && SumOfDelays(2, 4, DEFAULTS) == 45000;
    assert SumOfDelays(1, 6, DEFAULTS) == 91500 && SumOfDelays(1, 5, DEFAULTS) == 46500;
  }

  lemma DefaultDelay(k: nat, backoff: nat)
    requires Client.BackoffAfter(k, DEFAULTS) == backoff && backoff % 4 == 0 && backoff <= 60000
    ensures MinDelay(Client.BackoffAfter(k, DEFAULTS), DEFAULTS) == backoff / 4 * 3
  {
    RoundUnique(backoff as real * 0.75, backoff / 4 * 3);
  }

  /** With the default 1 s, 60 s and 60 s a client that has not retried yet is refused
      at most seven times, and seven is reached. */
  lemma SevenRefusalsByDefault(x: World, es: seq<Timed>, s: Setup) returns (worst: seq<Timed>)
    requires Starts(x, s) && ValidRun(x, es, s) && UnaidedRun(es, s) && Run(x, es, s).admitted == {}
    requires s.plugin == DEFAULTS && s.bridge.staleMs == DEFAULT_STALE_MS && x.client.tries == 0
    requires x.client.now == x.now == x.relay.slots[s.user].lastSeenAt && x.relay.conns[s.silent].open
    requires forall ws :: ws in x.relay.seen ==> ws < s.first
    ensures |Run(x, es, s).refused| <= 7
    ensures ValidRun(x, worst, s) && UnaidedRun(worst, s) && Run(x, worst, s).admitted == {}
    ensures forall ws :: ws in Run(x, worst, s).refused <==> s.first <= ws < s.first + 7
  {
    DefaultSums();
    AtMostNRefusals(x, es, 7, s);
    worst := RefusalsAttained(x, 7, s);
    AtMostNRefusals(x, worst, 7, s);
  }
}
