/** A plugin that answers its pings in time keeps its slot: no other socket's
    hello displaces it and the heartbeat never closes it. */
module LiveOwner {
  import opened AlexaModel
  import opened Routing
  import opened Dispatch
  import opened Relay

  /** `latencyMs` bounds the time from a ping to the arrival of its pong, `jitterMs`
      how late the ping interval may fire. */
  datatype Timing = Timing(latencyMs: nat, jitterMs: nat)

  predicate InTime(cfg: Config, t: Timing) {
    cfg.heartbeatMs + t.jitterMs + t.latencyMs <= cfg.staleMs && t.latencyMs < cfg.pongMs
  }

  /** The relay together with the pings of the watched socket that are still owed
      a pong, oldest first, and the time of the last ping (or the welcome). */
  datatype Watch = Watch(relay: Relay, owed: seq<int>, lastPing: int)

  /** Time does not pass the moment at which the interval has to fire or an owed
      pong has to arrive. */
  predicate Prompt(x: Watch, ws: Socket, now: int, t: Timing) {
    && (ws in x.relay.conns && x.relay.conns[ws].pingDue.Some? ==> now <= x.relay.conns[ws].pingDue.value + t.jitterMs)
    && (x.owed != [] ==> now <= x.owed[0] + t.latencyMs)
  }

  /** The plugin keeps its socket open and sends well-formed frames. */
  predicate Behaved(e: Event, ws: Socket) {
    e != Drop(ws) && e != Closed(ws) && !(e.Receive? && e.ws == ws && (e.message.Malformed? || e.message.Hello?))
  }

  function Next(x: Watch, ws: Socket, e: Event, now: int, cfg: Config): Watch
    requires Possible(x.relay, e, now)
  {
    Watch(Step(x.relay, e, now, cfg),
          if e == PingTick(ws) then x.owed + [now]
          else if e == Receive(ws, Pong) && x.owed != [] then x.owed[1..]
          else x.owed,
          if e == PingTick(ws) then now else x.lastPing)
  }

  predicate PromptRun(x: Watch, ws: Socket, es: seq<Timed>, cfg: Config, t: Timing)
    decreases |es|
  {
    es == []
    || (Possible(x.relay, es[0].event, es[0].now) && Prompt(x, ws, es[0].now, t) && Behaved(es[0].event, ws)
        && PromptRun(Next(x, ws, es[0].event, es[0].now, cfg), ws, es[1..], cfg, t))
  }

  function WatchRun(x: Watch, ws: Socket, es: seq<Timed>, cfg: Config, t: Timing): Watch
    requires PromptRun(x, ws, es, cfg, t)
    decreases |es|
  {
    if es == [] then x else WatchRun(Next(x, ws, es[0].event, es[0].now, cfg), ws, es[1..], cfg, t)
  }

  /** The watched socket owns the slot and is open. */
  predicate Holds(w: Relay, user: User, ws: Socket) {
    && Owns(w.slots, user, ws)
    && ws in w.conns && w.conns[ws].open && w.conns[ws].user == Some(user)
  }

  ghost predicate OwedInOrder(x: Watch, cfg: Config, t: Timing) {
    && (forall i :: 0 <= i < |x.owed| ==> x.owed[i] <= x.lastPing)
    && (forall i :: 0 <= i < |x.owed| - 1 ==> x.owed[i + 1] <= x.owed[i] + cfg.heartbeatMs + t.jitterMs)
    && (x.owed != [] ==> x.owed[|x.owed| - 1] == x.lastPing)
  }

  /** The slot was refreshed no earlier than one ping interval before the oldest
      owed ping, and the pong deadline counts from an owed ping. */
  ghost predicate LiveInv(x: Watch, user: User, ws: Socket, cfg: Config, t: Timing) {
    && Inv(x.relay) && Holds(x.relay, user, ws) && OwedInOrder(x, cfg, t)
    && var c := x.relay.conns[ws];
       var seen := x.relay.slots[user].lastSeenAt;
       && x.lastPing <= x.relay.now
       && c.pingDue == Some(x.lastPing + cfg.heartbeatMs)
       && (if x.owed == [] then x.lastPing <= seen else x.owed[0] <= seen + cfg.heartbeatMs + t.jitterMs)
       && !c.pong.Fired?
       && (c.pong.Armed? ==> x.owed != [] && x.owed[0] + cfg.pongMs <= c.pong.due)
  }

  /** At no prompt moment is the owner stale. */
  lemma NeverStale(x: Watch, user: User, ws: Socket, now: int, cfg: Config, t: Timing)
    requires LiveInv(x, user, ws, cfg, t) && Prompt(x, ws, now, t) && InTime(cfg, t)
    ensures LiveSlot(x.relay.slots[user], OpenSockets(x.relay.conns), now, cfg.staleMs)
  {
  }

  lemma PongDeadlineNeverFires(x: Watch, user: User, ws: Socket, now: int, cfg: Config, t: Timing)
    requires LiveInv(x, user, ws, cfg, t) && Prompt(x, ws, now, t) && InTime(cfg, t)
    ensures !Possible(x.relay, PongTimeout(ws), now)
  {
  }

  /** What the watch looks at is the watched connection and its slot. */
  predicate SameForOwner(w: Relay, v: Relay, user: User, ws: Socket) {
    && ws in w.conns && ws in v.conns && v.conns[ws] == w.conns[ws]
    && user in w.slots && user in v.slots && v.slots[user] == w.slots[user]
    && w.now <= v.now
  }

  lemma FrameKeeps(x: Watch, v: Relay, user: User, ws: Socket, cfg: Config, t: Timing)
    requires LiveInv(x, user, ws, cfg, t) && Inv(v) && SameForOwner(x.relay, v, user, ws)
    ensures LiveInv(Watch(v, x.owed, x.lastPing), user, ws, cfg, t)
  {
  }

  lemma ForeignHello(w: Relay, user: User, ws: Socket, other: Socket, claimed: User, cfg: Config)
    requires Inv(w) && Holds(w, user, ws) && other != ws && other in w.conns
    requires LiveSlot(w.slots[user], OpenSockets(w.conns), w.now, cfg.staleMs)
    ensures SameForOwner(w, OnHello(w, other, claimed, cfg), user, ws)
  {
    if claimed in w.slots {
      assert w.conns[w.slots[claimed].ws].user == Some(claimed);
    }
  }

  lemma ForeignMessage(w: Relay, user: User, ws: Socket, other: Socket, m: Message, cfg: Config)
    requires Inv(w) && Holds(w, user, ws) && other != ws && other in w.conns
    requires LiveSlot(w.slots[user], OpenSockets(w.conns), w.now, cfg.staleMs)
    ensures SameForOwner(w, OnMessage(w, other, m, cfg), user, ws)
  {
    if !m.Malformed? && w.conns[other].user.None? && m.Hello? && m.user.Some? {
      ForeignHello(w, user, ws, other, m.user.value, cfg);
    }
  }

  lemma ForeignClose(w: Relay, user: User, ws: Socket, other: Socket)
    requires Inv(w) && Holds(w, user, ws) && other != ws && other in w.conns
    ensures SameForOwner(w, OnClosed(w, other), user, ws)
  {
  }

  lemma ForeignStep(w: Relay, user: User, ws: Socket, e: Event, now: int, cfg: Config)
    requires Inv(w) && Holds(w, user, ws) && Possible(w, e, now)
    requires LiveSlot(w.slots[user], OpenSockets(w.conns), now, cfg.staleMs)
    requires e.Send? || e.DispatchTimeout? || e.Idle? || e.Connect? || e.ws != ws
    ensures SameForOwner(w, Step(w, e, now, cfg), user, ws)
  {
    var at := w.(now := now);
    match e
    case Receive(other, m) => ForeignMessage(at, user, ws, other, m, cfg);
    case Closed(other) => ForeignClose(at, user, ws, other);
    case _ =>
  }

  lemma OtherKeeps(x: Watch, user: User, ws: Socket, e: Event, now: int, cfg: Config, t: Timing)
    requires LiveInv(x, user, ws, cfg, t) && Prompt(x, ws, now, t) && InTime(cfg, t) && Possible(x.relay, e, now)
    requires e.Send? || e.DispatchTimeout? || e.Idle? || e.Connect? || e.ws != ws
    ensures LiveInv(Next(x, ws, e, now, cfg), user, ws, cfg, t)
  {
    NeverStale(x, user, ws, now, cfg, t);
    StepKeepsInv(x.relay, e, now, cfg);
    ForeignStep(x.relay, user, ws, e, now, cfg);
    FrameKeeps(x, Step(x.relay, e, now, cfg), user, ws, cfg, t);
  }

  /** A pong settles the oldest owed ping; any frame refreshes the slot. */
  lemma PongKeeps(x: Watch, user: User, ws: Socket, now: int, cfg: Config, t: Timing)
    requires LiveInv(x, user, ws, cfg, t) && x.relay.now <= now
    ensures LiveInv(Next(x, ws, Receive(ws, Pong), now, cfg), user, ws, cfg, t)
  {
    StepKeepsInv(x.relay, Receive(ws, Pong), now, cfg);
  }

  lemma FrameOfOwnerKeeps(x: Watch, user: User, ws: Socket, m: Message, now: int, cfg: Config, t: Timing)
    requires LiveInv(x, user, ws, cfg, t) && x.relay.now <= now && (m.Response? || m.Other?)
    ensures LiveInv(Next(x, ws, Receive(ws, m), now, cfg), user, ws, cfg, t)
  {
    StepKeepsInv(x.relay, Receive(ws, m), now, cfg);
    var v := Step(x.relay, Receive(ws, m), now, cfg);
    assert v.conns[ws] == x.relay.conns[ws] && v.slots[user] == Slot(ws, now);
  }

  lemma PingKeeps(x: Watch, user: User, ws: Socket, now: int, cfg: Config, t: Timing)
    requires LiveInv(x, user, ws, cfg, t) && Prompt(x, ws, now, t) && Possible(x.relay, PingTick(ws), now)
    ensures LiveInv(Next(x, ws, PingTick(ws), now, cfg), user, ws, cfg, t)
  {
    StepKeepsInv(x.relay, PingTick(ws), now, cfg);
  }

  lemma StepKeepsLiveInv(x: Watch, user: User, ws: Socket, e: Event, now: int, cfg: Config, t: Timing)
    requires LiveInv(x, user, ws, cfg, t) && Prompt(x, ws, now, t) && InTime(cfg, t)
    requires Possible(x.relay, e, now) && Behaved(e, ws)
    ensures LiveInv(Next(x, ws, e, now, cfg), user, ws, cfg, t)
  {
    if e.Send? || e.DispatchTimeout? || e.Idle? || e.Connect? || e.ws != ws {
      OtherKeeps(x, user, ws, e, now, cfg, t);
    } else {
      PongDeadlineNeverFires(x, user, ws, now, cfg, t);
      if e == Receive(ws, Pong) { PongKeeps(x, user, ws, now, cfg, t); }
      else if e.Receive? { FrameOfOwnerKeeps(x, user, ws, e.message, now, cfg, t); }
      else { PingKeeps(x, user, ws, now, cfg, t); }
    }
  }

  lemma {:induction false} RunKeepsLiveInv(x: Watch, user: User, ws: Socket, es: seq<Timed>, cfg: Config, t: Timing)
    requires LiveInv(x, user, ws, cfg, t) && InTime(cfg, t) && PromptRun(x, ws, es, cfg, t)
    ensures LiveInv(WatchRun(x, ws, es, cfg, t), user, ws, cfg, t)
    decreases |es|
  {
    if es != [] {
      StepKeepsLiveInv(x, user, ws, es[0].event, es[0].now, cfg, t);
      RunKeepsLiveInv(Next(x, ws, es[0].event, es[0].now, cfg), user, ws, es[1..], cfg, t);
    }
  }

  /** An accepted hello of an open socket starts the watch. */
  lemma WelcomeStartsWatch(w: Relay, user: User, ws: Socket, now: int, cfg: Config, t: Timing)
    requires Inv(w) && Possible(w, Receive(ws, Hello(Some(user))), now)
    requires w.conns[ws].user.None? && w.conns[ws].open
    requires !(user in w.slots && LiveSlot(w.slots[user], OpenSockets(w.conns), now, cfg.staleMs))
    ensures LiveInv(Watch(Step(w, Receive(ws, Hello(Some(user))), now, cfg), [], now), user, ws, cfg, t)
  {
    StepKeepsInv(w, Receive(ws, Hello(Some(user))), now, cfg);
    assert user in w.slots ==> w.slots[user].ws != ws;
  }

  /** At `later` a hello of `other` is refused without touching the slot, and no
      timer can close the owner. */
  predicate Protected(w: Relay, user: User, ws: Socket, other: Socket, later: int, cfg: Config) {
    && TryAdd(w.slots, user, other, OpenSockets(w.conns), later, cfg.staleMs) == (w.slots, Rejected)
    && !Possible(w, PongTimeout(ws), later)
    && !Possible(w, HelloTimeout(ws), later)
  }

  lemma LiveInvProtects(x: Watch, user: User, ws: Socket, other: Socket, later: int, cfg: Config, t: Timing)
    requires LiveInv(x, user, ws, cfg, t) && Prompt(x, ws, later, t) && InTime(cfg, t)
    ensures Protected(x.relay, user, ws, other, later, cfg)
  {
    NeverStale(x, user, ws, later, cfg, t);
    PongDeadlineNeverFires(x, user, ws, later, cfg, t);
    assert HandshakeTimers(x.relay.conns[ws]);
  }

  /** A live owner keeps its slot. From an accepted hello on, in every run in which
      the plugin answers its pings in time: it owns its slot on an open socket,
      every hello of another socket for its user is refused without touching the
      slot, and neither timer of the heartbeat can close it. */
  lemma LiveOwnerKeepsSlot(w: Relay, user: User, ws: Socket, now: int, es: seq<Timed>, cfg: Config, t: Timing,
                           other: Socket, later: int)
    requires InTime(cfg, t) && Inv(w) && Possible(w, Receive(ws, Hello(Some(user))), now)
    requires w.conns[ws].user.None? && w.conns[ws].open
    requires !(user in w.slots && LiveSlot(w.slots[user], OpenSockets(w.conns), now, cfg.staleMs))
    requires PromptRun(Watch(Step(w, Receive(ws, Hello(Some(user))), now, cfg), [], now), ws, es, cfg, t)
    ensures var x := WatchRun(Watch(Step(w, Receive(ws, Hello(Some(user))), now, cfg), [], now), ws, es, cfg, t);
      && Holds(x.relay, user, ws)
      && (Prompt(x, ws, later, t) ==> Protected(x.relay, user, ws, other, later, cfg))
  {
    var start := Watch(Step(w, Receive(ws, Hello(Some(user))), now, cfg), [], now);
    WelcomeStartsWatch(w, user, ws, now, cfg, t);
    RunKeepsLiveInv(start, user, ws, es, cfg, t);
    var x := WatchRun(start, ws, es, cfg, t);
    if Prompt(x, ws, later, t) { LiveInvProtects(x, user, ws, other, later, cfg, t); }
  }

  // ----- The condition cannot be relaxed -------------------------------------------------

  /** Socket 1 owns the slot since time 0 and has said nothing since; its first ping
      went out at `first`. */
  ghost predicate Silent(x: Watch, user: User, first: int, cfg: Config) {
    && x.relay.slots == map[user := Slot(1, 0)] && x.relay.conns.Keys == {1} && x.relay.seen == {1}
    && x.relay.conns[1].user == Some(user) && x.relay.conns[1].open
    && x.relay.conns[1].pingDue == Some(x.lastPing + cfg.heartbeatMs) && x.relay.now == x.lastPing
    && (x.owed == [] ==> x.lastPing == 0 && x.relay.conns[1].pong.Unarmed?)
    && (x.owed != [] ==> x.owed[0] == first <= x.lastPing && x.relay.conns[1].pong == Armed(first + cfg.pongMs))
  }

  lemma {:induction false} PromptAppend(x: Watch, a: seq<Timed>, b: seq<Timed>, cfg: Config, t: Timing)
    requires PromptRun(x, 1, a, cfg, t) && PromptRun(WatchRun(x, 1, a, cfg, t), 1, b, cfg, t)
    ensures PromptRun(x, 1, a + b, cfg, t)
    ensures WatchRun(x, 1, a + b, cfg, t) == WatchRun(WatchRun(x, 1, a, cfg, t), 1, b, cfg, t)
    decreases |a|
  {
    if a == [] {
      assert a + b == b;
    } else {
      assert (a + b)[1..] == a[1..] + b;
      PromptAppend(Next(x, 1, a[0].event, a[0].now, cfg), a[1..], b, cfg, t);
    }
  }

  lemma PromptOne(x: Watch, e: Timed, cfg: Config, t: Timing)
    requires Possible(x.relay, e.event, e.now) && Prompt(x, 1, e.now, t) && Behaved(e.event, 1)
    ensures PromptRun(x, 1, [e], cfg, t) && WatchRun(x, 1, [e], cfg, t) == Next(x, 1, e.event, e.now, cfg)
  {
    assert [e][1..] == [];
  }

  /** Pings go out, the first one at `first`, and nothing comes back, up to the
      last ping before `until`. */
  lemma {:induction false} SilentUntil(x: Watch, user: User, first: int, until: int, cfg: Config, t: Timing)
    returns (es: seq<Timed>, y: Watch)
    requires 0 < cfg.heartbeatMs <= first <= cfg.heartbeatMs + t.jitterMs
    requires Silent(x, user, first, cfg) && x.lastPing <= until && first <= until <= first + t.latencyMs
    ensures PromptRun(x, 1, es, cfg, t) && WatchRun(x, 1, es, cfg, t) == y
    ensures Silent(y, user, first, cfg) && y.owed != [] && y.lastPing <= until <= y.lastPing + cfg.heartbeatMs
    decreases until - x.lastPing
  {
    if x.owed != [] && until <= x.lastPing + cfg.heartbeatMs {
      es, y := [], x;
    } else {
      var e := Timed(PingTick(1), if x.owed == [] then first else x.lastPing + cfg.heartbeatMs);
      var next := Next(x, 1, e.event, e.now, cfg);
      var rest;
      rest, y := SilentUntil(next, user, first, until, cfg, t);
      PromptOne(x, e, cfg, t);
      PromptAppend(x, [e], rest, cfg, t);
      es := [e] + rest;
    }
  }

  /** A newcomer dials at the first moment at which the owner counts as stale. */
  lemma NewcomerDisplaces(x: Watch, user: User, first: int, cfg: Config, t: Timing) returns (es: seq<Timed>)
    requires Silent(x, user, first, cfg) && x.lastPing <= cfg.staleMs + 1
    requires Prompt(x, 1, cfg.staleMs + 1, t)
    ensures PromptRun(x, 1, es, cfg, t) && !Holds(WatchRun(x, 1, es, cfg, t).relay, user, 1)
  {
    var at := cfg.staleMs + 1;
    var e0, e1 := Timed(Connect(2), at), Timed(Receive(2, Hello(Some(user))), at);
    var y := Next(x, 1, e0.event, at, cfg);
    var z := Next(y, 1, e1.event, at, cfg);
    assert z.relay.slots[user].ws == 2;
    PromptOne(x, e0, cfg, t);
    PromptOne(y, e1, cfg, t);
    PromptAppend(x, [e0], [e1], cfg, t);
    es := [e0] + [e1];
  }

  lemma StaleWhileAnswering(x: Watch, user: User, cfg: Config, t: Timing) returns (es: seq<Timed>)
    requires Silent(x, user, cfg.heartbeatMs + t.jitterMs, cfg) && x.owed == []
    requires 0 < cfg.heartbeatMs && cfg.staleMs < cfg.heartbeatMs + t.jitterMs + t.latencyMs
    ensures PromptRun(x, 1, es, cfg, t) && !Holds(WatchRun(x, 1, es, cfg, t).relay, user, 1)
  {
    var first := cfg.heartbeatMs + t.jitterMs;
    if cfg.staleMs < first {
      es := NewcomerDisplaces(x, user, first, cfg, t);
    } else {
      var pings, y := SilentUntil(x, user, first, cfg.staleMs + 1, cfg, t);
      var rest := NewcomerDisplaces(y, user, first, cfg, t);
      PromptAppend(x, pings, rest, cfg, t);
      es := pings + rest;
    }
  }

  /** The pong deadline of the first ping passes while its pong is on the way. */
  lemma DeadlineWhileAnswering(x: Watch, user: User, cfg: Config, t: Timing) returns (es: seq<Timed>)
    requires Silent(x, user, cfg.heartbeatMs, cfg) && x.owed == []
    requires 0 < cfg.heartbeatMs && cfg.pongMs <= t.latencyMs
    ensures PromptRun(x, 1, es, cfg, t) && !Holds(WatchRun(x, 1, es, cfg, t).relay, user, 1)
  {
    var due := cfg.heartbeatMs + cfg.pongMs;
    var pings, y := SilentUntil(x, user, cfg.heartbeatMs, due, cfg, t);
    var e := Timed(PongTimeout(1), due);
    PromptOne(y, e, cfg, t);
    PromptAppend(x, pings, [e], cfg, t);
    es := pings + [e];
  }

  /** The bound is exact: for all settings beyond it some plugin that answers every
      ping in its time loses its slot all the same, while a pong is on the way, to
      a newcomer or to the pong deadline. */
  lemma SlowAnswerLosesSlot(user: User, cfg: Config, t: Timing) returns (es: seq<Timed>)
    requires 0 < cfg.heartbeatMs && !InTime(cfg, t)
    ensures var w := Step(EMPTY, Connect(1), 0, cfg);
      && Possible(w, Receive(1, Hello(Some(user))), 0)
      && var start := Watch(Step(w, Receive(1, Hello(Some(user))), 0, cfg), [], 0);
         && Holds(start.relay, user, 1)
         && PromptRun(start, 1, es, cfg, t)
         && !Holds(WatchRun(start, 1, es, cfg, t).relay, user, 1)
  {
    var w := Step(EMPTY, Connect(1), 0, cfg);
    var start := Watch(Step(w, Receive(1, Hello(Some(user))), 0, cfg), [], 0);
    if cfg.pongMs <= t.latencyMs {
      es := DeadlineWhileAnswering(start, user, cfg, t);
    } else {
      es := StaleWhileAnswering(start, user, cfg, t);
    }
  }
}
