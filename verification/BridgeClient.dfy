/** The plugin's reconnect machine. `onClose` awaits a state write in the middle,
    so the close of a socket is two steps with anything in between. */
module BridgeClient {
  import opened AlexaModel
  import opened JsNumbers

  datatype Config = Config(initialMs: nat, maxMs: nat)

  /** The socket in `this.ws`: usable, closing, or closed with the rest of the
      close handler still to run. */
  datatype Phase = Live | Closing | CloseSeen(code: int)

  /** `sockets` counts the sockets whose close event has not been seen, `created`
      those ever created, `tries` the retries scheduled since the last reset. */
  datatype Client = Client(
    now: int, started: bool, stopped: bool, suspended: bool, wantsReconnect: bool,
    ws: Option<Phase>, timer: Option<int>, backoff: nat,
    givenUp: bool, sockets: nat, created: nat, tries: nat)

  function Fresh(cfg: Config): Client {
    Client(0, false, false, false, false, None, None, cfg.initialMs, false, 0, 0, 0)
  }

  /** CLOSE_ACTIONS: the codes that are not retried. */
  predicate NoRetry(code: int) {
    code in {1000, 4002, 4003}
  }

  /** Whether the WebSocket constructor throws and what Math.random yields: the
      jitter is a factor between 3/4 and 5/4. */
  datatype Luck = Luck(constructed: bool, jitter: real)

  predicate LuckOk(l: Luck) {
    0.75 <= l.jitter < 1.25
  }

  function Min(a: int, b: int): int {
    if a < b then a else b
  }

  function Delay(backoff: nat, jitter: real, cfg: Config): int {
    Min(Round(backoff as real * jitter), cfg.maxMs)
  }

  function ScheduleReconnect(c: Client, jitter: real, cfg: Config): Client {
    if c.stopped || c.suspended || c.timer.Some? then c
    else c.(timer := Some(c.now + Delay(c.backoff, jitter, cfg)), backoff := Min(c.backoff * 2, cfg.maxMs), tries := c.tries + 1)
  }

  function Connect(c: Client, l: Luck, cfg: Config): Client {
    if c.stopped then c
    else if !l.constructed then ScheduleReconnect(c.(givenUp := false), l.jitter, cfg)
    else c.(ws := Some(Live), givenUp := false, sockets := c.sockets + 1, created := c.created + 1)
  }

  function CloseWs(c: Client): Client {
    if c.ws == Some(Live) then c.(ws := Some(Closing)) else c
  }

  function ResetBackoff(c: Client, cfg: Config): Client {
    c.(backoff := cfg.initialMs, tries := 0)
  }

  datatype Event =
    | Start(luck: Luck)
    | SetEnabled(enabled: bool, luck: Luck)
    | Stop
    | Welcome(versionOk: bool)
    | CloseBegins
    | CloseEvent(code: int)
    | CloseSettles(luck: Luck)
    | ForceReconnect(luck: Luck)
    | TimerFires(luck: Luck)

  /** `start()` is called once, before the master switch is turned on. */
  predicate Possible(c: Client, e: Event, now: int) {
    c.now <= now
    && match e
       case Start(l) => !c.started && LuckOk(l)
       case SetEnabled(enabled, l) => (c.started || !enabled) && LuckOk(l)
       case Stop => true
       case Welcome(_) => c.ws == Some(Live) || c.ws == Some(Closing)
       case CloseBegins => c.ws == Some(Live)
       case CloseEvent(_) => c.ws == Some(Live) || c.ws == Some(Closing)
       case CloseSettles(l) => c.ws.Some? && c.ws.value.CloseSeen? && LuckOk(l)
       case ForceReconnect(l) => c.started && LuckOk(l)
       case TimerFires(l) => c.timer.Some? && c.timer.value <= now && LuckOk(l)
  }

  function OnSetEnabled(c: Client, enabled: bool, l: Luck, cfg: Config): Client {
    if c.stopped || c.suspended == !enabled then c
    else if !enabled then CloseWs(c.(suspended := true, timer := None))
    else
      var resumed := ResetBackoff(c.(suspended := false), cfg);
      if c.ws.None? && c.timer.None? then Connect(resumed, l, cfg) else resumed
  }

  function OnStop(c: Client): Client {
    if c.stopped then c else CloseWs(c.(stopped := true, timer := None))
  }

  function OnWelcome(c: Client, versionOk: bool, cfg: Config): Client {
    if versionOk then ResetBackoff(c, cfg) else CloseWs(c.(stopped := true))
  }

  /** What `onClose` does after its await. */
  function OnCloseSettled(c: Client, code: int, l: Luck, cfg: Config): Client {
    var gone := c.(ws := None);
    if c.stopped || c.suspended then gone
    else
      var consumed := gone.(wantsReconnect := false);
      if !c.wantsReconnect && NoRetry(code) then consumed.(givenUp := true)
      else ScheduleReconnect(consumed, l.jitter, cfg)
  }

  function OnForceReconnect(c: Client, l: Luck, cfg: Config): Client {
    if c.stopped then c
    else
      var wanted := ResetBackoff(c.(wantsReconnect := true), cfg);
      if c.ws.Some? then CloseWs(wanted)
      else if c.timer.None? then Connect(wanted, l, cfg)
      else wanted
  }

  function Step(c: Client, e: Event, now: int, cfg: Config): Client
    requires Possible(c, e, now)
  {
    var at := c.(now := now);
    match e
    case Start(l) => if c.stopped || c.suspended then at.(started := true) else Connect(at.(started := true), l, cfg)
    case SetEnabled(enabled, l) => OnSetEnabled(at, enabled, l, cfg)
    case Stop => OnStop(at)
    case Welcome(ok) => OnWelcome(at, ok, cfg)
    case CloseBegins => CloseWs(at)
    case CloseEvent(code) => at.(ws := Some(CloseSeen(code)), sockets := if at.sockets > 0 then at.sockets - 1 else 0)
    case CloseSettles(l) => OnCloseSettled(at, at.ws.value.code, l, cfg)
    case ForceReconnect(l) => OnForceReconnect(at, l, cfg)
    case TimerFires(l) => Connect(at.(timer := None), l, cfg)
  }

  datatype Timed = Timed(event: Event, now: int)

  predicate ValidRun(c: Client, es: seq<Timed>, cfg: Config)
    decreases |es|
  {
    es == [] || (Possible(c, es[0].event, es[0].now) && ValidRun(Step(c, es[0].event, es[0].now, cfg), es[1..], cfg))
  }

  function Run(c: Client, es: seq<Timed>, cfg: Config): Client
    requires ValidRun(c, es, cfg)
    decreases |es|
  {
    if es == [] then c else Run(Step(c, es[0].event, es[0].now, cfg), es[1..], cfg)
  }

  // ----- One socket or one timer ------------------------------------------------------

  function Pow2(k: nat): (p: nat)
    ensures p > 0
  {
    if k == 0 then 1 else 2 * Pow2(k - 1)
  }

  /** The doubling backoff after `k` scheduled retries. */
  function BackoffAfter(k: nat, cfg: Config): nat {
    if k == 0 then cfg.initialMs else Min(cfg.initialMs * Pow2(k), cfg.maxMs)
  }

  predicate WantsConnection(c: Client) {
    c.started && !c.stopped && !c.suspended && !c.givenUp
  }

  ghost predicate Inv(c: Client, cfg: Config) {
    && (c.ws.Some? ==> c.timer.None?)
    && (WantsConnection(c) ==> c.ws.Some? || c.timer.Some?)
    && (c.timer.Some? ==> c.started && !c.stopped && !c.suspended && c.timer.value <= c.now + cfg.maxMs)
    && (c.givenUp ==> c.ws.None? && c.timer.None?)
    && (c.ws.Some? ==> c.started)
    && c.sockets == (if c.ws == Some(Live) || c.ws == Some(Closing) then 1 else 0)
    && c.backoff == BackoffAfter(c.tries, cfg)
  }

  lemma BackoffDoubles(k: nat, cfg: Config)
    ensures Min(BackoffAfter(k, cfg) * 2, cfg.maxMs) == BackoffAfter(k + 1, cfg)
  {
    var m := cfg.initialMs * Pow2(k);
    assert cfg.initialMs * Pow2(k + 1) == m * 2;
    if k == 0 { assert m == cfg.initialMs; }
  }

  lemma DelayBounded(backoff: nat, jitter: real, cfg: Config)
    requires 0.75 <= jitter
    ensures 0 <= Delay(backoff, jitter, cfg) <= cfg.maxMs
  {
    var m := backoff as real * jitter;
    assert m >= 0.0;
  }

  lemma ScheduleKeeps(c: Client, jitter: real, cfg: Config)
    requires 0.75 <= jitter && c.started && c.ws.None? && !c.givenUp && c.sockets == 0 && c.backoff == BackoffAfter(c.tries, cfg)
    requires c.timer.Some? ==> !c.stopped && !c.suspended && c.timer.value <= c.now + cfg.maxMs
    ensures Inv(ScheduleReconnect(c, jitter, cfg), cfg)
  {
    DelayBounded(c.backoff, jitter, cfg);
    BackoffDoubles(c.tries, cfg);
  }

  lemma ConnectKeeps(c: Client, l: Luck, cfg: Config)
    requires LuckOk(l) && c.started && c.ws.None? && c.timer.None? && c.sockets == 0 && c.backoff == BackoffAfter(c.tries, cfg)
    requires c.givenUp ==> !c.stopped
    ensures Inv(Connect(c, l, cfg), cfg)
  {
    if !c.stopped && !l.constructed { ScheduleKeeps(c.(givenUp := false), l.jitter, cfg); }
  }

  lemma StepKeepsInv(c: Client, e: Event, now: int, cfg: Config)
    requires Inv(c, cfg) && Possible(c, e, now)
    ensures Inv(Step(c, e, now, cfg), cfg)
  {
    var at := c.(now := now);
    match e
    case Start(l) => if !c.stopped && !c.suspended { ConnectKeeps(at.(started := true), l, cfg); }
    case SetEnabled(enabled, l) =>
      if enabled && !c.stopped && c.suspended && c.ws.None? && c.timer.None? {
        ConnectKeeps(ResetBackoff(at.(suspended := false), cfg), l, cfg);
      }
    case CloseSettles(l) =>
      if !c.stopped && !c.suspended && (c.wantsReconnect || !NoRetry(c.ws.value.code)) {
        ScheduleKeeps(at.(ws := None, wantsReconnect := false), l.jitter, cfg);
      }
    case ForceReconnect(l) =>
      if !c.stopped && c.ws.None? && c.timer.None? {
        ConnectKeeps(ResetBackoff(at.(wantsReconnect := true), cfg), l, cfg);
      }
    case TimerFires(l) => ConnectKeeps(at.(timer := None), l, cfg);
    case _ =>
  }

  lemma {:induction false} RunKeepsInv(c: Client, es: seq<Timed>, cfg: Config)
    requires Inv(c, cfg) && ValidRun(c, es, cfg)
    ensures Inv(Run(c, es, cfg), cfg)
    decreases |es|
  {
    if es != [] {
      StepKeepsInv(c, es[0].event, es[0].now, cfg);
      RunKeepsInv(Step(c, es[0].event, es[0].now, cfg), es[1..], cfg);
    }
  }

  /** In every run of a client started once: at most one of a held socket and an
      armed reconnect timer, exactly one whenever it is neither stopped, suspended
      nor given up; at most one socket exists at all; the backoff is the doubling
      one and no armed delay exceeds the maximum. */
  lemma ReconnectLifecycle(es: seq<Timed>, cfg: Config)
    requires ValidRun(Fresh(cfg), es, cfg)
    ensures var c := Run(Fresh(cfg), es, cfg);
      && !(c.ws.Some? && c.timer.Some?)
      && (WantsConnection(c) ==> c.ws.Some? != c.timer.Some?)
      && c.sockets <= 1
      && c.backoff == BackoffAfter(c.tries, cfg)
      && (c.timer.Some? ==> c.timer.value <= c.now + cfg.maxMs)
  {
    assert Min(cfg.initialMs * 1, cfg.maxMs) <= cfg.maxMs;
    RunKeepsInv(Fresh(cfg), es, cfg);
  }

  /** Nothing opens after `stop()`, or after a welcome of the wrong version. */
  lemma {:induction false} NothingOpensAfterStop(c: Client, es: seq<Timed>, cfg: Config)
    requires ValidRun(c, es, cfg) && c.stopped
    ensures Run(c, es, cfg).stopped && Run(c, es, cfg).created == c.created
    decreases |es|
  {
    if es != [] { NothingOpensAfterStop(Step(c, es[0].event, es[0].now, cfg), es[1..], cfg); }
  }

  // ----- Where the documented behaviour ends ------------------------------------------

  /** While the master switch is off, a socket opens exactly when somebody forces a
      reconnect and the old socket is already gone. */
  lemma SuspendedOpensIff(es: seq<Timed>, e: Event, now: int, cfg: Config)
    requires ValidRun(Fresh(cfg), es, cfg)
    requires var c := Run(Fresh(cfg), es, cfg);
      c.started && c.suspended && Possible(c, e, now) && !(e.SetEnabled? && e.enabled)
    ensures var c := Run(Fresh(cfg), es, cfg);
      Step(c, e, now, cfg).created > c.created
      <==> e.ForceReconnect? && e.luck.constructed && !c.stopped && c.ws.None?
  {
    ReconnectLifecycle(es, cfg);
    RunKeepsInv(Fresh(cfg), es, cfg);
  }

  /** Switched off, the old socket gone, a reconnect forced: a second socket is
      open while the switch is off. */
  lemma ForcedWhileOff(cfg: Config, l: Luck)
    requires LuckOk(l) && l.constructed
    ensures var es := [Timed(Start(l), 0), Timed(SetEnabled(false, l), 1), Timed(CloseEvent(1000), 2),
                       Timed(CloseSettles(l), 3), Timed(ForceReconnect(l), 4)];
      && ValidRun(Fresh(cfg), es, cfg)
      && var c := Run(Fresh(cfg), es, cfg);
         c.suspended && c.ws == Some(Live) && c.created == 2
  {
    var e0, e1, e2 := Timed(Start(l), 0), Timed(SetEnabled(false, l), 1), Timed(CloseEvent(1000), 2);
    var e3, e4 := Timed(CloseSettles(l), 3), Timed(ForceReconnect(l), 4);
    var c1 := Step(Fresh(cfg), e0.event, 0, cfg);
    var c2 := Step(c1, e1.event, 1, cfg);
    var c3 := Step(c2, e2.event, 2, cfg);
    var c4 := Step(c3, e3.event, 3, cfg);
    RunOne(c4, e4, [], cfg);
    RunOne(c3, e3, [e4], cfg);
    RunOne(c2, e2, [e3, e4], cfg);
    RunOne(c1, e1, [e2, e3, e4], cfg);
    RunOne(Fresh(cfg), e0, [e1, e2, e3, e4], cfg);
  }

  /** Switching back on connects or schedules a retry exactly when the old socket
      is already gone; otherwise the client waits for that socket's close. */
  lemma ResumeConnectsIff(es: seq<Timed>, l: Luck, now: int, cfg: Config)
    requires ValidRun(Fresh(cfg), es, cfg)
    requires var c := Run(Fresh(cfg), es, cfg); c.suspended && !c.stopped && Possible(c, SetEnabled(true, l), now)
    ensures var c := Run(Fresh(cfg), es, cfg);
      var after := Step(c, SetEnabled(true, l), now, cfg);
      && (after.created > c.created || after.timer.Some? <==> c.ws.None?)
      && (c.ws.Some? ==> after.ws == c.ws)
  {
    RunKeepsInv(Fresh(cfg), es, cfg);
  }

  /** Events that may come while a resumed client still waits for the close of its
      old socket. */
  predicate StillWaiting(e: Event) {
    !e.CloseSettles? && !e.Stop? && e != Welcome(false) && !(e.SetEnabled? && !e.enabled)
  }

  predicate Forces(es: seq<Timed>) {
    exists i :: 0 <= i < |es| && es[i].event.ForceReconnect?
  }

  /** While the old socket lasts, only a forced reconnect changes what its close
      will lead to. */
  lemma {:induction false} WaitingKeeps(c: Client, es: seq<Timed>, cfg: Config)
    requires Inv(c, cfg) && ValidRun(c, es, cfg) && forall i :: 0 <= i < |es| ==> StillWaiting(es[i].event)
    requires c.ws.Some? && !c.stopped && !c.suspended
    ensures var after := Run(c, es, cfg);
      && after.ws.Some? && !after.stopped && !after.suspended
      && (after.wantsReconnect <==> c.wantsReconnect || Forces(es))
    decreases |es|
  {
    if es != [] {
      var next := Step(c, es[0].event, es[0].now, cfg);
      StepKeepsInv(c, es[0].event, es[0].now, cfg);
      assert StillWaiting(es[0].event);
      WaitingKeeps(next, es[1..], cfg);
      ForcesFirst(es);
    }
  }

  lemma ForcesFirst(es: seq<Timed>)
    requires es != []
    ensures Forces(es) <==> es[0].event.ForceReconnect? || Forces(es[1..])
  {
    if Forces(es[1..]) {
      var i :| 0 <= i < |es[1..]| && es[1..][i].event.ForceReconnect?;
      assert es[i + 1].event.ForceReconnect?;
    }
    if Forces(es) {
      var i :| 0 <= i < |es| && es[i].event.ForceReconnect?;
      if i > 0 { assert es[1..][i - 1].event.ForceReconnect?; }
    }
  }

  /** A client that is switched on again while its old socket is still closing has
      given up once that close is handled if and only if the close's code is not
      retried and nobody forced a reconnect, before or since. Otherwise it has a
      retry scheduled. */
  lemma ResumedGivesUpIff(before: seq<Timed>, on: Timed, during: seq<Timed>, last: Timed, cfg: Config)
    requires ValidRun(Fresh(cfg), before, cfg)
    requires var c := Run(Fresh(cfg), before, cfg);
      c.suspended && !c.stopped && c.ws.Some? && on.event.SetEnabled? && on.event.enabled && Possible(c, on.event, on.now)
    requires var resumed := Step(Run(Fresh(cfg), before, cfg), on.event, on.now, cfg);
      && ValidRun(resumed, during, cfg) && (forall i :: 0 <= i < |during| ==> StillWaiting(during[i].event))
      && last.event.CloseSettles? && Possible(Run(resumed, during, cfg), last.event, last.now)
    ensures var c := Run(Fresh(cfg), before, cfg);
      var closing := Run(Step(c, on.event, on.now, cfg), during, cfg);
      var after := Step(closing, last.event, last.now, cfg);
      && (after.givenUp <==> NoRetry(closing.ws.value.code) && !c.wantsReconnect && !Forces(during))
      && (!after.givenUp ==> after.timer.Some?)
  {
    RunKeepsInv(Fresh(cfg), before, cfg);
    var c := Run(Fresh(cfg), before, cfg);
    var resumed := Step(c, on.event, on.now, cfg);
    StepKeepsInv(c, on.event, on.now, cfg);
    WaitingKeeps(resumed, during, cfg);
    RunKeepsInv(resumed, during, cfg);
    StepKeepsInv(Run(resumed, during, cfg), last.event, last.now, cfg);
  }

  /** Off and on again before the close handshake has finished: the switch is on,
      and yet the client has given up. */
  lemma QuickToggleGivesUp(cfg: Config, l: Luck)
    requires LuckOk(l) && l.constructed
    ensures var es := [Timed(Start(l), 0), Timed(SetEnabled(false, l), 1), Timed(SetEnabled(true, l), 2),
                       Timed(CloseEvent(1000), 3), Timed(CloseSettles(l), 4)];
      && ValidRun(Fresh(cfg), es, cfg)
      && var c := Run(Fresh(cfg), es, cfg);
         !c.suspended && !c.stopped && c.givenUp && c.ws.None? && c.timer.None?
  {
    var e0, e1, e2 := Timed(Start(l), 0), Timed(SetEnabled(false, l), 1), Timed(SetEnabled(true, l), 2);
    var e3, e4 := Timed(CloseEvent(1000), 3), Timed(CloseSettles(l), 4);
    var c1 := Step(Fresh(cfg), e0.event, 0, cfg);
    var c2 := Step(c1, e1.event, 1, cfg);
    var c3 := Step(c2, e2.event, 2, cfg);
    var c4 := Step(c3, e3.event, 3, cfg);
    var c5 := Step(c4, e4.event, 4, cfg);
    RunOne(c4, e4, [], cfg);
    RunOne(c3, e3, [e4], cfg);
    RunOne(c2, e2, [e3, e4], cfg);
    RunOne(c1, e1, [e2, e3, e4], cfg);
    RunOne(Fresh(cfg), e0, [e1, e2, e3, e4], cfg);
  }

  lemma RunOne(c: Client, e: Timed, es: seq<Timed>, cfg: Config)
    requires Possible(c, e.event, e.now) && ValidRun(Step(c, e.event, e.now, cfg), es, cfg)
    ensures ValidRun(c, [e] + es, cfg) && Run(c, [e] + es, cfg) == Run(Step(c, e.event, e.now, cfg), es, cfg)
  {
    assert ([e] + es)[1..] == es;
  }

  // ----- The client object ---------------------------------------------------------------

  class BridgeClient {
    const cfg: Config
    var now: int
    var started: bool
    var stopped: bool
    var suspended: bool
    var wantsReconnect: bool
    var ws: Option<Phase>
    var reconnectTimer: Option<int>
    var currentBackoffMs: nat
    // For the specification only: what has been emitted, created and scheduled.
    var givenUp: bool
    var sockets: nat
    var created: nat
    var tries: nat

    function Abs(): Client
      reads this
    {
      Client(now, started, stopped, suspended, wantsReconnect, ws, reconnectTimer, currentBackoffMs,
             givenUp, sockets, created, tries)
    }

    constructor (cfg: Config)
      ensures Abs() == Fresh(cfg) && this.cfg == cfg
    {
      this.cfg := cfg;
      now, started, stopped, suspended, wantsReconnect := 0, false, false, false, false;
      ws, reconnectTimer, currentBackoffMs := None, None, cfg.initialMs;
      givenUp, sockets, created, tries := false, 0, 0, 0;
    }

    /** `scheduleReconnect` */
    method ScheduleRetry(jitter: real)
      modifies `reconnectTimer, `currentBackoffMs, `tries
      ensures Abs() == ScheduleReconnect(old(Abs()), jitter, cfg)
    {
      if stopped || suspended || reconnectTimer.Some? { return; }
      reconnectTimer := Some(now + Delay(currentBackoffMs, jitter, cfg));
      currentBackoffMs := Min(currentBackoffMs * 2, cfg.maxMs);
      tries := tries + 1;
    }

    /** `connect` */
    method Dial(l: Luck)
      modifies this
      ensures Abs() == Connect(old(Abs()), l, cfg)
    {
      if stopped { return; }
      givenUp := false;
      if !l.constructed {
        ScheduleRetry(l.jitter);
        return;
      }
      ws := Some(Live);
      sockets, created := sockets + 1, created + 1;
    }

    /** `ws.close()` on whatever is held. */
    method CloseSocket()
      modifies `ws
      ensures Abs() == CloseWs(old(Abs()))
    {
      if ws == Some(Live) { ws := Some(Closing); }
    }

    /** `start` */
    method Start(l: Luck, t: int)
      requires Possible(Abs(), Event.Start(l), t)
      modifies this
      ensures Abs() == Step(old(Abs()), Event.Start(l), t, cfg)
    {
      now, started := t, true;
      if stopped || suspended { return; }
      Dial(l);
    }

    /** `setEnabled` */
    method SetEnabled(enabled: bool, l: Luck, t: int)
      requires Possible(Abs(), Event.SetEnabled(enabled, l), t)
      modifies this
      ensures Abs() == Step(old(Abs()), Event.SetEnabled(enabled, l), t, cfg)
    {
      now := t;
      var wantSuspend := !enabled;
      if stopped || suspended == wantSuspend { return; }
      suspended := wantSuspend;
      if wantSuspend {
        reconnectTimer := None;
        CloseSocket();
      } else {
        currentBackoffMs, tries := cfg.initialMs, 0;
        if ws.None? && reconnectTimer.None? { Dial(l); }
      }
    }

    /** `stop` */
    method Stop(t: int)
      requires now <= t
      modifies this
      ensures Abs() == Step(old(Abs()), Event.Stop, t, cfg)
    {
      now := t;
      if stopped { return; }
      stopped, reconnectTimer := true, None;
      CloseSocket();
    }

    /** `onWelcome` */
    method OnWelcomeMessage(versionOk: bool, t: int)
      requires Possible(Abs(), Welcome(versionOk), t)
      modifies this
      ensures Abs() == Step(old(Abs()), Welcome(versionOk), t, cfg)
    {
      now := t;
      if !versionOk {
        stopped := true;
        CloseSocket();
        return;
      }
      currentBackoffMs, tries := cfg.initialMs, 0;
    }

    /** `onClose` up to its await: the socket is gone, the field still set. */
    method OnCloseEvent(code: int, t: int)
      requires Possible(Abs(), CloseEvent(code), t)
      modifies this
      ensures Abs() == Step(old(Abs()), CloseEvent(code), t, cfg)
    {
      now := t;
      ws := Some(CloseSeen(code));
      if sockets > 0 { sockets := sockets - 1; }
    }

    /** `onClose` after its await. */
    method FinishClose(l: Luck, t: int)
      requires Possible(Abs(), CloseSettles(l), t)
      modifies this
      ensures Abs() == Step(old(Abs()), CloseSettles(l), t, cfg)
    {
      now := t;
      var code := ws.value.code;
      ws := None;
      if stopped || suspended { return; }
      var force := wantsReconnect;
      wantsReconnect := false;
      if !force && NoRetry(code) {
        givenUp := true;
        return;
      }
      ScheduleRetry(l.jitter);
    }

    /** `forceReconnect` */
    method ForceReconnect(l: Luck, t: int)
      requires Possible(Abs(), Event.ForceReconnect(l), t)
      modifies this
      ensures Abs() == Step(old(Abs()), Event.ForceReconnect(l), t, cfg)
    {
      now := t;
      if stopped { return; }
      wantsReconnect := true;
      currentBackoffMs, tries := cfg.initialMs, 0;
      if ws.Some? {
        CloseSocket();
      } else if reconnectTimer.None? {
        Dial(l);
      }
    }

    /** The callback of the reconnect timer. */
    method OnReconnectTimer(l: Luck, t: int)
      requires Possible(Abs(), TimerFires(l), t)
      modifies this
      ensures Abs() == Step(old(Abs()), TimerFires(l), t, cfg)
    {
      now, reconnectTimer := t, None;
      Dial(l);
    }
  }
}
