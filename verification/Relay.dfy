/** The bridge relay as a state machine over socket events, timer firings and
    HTTP dispatches, with one monotone clock. A timer may fire late, never early. */
module Relay {
  import opened AlexaModel
  import opened Routing
  import opened Dispatch

  datatype Config = Config(staleMs: nat, helloMs: nat, heartbeatMs: nat, pongMs: nat, dispatchMs: nat)

  /** The pong deadline of a connection; a deadline that fired stays set until a
      pong clears it. */
  datatype PongTimer = Unarmed | Armed(due: int) | Fired

  /** A connection whose 'close' event has not run yet. `user` is null until a
      hello is accepted; `open` is readyState OPEN. */
  datatype Conn = Conn(user: Option<User>, open: bool, helloDue: Option<int>, pingDue: Option<int>, pong: PongTimer)

  datatype Relay = Relay(now: int, conns: map<Socket, Conn>, seen: set<Socket>, slots: Slots, awaiters: Awaiters)

  const EMPTY := Relay(0, map[], {}, map[], NO_AWAITERS)

  /** A hello carries a user only if its version and its user id are acceptable. */
  datatype Message = Malformed | Hello(user: Option<User>) | Pong | Response(request: Option<Request>) | Other

  datatype Event =
    | Connect(ws: Socket)
    | Receive(ws: Socket, message: Message)
    | Drop(ws: Socket)
    | Closed(ws: Socket)
    | HelloTimeout(ws: Socket)
    | PingTick(ws: Socket)
    | PongTimeout(ws: Socket)
    | Send(user: User, request: Request, sent: bool)
    | DispatchTimeout(request: Request)
    | Idle

  function OpenSockets(conns: map<Socket, Conn>): set<Socket> {
    set ws | ws in conns && conns[ws].open
  }

  predicate Possible(w: Relay, e: Event, now: int) {
    w.now <= now
    && match e
       case Connect(ws) => ws !in w.seen
       case Receive(ws, _) => ws in w.conns
       case Drop(ws) => ws in w.conns
       case Closed(ws) => ws in w.conns
       case HelloTimeout(ws) => ws in w.conns && w.conns[ws].helloDue.Some? && w.conns[ws].helloDue.value <= now
       case PingTick(ws) => ws in w.conns && w.conns[ws].pingDue.Some? && w.conns[ws].pingDue.value <= now
       case PongTimeout(ws) => ws in w.conns && w.conns[ws].pong.Armed? && w.conns[ws].pong.due <= now
       case Send(_, request, _) => request !in w.awaiters.outcomes
       case DispatchTimeout(request) => request in w.awaiters.timers && w.awaiters.timers[request] <= now
       case Idle => true
  }

  /** `safeClose`: the socket leaves OPEN at once, its close event comes later. */
  function CloseSocket(w: Relay, ws: Socket): Relay {
    if ws in w.conns then w.(conns := w.conns[ws := w.conns[ws].(open := false)]) else w
  }

  function OnConnect(w: Relay, ws: Socket, cfg: Config): Relay {
    w.(conns := w.conns[ws := Conn(None, true, Some(w.now + cfg.helloMs), None, Unarmed)], seen := w.seen + {ws})
  }

  function OnHello(w: Relay, ws: Socket, user: User, cfg: Config): Relay {
    var (slots, decision) := TryAdd(w.slots, user, ws, OpenSockets(w.conns), w.now, cfg.staleMs);
    match decision
    case Rejected => CloseSocket(w, ws)
    case Added => Welcome(w.(slots := slots), ws, user, cfg)
    case Displaced(prior) => CloseSocket(Welcome(w.(slots := slots), ws, user, cfg), prior)
  }

  function Welcome(w: Relay, ws: Socket, user: User, cfg: Config): Relay {
    if ws !in w.conns then w
    else w.(conns := w.conns[ws := w.conns[ws].(user := Some(user), helloDue := None, pingDue := Some(w.now + cfg.heartbeatMs))])
  }

  function OnMessage(w: Relay, ws: Socket, m: Message, cfg: Config): Relay
    requires ws in w.conns
  {
    if m.Malformed? then CloseSocket(w, ws)
    else
      match w.conns[ws].user
      case None => if m.Hello? && m.user.Some? then OnHello(w, ws, m.user.value, cfg) else CloseSocket(w, ws)
      case Some(user) => OnUserMessage(w.(slots := Touch(w.slots, user, ws, w.now)), ws, m)
  }

  /** Any frame after the handshake has refreshed the slot already. */
  function OnUserMessage(w: Relay, ws: Socket, m: Message): Relay
    requires ws in w.conns
  {
    match m
    case Pong => w.(conns := w.conns[ws := w.conns[ws].(pong := Unarmed)])
    case Response(request) => if request.Some? then w.(awaiters := ResolveIn(w.awaiters, request.value)) else w
    case Hello(_) => CloseSocket(w, ws)
    case _ => w
  }

  /** The close handler: only the owner of the slot gives it up and fails the
      dispatches of its user. */
  function OnClosed(w: Relay, ws: Socket): Relay
    requires ws in w.conns
  {
    var left := w.(conns := w.conns - {ws});
    var user := w.conns[ws].user;
    if user.Some? && Owns(w.slots, user.value, ws) then
      left.(slots := Remove(w.slots, user.value, ws), awaiters := RejectAllIn(w.awaiters, user.value, Disconnected))
    else left
  }

  /** One ping; the first one that is not yet answered arms the deadline. */
  function OnPing(w: Relay, ws: Socket, cfg: Config): Relay
    requires ws in w.conns
  {
    var c := w.conns[ws];
    w.(conns := w.conns[ws := c.(pingDue := Some(w.now + cfg.heartbeatMs),
                                 pong := if c.pong.Unarmed? then Armed(w.now + cfg.pongMs) else c.pong)])
  }

  predicate Online(w: Relay, user: User) {
    user in w.slots && w.slots[user].ws in w.conns && w.conns[w.slots[user].ws].open
  }

  /** `handleDispatch` from step 4 on: an offline plugin gets nothing registered. */
  function OnDispatch(w: Relay, user: User, r: Request, sent: bool, cfg: Config): Relay {
    if !Online(w, user) then w
    else if sent then OnSent(w, user, r, w.now + cfg.dispatchMs)
    else OnFailedSend(w, user, r, w.now + cfg.dispatchMs)
  }

  function OnSent(w: Relay, user: User, r: Request, due: int): Relay {
    w.(awaiters := RegisterIn(w.awaiters, r, user, due))
  }

  /** The send threw: everything that waits for this user is rejected. */
  function OnFailedSend(w: Relay, user: User, r: Request, due: int): Relay {
    w.(awaiters := RejectAllIn(RegisterIn(w.awaiters, r, user, due), user, SendFailed))
  }

  function Step(w: Relay, e: Event, now: int, cfg: Config): Relay
    requires Possible(w, e, now)
  {
    var at := w.(now := now);
    match e
    case Connect(ws) => OnConnect(at, ws, cfg)
    case Receive(ws, m) => OnMessage(at, ws, m, cfg)
    case Drop(ws) => CloseSocket(at, ws)
    case Closed(ws) => OnClosed(at, ws)
    case HelloTimeout(ws) => CloseSocket(at.(conns := at.conns[ws := at.conns[ws].(helloDue := None)]), ws)
    case PingTick(ws) => OnPing(at, ws, cfg)
    case PongTimeout(ws) => CloseSocket(at.(conns := at.conns[ws := at.conns[ws].(pong := Fired)]), ws)
    case Send(user, r, sent) => OnDispatch(at, user, r, sent, cfg)
    case DispatchTimeout(r) => at.(awaiters := ExpireIn(at.awaiters, r))
    case Idle => at
  }

  // ----- Runs ---------------------------------------------------------------------

  datatype Timed = Timed(event: Event, now: int)

  predicate ValidRun(w: Relay, es: seq<Timed>, cfg: Config)
    decreases |es|
  {
    es == [] || (Possible(w, es[0].event, es[0].now) && ValidRun(Step(w, es[0].event, es[0].now, cfg), es[1..], cfg))
  }

  function Run(w: Relay, es: seq<Timed>, cfg: Config): Relay
    requires ValidRun(w, es, cfg)
    decreases |es|
  {
    if es == [] then w else Run(Step(w, es[0].event, es[0].now, cfg), es[1..], cfg)
  }

  /** Slots belong to connections that completed the handshake for that user, and
      every unsettled dispatch has a user with a slot. */
  ghost predicate SlotsOwned(w: Relay) {
    && (forall u :: u in w.slots ==> w.slots[u].ws in w.conns && w.conns[w.slots[u].ws].user == Some(u))
    && (forall u :: u in w.slots ==> w.slots[u].lastSeenAt <= w.now)
    && (forall r :: r in w.awaiters.pending ==> w.awaiters.pending[r] in w.slots)
    && (forall ws :: ws in w.conns ==> ws in w.seen)
    && (forall ws :: ws in w.conns ==> HandshakeTimers(w.conns[ws]))
  }

  /** Before the handshake only the hello timer runs, after it only the others. */
  predicate HandshakeTimers(c: Conn) {
    if c.user.None? then c.pingDue.None? && c.pong.Unarmed? else c.helloDue.None? && c.pingDue.Some?
  }

  ghost predicate Inv(w: Relay) {
    SlotsOwned(w) && Settled1(w.awaiters)
  }

  lemma CloseKeeps(w: Relay, ws: Socket)
    requires Inv(w)
    ensures Inv(CloseSocket(w, ws))
  {
  }

  lemma WelcomeKeeps(w: Relay, ws: Socket, user: User, cfg: Config)
    requires Inv(w) && ws in w.conns && w.conns[ws].user.None?
    ensures Inv(Welcome(w.(slots := w.slots[user := Slot(ws, w.now)]), ws, user, cfg))
  {
    assert forall u :: u in w.slots ==> w.slots[u].ws != ws;
  }

  lemma HelloKeeps(w: Relay, ws: Socket, user: User, cfg: Config)
    requires Inv(w) && ws in w.conns && w.conns[ws].user.None?
    ensures Inv(OnHello(w, ws, user, cfg))
  {
    var (slots, decision) := TryAdd(w.slots, user, ws, OpenSockets(w.conns), w.now, cfg.staleMs);
    if decision == Rejected {
      CloseKeeps(w, ws);
    } else {
      WelcomeKeeps(w, ws, user, cfg);
      if decision.Displaced? { CloseKeeps(Welcome(w.(slots := slots), ws, user, cfg), decision.prior); }
    }
  }

  lemma UserMessageKeeps(w: Relay, ws: Socket, m: Message)
    requires Inv(w) && ws in w.conns
    ensures Inv(OnUserMessage(w, ws, m))
  {
    match m
    case Response(request) => if request.Some? { ResolveKeeps(w.awaiters, request.value); }
    case Hello(_) => CloseKeeps(w, ws);
    case _ =>
  }

  lemma TouchKeeps(w: Relay, ws: Socket, user: User)
    requires Inv(w)
    ensures Inv(w.(slots := Touch(w.slots, user, ws, w.now)))
  {
  }

  lemma MessageKeeps(w: Relay, ws: Socket, m: Message, cfg: Config)
    requires Inv(w) && ws in w.conns
    ensures Inv(OnMessage(w, ws, m, cfg))
  {
    if m.Malformed? {
      CloseKeeps(w, ws);
    } else if w.conns[ws].user.None? {
      if m.Hello? && m.user.Some? { HelloKeeps(w, ws, m.user.value, cfg); } else { CloseKeeps(w, ws); }
    } else {
      TouchKeeps(w, ws, w.conns[ws].user.value);
      UserMessageKeeps(w.(slots := Touch(w.slots, w.conns[ws].user.value, ws, w.now)), ws, m);
    }
  }

  lemma ClosedKeeps(w: Relay, ws: Socket)
    requires Inv(w) && ws in w.conns
    ensures Inv(OnClosed(w, ws))
  {
    var user := w.conns[ws].user;
    if user.Some? && Owns(w.slots, user.value, ws) {
      RejectAllKeeps(w.awaiters, user.value, Disconnected);
    }
  }

  lemma SwapAwaiters(w: Relay, a: Awaiters)
    requires SlotsOwned(w) && Settled1(a) && forall r :: r in a.pending ==> a.pending[r] in w.slots
    ensures Inv(w.(awaiters := a))
  {
  }

  lemma SentKeeps(w: Relay, user: User, r: Request, due: int)
    requires Inv(w) && r !in w.awaiters.outcomes && user in w.slots
    ensures Inv(OnSent(w, user, r, due))
  {
    RegisterKeeps(w.awaiters, r, user, due);
    SwapAwaiters(w, RegisterIn(w.awaiters, r, user, due));
  }

  lemma FailedKeeps(w: Relay, user: User, r: Request, due: int)
    requires Inv(w) && r !in w.awaiters.outcomes
    ensures Inv(OnFailedSend(w, user, r, due))
  {
    FailedSendKeeps(w.awaiters, r, user, due);
    SwapAwaiters(w, RejectAllIn(RegisterIn(w.awaiters, r, user, due), user, SendFailed));
  }

  lemma DispatchKeeps(w: Relay, user: User, r: Request, sent: bool, cfg: Config)
    requires Inv(w) && r !in w.awaiters.outcomes
    ensures Inv(OnDispatch(w, user, r, sent, cfg))
  {
    var due := w.now + cfg.dispatchMs;
    if !Online(w, user) {
    } else if sent {
      SentKeeps(w, user, r, due);
      assert OnDispatch(w, user, r, sent, cfg) == OnSent(w, user, r, due);
    } else {
      FailedKeeps(w, user, r, due);
      assert OnDispatch(w, user, r, sent, cfg) == OnFailedSend(w, user, r, due);
    }
  }

  lemma StepKeepsInv(w: Relay, e: Event, now: int, cfg: Config)
    requires Inv(w) && Possible(w, e, now)
    ensures Inv(Step(w, e, now, cfg))
  {
    var at := w.(now := now);
    match e
    case Receive(ws, m) => MessageKeeps(at, ws, m, cfg);
    case Closed(ws) => ClosedKeeps(at, ws);
    case Send(user, r, sent) => DispatchKeeps(at, user, r, sent, cfg);
    case DispatchTimeout(r) => ResolveKeeps(at.awaiters, r);
    case _ =>
  }

  lemma {:induction false} RunKeepsInv(w: Relay, es: seq<Timed>, cfg: Config)
    requires Inv(w) && ValidRun(w, es, cfg)
    ensures Inv(Run(w, es, cfg))
    decreases |es|
  {
    if es != [] {
      StepKeepsInv(w, es[0].event, es[0].now, cfg);
      RunKeepsInv(Step(w, es[0].event, es[0].now, cfg), es[1..], cfg);
    }
  }

  // ----- Exactly-once settlement --------------------------------------------------------

  /** Under every interleaving: the registry holds exactly the unsettled dispatches,
      each with its timer armed and its user's slot present, and every other
      registered dispatch was settled once. */
  lemma ExactlyOnce(es: seq<Timed>, cfg: Config, r: Request)
    requires ValidRun(EMPTY, es, cfg)
    ensures var w := Run(EMPTY, es, cfg);
      && (r in w.awaiters.pending <==> r in w.awaiters.outcomes && w.awaiters.outcomes[r] == [])
      && (r in w.awaiters.timers <==> r in w.awaiters.pending)
      && (r in w.awaiters.outcomes ==> |w.awaiters.outcomes[r]| <= 1)
      && (r in w.awaiters.pending ==> w.awaiters.pending[r] in w.slots)
  {
    assert Inv(EMPTY);
    RunKeepsInv(EMPTY, es, cfg);
  }

  /** Whoever waits can still be timed out: its timer is armed, and the firing is
      possible from the deadline on. */
  lemma PendingCanExpire(es: seq<Timed>, cfg: Config, r: Request, now: int)
    requires ValidRun(EMPTY, es, cfg)
    requires var w := Run(EMPTY, es, cfg); r in w.awaiters.pending && w.now <= now
    ensures var w := Run(EMPTY, es, cfg);
      && r in w.awaiters.timers
      && (w.awaiters.timers[r] <= now ==>
            && Possible(w, DispatchTimeout(r), now)
            && SettledAs(Step(w, DispatchTimeout(r), now, cfg), r, TimedOut))
  {
    assert Inv(EMPTY);
    RunKeepsInv(EMPTY, es, cfg);
  }

  /** Requests that are settled, with how. */
  ghost predicate SettledAs(w: Relay, r: Request, outcome: Outcome) {
    r in w.awaiters.outcomes && w.awaiters.outcomes[r] == [outcome]
  }

  lemma StepKeepsSettled(w: Relay, e: Event, now: int, cfg: Config, r: Request, outcome: Outcome)
    requires Inv(w) && Possible(w, e, now) && SettledAs(w, r, outcome)
    ensures SettledAs(Step(w, e, now, cfg), r, outcome)
  {
    assert r !in w.awaiters.pending;
  }

  /** A settled dispatch is never settled again, whatever happens later. */
  lemma {:induction false} SettledForever(w: Relay, es: seq<Timed>, cfg: Config, r: Request, outcome: Outcome)
    requires Inv(w) && ValidRun(w, es, cfg) && SettledAs(w, r, outcome)
    ensures SettledAs(Run(w, es, cfg), r, outcome)
    decreases |es|
  {
    if es != [] {
      StepKeepsSettled(w, es[0].event, es[0].now, cfg, r, outcome);
      StepKeepsInv(w, es[0].event, es[0].now, cfg);
      SettledForever(Step(w, es[0].event, es[0].now, cfg), es[1..], cfg, r, outcome);
    }
  }

  /** The close of a displaced or refused socket neither evicts the slot's owner
      nor rejects its dispatches; the owner's close gives up its slot and fails
      exactly the dispatches of its user. */
  lemma CloseTouchesOnlyTheOwner(w: Relay, ws: Socket, now: int, cfg: Config)
    requires Inv(w) && Possible(w, Closed(ws), now)
    ensures var after := Step(w, Closed(ws), now, cfg);
      if exists u :: Owns(w.slots, u, ws) then
        exists u :: Owns(w.slots, u, ws) && after.slots == w.slots - {u}
                    && after.awaiters == RejectAllIn(w.awaiters, u, Disconnected)
      else after.slots == w.slots && after.awaiters == w.awaiters
  {
    var user := w.conns[ws].user;
    if u :| Owns(w.slots, u, ws) {
      assert user == Some(u);
    }
  }

  // ----- Who owns a slot ---------------------------------------------------------------

  /** The owner of the slot closes, or a hello finds it closed or stale. */
  predicate HandsOver(w: Relay, user: User, e: Event, now: int, cfg: Config)
    requires user in w.slots
  {
    || e == Closed(w.slots[user].ws)
    || (e.Receive? && e.message == Hello(Some(user)) && e.ws in w.conns && w.conns[e.ws].user.None?
        && !LiveSlot(w.slots[user], OpenSockets(w.conns), now, cfg.staleMs))
  }

  lemma HelloHandsOver(w: Relay, ws: Socket, claimed: User, user: User, cfg: Config)
    requires Inv(w) && ws in w.conns && w.conns[ws].user.None? && user in w.slots
    ensures var owner := w.slots[user].ws;
      !Owns(OnHello(w, ws, claimed, cfg).slots, user, owner)
      <==> claimed == user && !LiveSlot(w.slots[user], OpenSockets(w.conns), w.now, cfg.staleMs)
  {
    assert w.conns[w.slots[user].ws].user == Some(user);
  }

  lemma UserMessageKeepsSlots(w: Relay, ws: Socket, m: Message)
    requires ws in w.conns
    ensures OnUserMessage(w, ws, m).slots == w.slots
  {
  }

  lemma MessageHandsOver(w: Relay, ws: Socket, m: Message, user: User, cfg: Config)
    requires Inv(w) && ws in w.conns && user in w.slots
    ensures !Owns(OnMessage(w, ws, m, cfg).slots, user, w.slots[user].ws)
       <==> HandsOver(w, user, Receive(ws, m), w.now, cfg)
  {
    if !m.Malformed? && w.conns[ws].user.None? && m.Hello? && m.user.Some? {
      HelloHandsOver(w, ws, m.user.value, user, cfg);
    } else if !m.Malformed? && w.conns[ws].user.Some? {
      UserMessageKeepsSlots(w.(slots := Touch(w.slots, w.conns[ws].user.value, ws, w.now)), ws, m);
    }
  }

  lemma ClosedHandsOver(w: Relay, ws: Socket, user: User)
    requires Inv(w) && ws in w.conns && user in w.slots
    ensures !Owns(OnClosed(w, ws).slots, user, w.slots[user].ws) <==> ws == w.slots[user].ws
  {
    assert w.conns[w.slots[user].ws].user == Some(user);
  }

  /** A slot changes hands in a run exactly when its owner's close runs, or when a
      hello for its user finds the owner closed or stale: no other message, timer
      or dispatch, and no hello that meets a live owner, ever moves it. */
  lemma SlotChangesHandsIff(es: seq<Timed>, e: Event, now: int, user: User, cfg: Config)
    requires ValidRun(EMPTY, es, cfg)
    requires user in Run(EMPTY, es, cfg).slots && Possible(Run(EMPTY, es, cfg), e, now)
    ensures var w := Run(EMPTY, es, cfg);
      !Owns(Step(w, e, now, cfg).slots, user, w.slots[user].ws) <==> HandsOver(w, user, e, now, cfg)
  {
    assert Inv(EMPTY);
    RunKeepsInv(EMPTY, es, cfg);
    StepHandsOver(Run(EMPTY, es, cfg), e, now, user, cfg);
  }

  lemma StepHandsOver(w: Relay, e: Event, now: int, user: User, cfg: Config)
    requires Inv(w) && user in w.slots && Possible(w, e, now)
    ensures !Owns(Step(w, e, now, cfg).slots, user, w.slots[user].ws) <==> HandsOver(w, user, e, now, cfg)
  {
    var at := w.(now := now);
    match e
    case Receive(ws, m) => MessageHandsOver(at, ws, m, user, cfg);
    case Closed(ws) => ClosedHandsOver(at, ws, user);
    case _ =>
  }

  /** Only what the owner itself sends refreshes its slot: while it says nothing, no
      refusal, timer or dispatch touches the slot it keeps. */
  lemma SilentSlotStays(w: Relay, e: Event, now: int, user: User, owner: Socket, cfg: Config)
    requires Inv(w) && Possible(w, e, now) && !(e.Receive? && e.ws == owner)
    requires Owns(Step(w, e, now, cfg).slots, user, owner)
    ensures Owns(w.slots, user, owner) && Step(w, e, now, cfg).slots[user] == w.slots[user]
  {
    if e.Receive? { SilentMessage(w.(now := now), e.ws, e.message, user, owner, cfg); }
  }

  lemma SilentMessage(w: Relay, ws: Socket, m: Message, user: User, owner: Socket, cfg: Config)
    requires Inv(w) && ws in w.conns && ws != owner && Owns(OnMessage(w, ws, m, cfg).slots, user, owner)
    ensures Owns(w.slots, user, owner) && OnMessage(w, ws, m, cfg).slots[user] == w.slots[user]
  {
    if !m.Malformed? && w.conns[ws].user.Some? {
      UserMessageKeepsSlots(w.(slots := Touch(w.slots, w.conns[ws].user.value, ws, w.now)), ws, m);
    }
  }

  lemma StepSetsClock(w: Relay, e: Event, now: int, cfg: Config)
    requires Possible(w, e, now)
    ensures Step(w, e, now, cfg).now == now
  {
  }

  /** A hello that is not refused takes the slot. */
  lemma AdmittedHelloOwns(w: Relay, ws: Socket, user: User, now: int, cfg: Config)
    requires w.now <= now && ws in w.conns && w.conns[ws].user.None?
    requires TryAdd(w.slots, user, ws, OpenSockets(w.conns), now, cfg.staleMs).1 != Rejected
    ensures var after := Step(w, Receive(ws, Hello(Some(user))), now, cfg);
      user in after.slots && after.slots[user] == Slot(ws, now)
  {
  }

  /** A hello that is refused costs only its own socket. */
  lemma RefusedHelloChangesNothing(w: Relay, ws: Socket, user: User, now: int, cfg: Config)
    requires w.now <= now && ws in w.conns && w.conns[ws].user.None?
    requires TryAdd(w.slots, user, ws, OpenSockets(w.conns), now, cfg.staleMs).1 == Rejected
    ensures Step(w, Receive(ws, Hello(Some(user))), now, cfg)
         == w.(now := now, conns := w.conns[ws := w.conns[ws].(open := false)])
  {
  }

  // ----- Failed sends --------------------------------------------------------------------

  /** A failed send is meant to cancel the awaiter just registered. It leaves the
      other dispatches alone exactly when none of them waits for the same user. */
  lemma FailedSendSparesOthersIff(w: Relay, user: User, r: Request, due: int)
    requires Inv(w) && r !in w.awaiters.outcomes
    ensures SettledAs(OnFailedSend(w, user, r, due), r, SendFailed)
    ensures forall q :: Awaits(w.awaiters, q, user) ==> SettledAs(OnFailedSend(w, user, r, due), q, SendFailed)
    ensures OnFailedSend(w, user, r, due).awaiters.pending == w.awaiters.pending
       <==> forall q :: !Awaits(w.awaiters, q, user)
  {
    var registered := RegisterIn(w.awaiters, r, user, due);
    RegisterKeeps(w.awaiters, r, user, due);
    RejectAllSettlesExactly(registered, user, SendFailed, r);
    forall q | Awaits(w.awaiters, q, user) ensures SettledAs(OnFailedSend(w, user, r, due), q, SendFailed) {
      RejectAllSettlesExactly(registered, user, SendFailed, q);
    }
    RejectAllLeaves(registered, user, SendFailed);
    PendingAfterFailedSend(w.awaiters, RejectAllIn(registered, user, SendFailed), user);
  }

  lemma PendingAfterFailedSend(a: Awaiters, b: Awaiters, user: User)
    requires forall q :: q in b.pending ==> q in a.pending && a.pending[q] != user && b.pending[q] == a.pending[q]
    requires forall q :: q in a.pending && a.pending[q] != user ==> q in b.pending
    ensures b.pending == a.pending <==> forall q :: !Awaits(a, q, user)
  {
    if b.pending == a.pending {
      forall q ensures !Awaits(a, q, user) { assert q in b.pending <==> q in a.pending; }
    }
    if forall q :: !Awaits(a, q, user) {
      forall q ensures q in b.pending <==> q in a.pending { assert !Awaits(a, q, user); }
      assert b.pending == a.pending;
    }
  }

  lemma RunOne(w: Relay, e: Timed, es: seq<Timed>, cfg: Config)
    requires Possible(w, e.event, e.now) && ValidRun(Step(w, e.event, e.now, cfg), es, cfg)
    ensures ValidRun(w, [e] + es, cfg) && Run(w, [e] + es, cfg) == Run(Step(w, e.event, e.now, cfg), es, cfg)
  {
    assert ([e] + es)[1..] == es;
  }

  lemma SecondSendFails(w: Relay, user: User, cfg: Config)
    requires Online(w, user) && w.now <= 2 && w.awaiters == NO_AWAITERS
    ensures var es := [Timed(Send(user, 0, true), 2), Timed(Send(user, 1, false), 3)];
      ValidRun(w, es, cfg) && SettledAs(Run(w, es, cfg), 0, SendFailed)
  {
    var e2, e3 := Timed(Send(user, 0, true), 2), Timed(Send(user, 1, false), 3);
    var w3 := Step(w, e2.event, 2, cfg);
    assert Awaits(w3.awaiters, 0, user) && w3.awaiters.outcomes[0] == [];
    assert [] + [SendFailed] == [SendFailed];
    RunOne(w3, e3, [], cfg);
    RunOne(w, e2, [e3], cfg);
  }

  /** Two dispatches for one user: the failed send of the second one also fails
      the first, which had been sent. */
  lemma FailedSendHitsEarlierDispatch(user: User, cfg: Config)
    ensures var es := [Timed(Connect(7), 0), Timed(Receive(7, Hello(Some(user))), 1),
                       Timed(Send(user, 0, true), 2), Timed(Send(user, 1, false), 3)];
      ValidRun(EMPTY, es, cfg) && SettledAs(Run(EMPTY, es, cfg), 0, SendFailed)
  {
    var e0, e1 := Timed(Connect(7), 0), Timed(Receive(7, Hello(Some(user))), 1);
    var e2, e3 := Timed(Send(user, 0, true), 2), Timed(Send(user, 1, false), 3);
    var w1 := Step(EMPTY, e0.event, 0, cfg);
    var w2 := Step(w1, e1.event, 1, cfg);
    assert user in w2.slots && w2.slots[user].ws == 7 && w2.conns[7].open;
    SecondSendFails(w2, user, cfg);
    RunOne(w1, e1, [e2, e3], cfg);
    RunOne(EMPTY, e0, [e1, e2, e3], cfg);
  }
}
