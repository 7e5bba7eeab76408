/** The bridge process: connection objects with their timers, the routing table
    and the dispatch registry, mutated by event callbacks. Every callback is
    proved to be the corresponding step of `Relay`. */
module Bridge {
  import opened AlexaModel
  import opened Routing
  import opened Dispatch
  import opened Relay

  class Bridge {
    const cfg: Config
    const routing: RoutingTable
    const registry: DispatchRegistry
    var now: int
    var conns: map<Socket, Conn>
    var seen: set<Socket>

    function Abs(): Relay
      reads this, routing, registry
    {
      Relay(now, conns, seen, routing.connections, registry.Abs())
    }

    ghost predicate Valid()
      reads this, routing, registry
    {
      routing.staleMs == cfg.staleMs && Inv(Abs())
    }

    constructor (cfg: Config)
      ensures Valid() && Abs() == EMPTY && this.cfg == cfg && fresh(routing) && fresh(registry)
    {
      this.cfg := cfg;
      routing := new RoutingTable(cfg.staleMs);
      registry := new DispatchRegistry();
      now, conns, seen := 0, map[], {};
    }

    /** `safeClose` */
    method SafeClose(ws: Socket)
      modifies `conns
      ensures Abs() == CloseSocket(old(Abs()), ws)
    {
      if ws in conns {
        conns := conns[ws := conns[ws].(open := false)];
      }
    }

    /** `handleConnection`: the hello timer is armed before anything else. */
    method HandleConnection(ws: Socket, t: int)
      requires Valid() && Possible(Abs(), Connect(ws), t)
      modifies this
      ensures Valid() && Abs() == Step(old(Abs()), Connect(ws), t, cfg)
    {
      StepKeepsInv(Abs(), Connect(ws), t, cfg);
      now := t;
      conns := conns[ws := Conn(None, true, Some(t + cfg.helloMs), None, Unarmed)];
      seen := seen + {ws};
    }

    /** The hello branch of the message handler. */
    method HandleHello(ws: Socket, user: User)
      requires routing.staleMs == cfg.staleMs && ws in conns
      modifies this, routing
      ensures Abs() == OnHello(old(Abs()), ws, user, cfg)
    {
      var decision := routing.Admit(user, ws, OpenSockets(conns), now);
      if decision == Rejected {
        SafeClose(ws);
        return;
      }
      conns := conns[ws := conns[ws].(user := Some(user), helloDue := None, pingDue := Some(now + cfg.heartbeatMs))];
      if decision.Displaced? {
        SafeClose(decision.prior);
      }
    }

    /** The message handler after the handshake. */
    method HandleUserMessage(ws: Socket, m: Message)
      requires ws in conns && Settled1(registry.Abs())
      modifies this, registry
      ensures Abs() == OnUserMessage(old(Abs()), ws, m)
    {
      match m {
        case Pong => conns := conns[ws := conns[ws].(pong := Unarmed)];
        case Response(request) =>
          if request.Some? {
            var settled := registry.Resolve(request.value);
          }
        case Hello(_) => SafeClose(ws);
        case _ =>
      }
    }

    method HandleMessage(ws: Socket, m: Message, t: int)
      requires Valid() && Possible(Abs(), Receive(ws, m), t)
      modifies this, routing, registry
      ensures Valid() && Abs() == Step(old(Abs()), Receive(ws, m), t, cfg)
    {
      StepKeepsInv(Abs(), Receive(ws, m), t, cfg);
      now := t;
      if m.Malformed? {
        SafeClose(ws);
      } else if conns[ws].user.None? {
        if m.Hello? && m.user.Some? { HandleHello(ws, m.user.value); } else { SafeClose(ws); }
      } else {
        routing.Refresh(conns[ws].user.value, ws, t);
        HandleUserMessage(ws, m);
      }
    }

    /** The close handler. */
    method HandleClose(ws: Socket, t: int)
      requires Valid() && Possible(Abs(), Closed(ws), t)
      modifies this, routing, registry
      ensures Valid() && Abs() == Step(old(Abs()), Closed(ws), t, cfg)
    {
      StepKeepsInv(Abs(), Closed(ws), t, cfg);
      now := t;
      var user := conns[ws].user;
      conns := conns - {ws};
      if user.Some? {
        var removed := routing.Evict(user.value, ws);
        if removed {
          registry.RejectAllForUser(user.value, Disconnected);
        }
      }
    }

    /** `sendPing` */
    method SendPing(ws: Socket, t: int)
      requires Valid() && Possible(Abs(), PingTick(ws), t)
      modifies this
      ensures Valid() && Abs() == Step(old(Abs()), PingTick(ws), t, cfg)
    {
      StepKeepsInv(Abs(), PingTick(ws), t, cfg);
      now := t;
      ArmHeartbeat(ws);
    }

    /** The next ping is always due; the pong deadline only starts to run when none
        is running. */
    method ArmHeartbeat(ws: Socket)
      requires ws in conns
      modifies `conns
      ensures conns == OnPing(old(Abs()), ws, cfg).conns
    {
      var c := conns[ws];
      if c.pong.Unarmed? {
        conns := conns[ws := c.(pingDue := Some(now + cfg.heartbeatMs), pong := Armed(now + cfg.pongMs))];
      } else {
        conns := conns[ws := c.(pingDue := Some(now + cfg.heartbeatMs))];
      }
    }

    /** `handleDispatch` from the socket lookup on; false when the plugin is offline. */
    method HandleDispatch(user: User, r: Request, sent: bool, t: int) returns (registered: bool)
      requires Valid() && Possible(Abs(), Send(user, r, sent), t)
      modifies this, registry
      ensures Valid() && Abs() == Step(old(Abs()), Send(user, r, sent), t, cfg)
      ensures registered == Online(old(Abs()), user)
    {
      StepKeepsInv(Abs(), Send(user, r, sent), t, cfg);
      now := t;
      registered := Forward(user, r, sent);
    }

    method Forward(user: User, r: Request, sent: bool) returns (registered: bool)
      requires Settled1(registry.Abs()) && r !in registry.outcomes
      modifies registry
      ensures Abs() == OnDispatch(old(Abs()), user, r, sent, cfg)
      ensures registered == Online(old(Abs()), user)
    {
      registered := user in routing.connections && routing.connections[user].ws in conns
                    && conns[routing.connections[user].ws].open;
      if registered {
        RegisterAndSend(user, r, sent, now + cfg.dispatchMs);
      }
    }

    /** Register the awaiter, then send; a send that throws rejects the awaiters of
        the user. */
    method RegisterAndSend(user: User, r: Request, sent: bool, due: int)
      requires Settled1(registry.Abs()) && r !in registry.outcomes
      modifies registry
      ensures Abs() == if sent then OnSent(old(Abs()), user, r, due) else OnFailedSend(old(Abs()), user, r, due)
    {
      RegisterKeeps(registry.Abs(), r, user, due);
      registry.Register(r, user, due);
      if !sent {
        registry.RejectAllForUser(user, SendFailed);
      }
    }

    /** The timer set up by `register`. */
    method HandleDispatchTimeout(r: Request, t: int)
      requires Valid() && Possible(Abs(), DispatchTimeout(r), t)
      modifies this, registry
      ensures Valid() && Abs() == Step(old(Abs()), DispatchTimeout(r), t, cfg)
    {
      StepKeepsInv(Abs(), DispatchTimeout(r), t, cfg);
      now := t;
      registry.Expire(r);
    }
  }
}
