/** The bridge's routing table: which socket serves a user, and when it last
    showed traffic. */
module Routing {
  import opened AlexaModel

  type User = string
  type Socket = nat

  datatype Slot = Slot(ws: Socket, lastSeenAt: int)

  type Slots = map<User, Slot>

  datatype Decision = Added | Displaced(prior: Socket) | Rejected

  /** The owner of a slot is live: its socket is open and not silent for longer
      than the staleness window. */
  predicate LiveSlot(slot: Slot, open: set<Socket>, now: int, staleMs: nat) {
    slot.ws in open && now - slot.lastSeenAt <= staleMs
  }

  function TryAdd(slots: Slots, user: User, ws: Socket, open: set<Socket>, now: int, staleMs: nat): (r: (Slots, Decision)) {
    if user !in slots then (slots[user := Slot(ws, now)], Added)
    else if LiveSlot(slots[user], open, now, staleMs) then (slots, Rejected)
    else (slots[user := Slot(ws, now)], Displaced(slots[user].ws))
  }

  /** `touch` and `remove` act only for the socket that owns the slot. */
  predicate Owns(slots: Slots, user: User, ws: Socket) {
    user in slots && slots[user].ws == ws
  }

  function Touch(slots: Slots, user: User, ws: Socket, now: int): Slots {
    if Owns(slots, user, ws) then slots[user := Slot(ws, now)] else slots
  }

  function Remove(slots: Slots, user: User, ws: Socket): Slots {
    if Owns(slots, user, ws) then slots - {user} else slots
  }

  class RoutingTable {
    var connections: Slots
    const staleMs: nat

    constructor (staleMs: nat)
      ensures connections == map[] && this.staleMs == staleMs
    {
      connections := map[];
      this.staleMs := staleMs;
    }

    /** `tryAdd` */
    method Admit(user: User, ws: Socket, open: set<Socket>, now: int) returns (decision: Decision)
      modifies `connections
      ensures (connections, decision) == TryAdd(old(connections), user, ws, open, now, staleMs)
    {
      if user !in connections {
        connections := connections[user := Slot(ws, now)];
        return Added;
      }
      var existing := connections[user];
      var stale := now - existing.lastSeenAt > staleMs;
      if existing.ws !in open || stale {
        connections := connections[user := Slot(ws, now)];
        return Displaced(existing.ws);
      }
      return Rejected;
    }

    /** `touch` */
    method Refresh(user: User, ws: Socket, now: int)
      modifies `connections
      ensures connections == Touch(old(connections), user, ws, now)
    {
      if user in connections && connections[user].ws == ws {
        connections := connections[user := connections[user].(lastSeenAt := now)];
      }
    }

    /** `remove` */
    method Evict(user: User, ws: Socket) returns (removed: bool)
      modifies `connections
      ensures connections == Remove(old(connections), user, ws)
      ensures removed == Owns(old(connections), user, ws)
    {
      if user in connections && connections[user].ws == ws {
        connections := connections - {user};
        return true;
      }
      return false;
    }
  }
}
