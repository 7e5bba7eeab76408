/** The bridge's registry of pending dispatches: an awaiter per request, a timer
    per awaiter, and how each awaiter was settled. */
module Dispatch {
  import opened AlexaModel
  import opened Routing

  type Request = nat

  datatype Outcome = Answered | TimedOut | Disconnected | SendFailed

  /** `pending`, the armed timers with their deadlines, and every call of an
      awaiter's `resolve` or `reject`, oldest first, per request ever registered. */
  datatype Awaiters = Awaiters(pending: map<Request, User>, timers: map<Request, int>, outcomes: map<Request, seq<Outcome>>)

  const NO_AWAITERS := Awaiters(map[], map[], map[])

  function RegisterIn(a: Awaiters, r: Request, user: User, due: int): Awaiters {
    Awaiters(a.pending[r := user], a.timers[r := due], a.outcomes[r := []])
  }

  function Settle(a: Awaiters, r: Request, outcome: Outcome): Awaiters
    requires r in a.outcomes
  {
    Awaiters(a.pending - {r}, a.timers - {r}, a.outcomes[r := a.outcomes[r] + [outcome]])
  }

  /** A response for a request nobody awaits any more is ignored. */
  function ResolveIn(a: Awaiters, r: Request): Awaiters {
    if r in a.pending && r in a.outcomes then Settle(a, r, Answered) else a
  }

  /** The timer of `r` fired: reject if the awaiter is still there. */
  function ExpireIn(a: Awaiters, r: Request): Awaiters {
    var fired := a.(timers := a.timers - {r});
    if r in a.pending && r in a.outcomes
    then Awaiters(a.pending - {r}, fired.timers, a.outcomes[r := a.outcomes[r] + [TimedOut]])
    else fired
  }

  predicate Awaits(a: Awaiters, r: Request, user: User) {
    r in a.pending && a.pending[r] == user
  }

  function RejectAllIn(a: Awaiters, user: User, outcome: Outcome): Awaiters {
    Awaiters(
      map r | r in a.pending && a.pending[r] != user :: a.pending[r],
      map r | r in a.timers && !Awaits(a, r, user) :: a.timers[r],
      map r | r in a.outcomes :: if Awaits(a, r, user) then a.outcomes[r] + [outcome] else a.outcomes[r])
  }

  /** The registry holds exactly the unsettled dispatches, each with its timer
      armed and no other timer running; everything else settled exactly once. */
  ghost predicate Settled1(a: Awaiters) {
    && a.timers.Keys == a.pending.Keys
    && a.pending.Keys <= a.outcomes.Keys
    && forall r :: r in a.outcomes ==> |a.outcomes[r]| == if r in a.pending then 0 else 1
  }

  lemma RegisterKeeps(a: Awaiters, r: Request, user: User, due: int)
    requires Settled1(a) && r !in a.outcomes
    ensures Settled1(RegisterIn(a, r, user, due))
  {
  }

  lemma ResolveKeeps(a: Awaiters, r: Request)
    requires Settled1(a)
    ensures Settled1(ResolveIn(a, r)) && Settled1(ExpireIn(a, r))
  {
  }

  lemma RejectAllKeeps(a: Awaiters, user: User, outcome: Outcome)
    requires Settled1(a)
    ensures Settled1(RejectAllIn(a, user, outcome))
  {
    var b := RejectAllIn(a, user, outcome);
    forall r ensures r in b.timers <==> r in b.pending { }
  }

  /** A disconnect settles every dispatch of that user, now and as given, and
      touches no other. */
  lemma RejectAllSettlesExactly(a: Awaiters, user: User, outcome: Outcome, r: Request)
    requires Settled1(a) && r in a.outcomes
    ensures var b := RejectAllIn(a, user, outcome);
      && (Awaits(a, r, user) ==> r !in b.pending && r !in b.timers && b.outcomes[r] == [outcome])
      && (!Awaits(a, r, user) ==>
            && b.outcomes[r] == a.outcomes[r]
            && (r in b.pending <==> r in a.pending) && (r in a.pending ==> b.pending[r] == a.pending[r])
            && (r in b.timers <==> r in a.timers) && (r in a.timers ==> b.timers[r] == a.timers[r]))
  {
  }

  lemma RejectAllLeaves(a: Awaiters, user: User, outcome: Outcome)
    ensures forall r :: r in RejectAllIn(a, user, outcome).pending <==> r in a.pending && a.pending[r] != user
    ensures forall r :: r in RejectAllIn(a, user, outcome).pending ==> RejectAllIn(a, user, outcome).pending[r] == a.pending[r]
  {
  }

  lemma FailedSendKeeps(a: Awaiters, r: Request, user: User, due: int)
    requires Settled1(a) && r !in a.outcomes
    ensures var b := RejectAllIn(RegisterIn(a, r, user, due), user, SendFailed);
      && Settled1(b)
      && (forall q :: q in b.pending ==> q in a.pending && b.pending[q] == a.pending[q])
  {
    var registered := RegisterIn(a, r, user, due);
    RegisterKeeps(a, r, user, due);
    RejectAllKeeps(registered, user, SendFailed);
    RejectAllLeaves(registered, user, SendFailed);
  }

  /** What `rejectAllForUser` has left of `r`, while the entries in `todo` are
      still to be looked at. */
  ghost predicate Visited(a: Awaiters, b: Awaiters, user: User, outcome: Outcome, todo: set<Request>, r: Request) {
    var hit := Awaits(a, r, user) && r !in todo;
    && (r in b.pending <==> r in a.pending && !hit)
    && (r in b.pending ==> b.pending[r] == a.pending[r])
    && (r in b.timers <==> r in a.timers && !hit)
    && (r in b.timers ==> b.timers[r] == a.timers[r])
    && (r in b.outcomes <==> r in a.outcomes)
    && (r in b.outcomes ==> b.outcomes[r] == if hit then a.outcomes[r] + [outcome] else a.outcomes[r])
  }

  lemma VisitOne(a: Awaiters, b: Awaiters, user: User, outcome: Outcome, todo: set<Request>, r: Request)
    requires r in todo && r in a.pending && r in a.outcomes
    requires forall q :: Visited(a, b, user, outcome, todo, q)
    ensures r in b.pending && b.pending[r] == a.pending[r] && r in b.outcomes
    ensures var c := if a.pending[r] == user then Settle(b, r, outcome) else b;
      forall q :: Visited(a, c, user, outcome, todo - {r}, q)
  {
    assert Visited(a, b, user, outcome, todo, r);
    var c := if a.pending[r] == user then Settle(b, r, outcome) else b;
    forall q ensures Visited(a, c, user, outcome, todo - {r}, q) {
      assert Visited(a, b, user, outcome, todo, q);
    }
  }

  lemma VisitedAll(a: Awaiters, b: Awaiters, user: User, outcome: Outcome)
    requires forall r :: Visited(a, b, user, outcome, {}, r)
    ensures b == RejectAllIn(a, user, outcome)
  {
    var all := RejectAllIn(a, user, outcome);
    forall r
      ensures r in b.pending <==> r in all.pending
      ensures r in b.pending ==> b.pending[r] == all.pending[r]
      ensures r in b.timers <==> r in all.timers
      ensures r in b.timers ==> b.timers[r] == all.timers[r]
      ensures r in b.outcomes <==> r in all.outcomes
      ensures r in b.outcomes ==> b.outcomes[r] == all.outcomes[r]
    {
      assert Visited(a, b, user, outcome, {}, r);
    }
    assert b.pending == all.pending && b.timers == all.timers && b.outcomes == all.outcomes;
  }

  class DispatchRegistry {
    var pending: map<Request, User>
    var timers: map<Request, int>
    var outcomes: map<Request, seq<Outcome>>

    function Abs(): Awaiters
      reads this
    {
      Awaiters(pending, timers, outcomes)
    }

    constructor ()
      ensures Abs() == NO_AWAITERS
    {
      pending, timers, outcomes := map[], map[], map[];
    }

    /** `register`: the promise is created, its timer armed. */
    method Register(r: Request, user: User, due: int)
      modifies this
      ensures Abs() == RegisterIn(old(Abs()), r, user, due)
    {
      timers := timers[r := due];
      pending := pending[r := user];
      outcomes := outcomes[r := []];
    }

    /** `resolve` */
    method Resolve(r: Request) returns (settled: bool)
      requires Settled1(Abs())
      modifies this
      ensures Abs() == ResolveIn(old(Abs()), r) && settled == (r in old(pending))
    {
      if r !in pending { return false; }
      pending := pending - {r};
      timers := timers - {r};
      outcomes := outcomes[r := outcomes[r] + [Answered]];
      return true;
    }

    /** The timer callback set up by `register`. */
    method Expire(r: Request)
      requires Settled1(Abs())
      modifies this
      ensures Abs() == ExpireIn(old(Abs()), r)
    {
      timers := timers - {r};
      if r in pending {
        pending := pending - {r};
        outcomes := outcomes[r := outcomes[r] + [TimedOut]];
      }
    }

    /** `rejectAllForUser`: entries are deleted while the loop walks the map. */
    method RejectAllForUser(user: User, outcome: Outcome)
      requires Settled1(Abs())
      modifies this
      ensures Abs() == RejectAllIn(old(Abs()), user, outcome)
    {
      var todo := pending.Keys;
      ghost var was := Abs();
      while todo != {}
        invariant todo <= was.pending.Keys
        invariant forall r :: Visited(was, Abs(), user, outcome, todo, r)
        decreases |todo|
      {
        var r :| r in todo;
        VisitOne(was, Abs(), user, outcome, todo, r);
        todo := todo - {r};
        if pending[r] == user {
          Reject(r, outcome);
        }
      }
      VisitedAll(was, Abs(), user, outcome);
    }

    /** Delete the entry, clear its timer, reject its promise. */
    method Reject(r: Request, outcome: Outcome)
      requires r in outcomes
      modifies this
      ensures Abs() == Settle(old(Abs()), r, outcome)
    {
      pending := pending - {r};
      timers := timers - {r};
      outcomes := outcomes[r := outcomes[r] + [outcome]];
    }
  }
}
