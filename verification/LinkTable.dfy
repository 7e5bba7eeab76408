/** The users table as interleaved single-item operations: linking, AcceptGrant,
    the fan-out's revocation marking and clean. A DynamoDB update without a
    condition would create a missing item, so rows have optional attributes. */
module LinkTable {
  import opened AlexaModel

  type UserId = nat
  type Install = nat
  type Token = nat
  type Process = nat

  datatype Row = Row(
    install: Option<Install>, skillSecret: Option<nat>,
    lwaRefreshToken: Option<Token>, lwaRevoked: Option<bool>, lwaRevokedAt: Option<int>)

  const NO_ATTRIBUTES := Row(None, None, None, None, None)

  type Rows = map<UserId, Row>

  /** `attribute_exists(userId) AND (attribute_not_exists(lwaRevoked) OR lwaRevoked = :false)` */
  predicate MayMark(rows: Rows, u: UserId) {
    u in rows && (rows[u].lwaRevoked.None? || rows[u].lwaRevoked == Some(false))
  }

  /** An update creates the item if its condition lets a missing one through. */
  function Existing(rows: Rows, u: UserId): Row {
    if u in rows then rows[u] else NO_ATTRIBUTES
  }

  /** `markUserRevoked` */
  function MarkIn(rows: Rows, u: UserId, now: int): Rows {
    if MayMark(rows, u)
    then rows[u := Existing(rows, u).(lwaRevoked := Some(true), lwaRevokedAt := Some(now))] else rows
  }

  /** AcceptGrant: `attribute_exists(userId)`. */
  function GrantIn(rows: Rows, u: UserId, token: Token): Rows {
    if u in rows
    then rows[u := Existing(rows, u).(lwaRefreshToken := Some(token), lwaRevoked := None, lwaRevokedAt := None)] else rows
  }

  datatype Scope = RevokedOnly | All

  /** `lwaRevoked = :true` for scope 'revoked', no condition for 'all'. */
  predicate MayDelete(rows: Rows, u: UserId, scope: Scope) {
    u in rows && (scope == All || rows[u].lwaRevoked == Some(true))
  }

  // ----- Interleavings --------------------------------------------------------------

  /** A fan-out that has read a row and its token; a clean with the candidates of its
      scan still to delete. */
  datatype Fanout = Fanout(user: UserId, token: Token)
  datatype Clean = Clean(scope: Scope, todo: set<UserId>)

  datatype Removal = Removal(user: UserId, scope: Scope, row: Row)

  /** `firstMark` is the history: the first marking of a row since its last grant. */
  datatype Table = Table(
    rows: Rows, fanouts: map<Process, Fanout>, cleans: map<Process, Clean>,
    removed: seq<Removal>, firstMark: map<UserId, int>)

  const EMPTY := Table(map[], map[], map[], [], map[])

  datatype Event =
    | Link(user: UserId, install: Install, secret: nat)
    | Grant(user: UserId, token: Token)
    | FanoutReads(process: Process, user: UserId)
    | TokenFound(process: Process)
    | TokenDead(process: Process, now: int)
    | CleanScans(process: Process, install: Install, scope: Scope)
    | CleanDeletes(process: Process, user: UserId)

  /** Rows the fan-out uses: complete and not flagged when read. */
  predicate Recipient(rows: Rows, u: UserId) {
    && u in rows && rows[u].skillSecret.Some? && rows[u].lwaRefreshToken.Some?
    && rows[u].lwaRevoked != Some(true)
  }

  predicate Possible(t: Table, e: Event) {
    match e
    case FanoutReads(p, u) => p !in t.fanouts && Recipient(t.rows, u)
    case TokenFound(p) => p in t.fanouts
    case TokenDead(p, _) => p in t.fanouts
    case CleanScans(p, _, _) => p !in t.cleans
    case CleanDeletes(p, u) => p in t.cleans && u in t.cleans[p].todo
    case _ => true
  }

  function Candidates(rows: Rows, install: Install, scope: Scope): set<UserId> {
    set u | u in rows && rows[u].install == Some(install) && (scope == All || rows[u].lwaRevoked == Some(true))
  }

  function OnLink(t: Table, u: UserId, install: Install, secret: nat): Table {
    if u in t.rows then t
    else t.(rows := t.rows[u := Row(Some(install), Some(secret), None, None, None)], firstMark := t.firstMark - {u})
  }

  function OnGrant(t: Table, u: UserId, token: Token): Table {
    t.(rows := GrantIn(t.rows, u, token), firstMark := t.firstMark - {u})
  }

  function OnMark(t: Table, u: UserId, now: int): Table {
    t.(rows := MarkIn(t.rows, u, now),
       firstMark := if u in t.rows && u !in t.firstMark then t.firstMark[u := now] else t.firstMark)
  }

  function OnDelete(t: Table, u: UserId, scope: Scope): Table {
    if MayDelete(t.rows, u, scope)
    then t.(rows := t.rows - {u}, removed := t.removed + [Removal(u, scope, t.rows[u])], firstMark := t.firstMark - {u})
    else t
  }

  function Step(t: Table, e: Event): Table
    requires Possible(t, e)
  {
    match e
    case Link(u, install, secret) => OnLink(t, u, install, secret)
    case Grant(u, token) => OnGrant(t, u, token)
    case FanoutReads(p, u) => t.(fanouts := t.fanouts[p := Fanout(u, t.rows[u].lwaRefreshToken.value)])
    case TokenFound(p) => t.(fanouts := t.fanouts - {p})
    case TokenDead(p, now) => OnMark(t.(fanouts := t.fanouts - {p}), t.fanouts[p].user, now)
    case CleanScans(p, install, scope) => t.(cleans := t.cleans[p := Clean(scope, Candidates(t.rows, install, scope))])
    case CleanDeletes(p, u) =>
      var c := t.cleans[p];
      OnDelete(t.(cleans := t.cleans[p := Clean(c.scope, c.todo - {u})]), u, c.scope)
  }

  predicate ValidRun(t: Table, es: seq<Event>)
    decreases |es|
  {
    es == [] || (Possible(t, es[0]) && ValidRun(Step(t, es[0]), es[1..]))
  }

  function Run(t: Table, es: seq<Event>): Table
    requires ValidRun(t, es)
    decreases |es|
  {
    if es == [] then t else Run(Step(t, es[0]), es[1..])
  }

  // ----- What every interleaving keeps ----------------------------------------------------

  ghost predicate RowInv(t: Table, u: UserId) {
    && (u in t.rows ==>
          && t.rows[u].skillSecret.Some? && t.rows[u].install.Some?
          && (t.rows[u].lwaRevoked == Some(true) <==> u in t.firstMark)
          && (t.rows[u].lwaRevoked == Some(true) || t.rows[u].lwaRevoked == None)
          && t.rows[u].lwaRevokedAt == if u in t.firstMark then Some(t.firstMark[u]) else None)
    && (u in t.firstMark ==> u in t.rows)
  }

  ghost predicate RemovedFlagged(t: Table) {
    forall i :: 0 <= i < |t.removed| && t.removed[i].scope == RevokedOnly ==> t.removed[i].row.lwaRevoked == Some(true)
  }

  lemma StepKeepsRow(t: Table, e: Event, u: UserId)
    requires RowInv(t, u) && Possible(t, e)
    ensures RowInv(Step(t, e), u)
  {
  }

  lemma StepKeepsRemoved(t: Table, e: Event)
    requires RemovedFlagged(t) && Possible(t, e)
    ensures RemovedFlagged(Step(t, e))
  {
  }

  lemma {:induction false} RunKeepsRow(t: Table, es: seq<Event>, u: UserId)
    requires RowInv(t, u) && ValidRun(t, es)
    ensures RowInv(Run(t, es), u)
    decreases |es|
  {
    if es != [] {
      StepKeepsRow(t, es[0], u);
      RunKeepsRow(Step(t, es[0]), es[1..], u);
    }
  }

  lemma {:induction false} RunKeepsRemoved(t: Table, es: seq<Event>)
    requires RemovedFlagged(t) && ValidRun(t, es)
    ensures RemovedFlagged(Run(t, es))
    decreases |es|
  {
    if es != [] {
      StepKeepsRemoved(t, es[0]);
      RunKeepsRemoved(Step(t, es[0]), es[1..]);
    }
  }

  /** In every interleaving: no row without skillSecret and install ever appears, a
      row is flagged exactly while it has been marked since its last grant, and its
      lwaRevokedAt is that first marking. */
  lemma RowsStayComplete(es: seq<Event>, u: UserId)
    requires ValidRun(EMPTY, es)
    ensures var t := Run(EMPTY, es);
      u in t.rows ==>
        && t.rows[u].skillSecret.Some? && t.rows[u].install.Some?
        && (t.rows[u].lwaRevoked == Some(true) <==> u in t.firstMark)
        && t.rows[u].lwaRevokedAt == if u in t.firstMark then Some(t.firstMark[u]) else None
  {
    RunKeepsRow(EMPTY, es, u);
  }

  /** Every row a clean('revoked') removed was flagged at its own delete. */
  lemma CleanedRowsWereFlagged(es: seq<Event>, i: nat)
    requires ValidRun(EMPTY, es) && i < |Run(EMPTY, es).removed|
    requires Run(EMPTY, es).removed[i].scope == RevokedOnly
    ensures Run(EMPTY, es).removed[i].row.lwaRevoked == Some(true)
  {
    RunKeepsRemoved(EMPTY, es);
  }

  /** A candidate of a clean('revoked') is deleted exactly if some marking landed on
      it since its last grant, whatever the scan saw. */
  lemma CleanDeletesIffMarked(es: seq<Event>, p: Process, u: UserId)
    requires ValidRun(EMPTY, es)
    requires var t := Run(EMPTY, es); Possible(t, CleanDeletes(p, u)) && t.cleans[p].scope == RevokedOnly && u in t.rows
    ensures var t := Run(EMPTY, es);
      u !in Step(t, CleanDeletes(p, u)).rows <==> u in t.firstMark
  {
    RunKeepsRow(EMPTY, es, u);
  }

  /** The events that can cost a linked row: a marking that lands on it, and the
      delete of a clean('all'). */
  predicate Threatens(t: Table, e: Event, u: UserId)
    requires Possible(t, e)
  {
    || (e.TokenDead? && t.fanouts[e.process].user == u)
    || (e.CleanDeletes? && e.user == u && t.cleans[e.process].scope == All)
  }

  predicate SafeRun(t: Table, es: seq<Event>, u: UserId)
    decreases |es|
  {
    es == [] || (Possible(t, es[0]) && !Threatens(t, es[0], u) && SafeRun(Step(t, es[0]), es[1..], u))
  }

  lemma {:induction false} UnmarkedRowSurvives(t: Table, es: seq<Event>, u: UserId)
    requires u in t.rows && t.rows[u].lwaRevoked == None && SafeRun(t, es, u)
    ensures ValidRun(t, es) && u in Run(t, es).rows && Run(t, es).rows[u].lwaRevoked == None
    decreases |es|
  {
    if es != [] { UnmarkedRowSurvives(Step(t, es[0]), es[1..], u); }
  }

  /** A row re-linked after a clean's scan survives it, in every continuation in which
      no marking lands on the row after the grant. */
  lemma RelinkedRowSurvives(before: seq<Event>, u: UserId, token: Token, after: seq<Event>)
    requires ValidRun(EMPTY, before) && u in Run(EMPTY, before).rows
    requires SafeRun(Step(Run(EMPTY, before), Grant(u, token)), after, u)
    ensures var t := Step(Run(EMPTY, before), Grant(u, token));
      ValidRun(t, after) && u in Run(t, after).rows && Run(t, after).rows[u].lwaRevoked == None
  {
    UnmarkedRowSurvives(Step(Run(EMPTY, before), Grant(u, token)), after, u);
  }

  lemma RunOne(t: Table, e: Event, es: seq<Event>)
    requires Possible(t, e) && ValidRun(Step(t, e), es)
    ensures ValidRun(t, [e] + es) && Run(t, [e] + es) == Run(Step(t, e), es)
  {
    assert ([e] + es)[1..] == es;
  }

  /** Whenever a clean has a row among its candidates and a fan-out still holds an
      older read of it, a re-link between the two does not save the row: the late
      marking flags it again and the clean deletes it with its new token. */
  lemma LateMarkingCostsRelinkedRow(t: Table, u: UserId, token: Token, fanout: Process, now: int, clean: Process)
    requires u in t.rows && fanout in t.fanouts && t.fanouts[fanout].user == u
    requires clean in t.cleans && t.cleans[clean].scope == RevokedOnly && u in t.cleans[clean].todo
    ensures var es := [Grant(u, token), TokenDead(fanout, now), CleanDeletes(clean, u)];
      && ValidRun(t, es)
      && var after := Run(t, es);
         && u !in after.rows
         && |after.removed| == |t.removed| + 1
         && after.removed[|t.removed|].row.lwaRefreshToken == Some(token)
  {
    var e0, e1, e2 := Grant(u, token), TokenDead(fanout, now), CleanDeletes(clean, u);
    var t1 := Step(t, e0);
    var t2 := Step(t1, e1);
    RunOne(t2, e2, []);
    RunOne(t1, e1, [e2]);
    RunOne(t, e0, [e1, e2]);
  }

  lemma MarkedAndScanned(t: Table, row: Row)
    requires t.rows == map[1 := row] && row.install == Some(5) && row.lwaRevoked == None
    requires 0 in t.fanouts && t.fanouts[0].user == 1 && 3 !in t.cleans
    ensures var es := [TokenDead(0, 10), CleanScans(3, 5, RevokedOnly)];
      && ValidRun(t, es)
      && var after := Run(t, es);
         && 1 in after.rows && after.fanouts == t.fanouts - {0}
         && 3 in after.cleans && after.cleans[3] == Clean(RevokedOnly, {1})
  {
    var e4, e5 := TokenDead(0, 10), CleanScans(3, 5, RevokedOnly);
    var t5 := Step(t, e4);
    assert t5.rows[1].lwaRevoked == Some(true) && t5.rows[1].install == Some(5) && t5.rows.Keys == {1};
    assert Candidates(t5.rows, 5, RevokedOnly) == {1};
    RunOne(t5, e5, []);
    RunOne(t, e4, [e5]);
  }

  /** Such a state is reached when two fan-outs read the same dying token. */
  lemma LateMarkingIsReachable()
    ensures var es := [Link(1, 5, 7), Grant(1, 100), FanoutReads(0, 1), FanoutReads(9, 1), TokenDead(0, 10), CleanScans(3, 5, RevokedOnly)];
      && ValidRun(EMPTY, es)
      && var t := Run(EMPTY, es);
         && 1 in t.rows && 9 in t.fanouts && t.fanouts[9] == Fanout(1, 100)
         && 3 in t.cleans && t.cleans[3] == Clean(RevokedOnly, {1})
  {
    var e0, e1, e2, e3 := Link(1, 5, 7), Grant(1, 100), FanoutReads(0, 1), FanoutReads(9, 1);
    var e4, e5 := TokenDead(0, 10), CleanScans(3, 5, RevokedOnly);
    var t2 := Step(Step(EMPTY, e0), e1);
    var row := Row(Some(5), Some(7), Some(100), None, None);
    assert t2.rows == map[1 := row];
    var t4 := Step(Step(t2, e2), e3);
    assert t4.rows == t2.rows && t4.cleans == map[] && t4.fanouts[0] == t4.fanouts[9] == Fanout(1, 100);
    MarkedAndScanned(t4, row);
    RunOne(Step(t2, e2), e3, [e4, e5]);
    RunOne(t2, e2, [e3, e4, e5]);
    RunOne(Step(EMPTY, e0), e1, [e2, e3, e4, e5]);
    RunOne(EMPTY, e0, [e1, e2, e3, e4, e5]);
  }

  // ----- The handlers -------------------------------------------------------------------

  /** What LWA and the Event Gateway say to one recipient of a fan-out. */
  datatype Answer = Delivered | GatewayRefused | LwaFailed | InvalidGrant

  /** The rows after the fan-out has worked through `users`. */
  function MarkDead(rows: Rows, users: seq<(UserId, Answer)>, now: int): Rows {
    if users == [] then rows
    else
      var before := MarkDead(rows, users[..|users| - 1], now);
      var (u, answer) := users[|users| - 1];
      if answer == InvalidGrant then MarkIn(before, u, now) else before
  }

  function CountDelivered(users: seq<(UserId, Answer)>): (n: nat)
    ensures n <= |users|
  {
    if users == [] then 0
    else CountDelivered(users[..|users| - 1]) + (if users[|users| - 1].1 == Delivered then 1 else 0)
  }

  /** A fan-out flags exactly the recipients whose token LWA called dead, and leaves
      every other attribute of every row alone. */
  lemma {:induction false} FanOutFlagsExactlyTheDead(rows: Rows, users: seq<(UserId, Answer)>, now: int, u: UserId)
    requires forall i :: 0 <= i < |users| ==> Recipient(rows, users[i].0)
    ensures MarkDead(rows, users, now).Keys == rows.Keys
    ensures u in rows ==>
      MarkDead(rows, users, now)[u] ==
        if (u, InvalidGrant) in users then rows[u].(lwaRevoked := Some(true), lwaRevokedAt := Some(now)) else rows[u]
  {
    if users != [] {
      var front, last := users[..|users| - 1], users[|users| - 1];
      FanOutFlagsExactlyTheDead(rows, front, now, u);
      assert (u, InvalidGrant) in users <==> (u, InvalidGrant) in front || last == (u, InvalidGrant);
      if last == (u, InvalidGrant) {
        assert Recipient(rows, users[|users| - 1].0);
        var before := MarkDead(rows, front, now);
        assert MarkDead(rows, users, now) == MarkIn(before, u, now);
        if (u, InvalidGrant) !in front {
          match rows[u].lwaRevoked {
            case None =>
            case Some(flag) => assert !flag;
          }
        }
      }
    }
  }

  class UsersTable {
    var rows: Rows

    constructor ()
      ensures rows == map[]
    {
      rows := map[];
    }

    /** `markUserRevoked` on a row as the fan-out read it. */
    method MarkUserRevoked(u: UserId, alreadyRevoked: bool, now: int)
      modifies this
      ensures rows == if alreadyRevoked then old(rows) else MarkIn(old(rows), u, now)
    {
      if alreadyRevoked { return; }
      if u in rows && (rows[u].lwaRevoked.None? || rows[u].lwaRevoked == Some(false)) {
        rows := rows[u := rows[u].(lwaRevoked := Some(true), lwaRevokedAt := Some(now))];
      }
    }

    /** The row update of AcceptGrant; false stands for "User not found". */
    method AcceptGrant(u: UserId, token: Token) returns (found: bool)
      modifies this
      ensures rows == GrantIn(old(rows), u, token) && found == (u in old(rows))
    {
      found := u in rows;
      if found {
        rows := rows[u := rows[u].(lwaRefreshToken := Some(token), lwaRevoked := None, lwaRevokedAt := None)];
      }
    }

    /** The fan-out loop of `handleEvent`, one recipient after the other. */
    method FanOut(users: seq<(UserId, Answer)>, now: int) returns (delivered: nat, failed: nat)
      modifies this
      ensures rows == MarkDead(old(rows), users, now)
      ensures delivered == CountDelivered(users) && delivered + failed == |users|
    {
      delivered, failed := 0, 0;
      for i := 0 to |users|
        invariant rows == MarkDead(old(rows), users[..i], now)
        invariant delivered == CountDelivered(users[..i]) && delivered + failed == i
      {
        assert users[..i + 1][..i] == users[..i];
        var (u, answer) := users[i];
        if answer == InvalidGrant { MarkUserRevoked(u, false, now); }
        if answer == Delivered { delivered := delivered + 1; } else { failed := failed + 1; }
      }
      assert users[..|users|] == users;
    }

    /** `handleClean` with nothing in between: scan, then one conditional delete per
        candidate. */
    method HandleClean(install: Install, scope: Scope) returns (removed: set<UserId>)
      modifies this
      ensures removed == Candidates(old(rows), install, scope)
      ensures rows == old(rows) - removed
    {
      var todo := Candidates(rows, install, scope);
      removed := {};
      while todo != {}
        invariant removed + todo == Candidates(old(rows), install, scope) && removed !! todo
        invariant rows == old(rows) - removed
        decreases |todo|
      {
        var u :| u in todo;
        todo := todo - {u};
        if MayDelete(rows, u, scope) {
          rows := rows - {u};
          removed := removed + {u};
        }
      }
    }
  }
}
