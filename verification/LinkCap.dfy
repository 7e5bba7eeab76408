/** The link-time cap on distinct installations: each link request scans the table,
    compares, and writes its row later; requests overlap. Scans are atomic and the
    limit is fixed. */
module LinkCap {

  type Install = nat
  type Request = nat

  /** `linked` are the distinct installations in the table, `admitted` the requests
      that passed the check and have not written yet, `failOpen` how many passed
      because the check itself failed. */
  datatype World = World(linked: set<Install>, admitted: map<Request, Install>, refused: set<Request>, failOpen: nat)

  datatype Event =
    | Check(request: Request, install: Install)
    | CheckFails(request: Request, install: Install)
    | Write(request: Request)
    | Abandon(request: Request)
    | Unlink(install: Install)

  const EMPTY := World({}, map[], {}, 0)

  /** `!alreadyLinked && installs.size >= limit` is refused. */
  predicate Admits(linked: set<Install>, install: Install, limit: nat) {
    install in linked || |linked| < limit
  }

  /** At most `atOnce` requests are between their check and their write. */
  predicate Possible(w: World, e: Event, atOnce: nat) {
    match e
    case Check(r, _) => r !in w.admitted && |w.admitted| < atOnce
    case CheckFails(r, _) => r !in w.admitted && |w.admitted| < atOnce
    case Write(r) => r in w.admitted
    case Abandon(r) => r in w.admitted
    case Unlink(_) => true
  }

  function Step(w: World, e: Event, limit: nat, atOnce: nat): World
    requires Possible(w, e, atOnce)
  {
    match e
    case Check(r, i) =>
      if Admits(w.linked, i, limit) then w.(admitted := w.admitted[r := i]) else w.(refused := w.refused + {r})
    case CheckFails(r, i) => w.(admitted := w.admitted[r := i], failOpen := w.failOpen + 1)
    case Write(r) => w.(linked := w.linked + {w.admitted[r]}, admitted := w.admitted - {r})
    case Abandon(r) => w.(admitted := w.admitted - {r})
    case Unlink(i) => w.(linked := w.linked - {i})
  }

  predicate ValidRun(w: World, es: seq<Event>, limit: nat, atOnce: nat)
    decreases |es|
  {
    es == [] || (Possible(w, es[0], atOnce) && ValidRun(Step(w, es[0], limit, atOnce), es[1..], limit, atOnce))
  }

  function Run(w: World, es: seq<Event>, limit: nat, atOnce: nat): World
    requires ValidRun(w, es, limit, atOnce)
    decreases |es|
  {
    if es == [] then w else Run(Step(w, es[0], limit, atOnce), es[1..], limit, atOnce)
  }

  // ----- The overshoot bound --------------------------------------------------------

  function Values(m: map<Request, Install>): set<Install> {
    set r | r in m :: m[r]
  }

  /** Installations that are linked or about to be. */
  function Claimed(w: World): set<Install> {
    w.linked + Values(w.admitted)
  }

  ghost predicate Inv(w: World, limit: nat, atOnce: nat) {
    |Claimed(w)| <= limit + atOnce - 1 + w.failOpen && |w.admitted| <= atOnce
  }

  lemma SubsetSize<T>(a: set<T>, b: set<T>)
    requires a <= b
    ensures |a| <= |b|
    decreases |a|
  {
    if a != {} {
      var x :| x in a;
      SubsetSize(a - {x}, b - {x});
    }
  }

  lemma UnionSize<T>(a: set<T>, b: set<T>)
    ensures |a + b| <= |a| + |b|
  {
    assert a + b == a + (b - a);
    SubsetSize(b - a, b);
  }

  lemma {:induction false} ValuesSize(m: map<Request, Install>)
    ensures |Values(m)| <= |m|
    decreases |m|
  {
    if m.Keys != {} {
      var r :| r in m;
      var rest := m - {r};
      MapShrinks(m, r);
      ValuesSize(rest);
      forall x ensures x in Values(m) <==> x in Values(rest) + {m[r]} {
        if x in Values(m) {
          var q :| q in m && m[q] == x;
          assert q == r || rest[q] == x;
        }
        if x in Values(rest) {
          var q :| q in rest && rest[q] == x;
          assert m[q] == x;
        }
      }
      assert Values(m) == Values(rest) + {m[r]};
      UnionSize(Values(rest), {m[r]});
    } else {
      assert Values(m) == {};
    }
  }

  lemma MapShrinks(m: map<Request, Install>, r: Request)
    requires r in m
    ensures |m - {r}| == |m| - 1
  {
    var rest := m - {r};
    assert rest.Keys == m.Keys - {r};
    assert m.Keys == rest.Keys + {r};
    assert |m| == |m.Keys| && |rest| == |rest.Keys|;
  }

  lemma MapGrows(m: map<Request, Install>, r: Request, i: Install)
    requires r !in m
    ensures |m[r := i]| == |m| + 1
    ensures Values(m[r := i]) == Values(m) + {i}
  {
    assert m[r := i] - {r} == m;
    MapShrinks(m[r := i], r);
    assert m[r := i][r] == i;
    forall x | x in Values(m) ensures x in Values(m[r := i]) {
      var q :| q in m && m[q] == x;
      assert m[r := i][q] == x;
    }
  }

  lemma NewcomerFits(linked: set<Install>, after: map<Request, Install>, limit: nat, atOnce: nat)
    requires |linked| < limit && |after| <= atOnce
    ensures |linked + Values(after)| <= limit + atOnce - 1
  {
    ValuesSize(after);
    UnionSize(linked, Values(after));
  }

  lemma CheckKeeps(w: World, r: Request, i: Install, limit: nat, atOnce: nat)
    requires Inv(w, limit, atOnce) && Possible(w, Check(r, i), atOnce)
    ensures Inv(Step(w, Check(r, i), limit, atOnce), limit, atOnce)
  {
    if Admits(w.linked, i, limit) {
      var after := w.admitted[r := i];
      MapGrows(w.admitted, r, i);
      if i in w.linked {
        assert w.linked + Values(after) == Claimed(w);
      } else {
        NewcomerFits(w.linked, after, limit, atOnce);
      }
    }
  }

  lemma CheckFailsKeeps(w: World, r: Request, i: Install, limit: nat, atOnce: nat)
    requires Inv(w, limit, atOnce) && Possible(w, CheckFails(r, i), atOnce)
    ensures Inv(Step(w, CheckFails(r, i), limit, atOnce), limit, atOnce)
  {
    var after := w.admitted[r := i];
    MapGrows(w.admitted, r, i);
    assert w.linked + Values(after) == Claimed(w) + {i};
    UnionSize(Claimed(w), {i});
  }

  lemma StepKeepsInv(w: World, e: Event, limit: nat, atOnce: nat)
    requires Inv(w, limit, atOnce) && Possible(w, e, atOnce)
    ensures Inv(Step(w, e, limit, atOnce), limit, atOnce)
  {
    match e
    case Check(r, i) => CheckKeeps(w, r, i, limit, atOnce);
    case CheckFails(r, i) => CheckFailsKeeps(w, r, i, limit, atOnce);
    case Write(r) =>
      MapShrinks(w.admitted, r);
      SubsetSize(Claimed(Step(w, e, limit, atOnce)), Claimed(w));
    case Abandon(r) =>
      MapShrinks(w.admitted, r);
      SubsetSize(Claimed(Step(w, e, limit, atOnce)), Claimed(w));
    case Unlink(i) =>
      SubsetSize(Claimed(Step(w, e, limit, atOnce)), Claimed(w));
  }

  lemma {:induction false} RunKeepsInv(w: World, es: seq<Event>, limit: nat, atOnce: nat)
    requires Inv(w, limit, atOnce) && ValidRun(w, es, limit, atOnce)
    ensures Inv(Run(w, es, limit, atOnce), limit, atOnce)
    decreases |es|
  {
    if es != [] {
      StepKeepsInv(w, es[0], limit, atOnce);
      RunKeepsInv(Step(w, es[0], limit, atOnce), es[1..], limit, atOnce);
    }
  }

  /** With at most `atOnce` link requests in flight the distinct installations never
      exceed limit + atOnce - 1 (the limit itself when links are sequential), plus
      one for every check that failed open. */
  lemma OvershootBound(es: seq<Event>, limit: nat, atOnce: nat)
    requires atOnce > 0 && ValidRun(EMPTY, es, limit, atOnce)
    ensures var w := Run(EMPTY, es, limit, atOnce);
      |w.linked| <= limit + atOnce - 1 + w.failOpen
  {
    assert Claimed(EMPTY) == {};
    RunKeepsInv(EMPTY, es, limit, atOnce);
    var w := Run(EMPTY, es, limit, atOnce);
    SubsetSize(w.linked, Claimed(w));
  }

  /** An installation that is linked passes every later check, in every continuation
      in which it is not unlinked: its request is admitted and none is refused. */
  lemma {:induction false} LinkedAlwaysPasses(w: World, es: seq<Event>, r: Request, i: Install, limit: nat, atOnce: nat)
    requires i in w.linked && ValidRun(w, es, limit, atOnce) && Unlink(i) !in es
    requires Possible(Run(w, es, limit, atOnce), Check(r, i), atOnce)
    ensures var v := Run(w, es, limit, atOnce);
      && i in v.linked
      && Step(v, Check(r, i), limit, atOnce) == v.(admitted := v.admitted[r := i])
    decreases |es|
  {
    if es != [] { LinkedAlwaysPasses(Step(w, es[0], limit, atOnce), es[1..], r, i, limit, atOnce); }
  }

  // ----- The bound is attained --------------------------------------------------------------

  /** Some run leads from `w` to `v`. */
  ghost predicate Leads(w: World, v: World, limit: nat, atOnce: nat) {
    exists es :: ValidRun(w, es, limit, atOnce) && Run(w, es, limit, atOnce) == v
  }

  lemma {:induction false} RunAppend(w: World, a: seq<Event>, b: seq<Event>, limit: nat, atOnce: nat)
    requires ValidRun(w, a, limit, atOnce) && ValidRun(Run(w, a, limit, atOnce), b, limit, atOnce)
    ensures ValidRun(w, a + b, limit, atOnce)
    ensures Run(w, a + b, limit, atOnce) == Run(Run(w, a, limit, atOnce), b, limit, atOnce)
    decreases |a|
  {
    if a == [] {
      assert a + b == b;
    } else {
      assert (a + b)[1..] == a[1..] + b;
      RunAppend(Step(w, a[0], limit, atOnce), a[1..], b, limit, atOnce);
    }
  }

  lemma LeadsNowhere(w: World, limit: nat, atOnce: nat)
    ensures Leads(w, w, limit, atOnce)
  {
    assert ValidRun(w, [], limit, atOnce) && Run(w, [], limit, atOnce) == w;
  }

  lemma LeadsByStep(w: World, e: Event, limit: nat, atOnce: nat)
    requires Possible(w, e, atOnce)
    ensures Leads(w, Step(w, e, limit, atOnce), limit, atOnce)
  {
    var v := Step(w, e, limit, atOnce);
    assert [e][1..] == [];
    assert ValidRun(v, [], limit, atOnce) && Run(v, [], limit, atOnce) == v;
    assert ValidRun(w, [e], limit, atOnce) && Run(w, [e], limit, atOnce) == v;
  }

  lemma LeadsOn(w: World, v: World, u: World, limit: nat, atOnce: nat)
    requires Leads(w, v, limit, atOnce) && Leads(v, u, limit, atOnce)
    ensures Leads(w, u, limit, atOnce)
  {
    var a :| ValidRun(w, a, limit, atOnce) && Run(w, a, limit, atOnce) == v;
    var b :| ValidRun(v, b, limit, atOnce) && Run(v, b, limit, atOnce) == u;
    RunAppend(w, a, b, limit, atOnce);
  }

  function Range(n: nat): (s: set<Install>)
    ensures |s| == n
    ensures forall x :: x in s ==> x < n
  {
    if n == 0 then {} else Range(n - 1) + {n - 1}
  }

  /** One link, with nothing in between. */
  lemma LinkOne(linked: set<Install>, i: Install, next: set<Install>, limit: nat, atOnce: nat)
    requires |linked| < limit && atOnce > 0 && next == linked + {i}
    ensures Leads(World(linked, map[], {}, 0), World(next, map[], {}, 0), limit, atOnce)
  {
    var w := World(linked, map[], {}, 0);
    var v := Step(w, Check(0, i), limit, atOnce);
    assert (v.admitted - {0}).Keys == {};
    assert v.admitted - {0} == map[];
    LeadsByStep(w, Check(0, i), limit, atOnce);
    LeadsByStep(v, Write(0), limit, atOnce);
    LeadsOn(w, v, World(next, map[], {}, 0), limit, atOnce);
  }

  /** `n` links one after the other. */
  lemma {:induction false} Fill(n: nat, limit: nat, atOnce: nat)
    requires n <= limit && atOnce > 0
    ensures Leads(EMPTY, World(Range(n), map[], {}, 0), limit, atOnce)
    decreases n
  {
    if n == 0 {
      LeadsNowhere(EMPTY, limit, atOnce);
    } else {
      Fill(n - 1, limit, atOnce);
      LinkOne(Range(n - 1), n - 1, Range(n), limit, atOnce);
      LeadsOn(EMPTY, World(Range(n - 1), map[], {}, 0), World(Range(n), map[], {}, 0), limit, atOnce);
    }
  }

  /** Requests 0..k-1, each for an installation of its own. */
  function Pending(base: nat, k: nat): map<Request, Install> {
    if k == 0 then map[] else Pending(base, k - 1)[k - 1 := base + k - 1]
  }

  lemma {:induction false} PendingSize(base: nat, k: nat)
    ensures |Pending(base, k)| == k
    ensures forall r: Request :: r in Pending(base, k) <==> r < k
  {
    if k == 0 {
      assert Pending(base, 0) == map[];
    } else {
      PendingSize(base, k - 1);
      MapGrows(Pending(base, k - 1), k - 1, base + k - 1);
      forall r: Request ensures r in Pending(base, k) <==> r < k {
        assert r in Pending(base, k) <==> r in Pending(base, k - 1) || r == k - 1;
      }
    }
  }

  /** `k` admitted requests and nothing else going on. */
  function Waiting(linked: set<Install>, base: nat, k: nat): World {
    World(linked, Pending(base, k), {}, 0)
  }

  lemma LookOnce(linked: set<Install>, base: nat, k: nat, limit: nat, atOnce: nat)
    requires |linked| < limit && k < atOnce
    ensures Leads(Waiting(linked, base, k), Waiting(linked, base, k + 1), limit, atOnce)
  {
    PendingSize(base, k);
    LeadsByStep(Waiting(linked, base, k), Check(k, base + k), limit, atOnce);
  }

  /** All of them look before any of them writes. */
  lemma {:induction false} LookTogether(linked: set<Install>, base: nat, k: nat, limit: nat, atOnce: nat)
    requires |linked| < limit && k <= atOnce
    ensures Leads(Waiting(linked, base, 0), Waiting(linked, base, k), limit, atOnce)
    decreases k
  {
    if k == 0 {
      LeadsNowhere(Waiting(linked, base, 0), limit, atOnce);
    } else {
      LookTogether(linked, base, k - 1, limit, atOnce);
      LookOnce(linked, base, k - 1, limit, atOnce);
      LeadsOn(Waiting(linked, base, 0), Waiting(linked, base, k - 1), Waiting(linked, base, k), limit, atOnce);
    }
  }

  predicate Apart(linked: set<Install>, base: nat, k: nat) {
    forall x :: x in linked ==> x < base || x >= base + k
  }

  lemma WriteOnce(linked: set<Install>, size: nat, base: nat, k: nat, limit: nat, atOnce: nat) returns (more: set<Install>)
    requires k > 0 && Apart(linked, base, k) && |linked| == size
    ensures Leads(Waiting(linked, base, k), Waiting(more, base, k - 1), limit, atOnce)
    ensures Apart(more, base, k - 1) && |more| == size + 1
  {
    more := linked + {base + k - 1};
    PendingSize(base, k);
    PendingSize(base, k - 1);
    assert Pending(base, k) - {k - 1} == Pending(base, k - 1);
    assert Pending(base, k)[k - 1] == base + k - 1;
    LeadsByStep(Waiting(linked, base, k), Write(k - 1), limit, atOnce);
  }

  /** Then they all write, the last one first. */
  lemma {:induction false} WriteAll(linked: set<Install>, size: nat, base: nat, k: nat, limit: nat, atOnce: nat)
    returns (all: set<Install>)
    requires Apart(linked, base, k) && |linked| == size
    ensures Leads(Waiting(linked, base, k), Waiting(all, base, 0), limit, atOnce) && |all| == size + k
    decreases k
  {
    if k == 0 {
      all := linked;
      LeadsNowhere(Waiting(linked, base, 0), limit, atOnce);
    } else {
      var more := WriteOnce(linked, size, base, k, limit, atOnce);
      all := WriteAll(more, size + 1, base, k - 1, limit, atOnce);
      LeadsOn(Waiting(linked, base, k), Waiting(more, base, k - 1), Waiting(all, base, 0), limit, atOnce);
    }
  }

  lemma OvershootLeads(limit: nat, atOnce: nat) returns (all: set<Install>)
    requires limit > 0 && atOnce > 0
    ensures Leads(EMPTY, World(all, map[], {}, 0), limit, atOnce) && |all| == limit + atOnce - 1
  {
    var base := limit - 1;
    Fill(base, limit, atOnce);
    LookTogether(Range(base), base, atOnce, limit, atOnce);
    all := WriteAll(Range(base), base, base, atOnce, limit, atOnce);
    LeadsOn(EMPTY, Waiting(Range(base), base, 0), Waiting(Range(base), base, atOnce), limit, atOnce);
    LeadsOn(EMPTY, Waiting(Range(base), base, atOnce), Waiting(all, base, 0), limit, atOnce);
  }

  /** The bound is attained for every limit and every number of overlapping requests. */
  lemma OvershootAttained(limit: nat, atOnce: nat) returns (es: seq<Event>)
    requires limit > 0 && atOnce > 0
    ensures ValidRun(EMPTY, es, limit, atOnce)
    ensures |Run(EMPTY, es, limit, atOnce).linked| == limit + atOnce - 1
    ensures Run(EMPTY, es, limit, atOnce).failOpen == 0
  {
    var all := OvershootLeads(limit, atOnce);
    es :| ValidRun(EMPTY, es, limit, atOnce) && Run(EMPTY, es, limit, atOnce) == World(all, map[], {}, 0);
  }
}
