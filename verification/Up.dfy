/** Reconciling a whole project: every container of the plan, transactionally. */
module Upgrade {
  import opened Containers
  import opened Recovery
  import opened Environment
  import opened Rollback
  import opened Runtime
  import opened Transaction
  import opened Reconcile
  import opened Desired

  // ----- carrying facts across reconciliations --------------------------

  lemma PresentElsewhere(d0: Fleet, d: Fleet, n: Name, force: bool, req: Request)
    requires Elsewhere(d0, d, n, force) && req.name != n
    ensures Present(d0, req) ==> Present(d, req)
    ensures RunsAt(d0, req.name) ==> RunsAt(d, req.name)
  {
  }

  lemma SameAt(d0: Fleet, d: Fleet, m: Name, force: bool, n: Name)
    requires Elsewhere(d0, d, m, force) && n != m && n != Prev(m)
    ensures forall id | id in d && d[id].name == n :: id in d0 && d[id] == d0[id]
  {
    hide Prev;
  }

  lemma ClearElsewhere(d0: Fleet, d: Fleet, m: Name, force: bool, n: Name)
    requires Elsewhere(d0, d, m, force) && Canonical(m) && Canonical(n) && m != n
    ensures Clear(d0, n) ==> Clear(d, n)
  {
    hide Canonical, Prev, Next, Elsewhere;
    NamesApart(m, n);
    NamesApart(n, m);
    SameAt(d0, d, m, force, n);
    SameAt(d0, d, m, force, Prev(n));
    SameAt(d0, d, m, force, Next(n));
  }

  function NamesOf(done: seq<Request>): set<Name> {
    set r | r in done :: r.name
  }

  lemma NamesOfMore(done: seq<Request>, req: Request)
    ensures NamesOf(done + [req]) == NamesOf(done) + {req.name}
    ensures forall r | r in done + [req] :: r in done || r == req
  {
    assert forall r | r in done :: r in done + [req];
    assert req in done + [req];
  }

  /** The requests handled so far are deployed, with all that this may have
      done to the base fleet, and the journal names nothing else. */
  ghost predicate Progress(b: Fleet, d: Fleet, j: Journal, done: seq<Request>, force: bool) {
    && (forall r | r in done :: Canonical(r.name) && Present(d, r))
    && Onward(b, d, NamesOf(done), force)
    && (forall k | 0 <= k < |j.entries| :: j.entries[k].name in NamesOf(done))
  }

  /** Names not yet handled are as clear as they were. */
  ghost predicate StillClear(b: Fleet, d: Fleet, done: seq<Request>) {
    forall n | Canonical(n) && n !in NamesOf(done) && Clear(b, n) :: Clear(d, n)
  }

  ghost predicate AllRun(d: Fleet, done: seq<Request>) {
    forall r | r in done :: RunsAt(d, r.name)
  }

  lemma AdvanceHeir(was: Container, id: Id, d0: Fleet, d: Fleet, n: Name, names: set<Name>, force: bool)
    requires id in d0 && Canonical(n) && n !in names && Elsewhere(d0, d, n, force)
    requires was.name in names ==> Canonical(was.name)
    requires if was.name in names then Heir(was, d0[id], force) else d0[id] == was
    ensures id in d && if was.name in names + {n} then Heir(was, d[id], force) else d[id] == was
  {
    if was.name in names {
      NamesApart(was.name, n);
      assert d0[id].name != n;
    }
  }

  lemma AdvanceOnward(b: Fleet, d0: Fleet, d: Fleet, n: Name, names: set<Name>, force: bool)
    requires Onward(b, d0, names, force) && Elsewhere(d0, d, n, force)
    requires Canonical(n) && n !in names && (forall m | m in names :: Canonical(m))
    ensures Onward(b, d, names + {n}, force)
  {
    forall id | id in b
      ensures id in d && if b[id].name in names + {n} then Heir(b[id], d[id], force) else d[id] == b[id]
    {
      AdvanceHeir(b[id], id, d0, d, n, names, force);
    }
    hide Canonical;
    forall id | id in d && id !in b ensures d[id].name in names + {n} {
      if id in d0 {
        assert d0[id].name in names && d0[id].name != n;
      }
    }
  }

  lemma Advance(b: Fleet, d0: Fleet, d: Fleet, j0: Journal, j: Journal, done: seq<Request>, req: Request, force: bool)
    requires Progress(b, d0, j0, done, force) && req.name !in NamesOf(done) && Canonical(req.name)
    requires Elsewhere(d0, d, req.name, force) && Present(d, req) && Continues(j0, j, req.name)
    ensures Progress(b, d, j, done + [req], force)
  {
    hide Present, Canonical, Onward;
    NamesOfMore(done, req);
    forall r | r in done ensures r.name in NamesOf(done) {
    }
    AdvanceOnward(b, d0, d, req.name, NamesOf(done), force);
    hide Elsewhere;
    forall r | r in done + [req] ensures Canonical(r.name) && Present(d, r) {
      if r in done {
        PresentElsewhere(d0, d, req.name, force, r);
      }
    }
  }

  lemma AdvanceClear(b: Fleet, d0: Fleet, d: Fleet, done: seq<Request>, req: Request, force: bool)
    requires StillClear(b, d0, done) && Canonical(req.name) && Elsewhere(d0, d, req.name, force)
    ensures StillClear(b, d, done + [req])
  {
    hide Canonical, Clear, Elsewhere;
    NamesOfMore(done, req);
    forall n | Canonical(n) && n !in NamesOf(done + [req]) && Clear(b, n) ensures Clear(d, n) {
      ClearElsewhere(d0, d, req.name, force, n);
    }
  }

  lemma AdvanceRun(d0: Fleet, d: Fleet, done: seq<Request>, req: Request, force: bool)
    requires AllRun(d0, done) && req.name !in NamesOf(done) && Elsewhere(d0, d, req.name, force) && RunsAt(d, req.name)
    ensures AllRun(d, done + [req])
  {
    hide Elsewhere, RunsAt;
    forall r | r in done + [req] ensures RunsAt(d, r.name) {
      if r in done {
        assert r.name in NamesOf(done);
        PresentElsewhere(d0, d, req.name, force, r);
      }
    }
  }

  /** The whole of the transaction's bookkeeping between two containers. */
  ghost predicate Midway(tx: Txn, o: Origin, done: seq<Request>, force: bool)
    reads tx, tx.host
  {
    && tx.Tracking(o)
    && Progress(tx.base, tx.host.containers, tx.j, done, force)
    && StillClear(tx.base, tx.host.containers, done)
  }

  /** Nothing has happened yet. */
  ghost predicate Quiet(tx: Txn, o: Origin, a0: map<Id, string>)
    reads tx, tx.host
  {
    tx.host.history == o.log && tx.host.containers == tx.base && tx.host.addresses == a0 && !tx.written
  }

  /** Everything asked for so far runs and has its address; no call fails. */
  ghost predicate Thriving(tx: Txn, done: seq<Request>)
    reads tx.host
  {
    AllRun(tx.host.containers, done) && Addressed(tx.host.containers, tx.host.addresses) &&
    tx.host.SmoothFrom(tx.host.tick)
  }

  /** All that a step needs to know of the next request. */
  ghost predicate NextUp(tx: Txn, o: Origin, done: seq<Request>, req: Request, force: bool)
    reads tx
  {
    && req.name !in NamesOf(done) && Canonical(req.name)
    && Owns(tx.j, tx.project, req.labels) && Admits(o.scope, tx.base, req, force)
  }

  method Step(tx: Txn, ghost o: Origin, ghost a0: map<Id, string>, ghost done: seq<Request>, req: Request, force: bool,
              ghost quiet: bool, ghost smooth: bool)
    returns (r: Result<Action>)
    requires Midway(tx, o, done, force) && NextUp(tx, o, done, req, force)
    requires quiet ==> !force && InSync(tx.base, req) && Quiet(tx, o, a0)
    requires smooth ==> Clear(tx.base, req.name) && Thriving(tx, done)
    modifies tx, tx.host
    ensures old(tx.host.tick) <= tx.host.tick
    ensures tx.j.nonce == old(tx.j.nonce) && tx.j.candidate == old(tx.j.candidate)
    ensures r.Err? ==> tx.Failing(o)
    ensures r.Ok? ==> Midway(tx, o, done + [req], force)
    ensures r.Ok? ==> AddressesKept(old(tx.host.containers), old(tx.host.addresses), tx.host.addresses, req.name)
    ensures r.Ok? ==> Elsewhere(old(tx.host.containers), tx.host.containers, req.name, force)
    ensures quiet ==> Quiet(tx, o, a0)
    ensures smooth ==> r.Ok? && Thriving(tx, done + [req])
  {
    hide Tracked, Minted, Kept, Logged, InScope, Elsewhere, Clear, AllRun, Addressed, AddressesKept, Progress, StillClear;
    hide InSync, Present, RunsAt, Owns, Named, NamesOf, Canonical, Admits, Continues;
    ghost var d0, j0 := tx.host.containers, tx.j;
    NotNamed(tx.base, d0, j0, done, req.name, force);
    r := ReconcileContainer(tx, o, req, force, smooth);
    if r.Ok? {
      Progressed(tx.base, d0, tx.host.containers, j0, tx.j, done, req, force);
    }
    ContinuesJournal(j0, tx.j, req.name);
  }

  lemma ContinuesJournal(j0: Journal, j: Journal, n: Name)
    requires Continues(j0, j, n)
    ensures j.nonce == j0.nonce && j.candidate == j0.candidate
  {
  }

  lemma Progressed(b: Fleet, d0: Fleet, d: Fleet, j0: Journal, j: Journal, done: seq<Request>, req: Request, force: bool)
    requires Progress(b, d0, j0, done, force) && StillClear(b, d0, done) && req.name !in NamesOf(done)
    requires Canonical(req.name) && Elsewhere(d0, d, req.name, force) && Present(d, req) && Continues(j0, j, req.name)
    ensures Progress(b, d, j, done + [req], force) && StillClear(b, d, done + [req])
    ensures AllRun(d0, done) && RunsAt(d, req.name) ==> AllRun(d, done + [req])
  {
    hide *;
    Advance(b, d0, d, j0, j, done, req, force);
    AdvanceClear(b, d0, d, done, req, force);
    if AllRun(d0, done) && RunsAt(d, req.name) {
      AdvanceRun(d0, d, done, req, force);
    }
  }

  lemma NotNamed(b: Fleet, d: Fleet, j: Journal, done: seq<Request>, n: Name, force: bool)
    requires Progress(b, d, j, done, force) && n !in NamesOf(done) && Canonical(n)
    ensures !Named(j, n)
    ensures StillClear(b, d, done) && Clear(b, n) ==> Clear(d, n)
  {
  }

  // ----- the transaction's body -----------------------------------------

  /** The requests for the first i services. */
  function ServiceRequests(plan: Plan, nonce: nat, i: nat): (s: seq<Request>)
    requires i <= |plan.services|
    ensures |s| == i && forall m | 0 <= m < i :: s[m] == CreateRequest(plan, plan.services[m], nonce, "")
  {
    seq(i, m requires 0 <= m < i => CreateRequest(plan, plan.services[m], nonce, ""))
  }

  lemma NextService(plan: Plan, nonce: nat, i: nat)
    requires WellFormed(plan) && i < |plan.services|
    ensures ServiceRequests(plan, nonce, i + 1) ==
            ServiceRequests(plan, nonce, i) + [CreateRequest(plan, plan.services[i], nonce, "")]
    ensures plan.services[i] !in NamesOf(ServiceRequests(plan, nonce, i)) && Canonical(plan.services[i])
  {
  }

  lemma NoServices(plan: Plan, nonce: nat, b: Fleet, j: Journal, force: bool)
    requires j.entries == []
    ensures ServiceRequests(plan, nonce, 0) == [] && Progress(b, b, j, [], force) && StillClear(b, b, [])
    ensures AllRun(b, [])
  {
  }

  // Where the services' part of a transaction began, and the whole of it.
  function Serving(h0: seq<State>, b: Fleet, plan: Plan, force: bool): Origin {
    Origin(h0, PlanScope(b, plan, Services(plan), force, ""))
  }

  function Outset(h0: seq<State>, b: Fleet, plan: Plan, force: bool, dns: string): Origin {
    Origin(h0, PlanScope(b, plan, Names(plan), force, dns))
  }

  lemma WidenTo(tx: Txn, h0: seq<State>, c: Scope, c': Scope)
    requires Narrower(c, c')
    ensures tx.Tracking(Origin(h0, c)) ==> tx.Tracking(Origin(h0, c'))
    ensures tx.Failing(Origin(h0, c)) ==> tx.Failing(Origin(h0, c'))
  {
    hide Recoverable, Kept, Minted, Through;
    if tx.Tracking(Origin(h0, c)) || tx.Failing(Origin(h0, c)) {
      LoggedWider(h0, tx.host.history, tx.base, tx.project, c, c');
    }
  }

  /** What the services may journal, the whole transaction may. */
  lemma Widen(tx: Txn, h0: seq<State>, plan: Plan, force: bool, dns: string)
    requires WellFormed(plan)
    ensures tx.Tracking(Serving(h0, tx.base, plan, force)) ==> tx.Tracking(Outset(h0, tx.base, plan, force, dns))
    ensures tx.Failing(Serving(h0, tx.base, plan, force)) ==> tx.Failing(Outset(h0, tx.base, plan, force, dns))
  {
    hide Tracked, Kept, Minted, PlanScope, Logged, InScope, Narrower;
    ScopeGrows(tx.base, plan, force, "", dns);
    WidenTo(tx, h0, Serving(h0, tx.base, plan, force).scope, Outset(h0, tx.base, plan, force, dns).scope);
  }

  /** What the transaction's body starts from. */
  ghost predicate Fresh(tx: Txn, h0: seq<State>, plan: Plan)
    reads tx, tx.host
  {
    && tx.Tracking(Origin(h0, NOTHING)) && WellFormed(plan) && !tx.written && tx.j.entries == []
    && tx.host.containers == tx.base && tx.host.history == h0
    && tx.project == plan.project && tx.j.candidate == plan.candidate
  }

  lemma ServiceGood(b: Fleet, plan: Plan, i: nat, force: bool, dns: string, j: Journal)
    requires WellFormed(plan) && i < |plan.services| && j.candidate == plan.candidate
    ensures var req := CreateRequest(plan, plan.services[i], j.nonce, "");
            && (AllSynced(b, plan, dns) ==> InSync(b, req))
            && (AllClear(b, plan) ==> Clear(b, req.name))
            && Admits(PlanScope(b, plan, Services(plan), force, ""), b, req, force)
            && Owns(j, plan.project, req.labels) && req.name == plan.services[i]
  {
    hide InSync, Clear, Admits, PlanScope;
    var n := plan.services[i];
    assert n in plan.services && n in Names(plan) && n in Services(plan);
    assert Wanted(plan, n, dns) == CreateRequest(plan, n, 0, "");
    SyncAnyNonce(b, plan, n, "", 0, j.nonce);
    ScopeAdmits(b, plan, Services(plan), force, "", n, j.nonce);
  }

  lemma FreshStart(tx: Txn, h0: seq<State>, a0: map<Id, string>, plan: Plan, force: bool)
    requires Fresh(tx, h0, plan)
    ensures Midway(tx, Serving(h0, tx.base, plan, force), ServiceRequests(plan, tx.j.nonce, 0), force)
    ensures tx.host.addresses == a0 ==> Quiet(tx, Serving(h0, tx.base, plan, force), a0)
    ensures Addressed(tx.host.containers, tx.host.addresses) && tx.host.SmoothFrom(tx.host.tick) ==>
              Thriving(tx, ServiceRequests(plan, tx.j.nonce, 0))
  {
    hide Tracked, Minted, Progress, StillClear, AllRun, Addressed, PlanScope, WellFormed, Kept, Logged, InScope;
    NoServices(plan, tx.j.nonce, tx.base, tx.j, force);
    WidenTo(tx, h0, NOTHING, Serving(h0, tx.base, plan, force).scope);
  }

  /** The first i services are as planned. quiet: there was nothing to change;
      smooth: no call fails and nothing stands in the way. */
  ghost predicate Served(tx: Txn, o: Origin, a0: map<Id, string>, plan: Plan, i: nat, force: bool, quiet: bool, smooth: bool)
    requires i <= |plan.services|
    reads tx, tx.host
  {
    var done := ServiceRequests(plan, tx.j.nonce, i);
    Midway(tx, o, done, force) && (quiet ==> Quiet(tx, o, a0)) && (smooth ==> Thriving(tx, done))
  }

  /** Sidecars first, in plan order. */
  method UpServices(tx: Txn, ghost h0: seq<State>, ghost a0: map<Id, string>, plan: Plan, force: bool, ghost dns: string,
                    ghost quiet: bool, ghost smooth: bool)
    returns (r: Result<()>)
    requires Fresh(tx, h0, plan)
    requires quiet ==> !force && tx.host.addresses == a0 && AllSynced(tx.base, plan, dns)
    requires smooth ==> tx.host.SmoothFrom(tx.host.tick) && AllClear(tx.base, plan) &&
                        Addressed(tx.host.containers, tx.host.addresses)
    modifies tx, tx.host
    ensures old(tx.host.tick) <= tx.host.tick
    ensures tx.j.nonce == old(tx.j.nonce) && tx.j.candidate == old(tx.j.candidate)
    ensures var o := Serving(h0, tx.base, plan, force);
            && (r.Err? ==> tx.Failing(o))
            && (r.Ok? ==> Served(tx, o, a0, plan, |plan.services|, force, quiet, smooth))
            && (quiet ==> Quiet(tx, o, a0))
    ensures smooth ==> r.Ok?
  {
    ghost var o := Serving(h0, tx.base, plan, force);
    FreshStart(tx, h0, a0, plan, force);
    assert tx.project == plan.project && tx.j.candidate == plan.candidate && WellFormed(plan);
    hide *;
    r := Ok(());
    for i := 0 to |plan.services|
      invariant r.Ok? && old(tx.host.tick) <= tx.host.tick
      invariant tx.j.nonce == old(tx.j.nonce) && tx.j.candidate == old(tx.j.candidate)
      invariant Served(tx, o, a0, plan, i, force, quiet, smooth)
    {
      r := UpService(tx, o, a0, plan, force, dns, i, quiet, smooth);
      if r.Err? {
        return;
      }
    }
  }

  method UpService(tx: Txn, ghost o: Origin, ghost a0: map<Id, string>, plan: Plan, force: bool, ghost dns: string, i: nat,
                   ghost quiet: bool, ghost smooth: bool)
    returns (r: Result<()>)
    requires WellFormed(plan) && i < |plan.services| && Served(tx, o, a0, plan, i, force, quiet, smooth)
    requires tx.project == plan.project && tx.j.candidate == plan.candidate
    requires o.scope == PlanScope(tx.base, plan, Services(plan), force, "")
    requires quiet ==> !force && AllSynced(tx.base, plan, dns)
    requires smooth ==> AllClear(tx.base, plan)
    modifies tx, tx.host
    ensures old(tx.host.tick) <= tx.host.tick
    ensures tx.j.nonce == old(tx.j.nonce) && tx.j.candidate == old(tx.j.candidate)
    ensures r.Err? ==> tx.Failing(o)
    ensures r.Ok? ==> Served(tx, o, a0, plan, i + 1, force, quiet, smooth)
    ensures smooth ==> r.Ok?
    ensures quiet ==> Quiet(tx, o, a0)
  {
    hide Tracked, Minted, Kept, Logged, InScope, Midway, Quiet, Thriving, InSync, Clear, Owns, Canonical, NamesOf;
    hide Elsewhere, AddressesKept, ServiceRequests, AllSynced, AllClear, Admits, PlanScope, WellFormed;
    ghost var nonce := tx.j.nonce;
    var req := CreateRequest(plan, plan.services[i], tx.j.nonce, "");
    NextService(plan, nonce, i);
    ServiceGood(tx.base, plan, i, force, dns, tx.j);
    var action := Step(tx, o, a0, ServiceRequests(plan, nonce, i), req, force, quiet, smooth);
    r := if action.Ok? then Ok(()) else Err(action.error);
  }

  /** Where the dev container is to send its queries: nowhere in particular if
      the plan names no resolver, else to an address the sidecar has now. */
  method ResolveDNS(host: Host, plan: Plan) returns (r: Result<string>)
    requires host.Valid()
    modifies host`tick
    ensures host.Valid() && old(host.tick) <= host.tick
    ensures r.Ok? ==> r.value == ResolverOf(plan, host.containers, host.addresses)
    ensures r.Ok? && plan.resolver.None? ==> r.value == ""
    ensures r.Ok? && plan.resolver.Some? ==> Taken(host.containers, plan.resolver.value)
    ensures r.Ok? && plan.resolver.Some? ==>
              plan.networked && r.value != "" && Answers(host.containers, host.addresses, plan.resolver.value, r.value)
    ensures host.SmoothFrom(old(host.tick)) && plan.resolver.Some? ==>
              (r.Ok? <==>
                 plan.networked &&
                 exists ip :: ip != "" && Answers(host.containers, host.addresses, plan.resolver.value, ip))
    ensures host.SmoothFrom(old(host.tick)) && plan.resolver.Some? && r.Err? ==>
              r.error == if !Taken(host.containers, plan.resolver.value) then NotFound
                         else if !plan.networked then Invalid else Unavailable
    ensures (host.SmoothFrom(old(host.tick)) && Addressed(host.containers, host.addresses) &&
             (plan.resolver.Some? ==> plan.networked && RunsAt(host.containers, plan.resolver.value))) ==> r.Ok?
  {
    if plan.resolver.None? {
      return Ok("");
    }
    var found := host.InspectContainer(plan.resolver.value);
    if found.Err? {
      return Err(found.error);
    }
    if !plan.networked {
      return Err(Invalid);
    }
    var ip := host.Address(found.value);
    if ip == "" {
      return Err(Unavailable);
    }
    assert Answers(host.containers, host.addresses, plan.resolver.value, ip);
    return Ok(ip);
  }

  ghost predicate AllAlive(d: Fleet, desired: seq<Name>) {
    forall n | n in desired :: RunsAt(d, n)
  }

  /** Re-inspect every desired container: each must still be running. */
  method CheckLiveness(host: Host, desired: seq<Name>) returns (r: Result<()>)
    requires host.Valid()
    modifies host`tick
    ensures host.Valid() && old(host.tick) <= host.tick
    ensures r.Ok? ==> AllAlive(host.containers, desired)
    ensures host.SmoothFrom(old(host.tick)) && AllAlive(host.containers, desired) ==> r.Ok?
  {
    for i := 0 to |desired|
      invariant host.Valid() && old(host.tick) <= host.tick
      invariant forall m | 0 <= m < i :: RunsAt(host.containers, desired[m])
    {
      assert desired[i] in desired;
      var st := host.InspectContainer(desired[i]);
      if st.Err? {
        return Err(st.error);
      }
      if !host.containers[st.value].running {
        return Err(Exited);
      }
    }
    return Ok(());
  }

  lemma ResolverSteady(plan: Plan, d0: Fleet, d: Fleet, a0: map<Id, string>, a: map<Id, string>, force: bool)
    requires WellFormed(plan) && Unique(d0) && Unique(d)
    requires Elsewhere(d0, d, plan.dev, force) && AddressesKept(d0, a0, a, plan.dev)
    requires plan.resolver.Some? ==> Taken(d0, plan.resolver.value)
    ensures ResolverOf(plan, d, a) == ResolverOf(plan, d0, a0)
  {
  }

  function AllRequests(plan: Plan, nonce: nat, dns: string): seq<Request> {
    ServiceRequests(plan, nonce, |plan.services|) + [CreateRequest(plan, plan.dev, nonce, dns)]
  }

  lemma RequestOf(plan: Plan, nonce: nat, dns: string, n: Name)
    requires WellFormed(plan) && n in Names(plan)
    ensures CreateRequest(plan, n, nonce, if n == plan.dev then dns else "") in AllRequests(plan, nonce, dns)
  {
    var all := AllRequests(plan, nonce, dns);
    if n == plan.dev {
      assert all[|plan.services|] == CreateRequest(plan, n, nonce, dns);
    } else {
      var i :| 0 <= i < |plan.services| && plan.services[i] == n;
      assert all[i] == CreateRequest(plan, n, nonce, "");
    }
  }

  lemma RequestNames(plan: Plan, nonce: nat, dns: string)
    requires WellFormed(plan)
    ensures NamesOf(AllRequests(plan, nonce, dns)) == Names(plan)
    ensures plan.dev !in NamesOf(ServiceRequests(plan, nonce, |plan.services|)) && Canonical(plan.dev)
  {
    var all := AllRequests(plan, nonce, dns);
    forall r | r in all ensures r.name in Names(plan) {
      var i :| 0 <= i < |all| && all[i] == r;
      assert i < |plan.services| ==> r.name == plan.services[i];
    }
    forall n | n in Names(plan) ensures n in NamesOf(all) {
      RequestOf(plan, nonce, dns, n);
      assert CreateRequest(plan, n, nonce, if n == plan.dev then dns else "").name == n;
    }
  }

  /** Everything requested is present and alive, hence in sync. */
  lemma Alive(plan: Plan, b: Fleet, d: Fleet, a: map<Id, string>, j: Journal, nonce: nat, force: bool, dns: string)
    requires WellFormed(plan) && Unique(d) && dns == ResolverOf(plan, d, a) && (plan.resolver.Some? ==> dns != "")
    requires Progress(b, d, j, AllRequests(plan, nonce, dns), force)
    requires AllAlive(d, plan.services + [plan.dev])
    ensures Deployed(plan, b, d, a, force, dns)
  {
    RequestNames(plan, nonce, dns);
    hide WellFormed, ResolverOf, Onward, Canonical;
    forall n | n in Names(plan) ensures InSync(d, Wanted(plan, n, dns)) {
      RequestOf(plan, nonce, dns, n);
      var r := CreateRequest(plan, n, nonce, if n == plan.dev then dns else "");
      assert n in plan.services + [plan.dev];
      assert Present(d, r) && RunsAt(d, r.name);
      hide AllRequests;
      PresentAlive(d, r);
      SyncAnyNonce(d, plan, n, if n == plan.dev then dns else "", nonce, 0);
    }
  }

  lemma PresentAlive(d: Fleet, r: Request)
    requires Unique(d) && Present(d, r) && RunsAt(d, r.name)
    ensures InSync(d, r)
  {
  }

  lemma DevGood(b: Fleet, plan: Plan, force: bool, dns: string, j: Journal)
    requires WellFormed(plan) && j.candidate == plan.candidate
    ensures var req := CreateRequest(plan, plan.dev, j.nonce, dns);
            && (AllSynced(b, plan, dns) ==> InSync(b, req))
            && (AllClear(b, plan) ==> Clear(b, plan.dev))
            && Admits(PlanScope(b, plan, Names(plan), force, dns), b, req, force)
            && Owns(j, plan.project, req.labels)
            && req.name !in NamesOf(ServiceRequests(plan, j.nonce, |plan.services|)) && Canonical(req.name)
            && AllRequests(plan, j.nonce, dns) == ServiceRequests(plan, j.nonce, |plan.services|) + [req]
  {
    RequestNames(plan, j.nonce, dns);
    hide InSync, Clear, Admits, PlanScope, NamesOf, ServiceRequests, Canonical;
    SyncAnyNonce(b, plan, plan.dev, dns, 0, j.nonce);
    ScopeAdmits(b, plan, Names(plan), force, dns, plan.dev, j.nonce);
  }

  /** The dev container last, once its resolver's address is known. */
  method UpDev(tx: Txn, ghost h0: seq<State>, ghost a0: map<Id, string>, plan: Plan, force: bool, ghost quiet: bool,
               ghost smooth: bool)
    returns (r: Result<string>, ghost dns: string)
    requires WellFormed(plan) && tx.project == plan.project && tx.j.candidate == plan.candidate
    requires Served(tx, Serving(h0, tx.base, plan, force), a0, plan, |plan.services|, force, quiet, smooth)
    requires quiet ==> !force && Converged(plan, tx.base, a0)
    requires smooth ==> AllClear(tx.base, plan) && (plan.resolver.Some? ==> plan.networked)
    modifies tx, tx.host
    ensures old(tx.host.tick) <= tx.host.tick && (plan.resolver.None? ==> dns == "")
    ensures tx.j.nonce == old(tx.j.nonce) && (r.Ok? && plan.resolver.Some? ==> dns != "")
    ensures var o := Outset(h0, tx.base, plan, force, dns);
            && (r.Err? ==> tx.Failing(o))
            && (r.Ok? ==> r.value == dns && Midway(tx, o, AllRequests(plan, tx.j.nonce, dns), force) && tx.host.Valid() &&
                          dns == ResolverOf(plan, tx.host.containers, tx.host.addresses))
            && (quiet ==> Quiet(tx, o, a0))
            && (smooth ==> r.Ok? && Thriving(tx, AllRequests(plan, tx.j.nonce, dns)))
  {
    hide Tracked, Minted, Kept, Logged, InScope, Progress, StillClear, AllRun, Addressed, InSync, Clear, Owns, NamesOf;
    hide Elsewhere, AddressesKept, RunsAt, Admits, PlanScope, WellFormed, AllSynced, AllClear, ResolverOf, AllRequests;
    hide Unique, Canonical, ServiceRequests;
    ghost var done := ServiceRequests(plan, tx.j.nonce, |plan.services|);
    ghost var d0, a1 := tx.host.containers, tx.host.addresses;
    TrackingValid(tx, Serving(h0, tx.base, plan, force));
    tx.TrackingFails(Serving(h0, tx.base, plan, force));
    ResolverRuns(plan, d0, tx.j.nonce);
    r := ResolveDNS(tx.host, plan);
    dns := if r.Ok? then r.value else "";
    Widen(tx, h0, plan, force, dns);
    if r.Ok? {
      ghost var o := Outset(h0, tx.base, plan, force, dns);
      var req := CreateRequest(plan, plan.dev, tx.j.nonce, r.value);
      DevGood(tx.base, plan, force, dns, tx.j);
      var action := Step(tx, o, a0, done, req, force, quiet, smooth);
      if action.Err? {
        r := Err(action.error);
      } else {
        TrackingValid(tx, o);
        ResolverSteady(plan, d0, tx.host.containers, a1, tx.host.addresses, force);
      }
    }
  }

  lemma TrackingValid(tx: Txn, o: Origin)
    requires tx.Tracking(o)
    ensures tx.host.Valid() && Unique(tx.base) && Unique(tx.host.containers)
  {
  }

  lemma ResolverRuns(plan: Plan, d: Fleet, nonce: nat)
    requires WellFormed(plan)
    ensures AllRun(d, ServiceRequests(plan, nonce, |plan.services|)) && plan.resolver.Some? ==>
              RunsAt(d, plan.resolver.value)
  {
    if plan.resolver.Some? {
      var i :| 0 <= i < |plan.services| && plan.services[i] == plan.resolver.value;
      assert ServiceRequests(plan, nonce, |plan.services|)[i].name == plan.resolver.value;
    }
  }

  /** Lifecycle hooks, then the pre-commit liveness gate. */
  method HooksThenLiveness(host: Host, plan: Plan) returns (r: Result<()>)
    requires host.Valid()
    modifies host`tick
    ensures host.Valid() && old(host.tick) <= host.tick
    ensures r.Ok? ==> AllAlive(host.containers, plan.services + [plan.dev])
    ensures host.SmoothFrom(old(host.tick)) && AllAlive(host.containers, plan.services + [plan.dev]) ==> r.Ok?
  {
    hide AllAlive, Unique;
    var hooks := host.Call();
    if hooks.Ok? {
      r := CheckLiveness(host, plan.services + [plan.dev]);
    } else {
      r := Err(hooks.error);
    }
  }

  method Settle(tx: Txn, ghost o: Origin, plan: Plan, force: bool, ghost dns: string, ghost smooth: bool)
    returns (r: Result<()>)
    requires WellFormed(plan) && Midway(tx, o, AllRequests(plan, tx.j.nonce, dns), force) && tx.host.Valid()
    requires dns == ResolverOf(plan, tx.host.containers, tx.host.addresses) && (plan.resolver.Some? ==> dns != "")
    requires smooth ==> Thriving(tx, AllRequests(plan, tx.j.nonce, dns))
    modifies tx.host`tick
    ensures old(tx.host.tick) <= tx.host.tick && tx.host.Valid()
    ensures r.Err? ==> tx.Failing(o)
    ensures r.Ok? ==> tx.Tracking(o) &&
                      Deployed(plan, tx.base, tx.host.containers, tx.host.addresses, force, dns)
    ensures smooth ==> r.Ok?
  {
    hide Tracked, Minted, Logged, Kept, InScope, Progress, StillClear, AllRun, Addressed, Deployed, RunsAt, WellFormed, Names;
    hide AllRequests, AllAlive, Unique, ResolverOf;
    tx.TrackingFails(o);
    TrackingValid(tx, o);
    AllRunNames(plan, tx.host.containers, tx.j.nonce, dns);
    r := HooksThenLiveness(tx.host, plan);
    if r.Ok? {
      Alive(plan, tx.base, tx.host.containers, tx.host.addresses, tx.j, tx.j.nonce, force, dns);
    }
  }

  lemma AllRunNames(plan: Plan, d: Fleet, nonce: nat, dns: string)
    requires WellFormed(plan)
    ensures AllRun(d, AllRequests(plan, nonce, dns)) ==> AllAlive(d, plan.services + [plan.dev])
  {
    if AllRun(d, AllRequests(plan, nonce, dns)) {
      forall n | n in plan.services + [plan.dev] ensures RunsAt(d, n) {
        assert n in Names(plan);
        RequestOf(plan, nonce, dns, n);
        assert CreateRequest(plan, n, nonce, if n == plan.dev then dns else "").name == n;
      }
    }
  }

  /** Everything Up does between opening the transaction and committing it. */
  method Transact(tx: Txn, ghost h0: seq<State>, plan: Plan, force: bool) returns (r: Result<()>, ghost dns: string)
    requires Fresh(tx, h0, plan)
    modifies tx, tx.host
    ensures old(tx.host.tick) <= tx.host.tick && (plan.resolver.None? ==> dns == "")
    ensures var o := Outset(h0, tx.base, plan, force, dns);
            && (r.Err? ==> tx.Failing(o))
            && (r.Ok? ==> tx.Tracking(o) && Deployed(plan, tx.base, tx.host.containers, tx.host.addresses, force, dns))
            && (!force && old(Converged(plan, tx.host.containers, tx.host.addresses)) ==> Quiet(tx, o, old(tx.host.addresses)))
    ensures (tx.host.SmoothFrom(old(tx.host.tick)) && AllClear(tx.base, plan) &&
             old(Addressed(tx.host.containers, tx.host.addresses)) &&
             (plan.resolver.Some? ==> plan.networked)) ==> r.Ok?
  {
    ghost var a0 := tx.host.addresses;
    ghost var quiet := !force && Converged(plan, tx.host.containers, a0);
    ghost var smooth := tx.host.SmoothFrom(tx.host.tick) && AllClear(tx.base, plan) &&
                        Addressed(tx.host.containers, a0) && (plan.resolver.Some? ==> plan.networked);
    ghost var was := if quiet then ResolverOf(plan, tx.host.containers, a0) else "";
    assert tx.project == plan.project && tx.j.candidate == plan.candidate && WellFormed(plan);
    hide Tracked, Minted, Kept, Logged, InScope, Addressed, Deployed, AllSynced, AllClear, Served, ResolverOf, Unique, PlanScope;
    hide WellFormed;
    r := UpServices(tx, h0, a0, plan, force, was, quiet, smooth);
    dns := "";
    if r.Ok? {
      r, dns := UpRest(tx, h0, a0, plan, force, quiet, smooth);
    } else {
      Widen(tx, h0, plan, force, dns);
    }
  }

  /** The dev container, the hooks and the liveness gate. */
  method UpRest(tx: Txn, ghost h0: seq<State>, ghost a0: map<Id, string>, plan: Plan, force: bool, ghost quiet: bool,
                ghost smooth: bool)
    returns (r: Result<()>, ghost dns: string)
    requires WellFormed(plan) && tx.project == plan.project && tx.j.candidate == plan.candidate
    requires Served(tx, Serving(h0, tx.base, plan, force), a0, plan, |plan.services|, force, quiet, smooth)
    requires quiet ==> !force && Converged(plan, tx.base, a0)
    requires smooth ==> AllClear(tx.base, plan) && (plan.resolver.Some? ==> plan.networked)
    modifies tx, tx.host
    ensures old(tx.host.tick) <= tx.host.tick && (plan.resolver.None? ==> dns == "")
    ensures var o := Outset(h0, tx.base, plan, force, dns);
            && (r.Err? ==> tx.Failing(o))
            && (r.Ok? ==> tx.Tracking(o) && Deployed(plan, tx.base, tx.host.containers, tx.host.addresses, force, dns))
            && (quiet ==> Quiet(tx, o, a0))
    ensures smooth ==> r.Ok?
  {
    hide Tracked, Minted, Kept, Logged, InScope, Progress, StillClear, AllClear, Deployed, Unique, Converged, ResolverOf, PlanScope;
    hide WellFormed, AllRun, Addressed, AllRequests;
    var dev;
    dev, dns := UpDev(tx, h0, a0, plan, force, quiet, smooth);
    if dev.Ok? {
      r := Settle(tx, Outset(h0, tx.base, plan, force, dns), plan, force, dns, smooth);
    } else {
      r := Err(dev.error);
    }
  }

  // ----- committing -----------------------------------------------------

  // The shape of one transaction in the durable history: states before
  // index flip are on the old side of base, states from flip on the new one.
  datatype Run = Run(base: Fleet, start: nat, flip: nat, force: bool, dns: string)

  /** What the run may journal. */
  function Extent(run: Run, plan: Plan): Scope {
    PlanScope(run.base, plan, Names(plan), run.force, run.dns)
  }

  ghost predicate New(run: Run, plan: Plan, s: State) {
    NewSide(run.base, plan, run.force, run.dns, s)
  }

  ghost predicate Old(run: Run, plan: Plan, s: State) {
    OldSide(run.base, s, plan.project, Extent(run, plan))
  }

  ghost predicate RunOf(h: seq<State>, run: Run, plan: Plan) {
    && run.start <= run.flip <= |h| && (plan.resolver.None? ==> run.dns == "")
    && (forall k | run.start <= k < run.flip :: Old(run, plan, h[k]))
    && (forall k | run.flip <= k < |h| :: New(run, plan, h[k]))
    && (run.flip < |h| ==>
          run.start < run.flip && h[run.flip - 1].disk.Some? && h[run.flip] == State(h[run.flip - 1].containers, None))
  }

  lemma LoggedRun(o: Origin, h: seq<State>, run: Run, plan: Plan, s: State)
    requires Logged(o, h, run.base, plan.project) && 0 < |h| && h[|h| - 1] == s
    requires run.start == |o.log| && run.flip == |h| && o.scope == Extent(run, plan)
    requires plan.resolver.None? ==> run.dns == ""
    requires 0 < |o.log| && o.log[|o.log| - 1].disk.None?
    ensures o.log <= h && RunOf(h, run, plan)
    ensures s.disk.Some? && New(run, plan, State(s.containers, None)) ==>
              RunOf(h + [State(s.containers, None)], run, plan)
  {
  }

  lemma RunSwept(h1: seq<State>, h: seq<State>, run: Run, d1: Fleet, plan: Plan)
    requires WellFormed(plan) && New(run, plan, State(d1, None)) && NoDebris(run.base, plan.project)
    requires RunOf(h1, run, plan) && SweptLogged(h1, h, d1, plan.project)
    requires run.flip < |h1| || h == h1
    ensures RunOf(h, run, plan)
  {
    hide NewSide, OldSide, Extent, WellFormed;
    forall k | |h1| <= k < |h| ensures New(run, plan, h[k]) {
      NewSwept(plan, run.base, d1, h[k].containers, run.force, run.dns);
    }
    assert forall k | 0 <= k < |h1| :: h[k] == h1[k];
  }

  /** The plan is deployed and no transaction is open. */
  ghost predicate Standing(s: State, a: map<Id, string>, plan: Plan) {
    s.disk.None? && Converged(plan, s.containers, a)
  }

  /** Clear the retired generation on a best-effort basis, then report. */
  method Tidy(svc: Service, plan: Plan, ghost run: Run) returns (r: Result<()>)
    requires svc.host.Valid() && WellFormed(plan) && NoDebris(run.base, plan.project)
    requires Standing(State(svc.host.containers, svc.host.disk), svc.host.addresses, plan)
    requires New(run, plan, State(svc.host.containers, None)) && RunOf(svc.host.history, run, plan)
    requires run.flip < |svc.host.history| || NoDebris(svc.host.containers, plan.project)
    modifies svc.host
    ensures svc.host.Valid() && old(svc.host.tick) <= svc.host.tick && old(svc.host.history) <= svc.host.history
    ensures Standing(State(svc.host.containers, svc.host.disk), svc.host.addresses, plan)
    ensures New(run, plan, State(svc.host.containers, None)) && RunOf(svc.host.history, run, plan)
    ensures NoDebris(old(svc.host.containers), plan.project) ==> svc.host.Idle()
    ensures svc.host.SmoothFrom(old(svc.host.tick)) ==> r.Ok? && NoDebris(svc.host.containers, plan.project)
  {
    hide New, RunOf, NoDebris, Swept, Debris, SweptLogged, WellFormed, Converged, AddressesSwept, Unique;
    ghost var h1, d1, a1 := svc.host.history, svc.host.containers, svc.host.addresses;
    var _ := svc.ClearDebris(plan.project);
    Tidied(svc.host, plan, run, h1, d1, a1);
    var listing := svc.host.ListProjectContainers(plan.project);
    r := if listing.Ok? then Ok(()) else Err(listing.error);
  }

  lemma Tidied(host: Host, plan: Plan, run: Run, h1: seq<State>, d1: Fleet, a1: map<Id, string>)
    requires host.Valid() && host.disk.None? && WellFormed(plan) && NoDebris(run.base, plan.project)
    requires Converged(plan, d1, a1) && New(run, plan, State(d1, None)) && RunOf(h1, run, plan)
    requires run.flip < |h1| || host.history == h1
    requires Swept(d1, host.containers, plan.project) && SweptLogged(h1, host.history, d1, plan.project)
    requires AddressesSwept(d1, a1, host.addresses, plan.project)
    ensures Standing(State(host.containers, host.disk), host.addresses, plan)
    ensures New(run, plan, State(host.containers, None)) && RunOf(host.history, run, plan) && h1 <= host.history
  {
    assert h1 <= host.history && Unique(host.containers);
    hide NewSide, RunOf, NoDebris, Swept, Debris, SweptLogged, WellFormed, Converged, AddressesSwept, Unique;
    RunSwept(h1, host.history, run, d1, plan);
    NewSwept(plan, run.base, d1, host.containers, run.force, run.dns);
    ConvergedSwept(plan, d1, host.containers, a1, host.addresses);
  }

  /** Where the transaction stands when it is about to commit. */
  lemma CommitReady(tx: Txn, o: Origin, plan: Plan, run: Run)
    requires tx.Tracking(o) && tx.project == plan.project && NoDebris(tx.base, plan.project)
    requires plan.resolver.None? ==> run.dns == ""
    requires run.base == tx.base && run.start == |o.log| && run.flip == |tx.host.history| && o.scope == Extent(run, plan)
    requires 0 < |o.log| && o.log[|o.log| - 1].disk.None?
    requires Deployed(plan, tx.base, tx.host.containers, tx.host.addresses, run.force, run.dns)
    ensures New(run, plan, State(tx.host.containers, None)) && Old(run, plan, State(tx.host.containers, tx.host.disk))
    ensures Converged(plan, tx.host.containers, tx.host.addresses)
    ensures RunOf(tx.host.history, run, plan) && o.log <= tx.host.history
    ensures tx.host.disk.Some? ==> RunOf(tx.host.history + [State(tx.host.containers, None)], run, plan)
    ensures tx.written <==> tx.host.disk.Some?
    ensures !tx.written ==> tx.host.containers == tx.base
  {
    hide NewSide, RunOf, OldSide, Converged, Deployed, Logged, NoDebris, Kept, Tracked, InScope, Extent, Minted, Unique;
    CommitNew(tx, o, plan, run);
    TrackedKept(o, tx.host.history, tx.base, tx.host.containers, tx.host.disk, tx.j, tx.written, tx.project);
    LoggedRun(o, tx.host.history, run, plan, State(tx.host.containers, tx.host.disk));
  }

  lemma CommitNew(tx: Txn, o: Origin, plan: Plan, run: Run)
    requires tx.Tracking(o) && tx.project == plan.project && run.base == tx.base
    requires Deployed(plan, tx.base, tx.host.containers, tx.host.addresses, run.force, run.dns)
    ensures New(run, plan, State(tx.host.containers, None)) && Converged(plan, tx.host.containers, tx.host.addresses)
    ensures tx.written <==> tx.host.disk.Some?
    ensures !tx.written ==> tx.host.containers == tx.base
  {
    hide Deployed, Recoverable, Logged, InScope, Converged;
    DeployedNew(plan, tx.base, tx.host.containers, tx.host.addresses, tx.j, run.force, run.dns);
  }

  /** Where state s leaves a run whose history has n states. */
  ghost predicate Settled(run: Run, s: State, n: nat, plan: Plan) {
    if run.flip == n then Old(run, plan, s) else New(run, plan, s)
  }

  /** Commit, then tidy up; a failed commit leaves the journal to the next
      sweep. */
  method Conclude(tx: Txn, ghost o: Origin, plan: Plan, ghost run: Run) returns (r: Result<()>)
    requires tx.Tracking(o) && WellFormed(plan) && tx.project == plan.project && NoDebris(tx.base, plan.project)
    requires plan.resolver.None? ==> run.dns == ""
    requires run.base == tx.base && run.start == |o.log| && run.flip == |tx.host.history| && o.scope == Extent(run, plan)
    requires 0 < |o.log| && o.log[|o.log| - 1].disk.None?
    requires Deployed(plan, tx.base, tx.host.containers, tx.host.addresses, run.force, run.dns)
    modifies tx, tx.host
    ensures tx.host.Valid() && old(tx.host.tick) <= tx.host.tick
    ensures old(tx.host.history) <= tx.host.history && RunOf(tx.host.history, run, plan)
    ensures Settled(run, State(tx.host.containers, tx.host.disk), |tx.host.history|, plan)
    ensures New(run, plan, State(tx.host.containers, None))
    ensures r.Ok? ==> Standing(State(tx.host.containers, tx.host.disk), tx.host.addresses, plan)
    ensures old(!tx.written) ==> tx.host.Idle()
    ensures tx.host.SmoothFrom(old(tx.host.tick)) ==> r.Ok? && NoDebris(tx.host.containers, plan.project)
    ensures r.Ok? && run.flip == |tx.host.history| ==> tx.host.containers == tx.base
  {
    hide New, Old, RunOf, Converged, Deployed, Tracked, Minted, NoDebris, WellFormed, Unique, Extent;
    CommitReady(tx, o, plan, run);
    r := tx.Commit(o);
    if r.Ok? {
      r := Tidy(tx.svc, plan, run);
    }
  }

  // A failed body is rolled back: the journal undone and the moment it was.
  datatype Retreat = Advanced | Retreated(j: Journal, since: nat)

  /** Every managed container at a planned name carries the project's label. */
  ghost predicate OwnNames(b: Fleet, plan: Plan) {
    forall id | id in b && b[id].labels.managed && b[id].name in Names(plan) :: b[id].labels.project == plan.project
  }

  /** If the calls from the failure on succeed, the rollback restored the base
      fleet, provided undo could find every replaced container: exactly so, if
      the project's label is on what held the planned names. */
  ghost predicate Restores(host: Host, d: Fleet, run: Run, plan: Plan, back: Retreat) {
    (back.Retreated? && host.SmoothFrom(back.since) &&
     (OwnNames(run.base, plan) || ReplacedListed(run.base, back.j, plan.project))) ==>
      && d.Keys == run.base.Keys && Restored(run.base, d, plan.project, Extent(run, plan))
      && (OwnNames(run.base, plan) ==> d == run.base)
  }

  /** Nothing but a failing call can stop the plan from being deployed on a
      swept fleet: no unmanaged container holds a planned name, nothing holds a
      transient one. */
  ghost predicate Ripe(d: Fleet, a: map<Id, string>, plan: Plan) {
    AllClear(d, plan) && Addressed(d, a) && (plan.resolver.Some? ==> plan.networked)
  }

  /** One replacement transaction on a swept fleet. */
  method Transition(svc: Service, plan: Plan, force: bool) returns (r: Result<()>, ghost run: Run, ghost back: Retreat)
    requires svc.host.Valid() && WellFormed(plan) && svc.host.disk.None? && NoDebris(svc.host.containers, plan.project)
    modifies svc.host
    ensures svc.host.Valid() && old(svc.host.tick) <= svc.host.tick
    ensures old(svc.host.history) <= svc.host.history && RunOf(svc.host.history, run, plan)
    ensures run.base == old(svc.host.containers) && run.start == |old(svc.host.history)| && run.force == force
    ensures Settled(run, State(svc.host.containers, svc.host.disk), |svc.host.history|, plan)
    ensures back.Advanced? ==> New(run, plan, State(svc.host.containers, None))
    ensures Restores(svc.host, svc.host.containers, run, plan, back)
    ensures r.Ok? ==> back.Advanced? && Standing(State(svc.host.containers, svc.host.disk), svc.host.addresses, plan)
    ensures r.Ok? && run.flip == |svc.host.history| ==> svc.host.containers == run.base
    ensures !force && old(Converged(plan, svc.host.containers, svc.host.addresses)) ==> svc.host.Idle()
    ensures svc.host.SmoothFrom(old(svc.host.tick)) && r.Ok? ==> NoDebris(svc.host.containers, plan.project)
    ensures svc.host.SmoothFrom(old(svc.host.tick)) && old(Ripe(svc.host.containers, svc.host.addresses, plan)) ==> r.Ok?
  {
    hide Deployed, New, Old, Converged, RunOf, WellFormed, NoDebris, AllClear, Addressed, Settled, Tracked, Minted, Kept, Logged;
    hide InScope, Restores, Unique, PlanScope;
    ghost var h0 := svc.host.history;
    HistoryLast(svc.host);
    var tx := new Txn(svc, plan.project, plan.candidate);
    ghost var dns;
    r, dns := Transact(tx, h0, plan, force);
    run := Run(tx.base, |h0|, |svc.host.history|, force, dns);
    ghost var o := Outset(h0, tx.base, plan, force, dns);
    if r.Ok? {
      back := Advanced;
      TrackedLog(tx, o);
      r := Conclude(tx, o, plan, run);
      NothingToRestore(svc.host, svc.host.containers, run, plan);
    } else {
      run, back := RollBack(tx, o, plan, run);
    }
  }

  lemma TrackedLog(tx: Txn, o: Origin)
    requires tx.Tracking(o)
    ensures o.log <= tx.host.history
  {
  }

  lemma NothingToRestore(host: Host, d: Fleet, run: Run, plan: Plan)
    ensures Restores(host, d, run, plan, Advanced)
  {
  }

  /** A transaction that failed is undone, to the side it started from. */
  method RollBack(tx: Txn, ghost o: Origin, plan: Plan, ghost was: Run) returns (ghost run: Run, ghost back: Retreat)
    requires tx.Failing(o) && tx.project == plan.project
    requires was.base == tx.base && was.start == |o.log| && o.scope == Extent(was, plan)
    requires plan.resolver.None? ==> was.dns == ""
    requires 0 < |o.log| && o.log[|o.log| - 1].disk.None?
    modifies tx, tx.host
    ensures tx.host.Valid() && old(tx.host.tick) <= tx.host.tick
    ensures o.log <= tx.host.history && RunOf(tx.host.history, run, plan)
    ensures run == was.(flip := |tx.host.history|) && back.Retreated?
    ensures Settled(run, State(tx.host.containers, tx.host.disk), |tx.host.history|, plan)
    ensures !old(tx.written) ==> tx.host.Idle()
    ensures Restores(tx.host, tx.host.containers, run, plan, back)
  {
    hide OldSide, RunOf, Kept, Logged, InScope, ReplacedListed, Restored, PlanScope, Unique, OwnNames;
    back := Retreated(tx.j, tx.host.tick);
    ghost var written := tx.written;
    FailingListed(tx, o, plan, was);
    tx.Rollback(o);
    run := was.(flip := |tx.host.history|);
    LoggedRun(o, tx.host.history, run, plan, State(tx.host.containers, tx.host.disk));
    RestoredBase(run, plan, State(tx.host.containers, tx.host.disk), written);
  }

  lemma FailingListed(tx: Txn, o: Origin, plan: Plan, was: Run)
    requires tx.Failing(o) && tx.project == plan.project && was.base == tx.base && o.scope == Extent(was, plan)
    ensures tx.written && OwnNames(tx.base, plan) ==> ReplacedListed(tx.base, tx.j, plan.project)
  {
    if tx.written {
      CoveredScope(tx.host.disk.value, tx.j, o.scope);
      assert Old(was, plan, State(tx.host.containers, Some(tx.j)));
      hide OldSide, OwnNames, Kept, ReplacedListed;
      if OwnNames(tx.base, plan) {
        OwnListed(was, plan, State(tx.host.containers, Some(tx.j)));
      }
    }
  }

  lemma RestoredBase(run: Run, plan: Plan, s: State, written: bool)
    requires Old(run, plan, s)
    ensures s.disk.None? || s.containers == run.base ==> Restored(run.base, s.containers, plan.project, Extent(run, plan))
    ensures s.disk.None? && s.containers.Keys == run.base.Keys && OwnNames(run.base, plan) ==> s.containers == run.base
  {
    RestoredRefl(run.base, plan.project, Extent(run, plan));
    hide Restored, OwnNames, PlanScope;
    if s.disk.None? && s.containers.Keys == run.base.Keys && OwnNames(run.base, plan) {
      OwnRestored(run, plan, s.containers);
    }
  }

  // ----- a whole Up -----------------------------------------------------

  /** A state the next Up can start from: a journal, if present, rolls the
      fleet back to one that holds no debris. */
  ghost predicate Resumable(s: State, p: string) {
    s.disk.Some? ==> exists b :: NoDebris(b, p) && Recoverable(b, s.containers, s.disk.value, p)
  }

  /** What recovery shows in the durable states before the transaction opens:
      in any case it tends to the project's own containers alone; and if the
      journal it found is intact it stays on the old side of that run's base b. */
  ghost predicate Swept0(h: seq<State>, from: nat, to: nat, was: State, b: Fleet, intact: bool, p: string)
    requires to <= |h|
  {
    forall k | from <= k < to ::
      && (Guarded(was, p) ==> Tended(was, h[k], p))
      && (match was.disk
          case None => h[k].disk.None? && Swept(was.containers, h[k].containers, p)
          case Some(j) => intact ==> OldSide(b, h[k], p, ScopeOf(j)))
  }

  /** The state s a transaction opens in, given the state was before. */
  ghost predicate Ready(s: State, was: State, b: Fleet, intact: bool, p: string) {
    && s.disk.None? && NoDebris(s.containers, p)
    && (was.disk.Some? ==> OldSeen(was.containers, was.disk.value, p))
    && (was.disk.Some? && intact ==> s.containers.Keys == b.Keys && Restored(b, s.containers, p, ScopeOf(was.disk.value)))
  }

  /** What a whole Up adds to a history h0 whose last state may hold the
      journal of an interrupted run: recovery or debris clearing, then one
      transaction on the swept fleet. */
  ghost predicate Report(h0: seq<State>, h: seq<State>, run: Run, b: Fleet, intact: bool, plan: Plan) {
    && 0 < |h0| <= run.start && h0 <= h && RunOf(h, run, plan)
    && Swept0(h, |h0|, run.start, h0[|h0| - 1], b, intact, plan.project)
    && run.base == h[run.start - 1].containers
    && (run.start < |h| ==> Ready(h[run.start - 1], h0[|h0| - 1], b, intact, plan.project))
  }

  lemma ReportPrepared(h0: seq<State>, h: seq<State>, b: Fleet, intact: bool, plan: Plan, force: bool)
    requires 0 < |h0| && h0 <= h && Swept0(h, |h0|, |h|, h0[|h0| - 1], b, intact, plan.project)
    ensures Report(h0, h, Run(h[|h| - 1].containers, |h|, |h|, force, ""), b, intact, plan)
  {
  }

  lemma ReportRun(h0: seq<State>, h1: seq<State>, h: seq<State>, run: Run, b: Fleet, intact: bool, plan: Plan, s: State)
    requires 0 < |h0| && h0 <= h1 <= h && Swept0(h1, |h0|, |h1|, h0[|h0| - 1], b, intact, plan.project)
    requires h1[|h1| - 1] == s && Ready(s, h0[|h0| - 1], b, intact, plan.project)
    requires RunOf(h, run, plan) && run.start == |h1| && run.base == s.containers
    ensures Report(h0, h, run, b, intact, plan)
  {
    hide RunOf, Swept0, Ready;
    SweptLater(h1, h, |h0|, h0[|h0| - 1], b, intact, plan.project);
    assert h[|h1| - 1] == h1[|h1| - 1];
  }

  lemma SweptLater(h1: seq<State>, h: seq<State>, from: nat, was: State, b: Fleet, intact: bool, p: string)
    requires h1 <= h && Swept0(h1, from, |h1|, was, b, intact, p)
    ensures Swept0(h, from, |h1|, was, b, intact, p)
  {
    hide Guarded, Tended, Swept, OldSide, ScopeOf;
    forall k | from <= k < |h1| ensures h[k] == h1[k] {
    }
  }

  lemma HistoryLast(host: Host)
    requires host.Valid()
    ensures 0 < |host.history| && host.history[|host.history| - 1] == State(host.containers, host.disk)
  {
  }

  /** Nothing but a failing call can stop an up from state s: a journal, if
      present, is intact and undo can see what it replaced; and nothing but
      debris is in the way of the plan. */
  ghost predicate Favourable(s: State, a: map<Id, string>, b: Fleet, intact: bool, plan: Plan) {
    && (s.disk.Some? ==> intact && OldSeen(s.containers, s.disk.value, plan.project))
    && (forall n | n in Names(plan) :: Clearable(if s.disk.Some? then b else s.containers, n, plan.project))
    && Addressed(s.containers, a) && (plan.resolver.Some? ==> plan.networked)
  }

  /** Reconcile the project to the plan: recover what an earlier run left,
      then replace what differs as one transaction. If intact, a journal that
      is present is one an interrupted up with base fleet b left. */
  method Up(svc: Service, plan: Plan, force: bool, ghost b: Fleet, ghost intact: bool)
    returns (r: Result<()>, ghost run: Run, ghost back: Retreat)
    requires svc.host.Valid() && WellFormed(plan)
    requires intact && svc.host.disk.Some? ==>
               Recoverable(b, svc.host.containers, svc.host.disk.value, plan.project) && NoDebris(b, plan.project)
    modifies svc.host
    ensures svc.host.Valid() && old(svc.host.tick) <= svc.host.tick
    ensures Report(old(svc.host.history), svc.host.history, run, b, intact, plan) && run.force == force
    ensures Restores(svc.host, svc.host.containers, run, plan, back)
    ensures r.Ok? ==> Standing(State(svc.host.containers, svc.host.disk), svc.host.addresses, plan)
    ensures r.Ok? ==> Fulfilled(plan, run.base, svc.host.containers, svc.host.addresses, run.dns)
    ensures svc.host.SmoothFrom(old(svc.host.tick)) && r.Ok? ==> NoDebris(svc.host.containers, plan.project)
    ensures !force && old(Standing(State(svc.host.containers, svc.host.disk), svc.host.addresses, plan)) ==>
              Standing(State(svc.host.containers, svc.host.disk), svc.host.addresses, plan) &&
              OnlySwept(old(svc.host.history), svc.host.history, old(svc.host.containers), plan.project) &&
              (old(NoDebris(svc.host.containers, plan.project)) ==> svc.host.Idle()) &&
              (svc.host.SmoothFrom(old(svc.host.tick)) ==> NoDebris(svc.host.containers, plan.project))
    ensures (svc.host.SmoothFrom(old(svc.host.tick)) &&
             old(Favourable(State(svc.host.containers, svc.host.disk), svc.host.addresses, b, intact, plan))) ==> r.Ok?
  {
    hide NoDebris, Recoverable, Converged, Swept0, Ready, Report, Restores, Favourable, Ripe, OnlySwept, WellFormed, Unique;
    hide Fulfilled;
    ghost var h0 := svc.host.history;
    HistoryLast(svc.host);
    SweptNothing(h0, svc.host.containers, plan.project);
    r := Prepare(svc, plan, b, intact);
    if r.Ok? {
      r, run, back := Continue(svc, plan, force, h0, b, intact);
    } else {
      run, back := NothingStarted(svc.host, h0, b, intact, plan, force);
    }
  }

  /** From h0 to h, debris was cleared and nothing else was done. */
  ghost predicate OnlySwept(h0: seq<State>, h: seq<State>, d0: Fleet, p: string) {
    SweptLogged(h0, h, d0, p)
  }

  lemma SweptNothing(h: seq<State>, d: Fleet, p: string)
    ensures OnlySwept(h, h, d, p)
  {
  }

  /** The recovery failed or a preparation did: there was no transaction. */
  lemma NothingStarted(host: Host, h0: seq<State>, b: Fleet, intact: bool, plan: Plan, force: bool)
    returns (run: Run, back: Retreat)
    requires host.Valid() && 0 < |h0| && h0 <= host.history
    requires Swept0(host.history, |h0|, |host.history|, h0[|h0| - 1], b, intact, plan.project)
    ensures Report(h0, host.history, run, b, intact, plan) && run.force == force
    ensures Restores(host, host.containers, run, plan, back)
  {
    hide Swept0, RunOf;
    HistoryLast(host);
    run := Run(host.containers, |host.history|, |host.history|, force, "");
    back := Advanced;
    NothingToRestore(host, host.containers, run, plan);
    ReportPrepared(h0, host.history, b, intact, plan, force);
  }

  method Continue(svc: Service, plan: Plan, force: bool, ghost h0: seq<State>, ghost b: Fleet, ghost intact: bool)
    returns (r: Result<()>, ghost run: Run, ghost back: Retreat)
    requires svc.host.Valid() && WellFormed(plan) && 0 < |h0| && h0 <= svc.host.history
    requires Swept0(svc.host.history, |h0|, |svc.host.history|, h0[|h0| - 1], b, intact, plan.project)
    requires Ready(State(svc.host.containers, svc.host.disk), h0[|h0| - 1], b, intact, plan.project)
    modifies svc.host
    ensures svc.host.Valid() && old(svc.host.tick) <= svc.host.tick
    ensures Report(h0, svc.host.history, run, b, intact, plan) && run.force == force
    ensures Restores(svc.host, svc.host.containers, run, plan, back)
    ensures r.Ok? ==> Standing(State(svc.host.containers, svc.host.disk), svc.host.addresses, plan)
    ensures r.Ok? ==> Fulfilled(plan, run.base, svc.host.containers, svc.host.addresses, run.dns)
    ensures svc.host.SmoothFrom(old(svc.host.tick)) && r.Ok? ==> NoDebris(svc.host.containers, plan.project)
    ensures !force && old(Converged(plan, svc.host.containers, svc.host.addresses)) ==> svc.host.Idle()
    ensures svc.host.SmoothFrom(old(svc.host.tick)) && old(Ripe(svc.host.containers, svc.host.addresses, plan)) ==> r.Ok?
  {
    hide Converged, RunOf, WellFormed, NoDebris, Restores, Swept0, New, Old, Unique, Ready, Report, Ripe, Settled, Standing;
    hide Fulfilled;
    ghost var h1 := svc.host.history;
    ghost var s := State(svc.host.containers, svc.host.disk);
    ReadyNow(s, h0[|h0| - 1], b, intact, plan.project);
    HistoryLast(svc.host);
    r, run, back := Transition(svc, plan, force);
    ReportRun(h0, h1, svc.host.history, run, b, intact, plan, s);
    if r.Ok? {
      Delivered(svc.host, plan, run);
    }
  }

  lemma Delivered(host: Host, plan: Plan, run: Run)
    requires New(run, plan, State(host.containers, None)) && RunOf(host.history, run, plan)
    requires Standing(State(host.containers, host.disk), host.addresses, plan)
    ensures Fulfilled(plan, run.base, host.containers, host.addresses, run.dns)
  {
    hide Converged, NewSide, Fulfilled, Old;
    FulfilledNow(plan, run.base, host.containers, host.addresses, run.force, run.dns);
  }

  lemma ReadyNow(s: State, was: State, b: Fleet, intact: bool, p: string)
    requires Ready(s, was, b, intact, p)
    ensures s.disk.None? && NoDebris(s.containers, p)
  {
  }

  /** Recovery first, then the calls that only read or ensure: leases, the
      env file, networks and volumes. */
  method Prepare(svc: Service, plan: Plan, ghost b: Fleet, ghost intact: bool) returns (r: Result<()>)
    requires svc.host.Valid() && WellFormed(plan)
    requires intact && svc.host.disk.Some? ==>
               Recoverable(b, svc.host.containers, svc.host.disk.value, plan.project) && NoDebris(b, plan.project)
    modifies svc.host
    ensures svc.host.Valid() && old(svc.host.tick) <= svc.host.tick && old(svc.host.history) <= svc.host.history
    ensures Swept0(svc.host.history, |old(svc.host.history)|, |svc.host.history|,
                   old(State(svc.host.containers, svc.host.disk)), b, intact, plan.project)
    ensures r.Ok? ==> Ready(State(svc.host.containers, svc.host.disk), old(State(svc.host.containers, svc.host.disk)),
                            b, intact, plan.project)
    ensures old(Standing(State(svc.host.containers, svc.host.disk), svc.host.addresses, plan)) ==>
              Standing(State(svc.host.containers, svc.host.disk), svc.host.addresses, plan) &&
              OnlySwept(old(svc.host.history), svc.host.history, old(svc.host.containers), plan.project) &&
              (old(NoDebris(svc.host.containers, plan.project)) ==> svc.host.Idle()) &&
              (svc.host.SmoothFrom(old(svc.host.tick)) ==> r.Ok?)
    ensures r.Ok? ==> NoDebris(svc.host.containers, plan.project)
    ensures (svc.host.SmoothFrom(old(svc.host.tick)) &&
             old(Favourable(State(svc.host.containers, svc.host.disk), svc.host.addresses, b, intact, plan))) ==>
              r.Ok? && Ripe(svc.host.containers, svc.host.addresses, plan)
  {
    ghost var h0, was, a0 := svc.host.history, State(svc.host.containers, svc.host.disk), svc.host.addresses;
    hide NoDebris, Recoverable, OldSide, Swept, Restored, Unique, AllClear, Converged, Addressed, OldSeen, SweepReport, WellFormed;
    hide AddressesSwept, Clearable, SweptLogged, Swept0, Ready;
    r := svc.Sweep(b, intact, plan.project);
    Prepared(svc.host, plan, b, intact, was, a0, h0, r.Ok?);
    if r.Ok? {
      r := svc.host.Call();
    }
  }

  lemma Prepared(host: Host, plan: Plan, b: Fleet, intact: bool, was: State, a0: map<Id, string>, h0: seq<State>, ok: bool)
    requires host.Valid() && WellFormed(plan) && h0 <= host.history
    requires SweepReport(b, intact, was, h0, host.history, State(host.containers, host.disk), ok, plan.project)
    requires was.disk.None? ==> AddressesSwept(was.containers, a0, host.addresses, plan.project)
    ensures Swept0(host.history, |h0|, |host.history|, was, b, intact, plan.project)
    ensures ok ==> Ready(State(host.containers, host.disk), was, b, intact, plan.project)
    ensures ok ==> NoDebris(host.containers, plan.project)
    ensures Standing(was, a0, plan) ==>
              Standing(State(host.containers, host.disk), host.addresses, plan) &&
              OnlySwept(h0, host.history, was.containers, plan.project)
    ensures ok && Favourable(was, a0, b, intact, plan) ==> AllClear(host.containers, plan)
  {
    PreparedSwept(host, plan, b, intact, was, h0, ok);
    PreparedStanding(host, plan, b, intact, was, a0, h0, ok);
    if ok && Favourable(was, a0, b, intact, plan) {
      PreparedClear(host, plan, b, intact, was, a0, h0);
    }
  }

  lemma PreparedSwept(host: Host, plan: Plan, b: Fleet, intact: bool, was: State, h0: seq<State>, ok: bool)
    requires SweepReport(b, intact, was, h0, host.history, State(host.containers, host.disk), ok, plan.project)
    ensures Swept0(host.history, |h0|, |host.history|, was, b, intact, plan.project)
    ensures ok ==> Ready(State(host.containers, host.disk), was, b, intact, plan.project)
  {
    hide Guarded, Tended, Swept, Restored, Recoverable, OldSeen, NoDebris, ScopeOf, InScope;
  }

  lemma PreparedStanding(host: Host, plan: Plan, b: Fleet, intact: bool, was: State, a0: map<Id, string>, h0: seq<State>, ok: bool)
    requires host.Valid() && WellFormed(plan) && h0 <= host.history
    requires SweepReport(b, intact, was, h0, host.history, State(host.containers, host.disk), ok, plan.project)
    requires was.disk.None? ==> AddressesSwept(was.containers, a0, host.addresses, plan.project)
    ensures Standing(was, a0, plan) ==>
              Standing(State(host.containers, host.disk), host.addresses, plan) &&
              OnlySwept(h0, host.history, was.containers, plan.project)
  {
    assert Unique(host.containers);
    hide Guarded, Tended, Swept, OldSide, OldSeen, NoDebris, ScopeOf, InScope, Converged, WellFormed, AddressesSwept, Unique, SweptThrough;
    if Standing(was, a0, plan) {
      ConvergedSwept(plan, was.containers, host.containers, a0, host.addresses);
    }
  }

  lemma PreparedClear(host: Host, plan: Plan, b: Fleet, intact: bool, was: State, a0: map<Id, string>, h0: seq<State>)
    requires SweepReport(b, intact, was, h0, host.history, State(host.containers, host.disk), true, plan.project)
    requires Favourable(was, a0, b, intact, plan)
    ensures AllClear(host.containers, plan)
  {
    hide Guarded, Tended, OldSeen, ScopeOf, InScope, Recoverable, SweptThrough, Through, Clearable, NoDebris, Addressed, AllClear;
    var d0 := if was.disk.Some? then b else was.containers;
    if was.disk.Some? {
      RestoredAmong(b, host.containers, plan.project, ScopeOf(was.disk.value));
    } else {
      SweptSpares(was.containers, host.containers, plan.project);
    }
    NowClear(d0, host.containers, plan);
  }

  lemma RestoredAmong(b: Fleet, d: Fleet, p: string, c: Scope)
    requires Restored(b, d, p, c) && d.Keys == b.Keys
    ensures Among(b, d)
  {
  }

  /** Wherever an Up is cut off, the next one can start from what it left. */
  lemma AlwaysResumable(h0: seq<State>, h: seq<State>, run: Run, b: Fleet, intact: bool, plan: Plan, k: nat)
    requires Report(h0, h, run, b, intact, plan) && |h0| <= k < |h|
    requires h0[|h0| - 1].disk.Some? ==> NoDebris(b, plan.project)
    requires h0[|h0| - 1].disk.Some? ==> intact || run.start <= k
    ensures Resumable(h[k], plan.project)
  {
    hide Recoverable, Restored, NewSide, Swept, Tended, Guarded, PlanScope, ScopeOf, InScope, NoDebris;
    if k < run.start {
      assert h0[|h0| - 1].disk.Some? ==> OldSide(b, h[k], plan.project, ScopeOf(h0[|h0| - 1].disk.value));
    } else if k < run.flip {
      assert Old(run, plan, h[k]);
    } else {
      assert New(run, plan, h[k]);
      NewHasNoJournal(run, plan, h[k]);
    }
  }

  lemma NewHasNoJournal(run: Run, plan: Plan, s: State)
    requires New(run, plan, s)
    ensures s.disk.None?
  {
  }

  // ----- the moment of commitment -----------------------------------------

  /** The last state with the journal, and the first without. */
  lemma CommitPair(h: seq<State>, run: Run, plan: Plan)
    requires RunOf(h, run, plan) && run.flip < |h|
    ensures run.start < run.flip
    ensures var s := h[run.flip - 1];
            s.disk.Some? && Old(run, plan, State(s.containers, Some(s.disk.value))) && New(run, plan, State(s.containers, None))
  {
    hide Old, New;
    assert Old(run, plan, h[run.flip - 1]) && New(run, plan, h[run.flip]);
    assert h[run.flip - 1] == State(h[run.flip - 1].containers, Some(h[run.flip - 1].disk.value));
  }

  /** A managed container at a planned name that is not what the plan wants there. */
  predicate InTheWay(b: Fleet, plan: Plan, force: bool, dns: string, x: Id) {
    x in b && b[x].name in Names(plan) && b[x].labels.managed && Outdated(b[x], plan, force, dns)
  }

  /** Such a container is parked and off when the run commits. */
  lemma Ousted(d: Fleet, run: Run, plan: Plan, x: Id)
    requires New(run, plan, State(d, None)) && WellFormed(plan)
    requires InTheWay(run.base, plan, run.force, run.dns, x) && x in d
    ensures d[x] == run.base[x].(name := Prev(run.base[x].name), running := false)
  {
    var n := run.base[x].name;
    assert Heir(run.base[x], d[x], run.force);
    assert InSync(d, Wanted(plan, n, run.dns));
    var y :| y in d && Serves(d[y], Wanted(plan, n, run.dns));
    assert d[x].name == n ==> y == x;
  }

  /** And nothing else is: what has been moved was in the way. */
  lemma OustedOnly(d: Fleet, j: Journal, run: Run, plan: Plan, x: Id)
    requires Old(run, plan, State(d, Some(j))) && x in run.base && x in d && d[x].name != run.base[x].name
    ensures InTheWay(run.base, plan, run.force, run.dns, x)
  {
    assert Touched(j, x);
    var m :| 0 <= m < |j.entries| && Touches(j.entries[m], x);
    assert EntryOk(run.base, d, j.entries[m]) && Within(j.entries[m], Extent(run, plan));
  }

  // ----- crashes --------------------------------------------------------

  /** If the project's label is on what holds the planned names, what an undone
      run leaves is exactly the base fleet... */
  lemma OwnRestored(run: Run, plan: Plan, d: Fleet)
    requires OwnNames(run.base, plan) && d.Keys == run.base.Keys
    requires Restored(run.base, d, plan.project, Extent(run, plan))
    ensures d == run.base
  {
    forall id | id in d ensures d[id] == run.base[id] {
      assert id in Extent(run, plan).started ==> run.base[id].name in Names(plan);
    }
  }

  /** ...and undo can always see what was replaced. */
  lemma OwnListed(run: Run, plan: Plan, s: State)
    requires OwnNames(run.base, plan) && Old(run, plan, s) && s.disk.Some?
    ensures ReplacedListed(run.base, s.disk.value, plan.project)
  {
    var b, j := run.base, s.disk.value;
    forall k | 0 <= k < |j.entries| && j.entries[k].Replace? ensures b[j.entries[k].oldId].labels.project == plan.project {
      assert EntryOk(b, s.containers, j.entries[k]) && Within(j.entries[k], Extent(run, plan));
    }
  }

  /** What a sweep leaves behind after a crash of a run at its k-th state. */
  ghost predicate Aftermath(run: Run, plan: Plan, k: nat, s: State) {
    && s.disk.None? && NoDebris(s.containers, plan.project)
    && (k < run.flip ==>
          && s.containers.Keys == run.base.Keys
          && Restored(run.base, s.containers, plan.project, Extent(run, plan))
          && (OwnNames(run.base, plan) ==> s.containers == run.base))
    && (run.flip <= k ==>
          && New(run, plan, s)
          && forall id | id in run.base && run.base[id].name in Names(plan) &&
                         run.base[id].labels.project == plan.project && id in s.containers ::
               Serves(s.containers[id], Wanted(plan, run.base[id].name, run.dns)))
  }

  /** Crash anywhere in a transaction, then sweep: the old generation if the
      journal had not been deleted yet, and the new one if it had, never both.
      If the project's label is on what holds the planned names, only a
      failing call can keep the sweep from restoring exactly the base fleet. */
  method SweepAfterCrash(svc: Service, plan: Plan, ghost h: seq<State>, ghost run: Run, ghost k: nat)
    returns (r: Result<()>)
    requires svc.host.Valid() && WellFormed(plan) && RunOf(h, run, plan) && NoDebris(run.base, plan.project)
    requires run.start <= k < |h| && h[k] == State(svc.host.containers, svc.host.disk)
    modifies svc.host
    ensures svc.host.Valid()
    ensures r.Ok? ==> Aftermath(run, plan, k, State(svc.host.containers, svc.host.disk))
    ensures r.Err? && k < run.flip ==> Old(run, plan, State(svc.host.containers, svc.host.disk))
    ensures r.Err? && run.flip <= k ==> New(run, plan, State(svc.host.containers, svc.host.disk))
    ensures h[k].disk.Some? && !ReplacedListed(run.base, h[k].disk.value, plan.project) ==>
              r.Err? && svc.host.disk == h[k].disk
    ensures (svc.host.SmoothFrom(old(svc.host.tick)) &&
             (h[k].disk.Some? ==> ReplacedListed(run.base, h[k].disk.value, plan.project))) ==> r.Ok?
    ensures svc.host.SmoothFrom(old(svc.host.tick)) && OwnNames(run.base, plan) ==> r.Ok?
  {
    hide New, Restored, Recoverable, NoDebris, ReplacedListed, WellFormed, OldSeen, SweepReport, OwnNames, Aftermath, Unique;
    ghost var h0, was := svc.host.history, h[k];
    CrashState(h, run, plan, k);
    r := svc.Sweep(run.base, true, plan.project);
    if k < run.flip {
      SweptOld(run, plan, was, h0, svc.host.history, State(svc.host.containers, svc.host.disk), r.Ok?, k);
    } else {
      SweptNew(run, plan, was, h0, svc.host.history, State(svc.host.containers, svc.host.disk), r.Ok?, k);
    }
  }

  lemma CrashState(h: seq<State>, run: Run, plan: Plan, k: nat)
    requires RunOf(h, run, plan) && run.start <= k < |h|
    ensures if k < run.flip then Old(run, plan, h[k]) else New(run, plan, h[k])
    ensures k < run.flip && h[k].disk.Some? ==>
              Recoverable(run.base, h[k].containers, h[k].disk.value, plan.project) &&
              (OldSeen(h[k].containers, h[k].disk.value, plan.project) <==>
               ReplacedListed(run.base, h[k].disk.value, plan.project)) &&
              (OwnNames(run.base, plan) ==> ReplacedListed(run.base, h[k].disk.value, plan.project))
    ensures run.flip <= k ==> h[k].disk.None?
  {
    hide NewSide, PlanScope, OwnNames, OldSeen, ReplacedListed;
    if k < run.flip {
      assert Old(run, plan, h[k]);
      if h[k].disk.Some? {
        SeenListed(run.base, h[k].containers, h[k].disk.value, plan.project);
        if OwnNames(run.base, plan) {
          OwnListed(run, plan, h[k]);
        }
      }
    } else {
      assert New(run, plan, h[k]);
      NewHasNoJournal(run, plan, h[k]);
    }
  }

  lemma SweptOld(run: Run, plan: Plan, was: State, h0: seq<State>, h: seq<State>, s: State, ok: bool, k: nat)
    requires Old(run, plan, was) && k < run.flip && NoDebris(run.base, plan.project)
    requires SweepReport(run.base, true, was, h0, h, s, ok, plan.project)
    ensures Old(run, plan, s)
    ensures ok ==> Aftermath(run, plan, k, s)
    ensures was.disk.Some? && !OldSeen(was.containers, was.disk.value, plan.project) ==> !ok && s.disk == was.disk
  {
    hide Guarded, Tended, Swept, OldSeen, NoDebris, ScopeOf, PlanScope, Restored, Recoverable, OwnNames, SweptThrough, Through;
    if was.disk.Some? {
      ScopeOfNarrower(was.disk.value, Extent(run, plan));
      OldSideWider(run.base, s, plan.project, ScopeOf(was.disk.value), Extent(run, plan));
    } else {
      RestoredSwept(run.base, was.containers, s.containers, plan.project, Extent(run, plan));
    }
    if ok && OwnNames(run.base, plan) {
      OwnRestored(run, plan, s.containers);
    }
  }

  lemma SweptNew(run: Run, plan: Plan, was: State, h0: seq<State>, h: seq<State>, s: State, ok: bool, k: nat)
    requires WellFormed(plan) && New(run, plan, was) && run.flip <= k && NoDebris(run.base, plan.project)
    requires SweepReport(run.base, true, was, h0, h, s, ok, plan.project)
    ensures New(run, plan, s)
    ensures ok ==> Aftermath(run, plan, k, s)
  {
    NewHasNoJournal(run, plan, was);
    hide Guarded, Tended, Swept, NoDebris, NewSide, Unique, WellFormed, SweptThrough, OwnNames, Wanted, Serves;
    NewSwept(plan, run.base, was.containers, s.containers, run.force, run.dns);
    if ok {
      forall id | id in run.base && run.base[id].name in Names(plan) &&
                  run.base[id].labels.project == plan.project && id in s.containers
        ensures Serves(s.containers[id], Wanted(plan, run.base[id].name, run.dns))
      {
        OldGeneration(run.base, plan, run.force, run.dns, s, id);
      }
    }
  }
}
