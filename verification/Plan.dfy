/** The desired state of a project, and what deploying it means. */
module Desired {
  import opened Containers
  import opened Recovery
  import opened Environment
  import opened Rollback
  import opened Transaction
  import opened Reconcile

  // The parts of a compiled plan reconciliation reads. resolver is the
  // sidecar the dev container's DNS points at.
  datatype Plan = Plan(project: string, candidate: string, services: seq<Name>, dev: Name,
                       resolver: Option<Name>, networked: bool)

  /** What plan validation guarantees. */
  ghost predicate WellFormed(plan: Plan) {
    && (forall n | n in plan.services :: Canonical(n) && n != plan.dev)
    && Canonical(plan.dev)
    && (forall i, k | 0 <= i < k < |plan.services| :: plan.services[i] != plan.services[k])
    && (plan.resolver.Some? ==> plan.resolver.value in plan.services)
  }

  function CreateRequest(plan: Plan, n: Name, nonce: nat, dns: string): Request {
    Request(n, Labels(true, plan.project, plan.candidate, nonce, dns))
  }

  function Services(plan: Plan): set<Name> {
    set n | n in plan.services
  }

  function Names(plan: Plan): set<Name> {
    Services(plan) + {plan.dev}
  }

  lemma NamesCanonical(plan: Plan)
    requires WellFormed(plan)
    ensures forall n | n in Names(plan) :: Canonical(n)
    ensures plan.dev !in Services(plan)
  {
  }

  // The resolver address the dev container must have been created with.
  function ResolverOf(plan: Plan, d: Fleet, a: map<Id, string>): string
    requires Unique(d)
  {
    if plan.resolver.Some? && At(d, plan.resolver.value).Some?
    then Lookup(a, At(d, plan.resolver.value).value) else ""
  }

  /** What the plan wants at name n, its resolver being at dns. */
  function Wanted(plan: Plan, n: Name, dns: string): Request {
    CreateRequest(plan, n, 0, if n == plan.dev then dns else "")
  }

  ghost predicate AllSynced(d: Fleet, plan: Plan, dns: string) {
    forall n | n in Names(plan) :: InSync(d, Wanted(plan, n, dns))
  }

  /** Every planned container runs the candidate under its canonical name,
      and the dev container points at the sidecar's live address. */
  ghost predicate Converged(plan: Plan, d: Fleet, a: map<Id, string>) {
    Unique(d) && AllSynced(d, plan, ResolverOf(plan, d, a))
  }

  /** In sync, said of the containers' own fields. */
  lemma SyncedFields(d: Fleet, plan: Plan, dns: string)
    ensures AllSynced(d, plan, dns) <==>
            forall n | n in plan.services || n == plan.dev :: RunsAs(d, n, plan.candidate, if n == plan.dev then dns else "")
  {
    forall n | n in Names(plan)
      ensures InSync(d, Wanted(plan, n, dns)) <==> RunsAs(d, n, plan.candidate, if n == plan.dev then dns else "")
    {
      SyncedExactly(d, Wanted(plan, n, dns));
    }
    hide InSync, RunsAs;
    assert forall n :: n in Names(plan) <==> n in plan.services || n == plan.dev;
  }

  lemma SyncAnyNonce(d: Fleet, plan: Plan, n: Name, dns: string, m: nat, k: nat)
    ensures InSync(d, CreateRequest(plan, n, m, dns)) ==> InSync(d, CreateRequest(plan, n, k, dns))
  {
  }

  // ----- what deploying a plan may journal --------------------------------

  /** Container c, at a planned name, is not what is wanted there. */
  predicate Outdated(c: Container, plan: Plan, force: bool, dns: string) {
    force || !Same(c.labels, Wanted(plan, c.name, dns).labels)
  }

  lemma OutdatedFields(c: Container, plan: Plan, force: bool, dns: string)
    ensures Outdated(c, plan, force, dns) <==>
            || force || c.labels.candidate != plan.candidate
            || c.labels.dns != if c.name == plan.dev then dns else ""
  {
  }

  /** Deploying the plan at some of its names replaces what is outdated there
      and starts what is off, and journals nothing else. */
  function PlanScope(b: Fleet, plan: Plan, names: set<Name>, force: bool, dns: string): Scope {
    Scope(names,
          set id | id in b && b[id].name in names && Outdated(b[id], plan, force, dns),
          set id | id in b && b[id].name in names && !Outdated(b[id], plan, force, dns) && !b[id].running)
  }

  lemma ScopeAdmits(b: Fleet, plan: Plan, names: set<Name>, force: bool, dns: string, n: Name, nonce: nat)
    requires n in names
    ensures Admits(PlanScope(b, plan, names, force, dns), b,
                   CreateRequest(plan, n, nonce, if n == plan.dev then dns else ""), force)
  {
  }

  lemma ScopeGrows(b: Fleet, plan: Plan, force: bool, dns: string, dns': string)
    requires WellFormed(plan)
    ensures Narrower(PlanScope(b, plan, Services(plan), force, dns), PlanScope(b, plan, Names(plan), force, dns'))
  {
    NamesCanonical(plan);
  }

  // ----- the two generations ----------------------------------------------

  /** From b to d, the containers at some names may have been succeeded, those
      at other names are as they were, and what is new holds one of the names. */
  ghost predicate Onward(b: Fleet, d: Fleet, names: set<Name>, force: bool) {
    && (forall id | id in b :: id in d && if b[id].name in names then Heir(b[id], d[id], force) else d[id] == b[id])
    && (forall id | id in d && id !in b :: d[id].name in names)
  }

  /** A durable state on the new side of the commit point: the whole plan is
      deployed. Of the base fleet, what has no planned name or is unmanaged is
      unchanged; what held a planned name still does, or is parked and off, or,
      being the project's own, has been cleared away. */
  ghost predicate NewSide(b: Fleet, plan: Plan, force: bool, dns: string, s: State) {
    && s.disk.None? && Unique(s.containers) && AllSynced(s.containers, plan, dns)
    && (plan.resolver.Some? ==> dns != "")
    && (forall id | id in b && b[id].name !in Names(plan) :: id in s.containers && s.containers[id] == b[id])
    && (forall id | id in b && !b[id].labels.managed :: id in s.containers && s.containers[id] == b[id])
    && (forall id | id in b && b[id].name in Names(plan) ::
          if id in s.containers then Heir(b[id], s.containers[id], force) else Ours(b[id], plan.project))
    && (forall id | id in s.containers && id !in b ::
          s.containers[id].name in Names(plan) && Ours(s.containers[id], plan.project))
  }

  /** What the transaction leaves to commit. */
  ghost predicate Deployed(plan: Plan, b: Fleet, d: Fleet, a: map<Id, string>, force: bool, dns: string) {
    && Unique(d) && dns == ResolverOf(plan, d, a) && (plan.resolver.Some? ==> dns != "")
    && AllSynced(d, plan, dns) && Onward(b, d, Names(plan), force)
  }

  /** Deleting the journal makes the deployed plan the new generation. */
  lemma DeployedNew(plan: Plan, b: Fleet, d: Fleet, a: map<Id, string>, j: Journal, force: bool, dns: string)
    requires Deployed(plan, b, d, a, force, dns) && Recoverable(b, d, j, plan.project)
    ensures NewSide(b, plan, force, dns, State(d, None)) && Converged(plan, d, a)
  {
    NothingLost(b, d, j, plan.project);
    NewOurs(b, d, j, plan.project);
    hide Recoverable, Heir, AllSynced, Ours;
  }

  lemma NewOurs(b: Fleet, d: Fleet, j: Journal, p: string)
    requires Recoverable(b, d, j, p)
    ensures forall id | id in d && id !in b :: Ours(d[id], p)
  {
  }

  /** A container called n has the address ip. */
  predicate Answers(d: Fleet, a: map<Id, string>, n: Name, ip: string) {
    exists s :: s in d && d[s].name == n && s in a && a[s] == ip
  }

  /** The plan fulfilled, in terms of names, labels and addresses: each planned
      name has a running container of the candidate; dev was made with an
      address its resolver has now, and with none if the plan names no resolver;
      and what was not in b bears the project's labels. */
  ghost predicate Fulfilled(plan: Plan, b: Fleet, d: Fleet, a: map<Id, string>, dns: string) {
    && (forall n | n in plan.services || n == plan.dev :: RunsAs(d, n, plan.candidate, if n == plan.dev then dns else ""))
    && (plan.resolver.None? ==> dns == "")
    && (plan.resolver.Some? ==>
          dns != "" && Answers(d, a, plan.resolver.value, dns))
    && (forall id | id in d && id !in b :: d[id].labels.managed && d[id].labels.project == plan.project)
  }

  lemma FulfilledNow(plan: Plan, b: Fleet, d: Fleet, a: map<Id, string>, force: bool, dns: string)
    requires Converged(plan, d, a) && NewSide(b, plan, force, dns, State(d, None))
    requires plan.resolver.None? ==> dns == ""
    ensures Fulfilled(plan, b, d, a, dns)
  {
    SyncedFields(d, plan, dns);
    SyncedFields(d, plan, ResolverOf(plan, d, a));
    assert plan.dev in Names(plan);
    hide AllSynced;
    assert ResolverOf(plan, d, a) == dns;
  }

  lemma SyncSwept(plan: Plan, d1: Fleet, d: Fleet)
    requires WellFormed(plan) && Swept(d1, d, plan.project)
    ensures forall id | id in d1 && d1[id].name in Names(plan) :: id in d && d[id] == d1[id]
    ensures forall dns | AllSynced(d1, plan, dns) :: AllSynced(d, plan, dns)
  {
    NamesCanonical(plan);
    forall id | id in d1 && d1[id].name in Names(plan) ensures id in d && d[id] == d1[id] {
      NamesApart(d1[id].name, d1[id].name);
      assert !Debris(d1[id], plan.project);
    }
    forall n, dns | n in Names(plan) && InSync(d1, Wanted(plan, n, dns)) ensures InSync(d, Wanted(plan, n, dns)) {
    }
  }

  lemma HeirSwept(was: Container, d1: Fleet, d: Fleet, id: Id, p: string, force: bool)
    requires Canonical(was.name) && Swept(d1, d, p) && id in d1 && Heir(was, d1[id], force)
    ensures if id in d then Heir(was, d[id], force) else Ours(was, p)
  {
    NamesApart(was.name, was.name);
    if Debris(d1[id], p) {
      assert d1[id].labels == was.labels;
    }
  }

  lemma SweptUnique(d1: Fleet, d: Fleet)
    requires Unique(d1) && Among(d1, d)
    ensures Unique(d)
  {
  }

  /** Clearing debris keeps the new generation. */
  lemma NewSwept(plan: Plan, b: Fleet, d1: Fleet, d: Fleet, force: bool, dns: string)
    requires WellFormed(plan) && NewSide(b, plan, force, dns, State(d1, None))
    requires NoDebris(b, plan.project) && Swept(d1, d, plan.project)
    ensures NewSide(b, plan, force, dns, State(d, None))
  {
    hide AllSynced, Swept, Canonical, Heir, Names, WellFormed, Unique;
    SyncSwept(plan, d1, d);
    NamesCanonical(plan);
    SweptSpares(d1, d, plan.project);
    SweptUnique(d1, d);
    forall id | id in b && b[id].name in Names(plan)
      ensures if id in d then Heir(b[id], d[id], force) else Ours(b[id], plan.project)
    {
      if id in d1 {
        HeirSwept(b[id], d1, d, id, plan.project, force);
      }
    }
  }

  /** With no debris left, a container of the project that held a planned name
      holds it still, in sync, or is gone: the generations are never mixed. */
  lemma OldGeneration(b: Fleet, plan: Plan, force: bool, dns: string, s: State, id: Id)
    requires WellFormed(plan) && NewSide(b, plan, force, dns, s)
    requires NoDebris(s.containers, plan.project)
    requires id in b && b[id].name in Names(plan) && b[id].labels.project == plan.project
    ensures id in s.containers ==> Serves(s.containers[id], Wanted(plan, b[id].name, dns))
  {
    if id in s.containers {
      var n, c := b[id].name, s.containers[id];
      NamesCanonical(plan);
      NamesApart(n, n);
      assert Heir(b[id], c, force) && !Debris(c, plan.project);
      var y :| y in s.containers && Serves(s.containers[y], Wanted(plan, n, dns));
      assert c.name == n;
    }
  }

  /** Clearing the retired generation leaves a converged plan converged. */
  lemma ConvergedSwept(plan: Plan, d1: Fleet, d: Fleet, a1: map<Id, string>, a: map<Id, string>)
    requires WellFormed(plan) && Converged(plan, d1, a1) && Unique(d) && Swept(d1, d, plan.project)
    requires AddressesSwept(d1, a1, a, plan.project)
    ensures Converged(plan, d, a)
  {
    SyncSwept(plan, d1, d);
    NamesCanonical(plan);
    if plan.resolver.Some? {
      var s := plan.resolver.value;
      assert InSync(d1, Wanted(plan, s, ResolverOf(plan, d1, a1)));
      var x := At(d1, s).value;
      NamesApart(s, s);
      assert !Debris(d1[x], plan.project);
      assert At(d, s) == Some(x);
    }
    assert ResolverOf(plan, d, a) == ResolverOf(plan, d1, a1);
  }

  /** Nothing but debris stands in the way of a container at name n. */
  predicate Clearable(d: Fleet, n: Name, p: string) {
    && (forall id | id in d && d[id].name == n :: d[id].labels.managed)
    && (forall id | id in d && (d[id].name == Next(n) || d[id].name == Prev(n)) :: Debris(d[id], p))
  }

  ghost predicate AllClear(b: Fleet, plan: Plan) {
    forall n | n in Names(plan) :: Clear(b, n)
  }

  lemma NowClear(d0: Fleet, d: Fleet, plan: Plan)
    requires Among(d0, d) && NoDebris(d, plan.project)
    requires forall n | n in Names(plan) :: Clearable(d0, n, plan.project)
    ensures AllClear(d, plan)
  {
  }
}
