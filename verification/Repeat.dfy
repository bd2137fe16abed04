/** Running an up again. */
module Repetition {
  import opened Containers
  import opened Recovery
  import opened Environment
  import opened Rollback
  import opened Runtime
  import opened Transaction
  import opened Reconcile
  import opened Desired
  import opened Upgrade

  /** After an up that succeeded, whatever failed in it, an unforced one writes
      no journal and does nothing but clear debris; and if no call fails from
      then on, it does nothing at all exactly if there was no debris to clear. */
  method Again(svc: Service, plan: Plan, ghost b: Fleet) returns (r: Result<()>)
    requires svc.host.Valid() && WellFormed(plan)
    requires Standing(State(svc.host.containers, svc.host.disk), svc.host.addresses, plan)
    modifies svc.host
    ensures svc.host.Valid() && old(svc.host.tick) <= svc.host.tick
    ensures Standing(State(svc.host.containers, svc.host.disk), svc.host.addresses, plan)
    ensures OnlySwept(old(svc.host.history), svc.host.history, old(svc.host.containers), plan.project)
    ensures svc.host.SmoothFrom(old(svc.host.tick)) ==>
              (svc.host.Idle() <==> old(NoDebris(svc.host.containers, plan.project)))
  {
    hide Converged, NoDebris, Report, OnlySwept, Restores, Favourable, WellFormed, Unique;
    ghost var run, back;
    r, run, back := Up(svc, plan, false, b, false);
  }

  /** An up that succeeded, and at once another: the second, from history mid
      on, only clears what debris the first left; and it leaves none, and the
      second has nothing to do, if no call fails. */
  method Twice(svc: Service, plan: Plan, force: bool, ghost b: Fleet, ghost intact: bool)
    returns (first: Result<()>, second: Result<()>, ghost mid: seq<State>)
    requires svc.host.Valid() && WellFormed(plan)
    requires intact && svc.host.disk.Some? ==>
               Recoverable(b, svc.host.containers, svc.host.disk.value, plan.project) && NoDebris(b, plan.project)
    modifies svc.host
    ensures 0 < |mid|
    ensures first.Ok? ==> Standing(State(svc.host.containers, svc.host.disk), svc.host.addresses, plan) &&
                          OnlySwept(mid, svc.host.history, mid[|mid| - 1].containers, plan.project)
    ensures first.Ok? && svc.host.SmoothFrom(old(svc.host.tick)) ==> svc.host.history == mid
  {
    hide Converged, NoDebris, Report, OnlySwept, Restores, Favourable, WellFormed, Unique, Recoverable;
    ghost var run, back;
    first, run, back := Up(svc, plan, force, b, intact);
    HistoryLast(svc.host);
    mid := svc.host.history;
    second := first;
    if first.Ok? {
      second := Again(svc, plan, b);
    }
  }

  // ----- what there is to clear -------------------------------------------

  /** A container of the project that is in the plan's way. */
  predicate Retiring(run: Run, plan: Plan, x: Id) {
    InTheWay(run.base, plan, run.force, run.dns, x) && run.base[x].labels.project == plan.project
  }

  /** When a run commits it leaves debris if and only if, to begin with, a
      container of the project was in the plan's way. */
  lemma DebrisExactly(h: seq<State>, run: Run, plan: Plan)
    requires RunOf(h, run, plan) && run.flip < |h| && WellFormed(plan) && NoDebris(run.base, plan.project)
    ensures h[run.flip].disk.None?
    ensures !NoDebris(h[run.flip].containers, plan.project) <==>
            exists x :: Retiring(run, plan, x)
  {
    hide WellFormed, NoDebris, Retiring, Old, New;
    CommitPair(h, run, plan);
    var s := h[run.flip - 1];
    assert h[run.flip] == State(s.containers, None);
    hide RunOf;
    if x: Id :| Retiring(run, plan, x) {
      OustedDebris(s.containers, s.disk.value, run, plan, x);
    }
    if !NoDebris(s.containers, plan.project) {
      var x := DebrisOusted(s.containers, s.disk.value, run, plan);
    }
  }

  lemma OustedDebris(d: Fleet, j: Journal, run: Run, plan: Plan, x: Id)
    requires Old(run, plan, State(d, Some(j))) && New(run, plan, State(d, None)) && WellFormed(plan)
    requires Retiring(run, plan, x)
    ensures !NoDebris(d, plan.project)
  {
    var n := run.base[x].name;
    NothingLost(run.base, d, j, plan.project);
    Ousted(d, run, plan, x);
    NamesCanonical(plan);
    NamesApart(n, n);
    hide New, Old, WellFormed;
    assert Debris(d[x], plan.project);
  }

  lemma DebrisOusted(d: Fleet, j: Journal, run: Run, plan: Plan) returns (x: Id)
    requires Old(run, plan, State(d, Some(j))) && New(run, plan, State(d, None)) && WellFormed(plan)
    requires NoDebris(run.base, plan.project) && !NoDebris(d, plan.project)
    ensures Retiring(run, plan, x)
  {
    x :| x in d && Debris(d[x], plan.project);
    NamesCanonical(plan);
    var n := if x in run.base then run.base[x].name else d[x].name;
    if n in Names(plan) {
      NamesApart(n, n);
    }
    assert x in run.base && d[x].name != n;
    OustedOnly(d, j, run, plan, x);
  }

  const DEV: Name := "vibe-a-dev"

  /** A project of one container, and it at an earlier candidate. */
  function OneContainer(): Plan {
    Plan("a1", "c1", [], DEV, None, true)
  }

  function Before(): Fleet {
    map[1 := Container(DEV, true, Labels(true, "a1", "c0", 0, ""))]
  }

  lemma BeforeFacts(a: map<Id, string>)
    requires Lookup(a, 1) != ""
    ensures WellFormed(OneContainer()) && NoDebris(Before(), "a1") && Ripe(Before(), a, OneContainer())
    ensures InTheWay(Before(), OneContainer(), false, "", 1) && !AllSynced(Before(), OneContainer(), "")
  {
    assert Names(OneContainer()) == {DEV} && Before()[1].name == DEV && Canonical(DEV);
    NamesApart(DEV, DEV);
    hide Canonical, HasSuffix, Prev, Next;
    assert !Taken(Before(), Prev(DEV)) && !Taken(Before(), Next(DEV));
    assert !InSync(Before(), Wanted(OneContainer(), DEV, ""));
  }

  /** There an up in which no call fails commits with the plan deployed and the
      retired container still there: if clearing fails, or the up is cut off,
      the next one has it to clear. */
  method DebrisRemains(svc: Service) returns (r: Result<()>, ghost run: Run)
    requires svc.host.Valid() && svc.host.disk.None? && svc.host.containers == Before() && svc.host.Address(1) != ""
    requires svc.host.SmoothFrom(svc.host.tick)
    modifies svc.host
    ensures r.Ok? && RunOf(svc.host.history, run, OneContainer()) && run.flip < |svc.host.history|
    ensures var s := svc.host.history[run.flip];
            (forall a :: Standing(s, a, OneContainer())) && !NoDebris(s.containers, "a1")
  {
    hide NoDebris, WellFormed, Ripe, RunOf, Settled, Restores, New, InTheWay, AllSynced, Unique;
    BeforeFacts(svc.host.addresses);
    ghost var back;
    r, run, back := Transition(svc, OneContainer(), false);
    CommitShape(svc.host.history, run);
    DebrisExactly(svc.host.history, run, OneContainer());
    assert Retiring(run, OneContainer(), 1);
  }

  lemma CommitShape(h: seq<State>, run: Run)
    requires RunOf(h, run, OneContainer())
    ensures run.flip <= |h| && run.dns == ""
    ensures run.flip < |h| ==> forall a :: Standing(h[run.flip], a, OneContainer())
  {
    if run.flip < |h| {
      assert New(run, OneContainer(), h[run.flip]);
    }
  }
}
