/** What is whose: nothing but the project's own is ever touched, by any run
    of anything, and when exactly recovery is exact. Container names carry
    only a prefix of the project id, reconciliation checks the managed label
    alone, and undo sees containers by their full project label. */
module Ownership {
  import opened Containers
  import opened Recovery
  import opened Environment
  import opened Rollback
  import opened Runtime
  import opened Transaction
  import opened Reconcile
  import opened Desired
  import opened Upgrade
  import opened Teardown
  import opened Repetition

  // ----- exact recovery ---------------------------------------------------

  /** A start left running that undo cannot see. */
  predicate Running(b: Fleet, d: Fleet, j: Journal, p: string) {
    exists k :: 0 <= k < |j.entries| && Unseen(b, d, j.entries[k], p)
  }

  predicate Unseen(b: Fleet, d: Fleet, e: Entry, p: string) {
    e.Start? && e.id in b && e.id in d && b[e.id].labels.project != p && d[e.id].running
  }

  lemma StrayRuns(b: Fleet, d0: Fleet, d: Fleet, j: Journal, p: string, id: Id)
    requires Recoverable(b, d0, j, p) && Confined(d0, d, j, p) && id in b && id in d
    requires id in ScopeOf(j).started && Stray(b[id], d[id], p)
    ensures Running(b, d0, j, p)
  {
    var e :| e in j.entries && e.Start? && e.id == id;
    var k :| 0 <= k < |j.entries| && j.entries[k] == e;
    assert EntryOk(b, d0, j.entries[k]);
    hide Recoverable, ScopeOf;
    assert d[id] == d0[id];
    assert Unseen(b, d0, j.entries[k], p);
  }

  lemma RunsStray(b: Fleet, d0: Fleet, d: Fleet, j: Journal, p: string)
    requires Recoverable(b, d0, j, p) && Confined(d0, d, j, p) && Running(b, d0, j, p)
    ensures exists id :: id in b && id in d && d[id] != b[id]
  {
    var k :| 0 <= k < |j.entries| && Unseen(b, d0, j.entries[k], p);
    assert EntryOk(b, d0, j.entries[k]);
    hide Recoverable;
    var id := j.entries[k].id;
    assert d[id] == d0[id] && d[id] != b[id];
  }

  /** What a completed recovery leaves is the base fleet, but for such starts. */
  lemma ExactlyRestored(b: Fleet, d0: Fleet, d: Fleet, j: Journal, p: string)
    requires Recoverable(b, d0, j, p) && Confined(d0, d, j, p)
    requires d.Keys == b.Keys && Restored(b, d, p, ScopeOf(j))
    ensures d == b <==> !Running(b, d0, j, p)
  {
    hide Recoverable, Confined, ScopeOf, Stray, Running;
    if Running(b, d0, j, p) {
      RunsStray(b, d0, d, j, p);
    }
    forall id | id in b && d[id] != b[id] ensures Running(b, d0, j, p) {
      StrayRuns(b, d0, d, j, p, id);
    }
  }

  /** With no call failing, recovery succeeds if and only if undo can see every
      replaced container, and it has then restored exactly the base fleet if
      and only if no start it cannot see was left running; otherwise it fails
      closed, with the journal kept and nothing lost. */
  method RecoverOutcome(svc: Service, ghost b: Fleet, p: string, j: Journal) returns (r: Result<()>)
    requires svc.host.Valid() && svc.host.disk == Some(j) && Recoverable(b, svc.host.containers, j, p)
    requires svc.host.SmoothFrom(svc.host.tick)
    modifies svc.host
    ensures r.Ok? <==> ReplacedListed(b, j, p)
    ensures svc.host.disk.None? <==> r.Ok?
    ensures r.Ok? && svc.host.containers == b <==> ReplacedListed(b, j, p) && !Running(b, old(svc.host.containers), j, p)
    ensures r.Err? ==> svc.host.disk == Some(j) && Recoverable(b, svc.host.containers, j, p)
  {
    hide Recoverable, ReplacedListed, Restored, OldSeen, Running, Unique, ConfinedThrough, Through, ScopeOf, Confined, InScope;
    ghost var d0 := svc.host.containers;
    SeenListed(b, d0, j, p);
    r := svc.Recover(b, true, p, j);
    if r.Ok? {
      ExactlyRestored(b, d0, svc.host.containers, j, p);
    }
  }

  /** Every managed container the journal names carries the project's label. */
  ghost predicate OwnJournaled(b: Fleet, j: Journal, p: string) {
    forall id | id in b && b[id].labels.managed && (exists k :: 0 <= k < |j.entries| && j.entries[k].name == b[id].name) ::
      b[id].labels.project == p
  }

  /** Then undo finds every replaced container, and however often it was cut off
      and begun again, once it is done it has restored the base fleet exactly. */
  lemma ExactRecovery(b: Fleet, d0: Fleet, j: Journal, d: Fleet, p: string)
    requires Recoverable(b, d0, j, p) && OwnJournaled(b, j, p)
    ensures ReplacedListed(b, j, p)
    ensures Recoverable(b, d, j, p) && UndoneFrom(b, d, j, p, 0) && ErasedFrom(b, d, j, p, 0) ==> d == b
  {
    forall k | 0 <= k < |j.entries| && j.entries[k].Replace? && j.entries[k].oldId in b
      ensures b[j.entries[k].oldId].labels.project == p
    {
      assert EntryOk(b, d0, j.entries[k]);
    }
    if Recoverable(b, d, j, p) && UndoneFrom(b, d, j, p, 0) && ErasedFrom(b, d, j, p, 0) {
      AllUndone(b, d, j, p, ScopeOf(j));
      forall id | id in b ensures id in d && d[id] == b[id] {
        if Touched(j, id) {
          var k :| 0 <= k < |j.entries| && Touches(j.entries[k], id);
          assert EntryOk(b, d, j.entries[k]) && Undone(b, d, j, p, j.entries[k]);
        }
      }
    }
  }

  // ----- a container of another project -----------------------------------

  /** A container of another project that is in the plan's way. */
  predicate Foreign(b: Fleet, plan: Plan, force: bool, dns: string, x: Id) {
    InTheWay(b, plan, force, dns, x) && b[x].labels.project != plan.project
  }

  /** A crash at the k-th state of the run would leave a journal that undo can
      never work off. */
  ghost predicate StrandedAt(h: seq<State>, run: Run, plan: Plan, k: nat) {
    run.start <= k < run.flip && k < |h| && h[k].disk.Some? &&
    !ReplacedListed(run.base, h[k].disk.value, plan.project)
  }

  /** A run that committed has passed through such a state if and only if, to
      begin with, some container of another project was in the plan's way. */
  lemma StrandedExactly(h: seq<State>, run: Run, plan: Plan)
    requires RunOf(h, run, plan) && run.flip < |h| && WellFormed(plan)
    ensures (exists k :: StrandedAt(h, run, plan, k)) <==>
            (exists x :: Foreign(run.base, plan, run.force, run.dns, x))
  {
    hide RunOf, WellFormed, ReplacedListed;
    if k: nat :| StrandedAt(h, run, plan, k) {
      StrandedForeign(h, run, plan, k);
    }
    if x: Id :| Foreign(run.base, plan, run.force, run.dns, x) {
      ForeignStranded(h, run, plan, x);
    }
  }

  /** Without a resolver in the plan, that is known before the run begins. */
  lemma StrandedKnown(h: seq<State>, run: Run, plan: Plan)
    requires RunOf(h, run, plan) && run.flip < |h| && WellFormed(plan) && plan.resolver.None?
    ensures (exists k :: StrandedAt(h, run, plan, k)) <==> (exists x :: Foreign(run.base, plan, run.force, "", x))
  {
    StrandedExactly(h, run, plan);
  }

  lemma StrandedForeign(h: seq<State>, run: Run, plan: Plan, k: nat)
    requires RunOf(h, run, plan) && StrandedAt(h, run, plan, k)
    ensures exists x :: Foreign(run.base, plan, run.force, run.dns, x)
  {
    var b, d, j := run.base, h[k].containers, h[k].disk.value;
    assert Old(run, plan, h[k]);
    var m :| 0 <= m < |j.entries| && j.entries[m].Replace? && j.entries[m].oldId in b &&
             b[j.entries[m].oldId].labels.project != plan.project;
    assert EntryOk(b, d, j.entries[m]) && Within(j.entries[m], Extent(run, plan));
    assert Foreign(b, plan, run.force, run.dns, j.entries[m].oldId);
  }

  lemma ForeignStranded(h: seq<State>, run: Run, plan: Plan, x: Id)
    requires RunOf(h, run, plan) && run.flip < |h| && WellFormed(plan)
    requires Foreign(run.base, plan, run.force, run.dns, x)
    ensures StrandedAt(h, run, plan, run.flip - 1)
  {
    hide RunOf, Old, New, WellFormed, Foreign, ReplacedListed;
    CommitPair(h, run, plan);
    var s := h[run.flip - 1];
    ForeignUnlisted(s.containers, s.disk.value, run, plan, x);
  }

  lemma PrevApart(n: Name)
    ensures Prev(n) != n
  {
    assert |Prev(n)| == |n| + 5;
  }

  lemma ForeignUnlisted(d: Fleet, j: Journal, run: Run, plan: Plan, x: Id)
    requires Old(run, plan, State(d, Some(j))) && New(run, plan, State(d, None)) && WellFormed(plan)
    requires Foreign(run.base, plan, run.force, run.dns, x)
    ensures !ReplacedListed(run.base, j, plan.project)
  {
    NothingLost(run.base, d, j, plan.project);
    Ousted(d, run, plan, x);
    PrevApart(run.base[x].name);
    assert Touched(j, x);
    hide NewSide, WellFormed;
    var m :| 0 <= m < |j.entries| && Touches(j.entries[m], x);
    assert EntryOk(run.base, d, j.entries[m]) && Within(j.entries[m], Extent(run, plan));
  }

  /** Such a container at the name of project a1's dev container. */
  function ForeignFleet(): Fleet {
    map[1 := Container(DEV, true, Labels(true, "a2", "c0", 0, ""))]
  }

  lemma ForeignFacts(a: map<Id, string>)
    requires Lookup(a, 1) != ""
    ensures WellFormed(OneContainer()) && NoDebris(ForeignFleet(), "a1") && Ripe(ForeignFleet(), a, OneContainer())
    ensures forall dns :: Foreign(ForeignFleet(), OneContainer(), false, dns, 1)
    ensures forall dns :: !AllSynced(ForeignFleet(), OneContainer(), dns)
  {
    var n := DEV;
    assert Names(OneContainer()) == {n} && ForeignFleet()[1].name == n && Canonical(n);
    NamesApart(n, n);
    hide Canonical, HasSuffix, Prev, Next;
    assert !Taken(ForeignFleet(), Prev(n)) && !Taken(ForeignFleet(), Next(n));
    forall dns ensures !InSync(ForeignFleet(), Wanted(OneContainer(), n, dns)) {
    }
    hide InSync;
    forall dns ensures !AllSynced(ForeignFleet(), OneContainer(), dns) {
      assert !InSync(ForeignFleet(), Wanted(OneContainer(), n, dns));
    }
  }

  /** There an up in which no call fails succeeds, and on its way it journals
      the other project's container: a crash in between leaves a journal that
      no sweep can finish. */
  method ForeignLabelStrands(svc: Service) returns (r: Result<()>, ghost run: Run)
    requires svc.host.Valid() && svc.host.disk.None? && svc.host.containers == ForeignFleet() && svc.host.Address(1) != ""
    requires svc.host.SmoothFrom(svc.host.tick)
    modifies svc.host
    ensures r.Ok? && RunOf(svc.host.history, run, OneContainer()) && run.base == ForeignFleet()
    ensures exists k :: StrandedAt(svc.host.history, run, OneContainer(), k)
  {
    hide NoDebris, WellFormed, Ripe, RunOf, Settled, Restores, New, Foreign, AllSynced, StrandedAt;
    ForeignFacts(svc.host.addresses);
    ghost var h0 := svc.host.history;
    ghost var back;
    r, run, back := Transition(svc, OneContainer(), false);
    RunShape(svc.host.history, run, OneContainer());
    assert Foreign(run.base, OneContainer(), run.force, run.dns, 1);
    StrandedExactly(svc.host.history, run, OneContainer());
  }

  lemma RunShape(h: seq<State>, run: Run, plan: Plan)
    requires RunOf(h, run, plan)
    ensures run.start <= run.flip <= |h|
  {
  }

  /** A sweep that starts from such a state fails, with the journal kept,
      however often it is tried and whatever calls succeed. */
  method StrandedSweep(svc: Service, plan: Plan, ghost h: seq<State>, ghost run: Run, ghost k: nat) returns (r: Result<()>)
    requires svc.host.Valid() && WellFormed(plan) && RunOf(h, run, plan) && NoDebris(run.base, plan.project)
    requires StrandedAt(h, run, plan, k) && h[k] == State(svc.host.containers, svc.host.disk)
    modifies svc.host
    ensures r.Err? && svc.host.disk == h[k].disk
    ensures Old(run, plan, State(svc.host.containers, svc.host.disk))
  {
    hide WellFormed, RunOf, NoDebris, ReplacedListed, Old, New, Aftermath, OwnNames, Unique;
    r := SweepAfterCrash(svc, plan, h, run, k);
  }

  // ----- nothing else is touched ------------------------------------------

  /** Across the states h, which one command added after state was, containers
      that the engine does not manage are untouched and none comes to be; and
      whatever journal is left is one that undo can be trusted with. */
  ghost predicate Respects(was: State, h: seq<State>, p: string) {
    forall k | 0 <= k < |h| :: Guarded(h[k], p) && SameUnmanaged(was.containers, h[k].containers)
  }

  ghost predicate SameUnmanaged(d0: Fleet, d: Fleet) {
    && (forall x | x in d0 && !d0[x].labels.managed :: x in d && d[x] == d0[x])
    && (forall x | x in d && !d[x].labels.managed :: x in d0 && d0[x] == d[x])
  }

  lemma OldSideSpares(b: Fleet, s: State, p: string, c: Scope)
    requires OldSide(b, s, p, c)
    ensures Guarded(s, p) && SameUnmanaged(b, s.containers)
  {
    if s.disk.Some? {
      RecoverableGuarded(b, s, p);
      NothingLost(b, s.containers, s.disk.value, p);
      forall x | x in s.containers && !s.containers[x].labels.managed ensures x in b {
        assert x !in b ==> Made(b, s.disk.value, p, x, s.containers[x]);
      }
    }
  }

  lemma TendedSpares(was: State, s: State, p: string)
    requires Guarded(was, p) && Tended(was, s, p)
    ensures Guarded(s, p) && SameUnmanaged(was.containers, s.containers)
  {
    TendedGuarded(was, s, p);
  }

  lemma SpareSteps(d0: Fleet, d1: Fleet, d: Fleet)
    requires SameUnmanaged(d0, d1) && SameUnmanaged(d1, d)
    ensures SameUnmanaged(d0, d)
  {
  }

  lemma NewSpares(run: Run, plan: Plan, s: State)
    requires New(run, plan, s)
    ensures Guarded(s, plan.project) && SameUnmanaged(run.base, s.containers)
  {
    forall x | x in run.base && x in s.containers ensures s.containers[x].labels == run.base[x].labels {
    }
    hide Heir;
    forall x | x in s.containers && x !in run.base ensures s.containers[x].labels.managed {
      var n := s.containers[x].name;
      var y :| y in s.containers && Serves(s.containers[y], Wanted(plan, n, run.dns));
      assert y == x;
    }
  }

  lemma BaseSpared(h0: seq<State>, h: seq<State>, run: Run, b: Fleet, intact: bool, plan: Plan)
    requires Report(h0, h, run, b, intact, plan) && Guarded(h0[|h0| - 1], plan.project)
    ensures SameUnmanaged(h0[|h0| - 1].containers, run.base)
  {
    var was := h0[|h0| - 1];
    hide RunOf, Guarded, Tended, Ready, Swept, OldSide, ScopeOf;
    if run.start == |h0| {
      assert h[run.start - 1] == was;
    } else {
      assert Tended(was, h[run.start - 1], plan.project);
      TendedSpares(was, h[run.start - 1], plan.project);
    }
  }

  /** An up respects them, in every durable state it adds: however it ends, and
      whatever journal it recovers from, also one that an interrupted teardown
      has left. */
  lemma UpRespects(h0: seq<State>, h: seq<State>, run: Run, b: Fleet, intact: bool, plan: Plan)
    requires Report(h0, h, run, b, intact, plan) && Guarded(h0[|h0| - 1], plan.project)
    ensures Respects(h0[|h0| - 1], h[|h0|..], plan.project)
  {
    var was, p := h0[|h0| - 1], plan.project;
    BaseSpared(h0, h, run, b, intact, plan);
    hide Guarded, Tended, Ready, Swept, OldSide, NewSide, ScopeOf, Extent, SameUnmanaged;
    forall k | |h0| <= k < |h| ensures Guarded(h[k], p) && SameUnmanaged(was.containers, h[k].containers) {
      if k < run.start {
        assert Tended(was, h[k], p);
        TendedSpares(was, h[k], p);
      } else {
        if k < run.flip {
          assert Old(run, plan, h[k]);
          OldSideSpares(run.base, h[k], p, Extent(run, plan));
        } else {
          assert New(run, plan, h[k]);
          NewSpares(run, plan, h[k]);
        }
        SpareSteps(was.containers, run.base, h[k].containers);
      }
    }
  }

  /** So does a teardown, finished or not. */
  lemma DownRespects(was: State, h0: seq<State>, h: seq<State>, p: string)
    requires h0 <= h && TendedThrough(h, |h0|, was, p) && Guarded(was, p)
    ensures Respects(was, h[|h0|..], p)
  {
    hide Guarded, Tended, SameUnmanaged;
    forall k | |h0| <= k < |h| ensures Guarded(h[k], p) && SameUnmanaged(was.containers, h[k].containers) {
      TendedSpares(was, h[k], p);
    }
  }

  // One command: the state it found and the durable states it added.
  datatype Sitting = Sitting(was: State, added: seq<State>)

  /** From history h0 on, an up of a plan of project p, whatever it found. */
  ghost predicate Upped(s: Sitting, p: string, h0: seq<State>, h: seq<State>, run: Run, b: Fleet, intact: bool, plan: Plan) {
    Report(h0, h, run, b, intact, plan) && plan.project == p && h0[|h0| - 1] == s.was && h[|h0|..] == s.added
  }

  /** From history h0 on, a teardown of project p. */
  ghost predicate Downed(s: Sitting, p: string, h0: seq<State>, h: seq<State>) {
    0 < |h0| && h0 <= h && h0[|h0| - 1] == s.was && TendedThrough(h, |h0|, s.was, p) && h[|h0|..] == s.added
  }

  ghost predicate Command(s: Sitting, p: string) {
    || (exists h0: seq<State>, h: seq<State>, run: Run, b: Fleet, intact: bool, plan: Plan ::
          Upped(s, p, h0, h, run, b, intact, plan))
    || (exists h0: seq<State>, h: seq<State> :: Downed(s, p, h0, h))
  }

  lemma CommandRespects(s: Sitting, p: string)
    requires Command(s, p) && Guarded(s.was, p)
    ensures Respects(s.was, s.added, p)
  {
    hide Upped, Downed, Guarded, Respects;
    if h0: seq<State>, h: seq<State>, run: Run, b: Fleet, intact: bool, plan: Plan :|
         Upped(s, p, h0, h, run, b, intact, plan) {
      UppedRespects(s, p, h0, h, run, b, intact, plan);
    } else {
      var h0: seq<State>, h: seq<State> :| Downed(s, p, h0, h);
      DownedRespects(s, p, h0, h);
    }
  }

  lemma UppedRespects(s: Sitting, p: string, h0: seq<State>, h: seq<State>, run: Run, b: Fleet, intact: bool, plan: Plan)
    requires Upped(s, p, h0, h, run, b, intact, plan) && Guarded(s.was, p)
    ensures Respects(s.was, s.added, p)
  {
    hide Report, Guarded, Respects;
    UpRespects(h0, h, run, b, intact, plan);
  }

  lemma DownedRespects(s: Sitting, p: string, h0: seq<State>, h: seq<State>)
    requires Downed(s, p, h0, h) && Guarded(s.was, p)
    ensures Respects(s.was, s.added, p)
  {
    hide TendedThrough, Guarded, Respects;
    DownRespects(s.was, h0, h, p);
  }

  /** Ups and teardowns of project p one after the other, each starting from some
      durable state of the one before: that may have been cut off anywhere. */
  ghost predicate Chained(c: seq<Sitting>, p: string) {
    && (forall i | 0 <= i < |c| :: Command(c[i], p))
    && (forall i | 0 < i < |c| :: c[i].was == c[i - 1].was || c[i].was in c[i - 1].added)
  }

  /** Over any number of ups and teardowns, each cut off anywhere, a container
      without the managed label is never stopped, renamed, started or removed. */
  lemma {:induction false} AcrossCrashes(c: seq<Sitting>, p: string, i: nat)
    requires Chained(c, p) && i < |c| && Guarded(c[0].was, p)
    ensures Guarded(c[i].was, p) && SameUnmanaged(c[0].was.containers, c[i].was.containers)
    ensures forall s | s in c[i].added :: Guarded(s, p) && SameUnmanaged(c[0].was.containers, s.containers)
    decreases i
  {
    hide Guarded, SameUnmanaged, Command;
    if i == 0 {
      SpareRefl(c[0].was.containers);
    } else {
      AcrossCrashes(c, p, i - 1);
    }
    CommandRespects(c[i], p);
    forall s | s in c[i].added ensures Guarded(s, p) && SameUnmanaged(c[0].was.containers, s.containers) {
      SpareSteps(c[0].was.containers, c[i].was.containers, s.containers);
    }
  }

  lemma SpareRefl(d: Fleet)
    ensures SameUnmanaged(d, d)
  {
  }
}
