/** Undoing a replacement journal: inspection-driven, restartable, and never
    acting on a container it cannot prove it may touch. */
module Rollback {
  import opened Containers
  import opened Recovery
  import opened Environment

  // Where a run began: the history until then, and what it may journal.
  datatype Origin = Origin(log: seq<State>, scope: Scope)

  /** A durable state on the old side of the commit point: with the journal
      present it can be rolled back to b, with it absent it already was. */
  ghost predicate OldSide(b: Fleet, s: State, p: string, c: Scope) {
    match s.disk
    case Some(j) => Recoverable(b, s.containers, j, p) && InScope(j, c)
    case None => Restored(b, s.containers, p, c)
  }

  ghost predicate Through(h: seq<State>, from: nat, b: Fleet, p: string, c: Scope) {
    forall k | from <= k < |h| :: OldSide(b, h[k], p, c)
  }

  /** The history grew from o, and only through states on the old side. */
  ghost predicate Logged(o: Origin, h: seq<State>, b: Fleet, p: string) {
    o.log <= h && Through(h, |o.log|, b, p, o.scope)
  }

  lemma LoggedStep(o: Origin, h: seq<State>, b: Fleet, p: string, s: State)
    requires Logged(o, h, b, p) && OldSide(b, s, p, o.scope)
    ensures Logged(o, h + [s], b, p)
  {
  }

  lemma OldSideWider(b: Fleet, s: State, p: string, c: Scope, c': Scope)
    requires OldSide(b, s, p, c) && Narrower(c, c')
    ensures OldSide(b, s, p, c')
  {
    hide Recoverable;
    if s.disk.Some? {
      assert forall k | 0 <= k < |s.disk.value.entries| :: Within(s.disk.value.entries[k], c);
    }
  }

  lemma LoggedWider(log: seq<State>, h: seq<State>, b: Fleet, p: string, c: Scope, c': Scope)
    requires Logged(Origin(log, c), h, b, p) && Narrower(c, c')
    ensures Logged(Origin(log, c'), h, b, p)
  {
    forall k | |log| <= k < |h| ensures OldSide(b, h[k], p, c') {
      OldSideWider(b, h[k], p, c, c');
    }
  }

  // ----- what undo may touch --------------------------------------------

  predicate Records(e: Entry, x: Id) {
    Touches(e, x) || NewIdOf(e) == Some(x)
  }

  predicate Journaled(j: Journal, x: Id) {
    exists k :: 0 <= k < |j.entries| && Records(j.entries[k], x)
  }

  /** Container x is this journal's to undo: listed for the project, and named
      by the journal or provably its transaction's own creation. */
  predicate Mine(j: Journal, p: string, x: Id, l: Labels) {
    l.project == p && (Journaled(j, x) || Owns(j, p, l))
  }

  /** From d0 to d, only what is journal j's to undo changed or went away. */
  predicate Confined(d0: Fleet, d: Fleet, j: Journal, p: string) {
    && d.Keys <= d0.Keys
    && (forall x | x in d :: d[x].labels == d0[x].labels)
    && (forall x | x in d0 && !Mine(j, p, x, d0[x].labels) :: x in d && d[x] == d0[x])
  }

  ghost predicate ConfinedThrough(h: seq<State>, from: nat, was: State, j: Journal, p: string) {
    forall k | from <= k < |h| ::
      (h[k].disk == was.disk || h[k].disk.None?) && Confined(was.containers, h[k].containers, j, p)
  }

  /** Every container a Replace entry records is there for undo to find. */
  predicate SeenFrom(d: Fleet, j: Journal, p: string, i: nat) {
    forall k | i <= k < |j.entries| :: EntrySeen(d, j.entries[k], p)
  }

  predicate EntrySeen(d: Fleet, e: Entry, p: string) {
    e.Replace? ==> e.oldId in d && d[e.oldId].labels.project == p
  }

  predicate OldSeen(d: Fleet, j: Journal, p: string) {
    SeenFrom(d, j, p, 0)
  }

  lemma SeenStep(d0: Fleet, d: Fleet, j: Journal, p: string, k: nat)
    requires k < |j.entries| && Confined(d0, d, j, p)
    ensures SeenFrom(d0, j, p, k) ==> SeenFrom(d0, j, p, k + 1)
    ensures SeenFrom(d0, j, p, k + 1) &&
            (j.entries[k].Replace? ==> j.entries[k].oldId in d && d[j.entries[k].oldId].labels.project == p) ==>
              SeenFrom(d0, j, p, k)
  {
  }

  predicate FoundOwn(d: Fleet, j: Journal, p: string, x: Option<Id>) {
    x.Some? ==> x.value in d && d[x.value].labels.project == p && Mine(j, p, x.value, d[x.value].labels)
  }

  /** Undo finds nothing that is not its own. */
  lemma FoundMine(d: Fleet, j: Journal, p: string, k: nat)
    requires Unique(d) && k < |j.entries|
    ensures Unique(Listed(d, p))
    ensures j.entries[k].Replace? ==> FoundOwn(d, j, p, FindNew(Listed(d, p), j, p, j.entries[k]))
    ensures j.entries[k].Create? ==> FoundOwn(d, j, p, FindCreated(Listed(d, p), j, p, j.entries[k]))
    ensures forall x | Touches(j.entries[k], x) && x in Listed(d, p) :: Mine(j, p, x, d[x].labels)
  {
    assert forall x | Records(j.entries[k], x) :: Journaled(j, x);
  }

  /** Without a recorded id undo goes by the labels, all four of them, and by
      the name the entry's creation must have. */
  lemma FoundByLabels(d: Fleet, j: Journal, p: string, k: nat, x: Id)
    requires Unique(Listed(d, p)) && k < |j.entries| && NewIdOf(j.entries[k]).None?
    requires match j.entries[k]
             case Replace(_, _, _, _) => FindNew(Listed(d, p), j, p, j.entries[k]) == Some(x)
             case Create(_, _) => FindCreated(Listed(d, p), j, p, j.entries[k]) == Some(x)
             case Start(_, _) => false
    ensures x in d && d[x].labels.managed && d[x].labels.project == p
    ensures d[x].labels.candidate == j.candidate && d[x].labels.txn == j.nonce
    ensures d[x].name == j.entries[k].name || (j.entries[k].Replace? && d[x].name == j.entries[k].name + ".next")
    ensures j.entries[k].Replace? ==> x != j.entries[k].oldId
  {
  }

  // What an undo accounts for. If intact, the journal is one that rolls the
  // fleet back to base, as it was in every durable state since origin; in
  // any case nothing that is not its own has changed since the history mark.
  // If addressed, no call fails and what runs also has an address.
  datatype Ledger = Ledger(intact: bool, base: Fleet, origin: Origin, mark: seq<State>, addressed: bool)

  ghost predicate Account(g: Ledger, h: seq<State>, d: Fleet, disk: Option<Journal>, j: Journal, p: string) {
    && 0 < |g.mark| && g.mark <= h && disk.Some? && disk == g.mark[|g.mark| - 1].disk
    && ConfinedThrough(h, |g.mark|, g.mark[|g.mark| - 1], j, p)
    && Confined(g.mark[|g.mark| - 1].containers, d, j, p)
    && (g.intact ==> Kept(g.base, d, disk, j, p) && InScope(disk.value, g.origin.scope) && Logged(g.origin, h, g.base, p))
  }

  lemma AccountKept(g: Ledger, h: seq<State>, d: Fleet, disk: Option<Journal>, j: Journal, p: string)
    requires Account(g, h, d, disk, j, p) && g.intact
    ensures Kept(g.base, d, disk, j, p) && disk.Some?
  {
  }

  /** A transaction that failed may start to undo. */
  lemma Accountable(g: Ledger, h: seq<State>, d: Fleet, disk: Option<Journal>, j: Journal, p: string)
    requires g.intact && g.mark == h && 0 < |h| && h[|h| - 1] == State(d, disk) && disk.Some?
    requires Kept(g.base, d, disk, j, p) && InScope(disk.value, g.origin.scope) && Logged(g.origin, h, g.base, p)
    ensures Account(g, h, d, disk, j, p)
    ensures OldSeen(d, j, p) <==> ReplacedListed(g.base, j, p)
  {
    ConfinedRefl(d, j, p);
    SeenListed(g.base, d, j, p);
  }

  /** It stays on the old side, also if the journal is deleted once everything
      has been undone. */
  lemma Accounted(g: Ledger, h: seq<State>, d: Fleet, disk: Option<Journal>, j: Journal, p: string)
    requires g.intact && Account(g, h, d, disk, j, p)
    ensures Logged(g.origin, h, g.base, p) && OldSide(g.base, State(d, disk), p, g.origin.scope)
    ensures UndoneFrom(g.base, d, j, p, 0) ==>
              OldSide(g.base, State(d, None), p, g.origin.scope) && Logged(g.origin, h + [State(d, None)], g.base, p)
    ensures UndoneFrom(g.base, d, j, p, 0) && ErasedFrom(g.base, d, j, p, 0) ==> d.Keys == g.base.Keys
  {
    KeptOldSide(g.base, d, disk, j, p, g.origin.scope);
    if UndoneFrom(g.base, d, j, p, 0) {
      KeptUndone(g.base, d, disk, j, p, g.origin.scope);
      hide Restored, Kept, UndoneFrom, ErasedFrom;
      LoggedStep(g.origin, h, g.base, p, State(d, None));
    }
  }

  /** A step on one container that is the journal's own, and that an intact
      journal still covers, may be accounted for. */
  lemma AccountMove(g: Ledger, h: seq<State>, d: Fleet, d': Fleet, disk: Option<Journal>, j: Journal, p: string, x: Id)
    requires Account(g, h, d, disk, j, p) && x in d && Mine(j, p, x, d[x].labels)
    requires d' == d - {x} || (x in d' && d' == d[x := d'[x]] && d'[x].labels == d[x].labels)
    requires g.intact ==> Kept(g.base, d', disk, j, p)
    ensures Account(g, h + [State(d', disk)], d', disk, j, p)
  {
    hide Mine, InScope;
    ConfinedMove(g.mark[|g.mark| - 1].containers, d, d', j, p, x);
    if g.intact {
      KeptOldSide(g.base, d', disk, j, p, g.origin.scope);
      hide OldSide, Kept;
      LoggedStep(g.origin, h, g.base, p, State(d', disk));
    }
  }

  lemma ConfinedMove(d0: Fleet, d: Fleet, d': Fleet, j: Journal, p: string, x: Id)
    requires Confined(d0, d, j, p) && x in d && Mine(j, p, x, d[x].labels)
    requires d' == d - {x} || (x in d' && d' == d[x := d'[x]] && d'[x].labels == d[x].labels)
    ensures Confined(d0, d', j, p)
  {
  }

  lemma ConfinedRefl(d: Fleet, j: Journal, p: string)
    ensures Confined(d, d, j, p)
  {
  }

  /** The steps undo takes: parking a replacement, giving the old container its
      name back, and switching it or a started one. */
  lemma AccountPark(g: Ledger, h: seq<State>, d: Fleet, disk: Option<Journal>, j: Journal, p: string, k: nat, x: Id)
    requires Account(g, h, d, disk, j, p) && k < |j.entries| && j.entries[k].Replace?
    requires x in d && Mine(j, p, x, d[x].labels)
    requires g.intact ==> x !in g.base && MadeBy(g.base, j, p, j.entries[k], x, d[x]) && d[x].name == j.entries[k].name
    ensures var d' := d[x := d[x].(name := Next(j.entries[k].name))]; Account(g, h + [State(d', disk)], d', disk, j, p)
    ensures g.intact ==> !Taken(d - {x}, Next(j.entries[k].name))
  {
    hide Mine, Account, Next, Kept, MadeBy, Taken;
    if g.intact {
      AccountKept(g, h, d, disk, j, p);
      ParkSafe(g.base, d, disk, j, p, k, x);
    }
    AccountMove(g, h, d, d[x := d[x].(name := Next(j.entries[k].name))], disk, j, p, x);
  }

  lemma AccountUnpark(g: Ledger, h: seq<State>, d: Fleet, disk: Option<Journal>, j: Journal, p: string, k: nat)
    requires Account(g, h, d, disk, j, p) && k < |j.entries| && j.entries[k].Replace?
    requires j.entries[k].oldId in d && Mine(j, p, j.entries[k].oldId, d[j.entries[k].oldId].labels)
    requires g.intact ==> Parked(g.base, d, j, p, j.entries[k])
    ensures var d' := d[j.entries[k].oldId := d[j.entries[k].oldId].(name := j.entries[k].name)];
            Account(g, h + [State(d', disk)], d', disk, j, p)
    ensures g.intact ==> !Taken(d - {j.entries[k].oldId}, j.entries[k].name)
  {
    hide Mine, Account, Parked, Kept, Taken;
    if g.intact {
      AccountKept(g, h, d, disk, j, p);
      UnparkSafe(g.base, d, disk, j, p, k);
    }
    AccountMove(g, h, d, d[j.entries[k].oldId := d[j.entries[k].oldId].(name := j.entries[k].name)], disk, j, p,
                j.entries[k].oldId);
  }

  lemma AccountTurn(g: Ledger, h: seq<State>, d: Fleet, disk: Option<Journal>, j: Journal, p: string, k: nat, on: bool)
    requires Account(g, h, d, disk, j, p) && k < |j.entries| && j.entries[k].Replace?
    requires j.entries[k].oldId in d && Mine(j, p, j.entries[k].oldId, d[j.entries[k].oldId].labels)
    requires g.intact && on ==> j.entries[k].wasRunning
    requires g.intact ==> d[j.entries[k].oldId].name == j.entries[k].name
    ensures var d' := d[j.entries[k].oldId := d[j.entries[k].oldId].(running := on)];
            Account(g, h + [State(d', disk)], d', disk, j, p)
  {
    hide Mine, Account, Kept, Taken;
    var d' := d[j.entries[k].oldId := d[j.entries[k].oldId].(running := on)];
    if g.intact {
      AccountKept(g, h, d, disk, j, p);
      KeepOld(g.base, d, disk, j, p, k, d'[j.entries[k].oldId]);
    }
    AccountMove(g, h, d, d', disk, j, p, j.entries[k].oldId);
  }

  lemma AccountStarted(g: Ledger, h: seq<State>, d: Fleet, disk: Option<Journal>, j: Journal, p: string, k: nat)
    requires Account(g, h, d, disk, j, p) && k < |j.entries| && j.entries[k].Start?
    requires j.entries[k].id in d && Mine(j, p, j.entries[k].id, d[j.entries[k].id].labels)
    ensures var d' := d[j.entries[k].id := d[j.entries[k].id].(running := false)];
            Account(g, h + [State(d', disk)], d', disk, j, p)
  {
    hide Mine, Account, Kept;
    if g.intact {
      AccountKept(g, h, d, disk, j, p);
      KeepStarted(g.base, d, disk, j, p, k, false);
    }
    AccountMove(g, h, d, d[j.entries[k].id := d[j.entries[k].id].(running := false)], disk, j, p, j.entries[k].id);
  }

  lemma AccountMade(g: Ledger, h: seq<State>, d: Fleet, disk: Option<Journal>, j: Journal, p: string, x: Id)
    requires Account(g, h, d, disk, j, p) && x in d && Mine(j, p, x, d[x].labels)
    requires g.intact ==> x !in g.base
    ensures var d' := d[x := d[x].(running := false)]; Account(g, h + [State(d', disk)], d', disk, j, p)
    ensures Account(g, h + [State(d - {x}, disk)], d - {x}, disk, j, p)
  {
    hide Mine, Account, Kept;
    if g.intact {
      AccountKept(g, h, d, disk, j, p);
      KeepSwitch(g.base, d, disk, j, p, x, false);
      KeepDrop(g.base, d, disk, j, p, x);
    }
    AccountMove(g, h, d, d[x := d[x].(running := false)], disk, j, p, x);
    AccountMove(g, h, d, d - {x}, disk, j, p, x);
  }

  // ----- the ownership frame ---------------------------------------------

  /** Provably the engine's own container of this project. */
  predicate Ours(c: Container, p: string) {
    c.labels.project == p && c.labels.managed
  }

  /** From d0 to d, only the project's own containers were touched. */
  predicate OursOnly(d0: Fleet, d: Fleet, p: string) {
    && d.Keys <= d0.Keys
    && (forall x | x in d :: d[x].labels == d0[x].labels)
    && (forall x | x in d0 && !Ours(d0[x], p) :: x in d && d[x] == d0[x])
  }

  /** All that is needed of a journal for undo to stay within bounds, whatever
      became of the containers since: those it names are gone or managed, and
      those it names as new are gone or its own. */
  predicate Guarded(s: State, p: string) {
    s.disk.Some? ==>
      forall k | 0 <= k < |s.disk.value.entries| :: EntryGuarded(s.containers, s.disk.value, s.disk.value.entries[k], p)
  }

  predicate EntryGuarded(d: Fleet, j: Journal, e: Entry, p: string) {
    && (forall x | Touches(e, x) && x in d :: d[x].labels.managed)
    && (NewIdOf(e).Some? && NewIdOf(e).value in d ==> Owns(j, p, d[NewIdOf(e).value].labels))
  }

  /** State s follows was by steps on the project's own containers alone, and
      the journal is still there or deleted. */
  predicate Tended(was: State, s: State, p: string) {
    (s.disk == was.disk || s.disk.None?) && OursOnly(was.containers, s.containers, p)
  }

  ghost predicate TendedThrough(h: seq<State>, from: nat, was: State, p: string) {
    forall k | from <= k < |h| :: Tended(was, h[k], p)
  }

  lemma TendedGuarded(was: State, s: State, p: string)
    requires Guarded(was, p) && Tended(was, s, p)
    ensures Guarded(s, p)
  {
    if s.disk.Some? {
      forall k | 0 <= k < |s.disk.value.entries|
        ensures EntryGuarded(s.containers, s.disk.value, s.disk.value.entries[k], p)
      {
        assert EntryGuarded(was.containers, was.disk.value, was.disk.value.entries[k], p);
      }
    }
  }

  /** A journal that rolls a fleet back is guarded. */
  lemma RecoverableGuarded(b: Fleet, s: State, p: string)
    requires s.disk.Some? && Recoverable(b, s.containers, s.disk.value, p)
    ensures Guarded(s, p)
  {
    var d, j := s.containers, s.disk.value;
    forall k | 0 <= k < |j.entries| ensures EntryGuarded(d, j, j.entries[k], p) {
      assert EntryOk(b, d, j.entries[k]) && NewOk(b, d, j, p, j.entries[k]);
    }
  }

  /** What a guarded journal has to undo is the project's own. */
  lemma ConfinedOurs(was: State, d: Fleet, j: Journal, p: string)
    requires Guarded(was, p) && was.disk == Some(j) && Confined(was.containers, d, j, p)
    ensures OursOnly(was.containers, d, p)
  {
    var d0 := was.containers;
    forall x | x in d0 && Mine(j, p, x, d0[x].labels) ensures Ours(d0[x], p) {
      if Journaled(j, x) {
        var k :| 0 <= k < |j.entries| && Records(j.entries[k], x);
        assert EntryGuarded(d0, j, j.entries[k], p);
      }
    }
  }

  lemma OursRefl(d: Fleet, p: string)
    ensures OursOnly(d, d, p)
  {
  }

  // ----- finding what an entry made --------------------------------------

  function FindNew(l: Fleet, j: Journal, p: string, e: Entry): (r: Option<Id>)
    requires Unique(l) && e.Replace?
    ensures r.Some? ==> r.value in l
  {
    if e.newId.Some? then
      if e.newId.value in l then e.newId else None
    else
      var here, staged := At(l, e.name), At(l, Next(e.name));
      if here.Some? && here.value != e.oldId && Owns(j, p, l[here.value].labels) then here
      else if staged.Some? && staged.value != e.oldId && Owns(j, p, l[staged.value].labels) then staged
      else None
  }

  /** The replacement is found exactly when it exists: by its journaled id,
      or where none was journaled by its labels, at one of its two names. */
  lemma FindsNew(b: Fleet, d: Fleet, j: Journal, p: string, k: nat)
    requires Recoverable(b, d, j, p) && k < |j.entries| && j.entries[k].Replace?
    ensures Unique(Listed(d, p))
    ensures IsNew(b, d, j, p, j.entries[k], FindNew(Listed(d, p), j, p, j.entries[k]))
  {
    var e := j.entries[k];
    var l := Listed(d, p);
    assert EntryOk(b, d, e);
    NamesApart(e.name, e.name);
    var r := FindNew(l, j, p, e);
    if r.Some? && e.newId.None? {
      BaseNotOwned(b, d, j, p, r.value);
      OccupiesNames(b, d, j, p, k, r.value);
    }
    assert NewOk(b, d, j, p, e);
    forall x | x in d && x !in b && MadeBy(b, j, p, e, x, d[x]) ensures r == Some(x) {
      assert x in l;
      if e.newId.None? {
        assert At(l, Next(e.name)) == Some(x);
        if At(l, e.name).Some? {
          OccupiesNames(b, d, j, p, k, At(l, e.name).value);
        }
      }
    }
  }

  lemma BaseNotOwned(b: Fleet, d: Fleet, j: Journal, p: string, x: Id)
    requires Recoverable(b, d, j, p) && x in d
    ensures Owns(j, p, d[x].labels) ==> x !in b
  {
    NothingLost(b, d, j, p);
  }

  /** A replacement found at the canonical name finds its staged name free. */
  lemma StagedFree(b: Fleet, d: Fleet, j: Journal, p: string, k: nat, x: Id)
    requires Recoverable(b, d, j, p) && k < |j.entries| && j.entries[k].Replace?
    requires x in d && x !in b && MadeBy(b, j, p, j.entries[k], x, d[x]) && d[x].name == j.entries[k].name
    ensures !Taken(d, Next(j.entries[k].name)) && !Taken(d - {x}, Next(j.entries[k].name))
  {
    NamesApart(j.entries[k].name, j.entries[k].name);
    assert EntryOk(b, d, j.entries[k]);
    forall i | i in d ensures d[i].name != Next(j.entries[k].name) {
      OccupiesNames(b, d, j, p, k, i);
    }
  }

  /** With the replacement parked, only the old container can hold its name. */
  lemma CanonicalFree(b: Fleet, d: Fleet, j: Journal, p: string, k: nat)
    requires Recoverable(b, d, j, p) && k < |j.entries| && j.entries[k].Replace?
    requires forall x | x in d && x !in b && MadeBy(b, j, p, j.entries[k], x, d[x]) :: d[x].name != j.entries[k].name
    ensures !Taken(d - {j.entries[k].oldId}, j.entries[k].name)
  {
    forall i | i in d && d[i].name == j.entries[k].name ensures i == j.entries[k].oldId {
      OccupiesNames(b, d, j, p, k, i);
    }
  }

  lemma ParkSafe(b: Fleet, d: Fleet, disk: Option<Journal>, j: Journal, p: string, k: nat, x: Id)
    requires Kept(b, d, disk, j, p) && disk.Some? && k < |j.entries| && j.entries[k].Replace?
    requires x in d && x !in b && MadeBy(b, j, p, j.entries[k], x, d[x]) && d[x].name == j.entries[k].name
    ensures !Taken(d - {x}, Next(j.entries[k].name))
    ensures Kept(b, d[x := d[x].(name := Next(j.entries[k].name))], disk, j, p)
  {
    StagedFree(b, d, j, p, k, x);
    KeepPark(b, d, disk, j, p, k, x);
  }

  /** From d0 to d, undoing entry e moved at most its old container and the
      replacement found for it, and kept the old one. */
  ghost predicate Near(d0: Fleet, d: Fleet, e: Entry, made: Option<Id>)
    requires e.Replace?
  {
    && d.Keys <= d0.Keys
    && (forall id | id in d0 && id != e.oldId && Some(id) != made :: id in d && d[id] == d0[id])
    && e.oldId in d0 && e.oldId in d && d[e.oldId].labels == d0[e.oldId].labels
    && (made.Some? && made.value in d ==>
          d[made.value].labels == d0[made.value].labels &&
          (d[made.value].name == d0[made.value].name || d[made.value].name == Next(e.name)))
  }

  lemma NearFrame(b: Fleet, d0: Fleet, d: Fleet, j: Journal, p: string, k: nat, made: Option<Id>)
    requires Recoverable(b, d0, j, p) && k < |j.entries| && j.entries[k].Replace?
    requires IsNew(b, d0, j, p, j.entries[k], made)
    requires Near(d0, d, j.entries[k], made)
    ensures Frame(b, d0, d, j, p, j.entries[k])
    ensures forall x | x in d && x !in b && MadeBy(b, j, p, j.entries[k], x, d[x]) :: made == Some(x)
  {
    var e := j.entries[k];
    assert EntryOk(b, d0, e);
    forall x | x in d && x !in b && MadeBy(b, j, p, e, x, d[x]) ensures made == Some(x) {
      assert x in d0;
    }
  }

  /** made is the one container entry e created, if any. */
  ghost predicate IsNew(b: Fleet, d: Fleet, j: Journal, p: string, e: Entry, made: Option<Id>) {
    && (made.Some? ==> made.value in d && made.value !in b && MadeBy(b, j, p, e, made.value, d[made.value]))
    && (forall x | x in d && x !in b && MadeBy(b, j, p, e, x, d[x]) :: made == Some(x))
  }

  /** Where the old container of entry k can be, and what may hold its name. */
  lemma OldShape(b: Fleet, d: Fleet, disk: Option<Journal>, j: Journal, p: string, k: nat)
    requires Kept(b, d, disk, j, p) && k < |j.entries| && j.entries[k].Replace?
    ensures var e := j.entries[k];
            && e.oldId in b && b[e.oldId].name == e.name && b[e.oldId].running == e.wasRunning
            && e.oldId in d && d[e.oldId].labels == b[e.oldId].labels && (d[e.oldId].running ==> e.wasRunning)
  {
    assert EntryOk(b, d, j.entries[k]);
  }

  predicate Unobstructed(l: Fleet, e: Entry, made: Option<Id>)
    requires e.Replace?
  {
    && (forall i | i in l && l[i].name == e.name :: i == e.oldId || made == Some(i))
    && (made.Some? ==> forall i | i in l && l[i].name == Next(e.name) :: made == Some(i))
  }

  /** Nothing else in the engine's sight holds either name entry k needs. */
  lemma NamesFree(b: Fleet, d: Fleet, disk: Option<Journal>, j: Journal, p: string, k: nat, made: Option<Id>)
    requires Kept(b, d, disk, j, p) && k < |j.entries| && j.entries[k].Replace?
    requires IsNew(b, d, j, p, j.entries[k], made)
    ensures Unobstructed(Listed(d, p), j.entries[k], made)
  {
    forall i | i in d
      ensures d[i].name == j.entries[k].name ==> i == j.entries[k].oldId || made == Some(i)
      ensures made.Some? && d[i].name == Next(j.entries[k].name) ==> made == Some(i)
    {
      OccupiesNames(b, d, j, p, k, i);
    }
  }

  lemma UnparkSafe(b: Fleet, d: Fleet, disk: Option<Journal>, j: Journal, p: string, k: nat)
    requires Kept(b, d, disk, j, p) && disk.Some? && k < |j.entries| && j.entries[k].Replace?
    requires Parked(b, d, j, p, j.entries[k])
    ensures j.entries[k].oldId in d && !Taken(d - {j.entries[k].oldId}, j.entries[k].name)
    ensures Kept(b, d[j.entries[k].oldId := d[j.entries[k].oldId].(name := j.entries[k].name)], disk, j, p)
  {
    CanonicalFree(b, d, j, p, k);
    OldShape(b, d, disk, j, p, k);
    KeepOld(b, d, disk, j, p, k, d[j.entries[k].oldId].(name := j.entries[k].name));
  }

  /** No creation of entry e holds e's canonical name. */
  ghost predicate Parked(b: Fleet, d: Fleet, j: Journal, p: string, e: Entry) {
    forall x | x in d && x !in b && MadeBy(b, j, p, e, x, d[x]) :: d[x].name != e.name
  }

  /** The old container is back, and the replacement, if any, parked and off. */
  predicate Back(b: Fleet, d: Fleet, e: Entry, made: Option<Id>)
    requires e.Replace?
  {
    && e.oldId in b && e.oldId in d && d[e.oldId] == b[e.oldId]
    && (made.Some? ==> made.value in d && d[made.value].name == Next(e.name) && !d[made.value].running)
  }

  lemma OnlyRefl(d: Fleet, x: Id)
    requires x in d
    ensures Only(d, d, x)
  {
  }

  lemma OnlyTwice(d0: Fleet, d1: Fleet, d2: Fleet, x: Id)
    requires Only(d0, d1, x) && Only(d1, d2, x)
    ensures Only(d0, d2, x)
  {
  }

  lemma FrameRefl(b: Fleet, d: Fleet, j: Journal, p: string, e: Entry)
    ensures Frame(b, d, d, j, p, e)
  {
  }

  /** Once parked, no creation of entry e holds e's canonical name. */
  lemma ParkedClear(b: Fleet, d0: Fleet, d1: Fleet, j: Journal, p: string, e: Entry, made: Option<Id>)
    requires IsNew(b, d0, j, p, e, made) && e.Replace?
    requires made.None? ==> d1 == d0
    requires made.Some? ==> Only(d0, d1, made.value) && d1[made.value].name == Next(e.name)
    ensures Parked(b, d1, j, p, e)
  {
  }

  lemma NearTwice(d0: Fleet, d1: Fleet, d2: Fleet, e: Entry, made: Option<Id>)
    requires e.Replace? && e.oldId in d0 && made != Some(e.oldId)
    requires made.None? ==> d1 == d0
    requires made.Some? ==> Only(d0, d1, made.value) && d1[made.value].labels == d0[made.value].labels &&
                            (d1[made.value].name == d0[made.value].name || d1[made.value].name == Next(e.name))
    requires d2 == d1 || (Only(d1, d2, e.oldId) && d2[e.oldId].labels == d0[e.oldId].labels)
    ensures Near(d0, d2, e, made) && d2.Keys == d0.Keys
    ensures made.Some? ==> d2[made.value] == d1[made.value]
  {
  }

  /** What undoing a replacement amounts to once its steps are behind it. */
  lemma Concluded(b: Fleet, d0: Fleet, disk: Option<Journal>, d1: Fleet, d: Fleet, j: Journal, p: string, k: nat,
                  made: Option<Id>)
    requires Kept(b, d0, disk, j, p) && k < |j.entries| && j.entries[k].Replace?
    requires IsNew(b, d0, j, p, j.entries[k], made)
    requires Near(d0, d1, j.entries[k], made) && d1.Keys == d0.Keys
    requires d == d1 || (made.Some? && Without(d1, d, made.value))
    ensures EntryUndone(b, d0, d, j, p, j.entries[k], Back(b, d1, j.entries[k], made))
    ensures (made.Some? ==> made.value !in d) ==> Erased(b, d, j, p, j.entries[k])
  {
    OldShape(b, d0, disk, j, p, k);
    NearFrame(b, d0, d, j, p, k, made);
  }

  lemma FindsKept(b: Fleet, d: Fleet, disk: Option<Journal>, j: Journal, p: string, k: nat)
    requires Kept(b, d, disk, j, p) && k < |j.entries| && j.entries[k].Replace?
    ensures Unique(Listed(d, p))
    ensures IsNew(b, d, j, p, j.entries[k], FindNew(Listed(d, p), j, p, j.entries[k]))
    ensures Unobstructed(Listed(d, p), j.entries[k], FindNew(Listed(d, p), j, p, j.entries[k]))
  {
    FindsNew(b, d, j, p, k);
    NamesFree(b, d, disk, j, p, k, FindNew(Listed(d, p), j, p, j.entries[k]));
  }

  // ----- created and started containers ---------------------------------

  function FindCreated(l: Fleet, j: Journal, p: string, e: Entry): (r: Option<Id>)
    requires Unique(l) && e.Create?
    ensures r.Some? ==> r.value in l
  {
    if e.newId.Some? then
      if e.newId.value in l then e.newId else None
    else
      var c := At(l, e.name);
      if c.Some? && Owns(j, p, l[c.value].labels) then c else None
  }

  /** A created container is found exactly when it exists. */
  lemma FindsCreated(b: Fleet, d: Fleet, j: Journal, p: string, k: nat)
    requires Recoverable(b, d, j, p) && k < |j.entries| && j.entries[k].Create?
    ensures Unique(Listed(d, p))
    ensures IsNew(b, d, j, p, j.entries[k], FindCreated(Listed(d, p), j, p, j.entries[k]))
  {
    var e := j.entries[k];
    var l := Listed(d, p);
    assert Unique(l);
    var r := FindCreated(l, j, p, e);
    assert EntryOk(b, d, e);
    if r.Some? {
      if e.newId.Some? {
        assert NewOk(b, d, j, p, e);
      } else {
        BaseNotOwned(b, d, j, p, r.value);
        OccupiesNames(b, d, j, p, k, r.value);
      }
    }
    forall x | x in d && x !in b && MadeBy(b, j, p, e, x, d[x]) ensures r == Some(x) {
      assert x in l;
      if e.newId.None? {
        assert At(l, e.name) == Some(x);
      }
    }
  }

  lemma NotAttempted(b: Fleet, d: Fleet, j: Journal, p: string, e: Entry)
    ensures EntryUndone(b, d, d, j, p, e, false)
  {
    FrameRefl(b, d, j, p, e);
  }

  lemma MadeIgnoresRunning(b: Fleet, j: Journal, p: string, e: Entry, x: Id, c: Container, on: bool)
    ensures MadeBy(b, j, p, e, x, c) <==> MadeBy(b, j, p, e, x, c.(running := on))
  {
  }

  lemma CreateConcluded(b: Fleet, d0: Fleet, d: Fleet, j: Journal, p: string, e: Entry, made: Id)
    requires e.Create? && IsNew(b, d0, j, p, e, Some(made)) && Spared(d0, d, made)
    requires made in d ==> d[made] == d0[made].(running := d[made].running)
    ensures EntryUndone(b, d0, d, j, p, e, made !in d)
    ensures made !in d ==> Erased(b, d, j, p, e)
  {
    hide MadeBy;
    if made in d {
      MadeIgnoresRunning(b, j, p, e, made, d0[made], d[made].running);
    }
  }

  lemma NothingCreated(b: Fleet, d: Fleet, j: Journal, p: string, e: Entry)
    requires e.Create? && IsNew(b, d, j, p, e, None)
    ensures Undone(b, d, j, p, e) && Erased(b, d, j, p, e)
    ensures EntryUndone(b, d, d, j, p, e, true)
  {
  }

  lemma StartShape(b: Fleet, d: Fleet, disk: Option<Journal>, j: Journal, p: string, k: nat)
    requires Kept(b, d, disk, j, p) && k < |j.entries| && j.entries[k].Start?
    ensures j.entries[k].id in b && j.entries[k].id in d
    ensures d[j.entries[k].id].labels == b[j.entries[k].id].labels
    ensures Erased(b, d, j, p, j.entries[k])
  {
    assert EntryOk(b, d, j.entries[k]);
  }

  lemma StartConcluded(b: Fleet, d0: Fleet, d: Fleet, j: Journal, p: string, e: Entry)
    requires e.Start? && e.id in b && e.id in d0 && Only(d0, d, e.id)
    requires Erased(b, d0, j, p, e)
    ensures Erased(b, d, j, p, e)
    ensures EntryUndone(b, d0, d, j, p, e, d[e.id].running ==> b[e.id].labels.project != p)
  {
  }

  // ----- the whole journal ----------------------------------------------

  ghost predicate UndoneFrom(b: Fleet, d: Fleet, j: Journal, p: string, i: nat) {
    forall m | i <= m < |j.entries| :: Undone(b, d, j, p, j.entries[m])
  }

  ghost predicate ErasedFrom(b: Fleet, d: Fleet, j: Journal, p: string, i: nat) {
    forall m | i <= m < |j.entries| :: Erased(b, d, j, p, j.entries[m])
  }

  /** Every replaced container shows in the project's listing, which is what
      lets undo find it. */
  predicate ReplacedListed(b: Fleet, j: Journal, p: string) {
    forall k | 0 <= k < |j.entries| && j.entries[k].Replace? ::
      j.entries[k].oldId in b ==> b[j.entries[k].oldId].labels.project == p
  }

  /** From d0 to d, an attempt at undoing entry e kept to what e reaches, and
      undid it if it was done. */
  ghost predicate EntryUndone(b: Fleet, d0: Fleet, d: Fleet, j: Journal, p: string, e: Entry, done: bool) {
    Frame(b, d0, d, j, p, e) && (done ==> Undone(b, d, j, p, e))
  }

  /** Undoing entry k keeps the later entries undone. */
  lemma UndoneRest(b: Fleet, d: Fleet, d': Fleet, disk: Option<Journal>, j: Journal, p: string, k: nat)
    requires Kept(b, d, disk, j, p) && Kept(b, d', disk, j, p) && k < |j.entries|
    requires Frame(b, d, d', j, p, j.entries[k])
    ensures UndoneFrom(b, d, j, p, k + 1) && Undone(b, d', j, p, j.entries[k]) ==> UndoneFrom(b, d', j, p, k)
    ensures ErasedFrom(b, d, j, p, k + 1) && Erased(b, d', j, p, j.entries[k]) ==> ErasedFrom(b, d', j, p, k)
  {
    hide Kept, Frame, Undone, Erased;
    forall m | k + 1 <= m < |j.entries|
      ensures Undone(b, d, j, p, j.entries[m]) ==> Undone(b, d', j, p, j.entries[m])
      ensures Erased(b, d, j, p, j.entries[m]) ==> Erased(b, d', j, p, j.entries[m])
    {
      KeptUndoneFrame(b, d, d', disk, j, p, k, m);
    }
  }

  lemma KeptUndoneFrame(b: Fleet, d: Fleet, d': Fleet, disk: Option<Journal>, j: Journal, p: string, k: nat, m: nat)
    requires Kept(b, d, disk, j, p) && Kept(b, d', disk, j, p)
    requires k < |j.entries| && m < |j.entries| && k != m
    requires Frame(b, d, d', j, p, j.entries[k])
    ensures Undone(b, d, j, p, j.entries[m]) ==> Undone(b, d', j, p, j.entries[m])
    ensures Erased(b, d, j, p, j.entries[m]) ==> Erased(b, d', j, p, j.entries[m])
  {
    UndoneFrame(b, d, d', j, p, k, m);
  }

  lemma NothingUndone(b: Fleet, d: Fleet, j: Journal, p: string)
    ensures UndoneFrom(b, d, j, p, |j.entries|) && ErasedFrom(b, d, j, p, |j.entries|)
  {
  }

  lemma NothingSeen(d: Fleet, j: Journal, p: string)
    ensures SeenFrom(d, j, p, |j.entries|)
  {
  }

  /** One more entry attempted, from d to d'. */
  lemma UndoneNext(g: Ledger, h: seq<State>, d: Fleet, h': seq<State>, d': Fleet, disk: Option<Journal>, j: Journal,
                   p: string, k: nat, done: bool)
    requires k < |j.entries| && Account(g, h, d, disk, j, p) && Account(g, h', d', disk, j, p)
    requires j.entries[k].Replace? && j.entries[k].oldId !in Listed(d, p) ==> !done
    requires g.intact ==> EntryUndone(g.base, d, d', j, p, j.entries[k], done)
    ensures var was := g.mark[|g.mark| - 1].containers;
            && (SeenFrom(was, j, p, k) ==> SeenFrom(was, j, p, k + 1))
            && (SeenFrom(was, j, p, k + 1) && done ==> SeenFrom(was, j, p, k))
            && (SeenFrom(was, j, p, k) ==> EntrySeen(was, j.entries[k], p))
            && (EntrySeen(was, j.entries[k], p) && g.intact && j.entries[k].Replace? ==> j.entries[k].oldId in Listed(d, p))
    ensures g.intact && UndoneFrom(g.base, d, j, p, k + 1) && done ==> UndoneFrom(g.base, d', j, p, k)
    ensures g.intact && ErasedFrom(g.base, d, j, p, k + 1) && Erased(g.base, d', j, p, j.entries[k]) ==>
              ErasedFrom(g.base, d', j, p, k)
  {
    var was := g.mark[|g.mark| - 1].containers;
    SeenStep(was, d, j, p, k);
    if g.intact {
      hide Undone, Erased, Frame;
      if j.entries[k].Replace? {
        OldShape(g.base, d, disk, j, p, k);
      }
      hide Kept;
      UndoneRest(g.base, d, d', disk, j, p, k);
    }
  }

  /** Each entry from the i-th on whose attempt had only calls that succeed, at
      ticks at[k + 1] to at[k], and whose replaced container could be seen in
      fleet was, is undone in fleet d, and nothing it created is left. */
  ghost predicate Attempted(host: Host, at: seq<nat>, b: Fleet, was: Fleet, d: Fleet, j: Journal, p: string, i: nat)
    requires |at| == |j.entries| + 1
  {
    forall k | i <= k < |j.entries| && host.SmoothOver(at[k + 1], at[k]) && EntrySeen(was, j.entries[k], p) ::
      Undone(b, d, j, p, j.entries[k]) && Erased(b, d, j, p, j.entries[k])
  }

  lemma NothingAttempted(host: Host, at: seq<nat>, b: Fleet, was: Fleet, d: Fleet, j: Journal, p: string)
    requires |at| == |j.entries| + 1
    ensures Attempted(host, at, b, was, d, j, p, |j.entries|)
  {
  }

  /** One more entry attempted, from tick t and fleet d on. */
  lemma AttemptedNext(g: Ledger, host: Host, at: seq<nat>, t: nat, d: Fleet, h: seq<State>, h': seq<State>, d': Fleet,
                      disk: Option<Journal>, j: Journal, p: string, k: nat, done: bool)
    requires |at| == |j.entries| + 1 && k < |j.entries| && at[k + 1] == t && t <= host.tick
    requires g.intact && Account(g, h, d, disk, j, p) && Account(g, h', d', disk, j, p)
    requires Attempted(host, at, g.base, g.mark[|g.mark| - 1].containers, d, j, p, k + 1)
    requires EntryUndone(g.base, d, d', j, p, j.entries[k], done)
    requires (host.SmoothOver(t, host.tick) && EntrySeen(g.mark[|g.mark| - 1].containers, j.entries[k], p)) ==>
               done && Erased(g.base, d', j, p, j.entries[k])
    ensures Attempted(host, at[k := host.tick], g.base, g.mark[|g.mark| - 1].containers, d', j, p, k)
  {
    hide Undone, Erased, Frame, Kept, Confined, ConfinedThrough, EntrySeen;
    forall m | k + 1 <= m < |j.entries|
      ensures Undone(g.base, d, j, p, j.entries[m]) ==> Undone(g.base, d', j, p, j.entries[m])
      ensures Erased(g.base, d, j, p, j.entries[m]) ==> Erased(g.base, d', j, p, j.entries[m])
    {
      KeptUndoneFrame(g.base, d, d', disk, j, p, k, m);
    }
  }

  // ----- sweeping -------------------------------------------------------

  /** Containers d are among those of d0, under the same names and labels. */
  ghost predicate Among(d0: Fleet, d: Fleet) {
    forall id | id in d :: id in d0 && d[id].name == d0[id].name && d[id].labels == d0[id].labels
  }

  /** From d0 to d, only the project's debris was stopped or removed. */
  predicate Swept(d0: Fleet, d: Fleet, p: string) {
    && d.Keys <= d0.Keys
    && (forall i | i in d0 && !Debris(d0[i], p) :: i in d && d[i] == d0[i])
    && (forall i | i in d :: d[i] == d0[i] || d[i] == d0[i].(running := false))
  }

  ghost predicate SweptThrough(h: seq<State>, from: nat, d0: Fleet, p: string) {
    forall k | from <= k < |h| :: h[k].disk.None? && Swept(d0, h[k].containers, p)
  }

  ghost predicate SweptLogged(h0: seq<State>, h: seq<State>, d0: Fleet, p: string) {
    h0 <= h && SweptThrough(h, |h0|, d0, p)
  }

  lemma SweptLog(h0: seq<State>, h: seq<State>, d0: Fleet, d: Fleet, p: string)
    requires SweptLogged(h0, h, d0, p) && Swept(d0, d, p)
    ensures SweptLogged(h0, h + [State(d, None)], d0, p)
  {
  }

  lemma SweptRefl(d: Fleet, p: string)
    ensures Swept(d, d, p)
  {
  }

  lemma SweptSpares(d0: Fleet, d: Fleet, p: string)
    requires Swept(d0, d, p)
    ensures d.Keys <= d0.Keys
    ensures forall i | i in d0 && !Debris(d0[i], p) :: i in d && d[i] == d0[i]
    ensures Among(d0, d)
  {
  }

  lemma SweptStop(d0: Fleet, d: Fleet, p: string, x: Id)
    requires Swept(d0, d, p) && x in d && x in d0 && Debris(d0[x], p)
    ensures Swept(d0, d[x := d[x].(running := false)], p)
  {
  }

  lemma SweptDrop(d0: Fleet, d: Fleet, p: string, x: Id)
    requires Swept(d0, d, p) && x in d0 && Debris(d0[x], p)
    ensures Swept(d0, d - {x}, p)
  {
  }

  /** Sweeping a restored fleet leaves it restored, and when no debris is
      left it has exactly the base containers. */
  lemma RestoredSwept(b: Fleet, d0: Fleet, d: Fleet, p: string, c: Scope)
    requires Restored(b, d0, p, c) && Swept(d0, d, p) && NoDebris(b, p)
    ensures Restored(b, d, p, c)
    ensures NoDebris(d, p) ==> d.Keys == b.Keys
  {
    forall id | id in d && id !in b ensures Leftover(d[id], p) && Debris(d[id], p) {
      assert Leftover(d0[id], p);
    }
    forall id | id in b ensures id in d && d[id] == d0[id] {
      assert d0[id] == b[id] || Stray(b[id], d0[id], p);
      assert !Debris(b[id], p);
    }
  }

  lemma KeptSelf(b: Fleet, d: Fleet, j: Journal, p: string)
    requires Recoverable(b, d, j, p)
    ensures Kept(b, d, Some(j), j, p)
  {
  }

  /** A fully undone journal may be deleted. */
  lemma KeptUndone(b: Fleet, d: Fleet, disk: Option<Journal>, j: Journal, p: string, c: Scope)
    requires Kept(b, d, disk, j, p) && disk.Some? && InScope(disk.value, c) && UndoneFrom(b, d, j, p, 0)
    ensures Restored(b, d, p, c)
    ensures ErasedFrom(b, d, j, p, 0) ==> d.Keys == b.Keys
  {
    CoveredScope(disk.value, j, c);
    AllUndone(b, d, j, p, c);
  }

  lemma KeptOldSide(b: Fleet, d: Fleet, disk: Option<Journal>, j: Journal, p: string, c: Scope)
    requires Kept(b, d, disk, j, p)
    requires disk.Some? ==> InScope(disk.value, c)
    ensures OldSide(b, State(d, disk), p, c)
  {
  }

  /** Clearing debris after a rollback stays on the old side. */
  lemma ThroughSwept(h0: seq<State>, h1: seq<State>, h: seq<State>, b: Fleet, d1: Fleet, p: string, c: Scope)
    requires h0 <= h1 <= h && Through(h1, |h0|, b, p, c) && SweptThrough(h, |h1|, d1, p)
    requires Restored(b, d1, p, c) && NoDebris(b, p)
    ensures Through(h, |h0|, b, p, c)
  {
    forall k | |h0| <= k < |h| ensures OldSide(b, h[k], p, c) {
      if k < |h1| {
        assert h[k] == h1[k];
      } else {
        RestoredSwept(b, d1, h[k].containers, p, c);
      }
    }
  }

  lemma OursSwept(d0: Fleet, d1: Fleet, d: Fleet, p: string)
    requires OursOnly(d0, d1, p) && Swept(d1, d, p)
    ensures OursOnly(d0, d, p)
  {
  }

  /** Undo, then clearing debris: nothing but the project's own was touched. */
  lemma TendedSwept(h0: seq<State>, h1: seq<State>, h: seq<State>, was: State, d1: Fleet, p: string)
    requires h0 <= h1 <= h && TendedThrough(h1, |h0|, was, p) && OursOnly(was.containers, d1, p)
    requires SweptThrough(h, |h1|, d1, p)
    ensures TendedThrough(h, |h0|, was, p)
  {
    forall k | |h0| <= k < |h| ensures Tended(was, h[k], p) {
      if k < |h1| {
        assert h[k] == h1[k];
      } else {
        OursSwept(was.containers, d1, h[k].containers, p);
      }
    }
  }

  lemma ConfinedTended(h: seq<State>, from: nat, was: State, j: Journal, p: string)
    requires ConfinedThrough(h, from, was, j, p) && Guarded(was, p) && was.disk == Some(j)
    ensures TendedThrough(h, from, was, p)
  {
    forall k | from <= k < |h| ensures Tended(was, h[k], p) {
      ConfinedOurs(was, h[k].containers, j, p);
    }
  }

  lemma RestoredRefl(b: Fleet, p: string, c: Scope)
    ensures Restored(b, b, p, c)
  {
  }

  /** Undo finds every replaced container exactly if the base fleet has it
      under the project's label. */
  lemma SeenListed(b: Fleet, d: Fleet, j: Journal, p: string)
    requires Recoverable(b, d, j, p)
    ensures OldSeen(d, j, p) <==> ReplacedListed(b, j, p)
  {
    forall k | 0 <= k < |j.entries| && j.entries[k].Replace?
      ensures j.entries[k].oldId in b && j.entries[k].oldId in d
      ensures d[j.entries[k].oldId].labels == b[j.entries[k].oldId].labels
    {
      assert EntryOk(b, d, j.entries[k]);
    }
  }

  // ----- recovering ------------------------------------------------------

  /** From state was to s, undoing journal j kept to what is j's own. */
  ghost predicate Recovered(was: State, h0: seq<State>, h: seq<State>, s: State, j: Journal, p: string) {
    && h0 <= h && ConfinedThrough(h, |h0|, was, j, p)
    && Confined(was.containers, s.containers, j, p) && (s.disk == was.disk || s.disk.None?)
  }

  /** Undoing journal j stayed on the old side of b. */
  ghost predicate RolledBack(b: Fleet, h0: seq<State>, h: seq<State>, s: State, j: Journal, p: string) {
    h0 <= h && Through(h, |h0|, b, p, ScopeOf(j)) && OldSide(b, s, p, ScopeOf(j))
  }

  lemma Opened(g: Ledger, d: Fleet, j: Journal, p: string)
    requires 0 < |g.mark| && g.mark[|g.mark| - 1] == State(d, Some(j)) && g.origin == Origin(g.mark, ScopeOf(j))
    requires g.intact ==> Recoverable(g.base, d, j, p)
    ensures Account(g, g.mark, d, Some(j), j, p)
  {
    ConfinedRefl(d, j, p);
    if g.intact {
      KeptSelf(g.base, d, j, p);
    }
  }

  /** What an undo started at history mark has to show, the journal being kept
      or deleted without having been needed. */
  lemma Closed(g: Ledger, h: seq<State>, d: Fleet, j: Journal, p: string)
    requires Account(g, h, d, Some(j), j, p) && g.origin == Origin(g.mark, ScopeOf(j))
    ensures var was := g.mark[|g.mark| - 1];
            Recovered(was, g.mark, h, State(d, Some(j)), j, p) &&
            Recovered(was, g.mark, h + [State(d, None)], State(d, None), j, p)
    ensures g.intact ==> RolledBack(g.base, g.mark, h, State(d, Some(j)), j, p)
  {
    hide Confined;
    if g.intact {
      KeptOldSide(g.base, d, Some(j), j, p, ScopeOf(j));
    }
  }

  /** Once all is undone the journal may be deleted. */
  lemma Deletable(g: Ledger, h: seq<State>, d: Fleet, j: Journal, p: string)
    requires Account(g, h, d, Some(j), j, p) && g.origin == Origin(g.mark, ScopeOf(j))
    requires g.intact ==> UndoneFrom(g.base, d, j, p, 0)
    ensures g.intact ==> RolledBack(g.base, g.mark, h + [State(d, None)], State(d, None), j, p)
    ensures g.intact && ErasedFrom(g.base, d, j, p, 0) ==> d.Keys == g.base.Keys
  {
    if g.intact {
      KeptUndone(g.base, d, Some(j), j, p, ScopeOf(j));
      hide Restored, Kept, UndoneFrom, ErasedFrom;
      LoggedStep(g.origin, h, g.base, p, State(d, None));
    }
  }

  /** What a sweep from state was to s shows, ok if it reports no failure. */
  ghost predicate SweepReport(b: Fleet, intact: bool, was: State, h0: seq<State>, h: seq<State>, s: State, ok: bool, p: string) {
    && (Guarded(was, p) ==> TendedThrough(h, |h0|, was, p) && Tended(was, s, p))
    && (was.disk.None? ==> s.disk.None? && SweptThrough(h, |h0|, was.containers, p) && Swept(was.containers, s.containers, p))
    && (ok ==> s.disk.None? && NoDebris(s.containers, p))
    && match was.disk
       case None => true
       case Some(j) =>
         && (!OldSeen(was.containers, j, p) ==> !ok && s.disk == was.disk)
         && (intact ==> Through(h, |h0|, b, p, ScopeOf(j)) && OldSide(b, s, p, ScopeOf(j)))
         && (intact && ok ==> s.containers.Keys == b.Keys)
  }

  /** Where a container was not debris, its address is what it was. */
  ghost predicate AddressesSwept(d0: Fleet, a0: map<Id, string>, a: map<Id, string>, p: string) {
    forall i | i !in d0 || !Debris(d0[i], p) :: Lookup(a, i) == Lookup(a0, i)
  }

  lemma Untouched(b: Fleet, intact: bool, h0: seq<State>, was: State, p: string)
    requires intact && was.disk.Some? ==> Recoverable(b, was.containers, was.disk.value, p)
    ensures SweepReport(b, intact, was, h0, h0, was, false, p)
    ensures forall a :: AddressesSwept(was.containers, a, a, p)
  {
  }

  /** Debris cleared, or not, after the journal was dealt with. */
  ghost predicate Cleared(h1: seq<State>, s1: State, h: seq<State>, s: State, ok: bool, p: string) {
    if s1.disk.None? then
      s.disk.None? && SweptLogged(h1, h, s1.containers, p) && Swept(s1.containers, s.containers, p) &&
      (ok ==> NoDebris(s.containers, p))
    else
      !ok && h == h1 && s == s1
  }

  lemma FinishedSwept(b: Fleet, intact: bool, was: State, h0: seq<State>, h: seq<State>, s: State, ok: bool, p: string)
    requires was.disk.None? && Cleared(h0, was, h, s, ok, p)
    ensures SweepReport(b, intact, was, h0, h, s, ok, p)
  {
    OursRefl(was.containers, p);
    hide Swept, OursOnly;
    OursSwept(was.containers, was.containers, s.containers, p);
    assert TendedThrough(h0, |h0|, was, p);
    TendedSwept(h0, h0, h, was, was.containers, p);
  }

  lemma FinishedRecovery(b: Fleet, intact: bool, was: State, h0: seq<State>, h1: seq<State>, s1: State,
                         h: seq<State>, s: State, ok: bool, j: Journal, p: string)
    requires was.disk == Some(j) && Recovered(was, h0, h1, s1, j, p) && Cleared(h1, s1, h, s, ok, p)
    requires !OldSeen(was.containers, j, p) ==> s1.disk == was.disk
    requires intact ==> RolledBack(b, h0, h1, s1, j, p) && NoDebris(b, p)
    ensures SweepReport(b, intact, was, h0, h, s, ok, p)
  {
    if Guarded(was, p) {
      FinishedTended(was, h0, h1, s1, h, s, ok, j, p);
    }
    hide Guarded, Confined, ConfinedThrough, Swept, OldSeen, TendedThrough, Tended, ScopeOf, SweptThrough, NoDebris, Restored;
    if intact && s1.disk.None? {
      ThroughSwept(h0, h1, h, b, s1.containers, p, ScopeOf(j));
      RestoredSwept(b, s1.containers, s.containers, p, ScopeOf(j));
    }
  }

  lemma FinishedTended(was: State, h0: seq<State>, h1: seq<State>, s1: State, h: seq<State>, s: State, ok: bool,
                       j: Journal, p: string)
    requires Guarded(was, p) && was.disk == Some(j) && Recovered(was, h0, h1, s1, j, p) && Cleared(h1, s1, h, s, ok, p)
    ensures TendedThrough(h, |h0|, was, p) && Tended(was, s, p)
  {
    ConfinedTended(h1, |h0|, was, j, p);
    ConfinedOurs(was, s1.containers, j, p);
    hide Guarded, Confined, ConfinedThrough, Swept, OursOnly, TendedThrough, SweptThrough;
    if s1.disk.None? {
      TendedSwept(h0, h1, h, was, s1.containers, p);
      OursSwept(was.containers, s1.containers, s.containers, p);
    }
  }
}
