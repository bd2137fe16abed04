/** One reconciliation's container mutations, journaled before they happen. */
module Transaction {
  import opened Containers
  import opened Recovery
  import opened Environment
  import opened Rollback
  import opened Runtime

  datatype Request = Request(name: Name, labels: Labels)

  datatype Action = Untouched | Started | Created

  /** The equality reconciliation decides by: same candidate, same resolver. */
  predicate Same(a: Labels, b: Labels) {
    a.candidate == b.candidate && a.dns == b.dns
  }

  /** A managed container with the requested labels holds the requested name. */
  predicate Present(d: Fleet, req: Request) {
    exists id :: id in d && d[id].name == req.name && d[id].labels.managed && Same(d[id].labels, req.labels)
  }

  predicate Named(j: Journal, n: Name) {
    exists k :: 0 <= k < |j.entries| && j.entries[k].name == n
  }

  /** What may become of the container at a reconciled name: it stays, at most
      switched on, or it is parked and off; if forced, it is parked. */
  predicate Heir(was: Container, now: Container, force: bool) {
    || now == was.(name := Prev(was.name), running := false)
    || (!force && (now == was || now == was.(running := true)))
  }

  /** From d0 to d, reconciling name n left every other container alone, and
      nothing new appeared elsewhere than at n. */
  predicate Elsewhere(d0: Fleet, d: Fleet, n: Name, force: bool) {
    && (forall id | id in d0 && d0[id].name != n :: id in d && d[id] == d0[id])
    && (forall id | id in d && id !in d0 :: d[id].name == n)
    && (forall id | id in d0 && d0[id].name == n :: id in d && Heir(d0[id], d[id], force))
  }

  /** Nothing stands in the way of replacing the container at n. */
  predicate Clear(d: Fleet, n: Name) {
    && (forall id | id in d && d[id].name == n :: d[id].labels.managed)
    && !Taken(d, Next(n)) && !Taken(d, Prev(n))
  }

  /** A name no entry mentions is as it was at the base. */
  lemma Unnamed(b: Fleet, d: Fleet, j: Journal, p: string, n: Name)
    requires Recoverable(b, d, j, p) && Canonical(n) && !Named(j, n)
    ensures forall id | id in d && d[id].name == n :: id in b && b[id] == d[id]
    ensures !Taken(d, n) ==> !Taken(b, n)
  {
    forall id | id in d && d[id].name == n ensures id in b && b[id] == d[id] {
      if id !in b {
        var m :| 0 <= m < |j.entries| && MadeBy(b, j, p, j.entries[m], id, d[id]);
        assert EntryOk(b, d, j.entries[m]);
        NamesApart(j.entries[m].name, n);
      } else if Touched(j, id) {
        var m :| 0 <= m < |j.entries| && Touches(j.entries[m], id);
        assert EntryOk(b, d, j.entries[m]);
        NamesApart(j.entries[m].name, n);
      }
    }
    forall id | id in b && b[id].name == n ensures id in d && d[id].name == n {
      if Touched(j, id) {
        var m :| 0 <= m < |j.entries| && Touches(j.entries[m], id);
        assert EntryOk(b, d, j.entries[m]);
      }
    }
  }

  lemma AppendCovers(j: Journal, e: Entry)
    ensures Covers(Appended(j, e), j) && Covers(j, j) && Covers(Appended(j, e), Appended(j, e))
  {
  }

  lemma BackfillCovers(j: Journal, k: nat, id: Id)
    requires k < |j.entries| && !j.entries[k].Start? && j.entries[k].newId.None?
    ensures Covers(j, Backfilled(j, k, id)) && Covers(Backfilled(j, k, id), Backfilled(j, k, id))
  {
  }

  /** Making progress: memory, disk and containers agree; until the first
      entry is written nothing has changed. */
  ghost predicate Forward(b: Fleet, d: Fleet, disk: Option<Journal>, j: Journal, written: bool, p: string, s: Scope) {
    && Recoverable(b, d, j, p) && InScope(j, s)
    && disk == (if written then Some(j) else None)
    && (!written ==> j.entries == [] && d == b)
  }

  /** Ids and nonces in use were minted earlier. */
  predicate Minted(b: Fleet, j: Journal, nextId: Id, nextNonce: nat) {
    && j.nonce < nextNonce
    && (forall id | id in b :: id < nextId)
    && (forall k | 0 <= k < |j.entries| && NewIdOf(j.entries[k]).Some? :: NewIdOf(j.entries[k]).value < nextId)
  }

  /** ...and every durable state since o can be rolled back to the base. */
  ghost predicate Tracked(o: Origin, h: seq<State>, b: Fleet, d: Fleet, disk: Option<Journal>, j: Journal, written: bool,
                          p: string) {
    Forward(b, d, disk, j, written, p, o.scope) && Logged(o, h, b, p)
  }

  lemma TrackedKept(o: Origin, h: seq<State>, b: Fleet, d: Fleet, disk: Option<Journal>, j: Journal, written: bool, p: string)
    requires Tracked(o, h, b, d, disk, j, written, p)
    ensures Kept(b, d, disk, j, p) && OldSide(b, State(d, disk), p, o.scope) && Logged(o, h, b, p)
    ensures disk.Some? ==> InScope(disk.value, o.scope)
    ensures if written then disk.Some? else d == b
  {
    if written {
      KeptSelf(b, d, j, p);
    }
  }

  /** A container step that keeps the invariant is progress. */
  lemma TrackedMove(o: Origin, h: seq<State>, b: Fleet, d: Fleet, d': Fleet, disk: Option<Journal>, j: Journal, p: string)
    requires Tracked(o, h, b, d, disk, j, true, p) && Recoverable(b, d', j, p)
    ensures Tracked(o, h + [State(d', disk)], b, d', disk, j, true, p)
  {
    hide Recoverable, InScope;
    LoggedStep(o, h, b, p, State(d', disk));
  }

  lemma TrackedAppend(o: Origin, h: seq<State>, b: Fleet, d: Fleet, disk: Option<Journal>, j: Journal, written: bool,
                      p: string, e: Entry, nextId: Id, nextNonce: nat)
    requires Tracked(o, h, b, d, disk, j, written, p) && EntryOk(b, d, e) && NewIdOf(e).None? && !Named(j, e.name)
    requires Within(e, o.scope) && Minted(b, j, nextId, nextNonce)
    ensures var j' := Appended(j, e); var h' := h + [State(d, Some(j'))];
            && Tracked(o, h', b, d, Some(j'), j', true, p) && Minted(b, j', nextId, nextNonce)
            && Kept(b, d, Some(j'), j, p) && InScope(j', o.scope) && Logged(o, h', b, p)
  {
    Append(b, d, j, p, e);
    AppendCovers(j, e);
    hide Recoverable;
    LoggedStep(o, h, b, p, State(d, Some(Appended(j, e))));
  }

  lemma TrackedBackfill(o: Origin, h: seq<State>, b: Fleet, d: Fleet, disk: Option<Journal>, j: Journal, p: string,
                        k: nat, id: Id, nextId: Id, nextNonce: nat)
    requires Tracked(o, h, b, d, disk, j, true, p)
    requires k < |j.entries| && !j.entries[k].Start? && j.entries[k].newId.None?
    requires Minted(b, j, nextId, nextNonce) && id < nextId
    requires id in d && id !in b && MadeBy(b, j, p, j.entries[k], id, d[id])
    ensures var j' := Backfilled(j, k, id); var h' := h + [State(d, Some(j'))];
            && Tracked(o, h', b, d, Some(j'), j', true, p) && Minted(b, j', nextId, nextNonce)
            && MadeBy(b, j', p, j'.entries[k], id, d[id])
            && Kept(b, d, disk, j', p) && Kept(b, d, Some(j'), j', p) && InScope(j', o.scope) && Logged(o, h', b, p)
  {
    var j' := Backfilled(j, k, id);
    Backfill(b, d, j, p, k, id);
    BackfillCovers(j, k, id);
    hide Recoverable, MadeBy;
    BackfillScope(j, k, id, o.scope);
    LoggedStep(o, h, b, p, State(d, Some(j')));
  }

  lemma BackfillScope(j: Journal, k: nat, id: Id, s: Scope)
    requires k < |j.entries| && !j.entries[k].Start? && InScope(j, s)
    ensures InScope(Backfilled(j, k, id), s)
  {
    assert Within(j.entries[k], s);
  }

  lemma TrackedCreate(o: Origin, h: seq<State>, b: Fleet, d: Fleet, disk: Option<Journal>, j: Journal, p: string, k: nat,
                      x: Id, c: Container, nextNonce: nat)
    requires Tracked(o, h, b, d, disk, j, true, p) && Minted(b, j, x, nextNonce) && x !in d
    requires k < |j.entries| && !j.entries[k].Start? && j.entries[k].newId.None?
    requires c.name == if j.entries[k].Replace? then Next(j.entries[k].name) else j.entries[k].name
    requires Owns(j, p, c.labels)
    ensures x !in b && Minted(b, j, x + 1, nextNonce)
    ensures !Taken(d, c.name) ==>
              MadeBy(b, j, p, j.entries[k], x, c) && Tracked(o, h + [State(d[x := c], disk)], b, d[x := c], disk, j, true, p)
  {
    if !Taken(d, c.name) {
      CreateMade(b, d, j, p, k, x, c);
      hide Forward, Logged;
      TrackedMove(o, h, b, d, d[x := c], disk, j, p);
    }
  }

  lemma TrackedOld(o: Origin, h: seq<State>, b: Fleet, d: Fleet, disk: Option<Journal>, j: Journal, p: string, k: nat,
                   c: Container)
    requires Tracked(o, h, b, d, disk, j, true, p) && k < |j.entries| && j.entries[k].Replace?
    requires c.name == j.entries[k].name || c.name == Prev(j.entries[k].name)
    requires j.entries[k].oldId in d ==> c == d[j.entries[k].oldId].(name := c.name, running := c.running)
    requires c.running ==> j.entries[k].wasRunning
    ensures j.entries[k].oldId in d
    ensures c.name == d[j.entries[k].oldId].name || !Taken(d - {j.entries[k].oldId}, c.name) ==>
              Tracked(o, h + [State(d[j.entries[k].oldId := c], disk)], b, d[j.entries[k].oldId := c], disk, j, true, p)
  {
    assert EntryOk(b, d, j.entries[k]);
    if c.name == d[j.entries[k].oldId].name || !Taken(d - {j.entries[k].oldId}, c.name) {
      MoveOld(b, d, j, p, k, c);
      hide Forward, Logged;
      TrackedMove(o, h, b, d, d[j.entries[k].oldId := c], disk, j, p);
    }
  }

  lemma TrackedRetire(o: Origin, h: seq<State>, b: Fleet, d: Fleet, disk: Option<Journal>, j: Journal, p: string, k: nat)
    requires Tracked(o, h, b, d, disk, j, true, p) && k < |j.entries| && j.entries[k].Replace?
    ensures j.entries[k].oldId in d
    ensures var d' := d[j.entries[k].oldId := d[j.entries[k].oldId].(name := Prev(j.entries[k].name))];
            !Taken(d - {j.entries[k].oldId}, Prev(j.entries[k].name)) ==>
              Tracked(o, h + [State(d', disk)], b, d', disk, j, true, p)
    ensures !Taken(d, Prev(j.entries[k].name)) ==> !Taken(d - {j.entries[k].oldId}, Prev(j.entries[k].name))
  {
    assert EntryOk(b, d, j.entries[k]);
    hide Forward, Logged;
    TrackedOld(o, h, b, d, disk, j, p, k, d[j.entries[k].oldId].(name := Prev(j.entries[k].name)));
  }

  lemma TrackedSwapIn(o: Origin, h: seq<State>, b: Fleet, d: Fleet, disk: Option<Journal>, j: Journal, p: string, k: nat,
                      x: Id)
    requires Tracked(o, h, b, d, disk, j, true, p)
    requires k < |j.entries| && j.entries[k].Replace? && j.entries[k].newId.Some?
    requires x in d && x !in b && MadeBy(b, j, p, j.entries[k], x, d[x])
    ensures var d' := d[x := d[x].(name := j.entries[k].name)];
            !Taken(d - {x}, j.entries[k].name) ==> Tracked(o, h + [State(d', disk)], b, d', disk, j, true, p)
    ensures !Taken(d, j.entries[k].name) ==> !Taken(d - {x}, j.entries[k].name)
  {
    if !Taken(d - {x}, j.entries[k].name) {
      RenameMade(b, d, j, p, k, x, j.entries[k].name);
      hide Forward, Logged;
      TrackedMove(o, h, b, d, d[x := d[x].(name := j.entries[k].name)], disk, j, p);
    }
  }

  lemma TrackedSwitchNew(o: Origin, h: seq<State>, b: Fleet, d: Fleet, disk: Option<Journal>, j: Journal, p: string,
                         x: Id, on: bool)
    requires Tracked(o, h, b, d, disk, j, true, p) && x in d && x !in b
    ensures var d' := d[x := d[x].(running := on)]; Tracked(o, h + [State(d', disk)], b, d', disk, j, true, p)
  {
    SwitchMade(b, d, j, p, x, on);
    hide Forward, Logged;
    TrackedMove(o, h, b, d, d[x := d[x].(running := on)], disk, j, p);
  }

  lemma TrackedSwitchOld(o: Origin, h: seq<State>, b: Fleet, d: Fleet, disk: Option<Journal>, j: Journal, p: string,
                         k: nat, on: bool)
    requires Tracked(o, h, b, d, disk, j, true, p) && k < |j.entries| && j.entries[k].Start?
    ensures j.entries[k].id in d
    ensures var d' := d[j.entries[k].id := d[j.entries[k].id].(running := on)];
            Tracked(o, h + [State(d', disk)], b, d', disk, j, true, p)
  {
    SwitchStarted(b, d, j, p, k, on);
    hide Forward, Logged;
    TrackedMove(o, h, b, d, d[j.entries[k].id := d[j.entries[k].id].(running := on)], disk, j, p);
  }

  class Txn {
    const svc: Service
    const host: Host := svc.host
    const project: string
    ghost const base: Fleet
    var j: Journal
    var written: bool

    constructor (svc: Service, project: string, candidate: string)
      requires svc.host.Valid() && svc.host.disk.None?
      modifies svc.host`nextNonce
      ensures this.svc == svc && this.project == project && base == svc.host.containers
      ensures j.candidate == candidate && j.entries == [] && !written
      ensures Tracking(Origin(svc.host.history, NOTHING))
    {
      var nonce := svc.host.MintNonce();
      this.svc := svc;
      this.project := project;
      this.base := svc.host.containers;
      this.j := Journal(candidate, nonce, []);
      this.written := false;
    }

    /** Making progress, every durable state since o being one that can be
        rolled back to the base. */
    ghost predicate Tracking(o: Origin)
      reads this, host
    {
      && host.Valid() && Minted(base, j, host.nextId, host.nextNonce)
      && Tracked(o, host.history, base, host.containers, host.disk, j, written, project)
    }

    /** After a failure: only rollback or a later sweep may act. */
    ghost predicate Failing(o: Origin)
      reads this, host
    {
      && host.Valid()
      && Kept(base, host.containers, host.disk, j, project)
      && (host.disk.Some? ==> InScope(host.disk.value, o.scope))
      && (if written then host.disk.Some? else host.containers == base)
      && Logged(o, host.history, base, project)
    }

    lemma TrackingFails(o: Origin)
      requires Tracking(o)
      ensures Failing(o)
    {
      TrackedKept(o, host.history, base, host.containers, host.disk, j, written, project);
    }

    lemma TrackingIds(o: Origin)
      requires Tracking(o)
      ensures forall id | id in host.containers :: id < host.nextId
    {
    }

    // ----- the journal in memory and on disk -----------------------------

    /** The entry goes to disk ahead of what it announces. If writing fails it
        is forgotten here, though the disk may have it. */
    method Append(ghost o: Origin, e: Entry) returns (r: Result<nat>)
      requires Tracking(o) && EntryOk(base, host.containers, e) && NewIdOf(e).None? && !Named(j, e.name)
      requires Within(e, o.scope)
      modifies this, host
      ensures host.containers == old(host.containers) && old(host.tick) <= host.tick
      ensures r.Ok? ==> Tracking(o) && written && j == Appended(old(j), e) && r.value == |old(j.entries)|
      ensures r.Err? ==> Failing(o) && j == old(j)
      ensures host.SmoothFrom(old(host.tick)) ==> r.Ok?
      ensures host.addresses == old(host.addresses)
    {
      hide Tracked, Minted, EntryOk, Kept, Named, Logged, InScope, Within, Unique;
      TrackingFails(o);
      TrackedAppend(o, host.history, base, host.containers, host.disk, j, written, project, e, host.nextId, host.nextNonce);
      var j' := Appended(j, e);
      var write := host.WriteJournal(j');
      if write.Ok? {
        j := j';
        written := true;
        r := Ok(|j.entries| - 1);
      } else {
        r := Err(write.error);
      }
    }

    /** Entry k learns the id of the container made for it. */
    method Backfill(ghost o: Origin, k: nat, id: Id) returns (r: Result<()>)
      requires Tracking(o) && written && k < |j.entries| && !j.entries[k].Start? && j.entries[k].newId.None?
      requires id in host.containers && id !in base && MadeBy(base, j, project, j.entries[k], id, host.containers[id])
      modifies this, host
      ensures host.containers == old(host.containers) && old(host.tick) <= host.tick
      ensures j == Backfilled(old(j), k, id)
      ensures r.Ok? ==> Tracking(o) && written && MadeBy(base, j, project, j.entries[k], id, host.containers[id])
      ensures r.Err? ==> Failing(o)
      ensures host.SmoothFrom(old(host.tick)) ==> r.Ok?
      ensures host.addresses == old(host.addresses)
    {
      hide Tracked, Minted, MadeBy, Kept, Logged, InScope;
      TrackingIds(o);
      TrackedKept(o, host.history, base, host.containers, host.disk, j, written, project);
      TrackedBackfill(o, host.history, base, host.containers, host.disk, j, project, k, id, host.nextId, host.nextNonce);
      j := Backfilled(j, k, id);
      r := host.WriteJournal(j);
    }

    /** Deleting the journal is what ends the transaction. */
    method Commit(ghost o: Origin) returns (r: Result<()>)
      requires Tracking(o)
      modifies this, host
      ensures host.Valid() && host.containers == old(host.containers) && old(host.tick) <= host.tick
      ensures host.addresses == old(host.addresses)
      ensures host.Idle() || (old(host.disk).Some? && host.Wrote(None))
      ensures r.Ok? ==> host.disk.None?
      ensures host.SmoothFrom(old(host.tick)) ==> r.Ok?
    {
      hide Recoverable, Logged, InScope;
      if !written {
        return Ok(());
      }
      r := host.DeleteJournal();
      if r.Ok? {
        written := false;
      }
    }

    /** Undo the transaction after a failure; a retained journal leaves the
        rest to the next sweep. */
    method Rollback(ghost o: Origin)
      requires Failing(o)
      modifies this, host
      ensures host.Valid() && Logged(o, host.history, base, project) && old(host.tick) <= host.tick
      ensures OldSide(base, State(host.containers, host.disk), project, o.scope)
      ensures !old(written) ==> host.Idle()
      ensures host.SmoothFrom(old(host.tick)) && ReplacedListed(base, old(j), project) ==>
                host.containers.Keys == base.Keys && (old(written) ==> host.disk.None?)
      ensures !old(written) ==> host.containers == base
    {
      KeptOldSide(base, host.containers, host.disk, j, project, o.scope);
      if !written {
        return;
      }
      ghost var g := Ledger(true, base, o, host.history, false);
      Accountable(g, host.history, host.containers, host.disk, j, project);
      hide Kept, Restored, Recoverable, ReplacedListed, OldSeen, Account, UndoneFrom, ErasedFrom, OldSide, Logged, InScope;
      var undone, _ := svc.Undo(g, project, j);
      Accounted(g, host.history, host.containers, host.disk, j, project);
      if undone {
        var _ := host.DeleteJournal();
      }
    }

    // ----- forward steps -------------------------------------------------

    /** The container exists afterwards but has not run. Where the daemon lacks
        the image there is a second attempt, after a pull, and no third. */
    method CreateOnly(ghost o: Origin, ghost k: nat, req: Request) returns (r: Result<Id>)
      requires Tracking(o) && written && k < |j.entries| && !j.entries[k].Start? && j.entries[k].newId.None?
      requires req.name == if j.entries[k].Replace? then Next(j.entries[k].name) else j.entries[k].name
      requires Owns(j, project, req.labels)
      modifies host
      ensures Tracking(o) && old(host.tick) <= host.tick
      ensures r.Ok? ==>
                r.value !in old(host.containers) && r.value !in base && r.value < host.nextId &&
                host.containers == old(host.containers)[r.value := Container(req.name, false, req.labels)] &&
                MadeBy(base, j, project, j.entries[k], r.value, host.containers[r.value])
      ensures host.SmoothFrom(old(host.tick)) ==> (r.Ok? <==> !Taken(old(host.containers), req.name))
      ensures host.schedule(old(host.tick)) == Refused(true) && host.SmoothOver(old(host.tick) + 1, host.tick) ==>
                (r.Ok? <==> !Taken(old(host.containers), req.name))
      ensures host.tick <= old(host.tick) + 3
      ensures host.addresses == old(host.addresses)
      ensures old(Addressed(host.containers, host.addresses)) ==> Addressed(host.containers, host.addresses)
    {
      hide Tracked, MadeBy, Owns, Taken, Minted, Addressed;
      r := CreateOnce(o, k, req);
      if r == Err(NotFound) {
        var pulled := host.Call();
        if pulled.Err? {
          return Err(pulled.error);
        }
        r := CreateOnce(o, k, req);
      }
    }

    method CreateOnce(ghost o: Origin, ghost k: nat, req: Request) returns (r: Result<Id>)
      requires Tracking(o) && written && k < |j.entries| && !j.entries[k].Start? && j.entries[k].newId.None?
      requires req.name == if j.entries[k].Replace? then Next(j.entries[k].name) else j.entries[k].name
      requires Owns(j, project, req.labels)
      modifies host
      ensures Tracking(o) && old(host.tick) <= host.tick
      ensures r.Ok? ==>
                r.value !in old(host.containers) && r.value !in base && r.value < host.nextId &&
                host.containers == old(host.containers)[r.value := Container(req.name, false, req.labels)] &&
                MadeBy(base, j, project, j.entries[k], r.value, host.containers[r.value])
      ensures host.tick == old(host.tick) + 1
      ensures r == Err(NotFound) <==> host.schedule(old(host.tick)) == Refused(true)
      ensures r == Err(NotFound) ==> host.Idle()
      ensures host.SmoothOver(old(host.tick), host.tick) ==> (r.Ok? <==> !Taken(old(host.containers), req.name))
      ensures host.addresses == old(host.addresses)
      ensures old(Addressed(host.containers, host.addresses)) ==> Addressed(host.containers, host.addresses)
    {
      ghost var c := Container(req.name, false, req.labels);
      TrackedCreate(o, host.history, base, host.containers, host.disk, j, project, k, host.nextId, c, host.nextNonce);
      hide Tracked, MadeBy, Owns, Taken, Minted, Addressed;
      r := host.CreateContainer(req.name, req.labels);
    }

    method StopOld(ghost o: Origin, k: nat) returns (r: Result<()>)
      requires Tracking(o) && written && k < |j.entries| && j.entries[k].Replace?
      requires j.entries[k].oldId in host.containers && host.containers[j.entries[k].oldId].name == j.entries[k].name
      modifies host
      ensures Tracking(o) && old(host.tick) <= host.tick
      ensures Only(old(host.containers), host.containers, j.entries[k].oldId)
      ensures host.containers[j.entries[k].oldId] ==
              old(host.containers[j.entries[k].oldId]).(running := host.containers[j.entries[k].oldId].running)
      ensures r.Ok? ==> !host.containers[j.entries[k].oldId].running
      ensures host.SmoothFrom(old(host.tick)) ==> r.Ok?
      ensures Readdressed(old(host.addresses), host.addresses, j.entries[k].oldId)
      ensures old(Addressed(host.containers, host.addresses)) ==> Addressed(host.containers, host.addresses)
    {
      ghost var c := host.containers[j.entries[k].oldId].(running := false);
      TrackedOld(o, host.history, base, host.containers, host.disk, j, project, k, c);
      hide Tracked, Only, Minted, Taken, Addressed;
      r := host.StopContainer(j.entries[k].oldId);
    }

    /** Park the old generation under its retired name. */
    method Retire(ghost o: Origin, k: nat) returns (r: Result<()>)
      requires Tracking(o) && written && k < |j.entries| && j.entries[k].Replace?
      modifies host`containers, host`tick, host`history
      ensures Tracking(o) && old(host.tick) <= host.tick
      ensures Only(old(host.containers), host.containers, j.entries[k].oldId)
      ensures r.Ok? ==> j.entries[k].oldId in old(host.containers) &&
                        host.containers[j.entries[k].oldId] ==
                        old(host.containers)[j.entries[k].oldId].(name := Prev(j.entries[k].name))
      ensures host.SmoothFrom(old(host.tick)) && !Taken(old(host.containers), Prev(j.entries[k].name)) ==> r.Ok?
      ensures old(Addressed(host.containers, host.addresses)) ==> Addressed(host.containers, host.addresses)
    {
      TrackedRetire(o, host.history, base, host.containers, host.disk, j, project, k);
      hide Tracked, Only, Minted, Taken, Addressed, Prev;
      r := host.RenameContainer(j.entries[k].oldId, Prev(j.entries[k].name));
    }

    /** Give the replacement the canonical name. */
    method SwapIn(ghost o: Origin, k: nat, x: Id) returns (r: Result<()>)
      requires Tracking(o) && written && k < |j.entries| && j.entries[k].Replace? && j.entries[k].newId.Some?
      requires x in host.containers && x !in base && MadeBy(base, j, project, j.entries[k], x, host.containers[x])
      modifies host`containers, host`tick, host`history
      ensures Tracking(o) && old(host.tick) <= host.tick
      ensures Only(old(host.containers), host.containers, x)
      ensures host.containers[x].labels == old(host.containers[x].labels)
      ensures r.Ok? ==> host.containers[x].name == j.entries[k].name
      ensures host.SmoothFrom(old(host.tick)) && !Taken(old(host.containers), j.entries[k].name) ==> r.Ok?
      ensures old(Addressed(host.containers, host.addresses)) ==> Addressed(host.containers, host.addresses)
    {
      TrackedSwapIn(o, host.history, base, host.containers, host.disk, j, project, k, x);
      hide Tracked, MadeBy, Only, Minted, Taken, Addressed;
      r := host.RenameContainer(x, j.entries[k].name);
    }

    method StartNew(ghost o: Origin, x: Id) returns (r: Result<()>)
      requires Tracking(o) && written && x in host.containers && x !in base
      modifies host
      ensures Tracking(o) && old(host.tick) <= host.tick && Readdressed(old(host.addresses), host.addresses, x)
      ensures Only(old(host.containers), host.containers, x)
      ensures host.containers[x] == old(host.containers[x]).(running := host.containers[x].running)
      ensures host.SmoothFrom(old(host.tick)) ==> r.Ok? && host.containers[x].running
      ensures old(Addressed(host.containers, host.addresses)) && host.SmoothFrom(old(host.tick)) ==> Addressed(host.containers, host.addresses)
    {
      TrackedSwitchNew(o, host.history, base, host.containers, host.disk, j, project, x, true);
      TrackedSwitchNew(o, host.history, base, host.containers, host.disk, j, project, x, false);
      hide Tracked, Only, Minted, Addressed;
      r := host.StartContainer(x);
    }

    method StartOld(ghost o: Origin, k: nat) returns (r: Result<()>)
      requires Tracking(o) && written && k < |j.entries| && j.entries[k].Start?
      modifies host
      ensures Tracking(o) && old(host.tick) <= host.tick && Readdressed(old(host.addresses), host.addresses, j.entries[k].id)
      ensures Only(old(host.containers), host.containers, j.entries[k].id)
      ensures host.containers[j.entries[k].id] ==
              old(host.containers[j.entries[k].id]).(running := host.containers[j.entries[k].id].running)
      ensures host.SmoothFrom(old(host.tick)) ==>
                r.Ok? && host.containers[j.entries[k].id].running
      ensures old(Addressed(host.containers, host.addresses)) && host.SmoothFrom(old(host.tick)) ==> Addressed(host.containers, host.addresses)
    {
      TrackedSwitchOld(o, host.history, base, host.containers, host.disk, j, project, k, true);
      TrackedSwitchOld(o, host.history, base, host.containers, host.disk, j, project, k, false);
      hide Tracked, Only, Minted, Addressed;
      r := host.StartContainer(j.entries[k].id);
    }
  }
}
