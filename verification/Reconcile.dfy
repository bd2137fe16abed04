/** What one name of the plan takes: nothing, a start, a container or a swap. */
module Reconcile {
  import opened Containers
  import opened Recovery
  import opened Environment
  import opened Rollback
  import opened Transaction

  /** From d0 to d: x appeared, the container prior may have changed, and
      nothing else did. */
  predicate Staged(d0: Fleet, d: Fleet, prior: Id, x: Id) {
    && prior in d0 && x !in d0 && d.Keys == d0.Keys + {x}
    && forall i | i in d0 && i != prior :: d[i] == d0[i]
  }

  lemma StagedApart(d0: Fleet, d: Fleet, prior: Id, x: Id)
    requires Staged(d0, d, prior, x)
    ensures prior in d0 && x !in d0
  {
  }

  lemma StagedStep(d0: Fleet, d1: Fleet, d: Fleet, prior: Id, x: Id, y: Id)
    requires Staged(d0, d1, prior, x) && Only(d1, d, y) && (y == prior || y == x)
    ensures Staged(d0, d, prior, x)
    ensures y == prior ==> d[x] == d1[x]
    ensures y == x ==> d[prior] == d1[prior]
  {
  }

  lemma AddedStaged(d0: Fleet, d: Fleet, prior: Id, x: Id, c: Container)
    requires prior in d0 && x !in d0 && d == d0[x := c]
    ensures Staged(d0, d, prior, x) && d[prior] == d0[prior] && d[x] == c
  {
  }

  ghost predicate SameAddresses(a0: map<Id, string>, a: map<Id, string>, x: Id, y: Id) {
    forall i | i != x && i != y :: Lookup(a, i) == Lookup(a0, i)
  }

  lemma SameStep(a0: map<Id, string>, a1: map<Id, string>, a: map<Id, string>, x: Id, y: Id)
    requires SameAddresses(a0, a1, x, y)
    ensures Readdressed(a1, a, x) || Readdressed(a1, a, y) ==> SameAddresses(a0, a, x, y)
  {
  }

  lemma SameRefl(a: map<Id, string>, x: Id, y: Id)
    ensures SameAddresses(a, a, x, y)
  {
  }

  /** Only the container at n may have a new address. */
  predicate AddressesKept(d0: Fleet, a0: map<Id, string>, a: map<Id, string>, n: Name) {
    forall i | i in d0 && d0[i].name != n :: Lookup(a, i) == Lookup(a0, i)
  }

  lemma SwapKeepsAddresses(d0: Fleet, a0: map<Id, string>, a: map<Id, string>, x: Id, y: Id)
    requires x in d0 && y !in d0 && SameAddresses(a0, a, x, y)
    ensures AddressesKept(d0, a0, a, d0[x].name)
  {
  }

  /** A base container may be journaled for replacement or start as long as
      no earlier entry names it. */
  lemma Journalable(b: Fleet, d: Fleet, j: Journal, p: string, n: Name, id: Id)
    requires Recoverable(b, d, j, p) && Canonical(n) && !Named(j, n)
    requires id in d && d[id].name == n && d[id].labels.managed
    ensures EntryOk(b, d, Replace(n, id, d[id].running, None))
    ensures !d[id].running ==> EntryOk(b, d, Start(n, id))
  {
    Unnamed(b, d, j, p, n);
  }

  predicate Continues(j0: Journal, j: Journal, n: Name) {
    && j.nonce == j0.nonce && j.candidate == j0.candidate
    && |j0.entries| <= |j.entries| <= |j0.entries| + 1
    && (forall k | 0 <= k < |j0.entries| :: j.entries[k].name == j0.entries[k].name)
    && (|j.entries| > |j0.entries| ==> j.entries[|j0.entries|].name == n)
  }

  lemma ContinuesSame(j: Journal, n: Name)
    ensures Continues(j, j, n)
  {
  }

  lemma ContinuesAppend(j: Journal, e: Entry)
    ensures Continues(j, Appended(j, e), e.name)
  {
  }

  lemma ContinuesBackfill(j0: Journal, j: Journal, n: Name, k: nat, id: Id)
    requires Continues(j0, j, n) && k < |j.entries| && !j.entries[k].Start?
    ensures Continues(j0, Backfilled(j, k, id), n)
  {
  }

  /** Scope s lets a run with base b journal whatever reconciling req may take. */
  ghost predicate Admits(s: Scope, b: Fleet, req: Request, force: bool) {
    && req.name in s.names
    && forall id | id in b && b[id].name == req.name ::
         if force || !Same(b[id].labels, req.labels) then id in s.replaced else !b[id].running ==> id in s.started
  }

  lemma Admitted(tx: Txn, o: Origin, req: Request, force: bool, id: Id)
    requires tx.Tracking(o) && Canonical(req.name) && !Named(tx.j, req.name) && Admits(o.scope, tx.base, req, force)
    requires id in tx.host.containers && tx.host.containers[id].name == req.name
    ensures var c := tx.host.containers[id];
            if force || !Same(c.labels, req.labels) then Within(Replace(req.name, id, c.running, None), o.scope)
            else !c.running ==> Within(Start(req.name, id), o.scope)
  {
    Unnamed(tx.base, tx.host.containers, tx.j, tx.project, req.name);
  }

  lemma Stageable(tx: Txn, o: Origin, req: Request, id: Id, e: Entry)
    requires tx.Tracking(o) && Canonical(req.name) && !Named(tx.j, req.name)
    requires id in tx.host.containers && tx.host.containers[id].name == req.name && tx.host.containers[id].labels.managed
    requires e == Replace(req.name, id, tx.host.containers[id].running, None)
    ensures EntryOk(tx.base, tx.host.containers, e)
    ensures Continues(tx.j, tx.j, req.name) && Continues(tx.j, Appended(tx.j, e), req.name)
  {
    Journalable(tx.base, tx.host.containers, tx.j, tx.project, req.name, id);
    ContinuesSame(tx.j, req.name);
    ContinuesAppend(tx.j, e);
  }

  lemma ContinuesBackfills(j0: Journal, j: Journal, n: Name, k: nat)
    requires Continues(j0, j, n) && k < |j.entries| && !j.entries[k].Start?
    ensures forall id :: Continues(j0, Backfilled(j, k, id), n)
  {
    forall id ensures Continues(j0, Backfilled(j, k, id), n) {
      ContinuesBackfill(j0, j, n, k, id);
    }
  }

  /** Create the staged container of entry k and journal its id. */
  method Mint(tx: Txn, ghost o: Origin, ghost d0: Fleet, req: Request, ghost prior: Id, k: nat) returns (r: Result<Id>)
    requires tx.Tracking(o) && tx.written && tx.host.containers == d0 && prior in d0
    requires k < |tx.j.entries| && tx.j.entries[k].Replace? && tx.j.entries[k].newId.None? && tx.j.entries[k].name == req.name
    requires Owns(tx.j, tx.project, req.labels)
    modifies tx, tx.host
    ensures old(tx.host.tick) <= tx.host.tick && tx.host.addresses == old(tx.host.addresses)
    ensures tx.j == old(tx.j) || exists id :: tx.j == Backfilled(old(tx.j), k, id)
    ensures r.Err? ==> tx.Failing(o)
    ensures r.Ok? ==> tx.Tracking(o) && tx.written && tx.j == Backfilled(old(tx.j), k, r.value)
    ensures r.Ok? ==>
              && r.value !in d0 && r.value !in tx.base
              && Staged(d0, tx.host.containers, prior, r.value)
              && prior in tx.host.containers && tx.host.containers[prior] == d0[prior]
              && r.value in tx.host.containers
              && tx.host.containers[r.value] == Container(Next(req.name), false, req.labels)
              && MadeBy(tx.base, tx.j, tx.project, tx.j.entries[k], r.value, tx.host.containers[r.value])
    ensures old(Addressed(tx.host.containers, tx.host.addresses)) ==> Addressed(tx.host.containers, tx.host.addresses)
    ensures tx.host.SmoothFrom(old(tx.host.tick)) && !Taken(d0, Next(req.name)) ==> r.Ok?
  {
    hide Tracked, Minted, MadeBy, Logged, Kept, Addressed, InScope, Staged, Unique, Owns, Taken;
    r := tx.CreateOnly(o, k, Request(Next(req.name), req.labels));
    if r.Ok? {
      AddedStaged(d0, tx.host.containers, prior, r.value, Container(Next(req.name), false, req.labels));
      var filled := tx.Backfill(o, k, r.value);
      if filled.Err? {
        r := Err(filled.error);
      }
    } else {
      tx.TrackingFails(o);
    }
  }

  /** Stage the replacement beside the old container: journal, create under
      the staged name, journal the minted id. */
  method Stage(tx: Txn, ghost o: Origin, req: Request, id: Id) returns (r: Result<Id>)
    requires tx.Tracking(o) && Canonical(req.name) && !Named(tx.j, req.name) && Owns(tx.j, tx.project, req.labels)
    requires id in tx.host.containers && tx.host.containers[id].name == req.name && tx.host.containers[id].labels.managed
    requires Within(Replace(req.name, id, tx.host.containers[id].running, None), o.scope)
    modifies tx, tx.host
    ensures old(tx.host.tick) <= tx.host.tick && tx.host.addresses == old(tx.host.addresses)
    ensures Continues(old(tx.j), tx.j, req.name)
    ensures r.Err? ==> tx.Failing(o)
    ensures r.Ok? ==> tx.Tracking(o) && tx.written && |tx.j.entries| == |old(tx.j.entries)| + 1
    ensures r.Ok? ==>
              var k := |old(tx.j.entries)|;
              && tx.j.entries[k] == Replace(req.name, id, old(tx.host.containers[id].running), Some(r.value))
              && r.value !in old(tx.host.containers) && r.value !in tx.base
              && Staged(old(tx.host.containers), tx.host.containers, id, r.value)
              && id in tx.host.containers && tx.host.containers[id] == old(tx.host.containers[id])
              && r.value in tx.host.containers
              && tx.host.containers[r.value] == Container(Next(req.name), false, req.labels)
              && MadeBy(tx.base, tx.j, tx.project, tx.j.entries[k], r.value, tx.host.containers[r.value])
    ensures old(Addressed(tx.host.containers, tx.host.addresses)) ==> Addressed(tx.host.containers, tx.host.addresses)
    ensures tx.host.SmoothFrom(old(tx.host.tick)) && !Taken(old(tx.host.containers), Next(req.name)) ==> r.Ok?
  {
    hide Tracked, Within, Minted, MadeBy, EntryOk, Logged, Kept, Named, Addressed, Continues, InScope, Staged, Unique;
    hide Taken, Canonical;
    var e := Replace(req.name, id, tx.host.containers[id].running, None);
    Stageable(tx, o, req, id, e);
    var appended := tx.Append(o, e);
    if appended.Ok? {
      ContinuesBackfills(old(tx.j), tx.j, req.name, appended.value);
      r := Mint(tx, o, old(tx.host.containers), req, id, appended.value);
    } else {
      r := Err(appended.error);
    }
  }

  lemma PrevFree(d0: Fleet, d: Fleet, prior: Id, x: Id, n: Name)
    requires Staged(d0, d, prior, x) && Canonical(n) && d[prior].name == n && d[x].name == Next(n)
    ensures !Taken(d0, Prev(n)) ==> !Taken(d, Prev(n))
  {
    NamesApart(n, n);
  }

  lemma NameFree(d0: Fleet, d: Fleet, prior: Id, x: Id, n: Name)
    requires Staged(d0, d, prior, x) && Canonical(n) && d[prior].name == Prev(n) && d[x].name == Next(n)
    requires Unique(d0) && d0[prior].name == n
    ensures !Taken(d, n)
  {
    NamesApart(n, n);
  }

  /** Stop the old generation if it runs and park it. */
  method Park(tx: Txn, ghost o: Origin, ghost d0: Fleet, n: Name, k: nat, ghost x: Id, ghost prior: Id)
    returns (r: Result<()>)
    requires tx.Tracking(o) && tx.written && Canonical(n) && k < |tx.j.entries|
    requires tx.j.entries[k].Replace? && tx.j.entries[k].name == n && tx.j.entries[k].oldId == prior
    requires Staged(d0, tx.host.containers, prior, x) && d0[prior].name == n
    requires d0[prior].running == tx.j.entries[k].wasRunning
    requires prior in tx.host.containers && x in tx.host.containers
    requires tx.host.containers[prior] == d0[prior] && tx.host.containers[x].name == Next(n)
    modifies tx.host
    ensures tx.Tracking(o) && old(tx.host.tick) <= tx.host.tick
    ensures Staged(d0, tx.host.containers, prior, x) && prior in tx.host.containers && x in tx.host.containers
    ensures tx.host.containers[x] == old(tx.host.containers[x])
    ensures SameAddresses(old(tx.host.addresses), tx.host.addresses, prior, x)
    ensures r.Ok? ==> tx.host.containers[prior] == d0[prior].(name := Prev(n), running := false)
    ensures tx.host.SmoothFrom(old(tx.host.tick)) && !Taken(d0, Prev(n)) ==> r.Ok?
    ensures old(Addressed(tx.host.containers, tx.host.addresses)) ==> Addressed(tx.host.containers, tx.host.addresses)
  {
    hide Tracked, Minted, Staged, Only, Addressed, Unique, Taken, SameAddresses, Readdressed, Canonical, Next, Prev;
    ghost var c0, a0 := tx.host.containers, tx.host.addresses;
    SameRefl(a0, prior, x);
    r := Ok(());
    if tx.j.entries[k].wasRunning {
      r := tx.StopOld(o, k);
      SameStep(a0, a0, tx.host.addresses, prior, x);
      StagedStep(d0, c0, tx.host.containers, prior, x, prior);
    }
    ghost var c1 := tx.host.containers;
    if r.Ok? {
      PrevFree(d0, c1, prior, x, n);
      r := tx.Retire(o, k);
      StagedStep(d0, c1, tx.host.containers, prior, x, prior);
    }
  }

  /** Retire the old generation and swap the staged one in. */
  method Swap(tx: Txn, ghost o: Origin, ghost d0: Fleet, n: Name, k: nat, x: Id, ghost prior: Id)
    returns (r: Result<()>)
    requires tx.Tracking(o) && tx.written && Canonical(n) && k < |tx.j.entries|
    requires tx.j.entries[k].Replace? && tx.j.entries[k].name == n && tx.j.entries[k].oldId == prior
    requires tx.j.entries[k].newId == Some(x) && x !in tx.base
    requires Unique(d0) && Staged(d0, tx.host.containers, prior, x) && d0[prior].name == n
    requires d0[prior].running == tx.j.entries[k].wasRunning
    requires prior in tx.host.containers && x in tx.host.containers
    requires tx.host.containers[prior] == d0[prior] && tx.host.containers[x].name == Next(n)
    requires MadeBy(tx.base, tx.j, tx.project, tx.j.entries[k], x, tx.host.containers[x])
    modifies tx.host
    ensures tx.Tracking(o) && old(tx.host.tick) <= tx.host.tick
    ensures Staged(d0, tx.host.containers, prior, x) && prior in tx.host.containers && x in tx.host.containers
    ensures tx.host.containers[x].labels == old(tx.host.containers[x].labels)
    ensures SameAddresses(old(tx.host.addresses), tx.host.addresses, prior, x)
    ensures r.Ok? ==> tx.host.containers[x].name == n
    ensures r.Ok? ==> tx.host.containers[prior] == d0[prior].(name := Prev(n), running := false)
    ensures tx.host.SmoothFrom(old(tx.host.tick)) && !Taken(d0, Prev(n)) ==> r.Ok? && tx.host.containers[x].running
    ensures old(Addressed(tx.host.containers, tx.host.addresses)) && tx.host.SmoothFrom(old(tx.host.tick)) ==>
              Addressed(tx.host.containers, tx.host.addresses)
  {
    hide MadeBy, Tracked, Minted, Staged, Only, Addressed, Unique, Taken, SameAddresses, Readdressed, Canonical, Next, Prev;
    ghost var a0 := tx.host.addresses;
    r := Park(tx, o, d0, n, k, x, prior);
    ghost var c2 := tx.host.containers;
    if r.Ok? {
      NameFree(d0, c2, prior, x, n);
      r := tx.SwapIn(o, k, x);
      StagedStep(d0, c2, tx.host.containers, prior, x, x);
    }
    ghost var c3, a3 := tx.host.containers, tx.host.addresses;
    if r.Ok? {
      r := tx.StartNew(o, x);
      SameStep(a0, a3, tx.host.addresses, prior, x);
      StagedStep(d0, c3, tx.host.containers, prior, x, x);
    }
  }

  /** From d0 to d, the container at name n became x and nothing else moved
      but the container prior that held the name. */
  lemma SwappedElsewhere(d0: Fleet, d: Fleet, prior: Id, x: Id, n: Name)
    requires Unique(d0) && Staged(d0, d, prior, x) && d0[prior].name == n
    requires d[x].name == n && d[prior] == d0[prior].(name := Prev(n), running := false)
    ensures Elsewhere(d0, d, n, true)
  {
  }

  lemma OnlyElsewhere(d0: Fleet, d: Fleet, x: Id)
    requires Unique(d0) && Only(d0, d, x) && !d0[x].running && d[x] == d0[x].(running := d[x].running)
    ensures Elsewhere(d0, d, d0[x].name, false)
  {
  }

  lemma AddedElsewhere(d0: Fleet, d1: Fleet, d: Fleet, x: Id, c: Container)
    requires x !in d0 && d1 == d0[x := c] && Only(d1, d, x) && d[x].name == c.name && !Taken(d0, c.name)
    ensures Elsewhere(d0, d, c.name, true)
  {
  }

  ghost predicate RunsAt(d: Fleet, n: Name) {
    exists id :: id in d && d[id].name == n && d[id].running
  }

  lemma NowPresent(d: Fleet, req: Request, id: Id)
    requires id in d && d[id].name == req.name && d[id].labels.managed && Same(d[id].labels, req.labels)
    ensures Present(d, req)
    ensures d[id].running ==> RunsAt(d, req.name)
  {
  }

  /** What reconciling one container promises, whichever path it takes, from
      containers d0, addresses a0 and journal j0. smooth: no call fails and
      nothing stands in the way. */
  ghost predicate Reconciled(tx: Txn, o: Origin, d0: Fleet, a0: map<Id, string>, j0: Journal, req: Request, force: bool,
                             smooth: bool, r: Result<Action>)
    reads tx, tx.host
  {
    && Continues(j0, tx.j, req.name)
    && (r.Err? ==> tx.Failing(o))
    && (r.Ok? ==>
          && tx.Tracking(o)
          && Present(tx.host.containers, req)
          && Elsewhere(d0, tx.host.containers, req.name, force)
          && AddressesKept(d0, a0, tx.host.addresses, req.name))
    && (smooth ==> r.Ok? && RunsAt(tx.host.containers, req.name) && tx.host.SmoothFrom(tx.host.tick))
    && (smooth && Addressed(d0, a0) ==> Addressed(tx.host.containers, tx.host.addresses))
  }

  method FinishReplace(tx: Txn, ghost o: Origin, ghost d0: Fleet, req: Request, k: nat, x: Id, prior: Id)
    returns (r: Result<Action>)
    requires tx.Tracking(o) && tx.written && Canonical(req.name) && k < |tx.j.entries|
    requires tx.j.entries[k].Replace? && tx.j.entries[k].name == req.name && tx.j.entries[k].oldId == prior
    requires tx.j.entries[k].newId == Some(x) && x !in tx.base
    requires Unique(d0) && Staged(d0, tx.host.containers, prior, x) && prior in d0 && d0[prior].name == req.name
    requires d0[prior].running == tx.j.entries[k].wasRunning
    requires prior in tx.host.containers && x in tx.host.containers
    requires tx.host.containers[prior] == d0[prior]
    requires tx.host.containers[x] == Container(Next(req.name), false, req.labels) && req.labels.managed
    requires MadeBy(tx.base, tx.j, tx.project, tx.j.entries[k], x, tx.host.containers[x])
    modifies tx.host
    ensures old(tx.host.tick) <= tx.host.tick
    ensures r.Err? ==> tx.Failing(o)
    ensures r.Ok? ==> tx.Tracking(o) && r.value.Created?
    ensures r.Ok? ==> Present(tx.host.containers, req) && Elsewhere(d0, tx.host.containers, req.name, true)
    ensures r.Ok? ==> AddressesKept(d0, old(tx.host.addresses), tx.host.addresses, req.name)
    ensures tx.host.SmoothFrom(old(tx.host.tick)) && !Taken(d0, Prev(req.name)) ==>
              r.Ok? && RunsAt(tx.host.containers, req.name)
    ensures tx.host.SmoothFrom(old(tx.host.tick)) && old(Addressed(tx.host.containers, tx.host.addresses)) ==>
              Addressed(tx.host.containers, tx.host.addresses)
  {
    StagedApart(d0, tx.host.containers, prior, x);
    hide MadeBy, Tracked, Minted, Kept, Logged, InScope, Addressed, Unique, Taken, Staged, Elsewhere, Present;
    hide RunsAt, SameAddresses, AddressesKept;
    var swapped := Swap(tx, o, d0, req.name, k, x, prior);
    if swapped.Ok? {
      SwappedElsewhere(d0, tx.host.containers, prior, x, req.name);
      NowPresent(tx.host.containers, req, x);
      SwapKeepsAddresses(d0, old(tx.host.addresses), tx.host.addresses, prior, x);
      r := Ok(Created);
    } else {
      tx.TrackingFails(o);
      r := Err(swapped.error);
    }
  }

  method ReplaceExisting(tx: Txn, ghost o: Origin, req: Request, id: Id, ghost smooth: bool) returns (r: Result<Action>)
    requires tx.Tracking(o) && Canonical(req.name) && !Named(tx.j, req.name) && Owns(tx.j, tx.project, req.labels)
    requires id in tx.host.containers && tx.host.containers[id].name == req.name && tx.host.containers[id].labels.managed
    requires Within(Replace(req.name, id, tx.host.containers[id].running, None), o.scope)
    requires smooth ==> tx.host.SmoothFrom(tx.host.tick) && Clear(tx.host.containers, req.name)
    modifies tx, tx.host
    ensures old(tx.host.tick) <= tx.host.tick
    ensures Reconciled(tx, o, old(tx.host.containers), old(tx.host.addresses), old(tx.j), req, true, smooth, r)
    ensures r.Ok? ==> r.value.Created?
  {
    ghost var d0 := tx.host.containers;
    assert Unique(d0);
    assert Clear(d0, req.name) ==> !Taken(d0, Next(req.name)) && !Taken(d0, Prev(req.name));
    hide MadeBy, Tracked, Minted, Kept, Logged, InScope, Addressed, Unique, Taken, Named, Continues, Staged, Elsewhere, Present;
    hide RunsAt, SameAddresses, AddressesKept, Clear, Next, Prev;
    var staged := Stage(tx, o, req, id);
    if staged.Ok? {
      r := FinishReplace(tx, o, d0, req, |tx.j.entries| - 1, staged.value, id);
    } else {
      r := Err(staged.error);
    }
  }

  lemma Creatable(tx: Txn, o: Origin, req: Request)
    requires tx.Tracking(o) && Canonical(req.name) && !Named(tx.j, req.name) && !Taken(tx.host.containers, req.name)
    ensures EntryOk(tx.base, tx.host.containers, Create(req.name, None))
    ensures Continues(tx.j, tx.j, req.name) && Continues(tx.j, Appended(tx.j, Create(req.name, None)), req.name)
  {
    Unnamed(tx.base, tx.host.containers, tx.j, tx.project, req.name);
    ContinuesSame(tx.j, req.name);
    ContinuesAppend(tx.j, Create(req.name, None));
  }

  /** The name is free: its container is journaled, made and started. */
  method CreateFresh(tx: Txn, ghost o: Origin, req: Request, ghost smooth: bool) returns (r: Result<Action>)
    requires tx.Tracking(o) && Canonical(req.name) && !Named(tx.j, req.name) && Owns(tx.j, tx.project, req.labels)
    requires !Taken(tx.host.containers, req.name) && req.name in o.scope.names
    requires smooth ==> tx.host.SmoothFrom(tx.host.tick) && Clear(tx.host.containers, req.name)
    modifies tx, tx.host
    ensures old(tx.host.tick) <= tx.host.tick
    ensures Reconciled(tx, o, old(tx.host.containers), old(tx.host.addresses), old(tx.j), req, true, smooth, r)
    ensures r.Ok? ==> r.value.Created?
  {
    ghost var d0, a0 := tx.host.containers, tx.host.addresses;
    hide MadeBy, Tracked, Minted, Kept, Logged, InScope, Addressed, Unique, Taken, Named, Continues, Elsewhere, Present;
    hide RunsAt, AddressesKept, Clear, EntryOk, Canonical, Owns;
    Creatable(tx, o, req);
    var appended := tx.Append(o, Create(req.name, None));
    if appended.Ok? {
      ContinuesBackfills(old(tx.j), tx.j, req.name, appended.value);
      r := CreateStart(tx, o, d0, req, appended.value);
    } else {
      r := Err(appended.error);
    }
  }

  method CreateStart(tx: Txn, ghost o: Origin, ghost d0: Fleet, req: Request, k: nat) returns (r: Result<Action>)
    requires tx.Tracking(o) && tx.written && k < |tx.j.entries| && tx.j.entries[k] == Create(req.name, None)
    requires Owns(tx.j, tx.project, req.labels) && !Taken(d0, req.name) && tx.host.containers == d0
    modifies tx, tx.host
    ensures old(tx.host.tick) <= tx.host.tick
    ensures tx.j == old(tx.j) || exists x :: tx.j == Backfilled(old(tx.j), k, x)
    ensures r.Err? ==> tx.Failing(o)
    ensures r.Ok? ==> tx.Tracking(o) && r.value.Created?
    ensures r.Ok? ==> Present(tx.host.containers, req) && Elsewhere(d0, tx.host.containers, req.name, true)
    ensures r.Ok? ==> AddressesKept(d0, old(tx.host.addresses), tx.host.addresses, req.name)
    ensures tx.host.SmoothFrom(old(tx.host.tick)) ==> r.Ok? && RunsAt(tx.host.containers, req.name)
    ensures tx.host.SmoothFrom(old(tx.host.tick)) && old(Addressed(tx.host.containers, tx.host.addresses)) ==>
              Addressed(tx.host.containers, tx.host.addresses)
  {
    ghost var a0 := tx.host.addresses;
    hide MadeBy, Tracked, Minted, Kept, Logged, InScope, Addressed, Unique, Taken, Elsewhere, Present;
    hide RunsAt, AddressesKept, Only, Readdressed;
    var created := tx.CreateOnly(o, k, req);
    if created.Err? {
      tx.TrackingFails(o);
      return Err(created.error);
    }
    var x := created.value;
    ghost var d1 := tx.host.containers;
    var filled := tx.Backfill(o, k, x);
    if filled.Err? {
      return Err(filled.error);
    }
    var started := tx.StartNew(o, x);
    if started.Err? {
      tx.TrackingFails(o);
      return Err(started.error);
    }
    AddedElsewhere(d0, d1, tx.host.containers, x, Container(req.name, false, req.labels));
    NowPresent(tx.host.containers, req, x);
    NewKeepsAddresses(d0, a0, tx.host.addresses, x, req.name);
    return Ok(Created);
  }

  lemma Startable(tx: Txn, o: Origin, req: Request, id: Id)
    requires tx.Tracking(o) && Canonical(req.name) && !Named(tx.j, req.name)
    requires id in tx.host.containers && tx.host.containers[id].name == req.name
    requires tx.host.containers[id].labels.managed && !tx.host.containers[id].running
    ensures EntryOk(tx.base, tx.host.containers, Start(req.name, id)) && NewIdOf(Start(req.name, id)).None?
    ensures Unique(tx.host.containers)
    ensures Continues(tx.j, tx.j, req.name) && Continues(tx.j, Appended(tx.j, Start(req.name, id)), req.name)
  {
    Journalable(tx.base, tx.host.containers, tx.j, tx.project, req.name, id);
    ContinuesSame(tx.j, req.name);
    ContinuesAppend(tx.j, Start(req.name, id));
  }

  lemma OnceStarted(d0: Fleet, d: Fleet, a0: map<Id, string>, a: map<Id, string>, req: Request, id: Id)
    requires Unique(d0) && Only(d0, d, id) && d[id] == d0[id].(running := d[id].running) && Readdressed(a0, a, id)
    requires !d0[id].running && d0[id].name == req.name && d0[id].labels.managed && Same(d0[id].labels, req.labels)
    ensures Elsewhere(d0, d, req.name, false) && AddressesKept(d0, a0, a, req.name) && Present(d, req)
    ensures d[id].running ==> RunsAt(d, req.name)
  {
    OnlyElsewhere(d0, d, id);
    NowPresent(d, req, id);
    OneKeepsAddresses(d0, a0, a, id);
  }

  /** Start an existing container that already runs the right candidate. */
  method StartExisting(tx: Txn, ghost o: Origin, req: Request, id: Id, ghost smooth: bool) returns (r: Result<Action>)
    requires tx.Tracking(o) && Canonical(req.name) && !Named(tx.j, req.name)
    requires id in tx.host.containers && tx.host.containers[id].name == req.name
    requires tx.host.containers[id].labels.managed && Same(tx.host.containers[id].labels, req.labels)
    requires !tx.host.containers[id].running && Within(Start(req.name, id), o.scope)
    requires smooth ==> tx.host.SmoothFrom(tx.host.tick) && Clear(tx.host.containers, req.name)
    modifies tx, tx.host
    ensures old(tx.host.tick) <= tx.host.tick
    ensures Reconciled(tx, o, old(tx.host.containers), old(tx.host.addresses), old(tx.j), req, false, smooth, r)
    ensures r.Ok? ==> r.value.Started?
  {
    hide Tracked, Minted, Kept, Logged, InScope, Continues, Present, Elsewhere, AddressesKept, RunsAt, Addressed, EntryOk;
    hide Only, Readdressed, Clear, Within, Named, Unique, Same, Appended;
    ghost var d0, a0 := tx.host.containers, tx.host.addresses;
    Startable(tx, o, req, id);
    var appended := tx.Append(o, Start(req.name, id));
    if appended.Ok? {
      var started := tx.StartOld(o, appended.value);
      OnceStarted(d0, tx.host.containers, a0, tx.host.addresses, req, id);
      tx.TrackingFails(o);
      r := if started.Ok? then Ok(Started) else Err(started.error);
    } else {
      r := Err(appended.error);
    }
  }

  lemma NewKeepsAddresses(d0: Fleet, a0: map<Id, string>, a: map<Id, string>, x: Id, n: Name)
    requires x !in d0 && Readdressed(a0, a, x)
    ensures AddressesKept(d0, a0, a, n)
  {
  }

  lemma OneKeepsAddresses(d0: Fleet, a0: map<Id, string>, a: map<Id, string>, x: Id)
    requires x in d0 && Readdressed(a0, a, x)
    ensures AddressesKept(d0, a0, a, d0[x].name)
  {
  }

  /** Container c already runs exactly what is requested, and is managed. */
  predicate Serves(c: Container, req: Request) {
    c.name == req.name && c.running && c.labels.managed && Same(c.labels, req.labels)
  }

  ghost predicate InSync(d: Fleet, req: Request) {
    exists id :: id in d && Serves(d[id], req)
  }

  lemma Unforced(tx: Txn, o: Origin, d0: Fleet, a0: map<Id, string>, j0: Journal, req: Request, force: bool, smooth: bool,
                 r: Result<Action>)
    requires Reconciled(tx, o, d0, a0, j0, req, true, smooth, r)
    ensures Reconciled(tx, o, d0, a0, j0, req, force, smooth, r)
  {
    hide Continues, Tracked, Minted, Kept, Logged, Present, AddressesKept, RunsAt, Addressed, InScope;
  }

  /** Nothing to do, a start or a replacement, as the found container demands. */
  method ReconcileFound(tx: Txn, ghost o: Origin, req: Request, force: bool, id: Id, ghost smooth: bool)
    returns (r: Result<Action>)
    requires tx.Tracking(o) && Canonical(req.name) && !Named(tx.j, req.name) && Owns(tx.j, tx.project, req.labels)
    requires Admits(o.scope, tx.base, req, force)
    requires id in tx.host.containers && tx.host.containers[id].name == req.name && tx.host.containers[id].labels.managed
    requires smooth ==> tx.host.SmoothFrom(tx.host.tick) && Clear(tx.host.containers, req.name)
    modifies tx, tx.host
    ensures old(tx.host.tick) <= tx.host.tick
    ensures Reconciled(tx, o, old(tx.host.containers), old(tx.host.addresses), old(tx.j), req, force, smooth, r)
    ensures var c := old(tx.host.containers[id]);
            if force || !Same(c.labels, req.labels) then r.Ok? ==> r.value.Created?
            else if c.running then tx.host.Idle() && tx.j == old(tx.j) && tx.written == old(tx.written) && r == Ok(Untouched)
            else r.Ok? ==> r.value.Started?
  {
    Admitted(tx, o, req, force, id);
    hide Tracked, Minted, Kept, Logged, InScope, Addressed, Elsewhere, AddressesKept, Continues, Named, Owns, Present, RunsAt, Within, Admits;
    var c := tx.host.containers[id];
    if !Same(c.labels, req.labels) || force {
      r := ReplaceExisting(tx, o, req, id, smooth);
      Unforced(tx, o, old(tx.host.containers), old(tx.host.addresses), old(tx.j), req, force, smooth, r);
    } else if c.running {
      Steady(tx.host.containers, tx.host.addresses, tx.j, req);
      NowPresent(tx.host.containers, req, id);
      r := Ok(Untouched);
    } else {
      r := StartExisting(tx, o, req, id, smooth);
    }
  }

  lemma SyncedAt(d: Fleet, req: Request, id: Id)
    requires Unique(d) && id in d && d[id].name == req.name
    ensures InSync(d, req) <==> Serves(d[id], req)
  {
  }

  lemma SyncedTaken(d: Fleet, req: Request)
    ensures InSync(d, req) ==> Taken(d, req.name)
  {
  }

  /** A managed container called n bears this candidate and this resolver. */
  predicate Bears(d: Fleet, n: Name, candidate: string, dns: string) {
    exists id :: id in d && d[id].name == n && d[id].labels.managed &&
                 d[id].labels.candidate == candidate && d[id].labels.dns == dns
  }

  predicate RunsAs(d: Fleet, n: Name, candidate: string, dns: string) {
    exists id :: id in d && d[id].name == n && d[id].labels.managed && d[id].running &&
                 d[id].labels.candidate == candidate && d[id].labels.dns == dns
  }

  predicate OffAs(d: Fleet, n: Name, candidate: string, dns: string) {
    exists id :: id in d && d[id].name == n && d[id].labels.managed && !d[id].running &&
                 d[id].labels.candidate == candidate && d[id].labels.dns == dns
  }

  /** What the decisions come to, label by label. */
  lemma SyncedExactly(d: Fleet, req: Request)
    ensures InSync(d, req) <==> RunsAs(d, req.name, req.labels.candidate, req.labels.dns)
    ensures Present(d, req) <==> Bears(d, req.name, req.labels.candidate, req.labels.dns)
  {
  }

  /** The container at the requested name is as wanted but for being off. */
  predicate Dormant(d: Fleet, req: Request) {
    OffAs(d, req.name, req.labels.candidate, req.labels.dns)
  }

  lemma DormantAt(d: Fleet, req: Request, id: Id)
    requires Unique(d) && id in d && d[id].name == req.name && d[id].labels.managed
    ensures Dormant(d, req) <==> !d[id].running && Same(d[id].labels, req.labels)
  {
  }

  lemma DormantTaken(d: Fleet, req: Request)
    ensures Dormant(d, req) ==> Taken(d, req.name)
  {
  }

  /** What inspection found: the container, its absence, or a failure. */
  method ReconcileInspected(tx: Txn, ghost o: Origin, req: Request, force: bool, existing: Result<Id>, ghost smooth: bool)
    returns (r: Result<Action>)
    requires tx.Tracking(o) && Canonical(req.name) && !Named(tx.j, req.name) && Owns(tx.j, tx.project, req.labels)
    requires Admits(o.scope, tx.base, req, force)
    requires existing.Ok? ==> existing.value in tx.host.containers && tx.host.containers[existing.value].name == req.name
    requires existing == Err(NotFound) ==> !Taken(tx.host.containers, req.name)
    requires smooth ==> tx.host.SmoothFrom(tx.host.tick) && Clear(tx.host.containers, req.name)
    requires smooth && existing.Err? ==> existing.error.NotFound?
    modifies tx, tx.host
    ensures old(tx.host.tick) <= tx.host.tick
    ensures Reconciled(tx, o, old(tx.host.containers), old(tx.host.addresses), old(tx.j), req, force, smooth, r)
    ensures !force && InSync(old(tx.host.containers), req) ==>
              tx.host.Idle() && tx.j == old(tx.j) && tx.written == old(tx.written) && (r.Ok? ==> r.value.Untouched?)
    ensures r.Ok? && r.value.Untouched? ==> tx.host.Idle() && !force && InSync(old(tx.host.containers), req)
    ensures r.Ok? ==> (r.value.Started? <==> !force && Dormant(old(tx.host.containers), req))
  {
    ghost var d0 := tx.host.containers;
    assert Unique(d0);
    tx.TrackingFails(o);
    SyncedTaken(d0, req);
    DormantTaken(d0, req);
    Steady(d0, tx.host.addresses, tx.j, req);
    hide Addressed, Elsewhere, AddressesKept, Continues, Named, Owns, Present, RunsAt, Admits, InSync, Taken, Same, Tracked;
    hide Dormant;
    if existing.Ok? {
      SyncedAt(d0, req, existing.value);
      if tx.host.containers[existing.value].labels.managed {
        DormantAt(d0, req, existing.value);
        r := ReconcileFound(tx, o, req, force, existing.value, smooth);
      } else {
        r := Err(Conflict);
      }
    } else if existing.error.NotFound? {
      r := CreateFresh(tx, o, req, smooth);
      Unforced(tx, o, d0, old(tx.host.addresses), old(tx.j), req, force, smooth, r);
    } else {
      r := Err(existing.error);
    }
  }

  /** See what holds the requested name, and do what that takes. */
  method ReconcileContainer(tx: Txn, ghost o: Origin, req: Request, force: bool, ghost smooth: bool)
    returns (r: Result<Action>)
    requires tx.Tracking(o) && Canonical(req.name) && !Named(tx.j, req.name) && Owns(tx.j, tx.project, req.labels)
    requires Admits(o.scope, tx.base, req, force)
    requires smooth ==> tx.host.SmoothFrom(tx.host.tick) && Clear(tx.host.containers, req.name)
    modifies tx, tx.host
    ensures old(tx.host.tick) <= tx.host.tick
    ensures Reconciled(tx, o, old(tx.host.containers), old(tx.host.addresses), old(tx.j), req, force, smooth, r)
    ensures !force && InSync(old(tx.host.containers), req) ==>
              tx.host.Idle() && tx.j == old(tx.j) && tx.written == old(tx.written) && (r.Ok? ==> r.value.Untouched?)
    ensures r.Ok? && r.value.Untouched? ==> tx.host.Idle()
    ensures r.Ok? ==> (r.value.Untouched? <==>
                         !force && RunsAs(old(tx.host.containers), req.name, req.labels.candidate, req.labels.dns))
    ensures r.Ok? ==> (r.value.Started? <==>
                         !force && OffAs(old(tx.host.containers), req.name, req.labels.candidate, req.labels.dns))
    ensures r.Ok? ==> Bears(tx.host.containers, req.name, req.labels.candidate, req.labels.dns)
  {
    ghost var d0 := tx.host.containers;
    hide Reconciled, Tracked, Minted, Admits, Named, Owns, InSync, Clear, Canonical, Present, RunsAs, OffAs, Bears, Unique;
    var existing := tx.host.InspectContainer(req.name);
    r := ReconcileInspected(tx, o, req, force, existing, smooth);
    SyncedExactly(d0, req);
    SyncedExactly(tx.host.containers, req);
    ReconciledPresent(tx, o, d0, old(tx.host.addresses), old(tx.j), req, force, smooth, r);
  }

  lemma ReconciledPresent(tx: Txn, o: Origin, d0: Fleet, a0: map<Id, string>, j0: Journal, req: Request, force: bool,
                          smooth: bool, r: Result<Action>)
    requires Reconciled(tx, o, d0, a0, j0, req, force, smooth, r)
    ensures r.Ok? ==> Present(tx.host.containers, req)
  {
  }

  lemma Steady(d: Fleet, a: map<Id, string>, j: Journal, req: Request)
    ensures Elsewhere(d, d, req.name, false) && AddressesKept(d, a, a, req.name) && Continues(j, j, req.name)
  {
  }
}
