/** The environment of the runtime service: a cooperative container daemon
    and one durable journal file. Every call is atomic, and its fate is drawn
    from a schedule over which all results quantify. */
module Environment {
  import opened Containers

  datatype Error = NotFound | Conflict | Fault | Exited | Invalid | Unavailable

  datatype Result<+T> = Ok(value: T) | Err(error: Error)

  // The fate of one call: done; refused without effect (missing: the daemon
  // says it lacks the image); or carried out with the answer lost. A started
  // container may exit at once, and gets an address while it runs.
  datatype Reply =
    | Done(stays: bool, address: string)
    | Refused(missing: bool)
    | Lost(stays: bool, address: string)

  predicate Smooth(r: Reply) {
    r.Done? && r.stays && r.address != ""
  }

  // What survives a crash.
  datatype State = State(containers: Fleet, disk: Option<Journal>)

  function Lookup(a: map<Id, string>, id: Id): string {
    if id in a then a[id] else ""
  }

  /** Every running container has an address. */
  predicate Addressed(d: Fleet, a: map<Id, string>) {
    forall i | i in d && d[i].running :: Lookup(a, i) != ""
  }

  // At most the address of x changed.
  ghost predicate Readdressed(a0: map<Id, string>, a: map<Id, string>, x: Id) {
    forall i | i != x :: Lookup(a, i) == Lookup(a0, i)
  }

  class Host {
    const schedule: nat -> Reply

    var containers: Fleet
    var addresses: map<Id, string>
    var disk: Option<Journal>
    var nextId: Id
    var nextNonce: nat
    var tick: nat

    // Every durable state so far, oldest first: a crash is any of them.
    ghost var history: seq<State>

    ghost predicate Valid()
      reads this
    {
      && Unique(containers)
      && 0 < nextNonce
      && (forall i | i in containers :: i < nextId && containers[i].labels.txn < nextNonce)
      && 0 < |history| && history[|history| - 1] == State(containers, disk)
    }

    // All calls from the t-th on succeed.
    ghost predicate SmoothFrom(t: nat) {
      forall k | t <= k :: Smooth(schedule(k))
    }

    // The t-th call succeeds, and all up to the u-th.
    ghost predicate SmoothOver(t: nat, u: nat) {
      forall k | t <= k < u :: Smooth(schedule(k))
    }

    function Address(id: Id): string
      reads this
    {
      Lookup(addresses, id)
    }

    twostate predicate Idle()
      reads this
    {
      containers == old(containers) && disk == old(disk) && history == old(history) && addresses == old(addresses)
    }

    twostate predicate Moved(d: Fleet)
      reads this
    {
      containers == d && disk == old(disk) && history == old(history) + [State(d, old(disk))]
    }

    twostate predicate Wrote(j: Option<Journal>)
      reads this
    {
      disk == j && containers == old(containers) && addresses == old(addresses) &&
      history == old(history) + [State(old(containers), j)]
    }

    // Counters only grow, and time passes.
    twostate predicate Later()
      reads this
    {
      old(nextId) <= nextId && old(nextNonce) <= nextNonce && old(tick) <= tick
    }

    // ----- daemon reads -------------------------------------------------

    /** A call whose effects lie outside this model, but which may fail. */
    method Call() returns (r: Result<()>)
      requires Valid()
      modifies this`tick
      ensures Valid() && tick == old(tick) + 1
      ensures SmoothOver(old(tick), tick) ==> r.Ok?
    {
      var reply := schedule(tick);
      tick := tick + 1;
      r := if reply.Done? then Ok(()) else Err(Fault);
    }

    method ListProjectContainers(project: string) returns (r: Result<Fleet>)
      requires Valid()
      modifies this`tick
      ensures Valid() && Later()
      ensures r.Ok? ==> r.value == Listed(containers, project)
      ensures SmoothOver(old(tick), tick) ==> r.Ok?
    {
      var reply := schedule(tick);
      tick := tick + 1;
      r := if reply.Done? then Ok(Listed(containers, project)) else Err(Fault);
    }

    method InspectContainer(name: Name) returns (r: Result<Id>)
      requires Valid()
      modifies this`tick
      ensures Valid() && Later()
      ensures r.Ok? ==> r.value in containers && containers[r.value].name == name
      ensures r == Err(NotFound) ==> !Taken(containers, name)
      ensures SmoothOver(old(tick), tick) ==> (r.Ok? <==> Taken(containers, name)) && (r.Err? ==> r.error.NotFound?)
    {
      var reply := schedule(tick);
      tick := tick + 1;
      if !reply.Done? {
        return Err(Fault);
      }
      var found := At(containers, name);
      r := if found.Some? then Ok(found.value) else Err(NotFound);
    }

    // ----- daemon mutations ---------------------------------------------

    method CreateContainer(name: Name, labels: Labels) returns (r: Result<Id>)
      requires Valid() && labels.txn < nextNonce
      modifies this
      ensures Valid() && Later()
      ensures Idle() || (!old(Taken(containers, name)) && old(nextId) !in old(containers) &&
                         Moved(old(containers)[old(nextId) := Container(name, false, labels)]))
      ensures addresses == old(addresses)
      ensures r.Ok? ==> r.value == old(nextId) && !Idle()
      ensures tick == old(tick) + 1
      ensures r == Err(NotFound) <==> schedule(old(tick)) == Refused(true)
      ensures r == Err(NotFound) ==> Idle()
      ensures SmoothOver(old(tick), tick) ==> (r.Ok? <==> !old(Taken(containers, name)))
      ensures SmoothOver(old(tick), tick) && r.Err? ==> r.error.Conflict?
      ensures old(Addressed(containers, addresses)) ==> Addressed(containers, addresses)
    {
      var reply := schedule(tick);
      tick := tick + 1;
      if reply.Refused? {
        return Err(if reply.missing then NotFound else Fault);
      }
      if Taken(containers, name) {
        return Err(Conflict);
      }
      var id := nextId;
      nextId := nextId + 1;
      containers := containers[id := Container(name, false, labels)];
      history := history + [State(containers, disk)];
      r := if reply.Lost? then Err(Fault) else Ok(id);
    }

    method StartContainer(id: Id) returns (r: Result<()>)
      requires Valid()
      modifies this`containers, this`addresses, this`tick, this`history
      ensures Valid() && Later() && Readdressed(old(addresses), addresses, id)
      ensures Idle() || (id in old(containers) && id in containers && Moved(old(containers)[id := containers[id]]) &&
                         containers[id] == old(containers)[id].(running := containers[id].running))
      ensures id in old(containers) ==> Only(old(containers), containers, id)
      ensures r.Ok? ==> id in old(containers) && !Idle()
      ensures SmoothOver(old(tick), tick) ==> (r.Ok? <==> id in old(containers))
      ensures SmoothOver(old(tick), tick) && r.Ok? ==> containers[id].running && Address(id) != ""
      ensures old(Addressed(containers, addresses)) && SmoothOver(old(tick), tick) ==> Addressed(containers, addresses)
    {
      var reply := schedule(tick);
      tick := tick + 1;
      if reply.Refused? {
        r := Err(Fault);
      } else if id !in containers {
        r := Err(NotFound);
      } else {
        containers := containers[id := containers[id].(running := reply.stays)];
        addresses := addresses[id := if reply.stays then reply.address else ""];
        history := history + [State(containers, disk)];
        r := if reply.Lost? then Err(Fault) else Ok(());
      }
    }

    method StopContainer(id: Id) returns (r: Result<()>)
      requires Valid()
      modifies this`containers, this`addresses, this`tick, this`history
      ensures Valid() && Later() && Readdressed(old(addresses), addresses, id)
      ensures Idle() || (id in old(containers) &&
                         Moved(old(containers)[id := old(containers)[id].(running := false)]))
      ensures id in old(containers) ==> Only(old(containers), containers, id)
      ensures r.Ok? ==> id in old(containers) && !Idle()
      ensures SmoothOver(old(tick), tick) ==> (r.Ok? <==> id in old(containers))
      ensures old(Addressed(containers, addresses)) ==> Addressed(containers, addresses)
    {
      var reply := schedule(tick);
      tick := tick + 1;
      if reply.Refused? {
        r := Err(Fault);
      } else if id !in containers {
        r := Err(NotFound);
      } else {
        containers := containers[id := containers[id].(running := false)];
        addresses := addresses[id := ""];
        history := history + [State(containers, disk)];
        r := if reply.Lost? then Err(Fault) else Ok(());
      }
    }

    method RenameContainer(id: Id, name: Name) returns (r: Result<()>)
      requires Valid()
      modifies this`containers, this`tick, this`history
      ensures Valid() && Later()
      ensures Idle() || (id in old(containers) && !Taken(old(containers) - {id}, name) &&
                         Moved(old(containers)[id := old(containers)[id].(name := name)]))
      ensures id in old(containers) ==> Only(old(containers), containers, id)
      ensures r.Ok? ==> id in old(containers) && !Idle()
      ensures SmoothOver(old(tick), tick) ==> (r.Ok? <==> id in old(containers) && !Taken(old(containers) - {id}, name))
      ensures old(Addressed(containers, addresses)) ==> Addressed(containers, addresses)
    {
      var reply := schedule(tick);
      tick := tick + 1;
      if reply.Refused? {
        r := Err(Fault);
      } else if id !in containers {
        r := Err(NotFound);
      } else {
        if Taken(containers - {id}, name) {
          return Err(Conflict);
        }
        forall i | i in containers && i != id ensures containers[i].name != name {
          assert i in containers - {id};
        }
        containers := containers[id := containers[id].(name := name)];
        history := history + [State(containers, disk)];
        r := if reply.Lost? then Err(Fault) else Ok(());
      }
    }

    method RemoveContainer(id: Id) returns (r: Result<()>)
      requires Valid()
      modifies this`containers, this`tick, this`history
      ensures Valid() && Later()
      ensures Idle() || (id in old(containers) && Moved(old(containers) - {id}))
      ensures Without(old(containers), containers, id)
      ensures r.Ok? ==> id in old(containers) && !Idle()
      ensures r == Err(NotFound) ==> id !in containers
      ensures SmoothOver(old(tick), tick) ==> (r.Ok? <==> id in old(containers))
      ensures old(Addressed(containers, addresses)) ==> Addressed(containers, addresses)
    {
      var reply := schedule(tick);
      tick := tick + 1;
      if reply.Refused? {
        r := Err(Fault);
      } else if id !in containers {
        r := Err(NotFound);
      } else {
        containers := containers - {id};
        history := history + [State(containers, disk)];
        r := if reply.Lost? then Err(Fault) else Ok(());
      }
    }

    // ----- the journal file ---------------------------------------------

    /** Atomic durable write; a failure may surface after the rename. */
    method WriteJournal(j: Journal) returns (r: Result<()>)
      requires Valid()
      modifies this`disk, this`tick, this`history
      ensures Valid() && Later()
      ensures Idle() || Wrote(Some(j))
      ensures r.Ok? ==> !Idle()
      ensures SmoothOver(old(tick), tick) ==> r.Ok?
    {
      var reply := schedule(tick);
      tick := tick + 1;
      if reply.Refused? {
        return Err(Fault);
      }
      disk := Some(j);
      history := history + [State(containers, disk)];
      r := if reply.Lost? then Err(Fault) else Ok(());
    }

    /** Removing an absent journal is success and changes nothing. */
    method DeleteJournal() returns (r: Result<()>)
      requires Valid()
      modifies this`disk, this`tick, this`history
      ensures Valid() && Later()
      ensures Idle() || (old(disk).Some? && Wrote(None))
      ensures r.Ok? ==> disk.None?
      ensures SmoothOver(old(tick), tick) ==> r.Ok?
    {
      var reply := schedule(tick);
      tick := tick + 1;
      if reply.Refused? {
        return Err(Fault);
      }
      if disk.Some? {
        disk := None;
        history := history + [State(containers, disk)];
      }
      r := if reply.Lost? then Err(Fault) else Ok(());
    }

    method LoadJournal() returns (r: Result<Option<Journal>>)
      requires Valid()
      modifies this`tick
      ensures Valid() && Later()
      ensures r.Ok? ==> r.value == disk
      ensures SmoothOver(old(tick), tick) ==> r.Ok?
    {
      var reply := schedule(tick);
      tick := tick + 1;
      r := if reply.Done? then Ok(disk) else Err(Fault);
    }

    /** Sixteen random bytes: a nonce no container carries. */
    method MintNonce() returns (nonce: nat)
      requires Valid()
      modifies this`nextNonce
      ensures Valid() && Later()
      ensures forall i | i in containers :: containers[i].labels.txn != nonce
      ensures 0 < nonce < nextNonce
    {
      nonce := nextNonce;
      nextNonce := nextNonce + 1;
    }
  }
}
