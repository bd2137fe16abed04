/** The runtime service: reconciliation, rollback, sweep and teardown. */
module Runtime {
  import opened Containers
  import opened Recovery
  import opened Environment
  import opened Rollback

  class Service {
    const host: Host

    constructor (host: Host)
      ensures this.host == host
    {
      this.host := host;
    }

    // ----- undo ----------------------------------------------------------

    /** The promise every stretch of undo work keeps, whatever fails in it. */
    ghost predicate Undoing(g: Ledger, j: Journal, p: string)
      reads host
    {
      && host.Valid() && host.disk.Some?
      && Account(g, host.history, host.containers, host.disk, j, p)
      && (g.addressed ==> host.SmoothFrom(host.tick) && Addressed(host.containers, host.addresses))
    }

    twostate predicate Steady()
      reads host
    {
      old(host.tick) <= host.tick && host.disk == old(host.disk)
    }

    method SwitchOff(ghost g: Ledger, ghost p: string, ghost j: Journal, x: Id) returns (r: Result<()>)
      requires Undoing(g, j, p) && x in host.containers && Mine(j, p, x, host.containers[x].labels)
      requires g.intact ==> x !in g.base
      modifies host
      ensures Undoing(g, j, p) && Steady()
      ensures Only(old(host.containers), host.containers, x)
      ensures host.containers[x] == old(host.containers[x]).(running := host.containers[x].running)
      ensures r.Ok? ==> !host.containers[x].running
      ensures host.SmoothOver(old(host.tick), host.tick) ==> r.Ok?
    {
      AccountMade(g, host.history, host.containers, host.disk, j, p, x);
      hide Account, Mine, Addressed;
      r := host.StopContainer(x);
    }

    method Park(ghost g: Ledger, ghost p: string, ghost j: Journal, e: Entry, ghost k: nat, x: Id)
      returns (r: Result<()>)
      requires Undoing(g, j, p) && k < |j.entries| && e == j.entries[k] && e.Replace?
      requires x in host.containers && Mine(j, p, x, host.containers[x].labels)
      requires g.intact ==> x !in g.base && MadeBy(g.base, j, p, e, x, host.containers[x]) && host.containers[x].name == e.name
      modifies host
      ensures Undoing(g, j, p) && Steady()
      ensures Only(old(host.containers), host.containers, x)
      ensures host.containers[x] == old(host.containers[x]).(name := host.containers[x].name)
      ensures host.containers[x].name == old(host.containers[x].name) || host.containers[x].name == Next(e.name)
      ensures r.Ok? ==> host.containers[x].name == Next(e.name)
      ensures host.SmoothOver(old(host.tick), host.tick) && g.intact ==> r.Ok?
    {
      AccountPark(g, host.history, host.containers, host.disk, j, p, k, x);
      hide Account, Mine, MadeBy, Taken, Next, Addressed;
      r := host.RenameContainer(x, Next(e.name));
    }

    method Unpark(ghost g: Ledger, ghost p: string, ghost j: Journal, e: Entry, ghost k: nat) returns (r: Result<()>)
      requires Undoing(g, j, p) && k < |j.entries| && e == j.entries[k] && e.Replace?
      requires e.oldId in host.containers && Mine(j, p, e.oldId, host.containers[e.oldId].labels)
      requires g.intact ==> Parked(g.base, host.containers, j, p, e)
      modifies host
      ensures Undoing(g, j, p) && Steady()
      ensures Only(old(host.containers), host.containers, e.oldId)
      ensures host.containers[e.oldId] == old(host.containers[e.oldId]).(name := host.containers[e.oldId].name)
      ensures r.Ok? ==> host.containers[e.oldId].name == e.name
      ensures host.SmoothOver(old(host.tick), host.tick) && g.intact ==> r.Ok?
    {
      AccountUnpark(g, host.history, host.containers, host.disk, j, p, k);
      hide Account, Mine, Parked, Taken, Addressed;
      r := host.RenameContainer(e.oldId, e.name);
    }

    /** Start the old container again. */
    method TurnOn(ghost g: Ledger, ghost p: string, ghost j: Journal, e: Entry, ghost k: nat) returns (r: Result<()>)
      requires Undoing(g, j, p) && k < |j.entries| && e == j.entries[k] && e.Replace? && e.wasRunning
      requires e.oldId in host.containers && Mine(j, p, e.oldId, host.containers[e.oldId].labels)
      requires g.intact ==> host.containers[e.oldId].name == e.name
      modifies host
      ensures Undoing(g, j, p) && Steady()
      ensures Only(old(host.containers), host.containers, e.oldId)
      ensures host.containers[e.oldId] == old(host.containers[e.oldId]).(running := host.containers[e.oldId].running)
      ensures host.SmoothOver(old(host.tick), host.tick) ==> r.Ok? && host.containers[e.oldId].running
    {
      AccountTurn(g, host.history, host.containers, host.disk, j, p, k, true);
      AccountTurn(g, host.history, host.containers, host.disk, j, p, k, false);
      hide Account, Mine, Addressed;
      r := host.StartContainer(e.oldId);
    }

    method Restart(ghost g: Ledger, ghost p: string, ghost j: Journal, e: Entry, ghost k: nat) returns (r: Result<()>)
      requires Undoing(g, j, p) && k < |j.entries| && e == j.entries[k] && e.Replace? && e.wasRunning
      requires e.oldId in host.containers && Mine(j, p, e.oldId, host.containers[e.oldId].labels)
      requires g.intact ==> host.containers[e.oldId].name == e.name
      modifies host
      ensures Undoing(g, j, p) && Steady()
      ensures Only(old(host.containers), host.containers, e.oldId)
      ensures host.containers[e.oldId] == old(host.containers[e.oldId]).(running := host.containers[e.oldId].running)
      ensures r.Ok? && g.intact ==> host.containers[e.oldId].running
      ensures host.SmoothOver(old(host.tick), host.tick) && g.intact ==> r.Ok?
    {
      hide Account, Mine, Addressed;
      r := TurnOn(g, p, j, e, k);
      if r.Ok? {
        var st := host.InspectContainer(e.name);
        if st.Err? {
          return Err(st.error);
        }
        if !host.containers[st.value].running {
          return Err(Exited);
        }
      }
    }

    /** Stop the replacement, then free the canonical name by parking it. */
    method ParkNew(ghost g: Ledger, p: string, ghost j: Journal, e: Entry, ghost k: nat, l: Fleet, made: Id)
      returns (r: Result<()>)
      requires Undoing(g, j, p) && k < |j.entries| && e == j.entries[k] && e.Replace?
      requires Unique(l) && l == Listed(host.containers, p) && made in l && Mine(j, p, made, l[made].labels)
      requires g.intact ==> IsNew(g.base, host.containers, j, p, e, Some(made))
      modifies host
      ensures Undoing(g, j, p) && Steady()
      ensures Only(old(host.containers), host.containers, made)
      ensures host.containers[made].labels == l[made].labels
      ensures host.containers[made].name == l[made].name || host.containers[made].name == Next(e.name)
      ensures r.Ok? && g.intact ==> host.containers[made].name == Next(e.name) && !host.containers[made].running
      ensures (host.SmoothOver(old(host.tick), host.tick) && g.intact &&
               (forall i | i in l && l[i].name == Next(e.name) :: i == made)) ==> r.Ok?
    {
      hide Kept, Undoing, Mine, Addressed;
      OnlyRefl(host.containers, made);
      r := Ok(());
      ghost var d0 := host.containers;
      if l[made].running {
        r := SwitchOff(g, p, j, made);
      }
      ghost var d1 := host.containers;
      if r.Ok? && l[made].name == e.name {
        var foreign := At(l, Next(e.name));
        if foreign.Some? && foreign.value != made {
          r := Err(Conflict);
        } else {
          r := Park(g, p, j, e, k, made);
          OnlyTwice(d0, d1, host.containers, made);
        }
      }
    }

    /** Give the old container its name back and restart it if it ran. */
    method RestoreOld(ghost g: Ledger, ghost p: string, ghost j: Journal, e: Entry, ghost k: nat, was: Container)
      returns (r: Result<()>)
      requires Undoing(g, j, p) && k < |j.entries| && e == j.entries[k] && e.Replace?
      requires e.oldId in host.containers && Mine(j, p, e.oldId, host.containers[e.oldId].labels)
      requires g.intact ==> host.containers[e.oldId] == was && Parked(g.base, host.containers, j, p, e)
      modifies host
      ensures Undoing(g, j, p) && Steady()
      ensures Only(old(host.containers), host.containers, e.oldId)
      ensures host.containers[e.oldId].labels == old(host.containers[e.oldId].labels)
      ensures r.Ok? && g.intact ==> e.oldId in g.base && host.containers[e.oldId] == g.base[e.oldId]
      ensures host.SmoothOver(old(host.tick), host.tick) && g.intact ==> r.Ok?
    {
      if g.intact {
        AccountKept(g, host.history, host.containers, host.disk, j, p);
        OldShape(g.base, host.containers, host.disk, j, p, k);
      }
      hide Kept, MadeBy, Undoing, Unique, Mine, Addressed, Parked, Account;
      OnlyRefl(host.containers, e.oldId);
      ghost var d0 := host.containers;
      r := Ok(());
      if was.name != e.name {
        r := Unpark(g, p, j, e, k);
      }
      ghost var d1 := host.containers;
      if r.Ok? && e.wasRunning && !was.running {
        r := Restart(g, p, j, e, k);
        OnlyTwice(d0, d1, host.containers, e.oldId);
      }
    }

    /** Remove a replacement; undo ignores the outcome. */
    method Discard(ghost g: Ledger, ghost p: string, ghost j: Journal, x: Id) returns (r: Result<()>)
      requires Undoing(g, j, p) && x in host.containers && Mine(j, p, x, host.containers[x].labels)
      requires g.intact ==> x !in g.base
      modifies host
      ensures Undoing(g, j, p) && Steady()
      ensures Without(old(host.containers), host.containers, x)
      ensures r.Ok? || r == Err(NotFound) ==> x !in host.containers
      ensures host.SmoothOver(old(host.tick), host.tick) ==> r.Ok?
    {
      AccountMade(g, host.history, host.containers, host.disk, j, p, x);
      hide Account, Mine, Addressed;
      r := host.RemoveContainer(x);
    }

    /** Everything undoing a replacement does before the final removal. */
    method RestoreEntry(ghost g: Ledger, p: string, ghost j: Journal, e: Entry, ghost k: nat, l: Fleet, made: Option<Id>)
      returns (r: Result<()>)
      requires Undoing(g, j, p) && k < |j.entries| && e == j.entries[k] && e.Replace?
      requires Unique(l) && l == Listed(host.containers, p) && e.oldId in l && Mine(j, p, e.oldId, l[e.oldId].labels)
      requires made.Some? ==> made.value in l && Mine(j, p, made.value, l[made.value].labels)
      requires g.intact ==> IsNew(g.base, host.containers, j, p, e, made)
      modifies host
      ensures Undoing(g, j, p) && Steady()
      ensures host.containers.Keys == old(host.containers.Keys)
      ensures made.Some? ==> host.containers[made.value].labels == l[made.value].labels
      ensures g.intact ==> Near(old(host.containers), host.containers, e, made)
      ensures r.Ok? && g.intact ==> Back(g.base, host.containers, e, made)
      ensures host.SmoothOver(old(host.tick), host.tick) && g.intact && Unobstructed(l, e, made) ==> r.Ok?
    {
      if g.intact {
        AccountKept(g, host.history, host.containers, host.disk, j, p);
        OldShape(g.base, host.containers, host.disk, j, p, k);
      }
      hide Kept, Undoing, MadeBy, Near, Mine, Addressed, Parked, Account;
      ghost var d0 := host.containers;
      r := Ok(());
      if made.Some? {
        r := ParkNew(g, p, j, e, k, l, made.value);
      }
      ghost var d1 := host.containers;
      if r.Ok? {
        var occupant := At(l, e.name);
        if occupant.Some? && occupant.value != e.oldId && Some(occupant.value) != made {
          r := Err(Conflict);
        } else {
          if g.intact {
            ParkedClear(g.base, d0, d1, j, p, e, made);
          }
          r := RestoreOld(g, p, j, e, k, l[e.oldId]);
        }
      }
      if g.intact {
        NearTwice(d0, d1, host.containers, e, made);
      }
    }

    /** The replacement makes way, the old container takes its place again, and
        only after that may the replacement go. Whatever fails on the way
        costs no container; with no old one to return to, nothing moves. */
    method UndoReplace(ghost g: Ledger, p: string, j: Journal, e: Entry, ghost k: nat) returns (r: Result<()>)
      requires Undoing(g, j, p) && k < |j.entries| && e == j.entries[k] && e.Replace?
      modifies host
      ensures Undoing(g, j, p) && Steady()
      ensures e.oldId !in Listed(old(host.containers), p) ==> r.Err? && host.Idle()
      ensures r.Err? ==> host.containers.Keys == old(host.containers.Keys)
      ensures g.intact ==> EntryUndone(g.base, old(host.containers), host.containers, j, p, e, r.Ok?)
      ensures host.SmoothOver(old(host.tick), host.tick) && g.intact && e.oldId in Listed(old(host.containers), p) ==>
                r.Ok? && Erased(g.base, host.containers, j, p, e)
    {
      ghost var h0, d0, disk := host.history, host.containers, host.disk;
      FoundMine(d0, j, p, k);
      if g.intact {
        AccountKept(g, h0, d0, disk, j, p);
        OldShape(g.base, d0, disk, j, p, k);
        FindsKept(g.base, d0, disk, j, p, k);
        FrameRefl(g.base, d0, j, p, e);
      }
      hide Kept, Undoing, Frame, Undone, Erased, IsNew, Unobstructed, Near, FindNew, Only, Mine, Addressed, Account, Back;
      var listing := host.ListProjectContainers(p);
      if listing.Err? {
        return Err(listing.error);
      }
      var l := listing.value;
      var made := FindNew(l, j, p, e);
      if e.oldId !in l {
        return Err(Conflict);
      }
      r := RestoreEntry(g, p, j, e, k, l, made);
      ghost var d1 := host.containers;
      if r.Ok? && made.Some? {
        var _ := Discard(g, p, j, made.value);
      }
      if g.intact {
        Concluded(g.base, d0, disk, d1, host.containers, j, p, k, made);
      }
    }

    /** Stop a container if it runs and remove it. */
    method Erase(ghost g: Ledger, ghost p: string, ghost j: Journal, x: Id, running: bool) returns (r: Result<()>)
      requires Undoing(g, j, p) && x in host.containers && Mine(j, p, x, host.containers[x].labels)
      requires g.intact ==> x !in g.base
      modifies host
      ensures Undoing(g, j, p) && Steady()
      ensures Spared(old(host.containers), host.containers, x)
      ensures x in host.containers ==>
                host.containers[x] == old(host.containers[x]).(running := host.containers[x].running)
      ensures r.Ok? ==> x !in host.containers
      ensures host.SmoothOver(old(host.tick), host.tick) ==> r.Ok?
    {
      hide Undoing, Mine, Addressed;
      OnlyRefl(host.containers, x);
      r := Ok(());
      if running {
        r := SwitchOff(g, p, j, x);
      }
      if r.Ok? {
        r := Discard(g, p, j, x);
        if r == Err(NotFound) {
          r := Ok(());
        }
      }
    }

    method UndoCreate(ghost g: Ledger, p: string, j: Journal, e: Entry, ghost k: nat) returns (r: Result<()>)
      requires Undoing(g, j, p) && k < |j.entries| && e == j.entries[k] && e.Create?
      modifies host
      ensures Undoing(g, j, p) && Steady()
      ensures g.intact ==> EntryUndone(g.base, old(host.containers), host.containers, j, p, e, r.Ok?)
      ensures host.SmoothOver(old(host.tick), host.tick) && g.intact ==> r.Ok? && Erased(g.base, host.containers, j, p, e)
    {
      ghost var d0 := host.containers;
      FoundMine(d0, j, p, k);
      if g.intact {
        AccountKept(g, host.history, d0, host.disk, j, p);
        FindsCreated(g.base, d0, j, p, k);
        NotAttempted(g.base, d0, j, p, e);
      }
      hide Kept, Undoing, EntryUndone, Erased, MadeBy, FindCreated, Mine, Addressed, Account, Spared;
      var listing := host.ListProjectContainers(p);
      if listing.Err? {
        return Err(listing.error);
      }
      var target := FindCreated(listing.value, j, p, e);
      r := Ok(());
      if target.Some? {
        r := Erase(g, p, j, target.value, listing.value[target.value].running);
        if g.intact {
          CreateConcluded(g.base, d0, host.containers, j, p, e, target.value);
        }
      } else if g.intact {
        NothingCreated(g.base, d0, j, p, e);
      }
    }

    method SwitchBack(ghost g: Ledger, ghost p: string, ghost j: Journal, e: Entry, ghost k: nat) returns (r: Result<()>)
      requires Undoing(g, j, p) && k < |j.entries| && e == j.entries[k] && e.Start?
      requires e.id in host.containers && Mine(j, p, e.id, host.containers[e.id].labels)
      modifies host
      ensures Undoing(g, j, p) && Steady()
      ensures Only(old(host.containers), host.containers, e.id)
      ensures r.Ok? ==> !host.containers[e.id].running
      ensures host.SmoothOver(old(host.tick), host.tick) ==> r.Ok?
    {
      AccountStarted(g, host.history, host.containers, host.disk, j, p, k);
      hide Account, Mine, Addressed;
      r := host.StopContainer(e.id);
    }

    method UndoStart(ghost g: Ledger, p: string, ghost j: Journal, e: Entry, ghost k: nat) returns (r: Result<()>)
      requires Undoing(g, j, p) && k < |j.entries| && e == j.entries[k] && e.Start?
      modifies host
      ensures Undoing(g, j, p) && Steady()
      ensures e.id !in Listed(old(host.containers), p) ==> host.Idle()
      ensures g.intact ==> EntryUndone(g.base, old(host.containers), host.containers, j, p, e, r.Ok?)
      ensures g.intact ==> Erased(g.base, host.containers, j, p, e)
      ensures host.SmoothOver(old(host.tick), host.tick) ==> r.Ok?
    {
      ghost var d0 := host.containers;
      FoundMine(d0, j, p, k);
      if g.intact {
        AccountKept(g, host.history, d0, host.disk, j, p);
        StartShape(g.base, d0, host.disk, j, p, k);
        StartConcluded(g.base, d0, d0, j, p, e);
      }
      hide Kept, Undoing, Frame, Undone, Erased, Mine, Addressed, Account;
      var listing := host.ListProjectContainers(p);
      if listing.Err? {
        return Err(listing.error);
      }
      var l := listing.value;
      if e.id !in l || !l[e.id].running {
        return Ok(());
      }
      OnlyRefl(d0, e.id);
      r := SwitchBack(g, p, j, e, k);
      if g.intact {
        StartConcluded(g.base, d0, host.containers, j, p, e);
      }
    }

    method UndoEntry(ghost g: Ledger, p: string, j: Journal, e: Entry, ghost k: nat) returns (r: Result<()>)
      requires Undoing(g, j, p) && k < |j.entries| && e == j.entries[k]
      modifies host
      ensures Undoing(g, j, p) && Steady()
      ensures e.Replace? && e.oldId !in Listed(old(host.containers), p) ==> r.Err? && host.Idle()
      ensures g.intact ==> EntryUndone(g.base, old(host.containers), host.containers, j, p, e, r.Ok?)
      ensures (host.SmoothOver(old(host.tick), host.tick) && g.intact &&
               (e.Replace? ==> e.oldId in Listed(old(host.containers), p))) ==>
                r.Ok? && Erased(g.base, host.containers, j, p, e)
    {
      hide Undoing, EntryUndone, Erased, Addressed;
      match e {
        case Replace(_, _, _, _) => r := UndoReplace(g, p, j, e, k);
        case Create(_, _) => r := UndoCreate(g, p, j, e, k);
        case Start(_, _) => r := UndoStart(g, p, j, e, k);
      }
    }

    /** Roll back every entry, newest first. All are attempted, entry k by the
        calls from tick at[k + 1] to tick at[k]: where these succeed the entry
        is undone for good, whatever becomes of the others. A failure is
        reported, and a retry can finish the remainder. */
    method Undo(ghost g: Ledger, p: string, j: Journal) returns (ok: bool, ghost at: seq<nat>)
      requires Undoing(g, j, p)
      modifies host
      ensures Undoing(g, j, p) && Steady()
      ensures ok ==> OldSeen(g.mark[|g.mark| - 1].containers, j, p)
      ensures g.intact && ok ==> UndoneFrom(g.base, host.containers, j, p, 0)
      ensures |at| == |j.entries| + 1 && at[|j.entries|] == old(host.tick) && at[0] == host.tick
      ensures forall k | 0 <= k < |j.entries| :: at[k + 1] <= at[k]
      ensures g.intact ==> Attempted(host, at, g.base, g.mark[|g.mark| - 1].containers, host.containers, j, p, 0)
      ensures (host.SmoothOver(old(host.tick), host.tick) && g.intact && OldSeen(g.mark[|g.mark| - 1].containers, j, p)) ==>
                ok && ErasedFrom(g.base, host.containers, j, p, 0)
    {
      ghost var was := g.mark[|g.mark| - 1].containers;
      hide Kept, EntryUndone, Undone, Erased, UndoneFrom, ErasedFrom, SeenFrom, Account, Addressed, EntrySeen, Attempted;
      ok := true;
      ghost var t0 := host.tick;
      at := seq(|j.entries| + 1, _ => t0);
      NothingUndone(g.base, host.containers, j, p);
      NothingSeen(was, j, p);
      NothingAttempted(host, at, g.base, was, host.containers, j, p);
      for i := |j.entries| downto 0
        invariant Undoing(g, j, p) && Steady()
        invariant ok ==> SeenFrom(was, j, p, i)
        invariant g.intact && ok ==> UndoneFrom(g.base, host.containers, j, p, i)
        invariant host.SmoothOver(old(host.tick), host.tick) && g.intact && SeenFrom(was, j, p, i) ==>
                    ok && ErasedFrom(g.base, host.containers, j, p, i)
        invariant |at| == |j.entries| + 1 && at[|j.entries|] == old(host.tick) && at[i] == host.tick
        invariant forall k | i <= k < |j.entries| :: at[k + 1] <= at[k]
        invariant g.intact ==> Attempted(host, at, g.base, was, host.containers, j, p, i)
      {
        ghost var h, d, disk := host.history, host.containers, host.disk;
        ghost var t := host.tick;
        var r := UndoEntry(g, p, j, j.entries[i], i);
        UndoneNext(g, h, d, host.history, host.containers, disk, j, p, i, r.Ok?);
        if g.intact {
          AttemptedNext(g, host, at, t, d, h, host.history, host.containers, disk, j, p, i, r.Ok?);
        }
        at := at[i := host.tick];
        ok := ok && r.Ok?;
      }
    }

    // ----- sweep ---------------------------------------------------------

    ghost predicate Sweeping(h0: seq<State>, d0: Fleet, p: string)
      reads host
    {
      && host.Valid() && host.disk.None? && Swept(d0, host.containers, p)
      && SweptLogged(h0, host.history, d0, p)
    }

    lemma SweptClean(h0: seq<State>, d0: Fleet, p: string)
      requires Sweeping(h0, d0, p)
      ensures (forall i | i in d0 && Debris(d0[i], p) :: i !in host.containers) ==> NoDebris(host.containers, p)
    {
    }

    /** One container of the listing: debris is stopped if running, removed. */
    method ClearOne(ghost h0: seq<State>, ghost d0: Fleet, p: string, id: Id, c: Container) returns (r: Result<()>)
      requires Sweeping(h0, d0, p) && id in host.containers && id in d0 && d0[id] == c && c.labels.project == p
      modifies host
      ensures Sweeping(h0, d0, p) && old(host.tick) <= host.tick
      ensures Spared(old(host.containers), host.containers, id)
      ensures AddressesSwept(d0, old(host.addresses), host.addresses, p)
      ensures !Debris(c, p) ==> host.Idle()
      ensures r.Ok? ==> Debris(c, p) ==> id !in host.containers
      ensures old(Addressed(host.containers, host.addresses)) ==> Addressed(host.containers, host.addresses)
      ensures host.SmoothFrom(old(host.tick)) ==> r.Ok?
    {
      hide Swept, Transient, Only, Without, Spared, SweptLogged, Addressed;
      r := Ok(());
      ghost var d := host.containers;
      if c.labels.managed && Transient(c.name) {
        if c.running {
          SweptStop(d0, d, p, id);
          SweptLog(h0, host.history, d0, d[id := d[id].(running := false)], p);
          r := host.StopContainer(id);
        }
      }
      ghost var d1 := host.containers;
      if c.labels.managed && Transient(c.name) && r.Ok? {
        SweptDrop(d0, d1, p, id);
        SweptLog(h0, host.history, d0, d1 - {id}, p);
        r := host.RemoveContainer(id);
        if r == Err(NotFound) {
          r := Ok(());
        }
      }
      SparedSteps(d, d1, host.containers, id);
    }

    /** Remove managed containers under transient names; only ever called
        with no journal present. */
    method ClearDebris(p: string) returns (r: Result<()>)
      requires host.Valid() && host.disk.None?
      modifies host
      ensures Sweeping(old(host.history), old(host.containers), p) && old(host.tick) <= host.tick
      ensures r.Ok? ==> NoDebris(host.containers, p)
      ensures NoDebris(old(host.containers), p) ==> host.Idle()
      ensures AddressesSwept(old(host.containers), old(host.addresses), host.addresses, p)
      ensures old(Addressed(host.containers, host.addresses)) ==> Addressed(host.containers, host.addresses)
      ensures host.SmoothFrom(old(host.tick)) ==> r.Ok?
    {
      ghost var h0, d0 := host.history, host.containers;
      SweptRefl(d0, p);
      var listing := host.ListProjectContainers(p);
      if listing.Err? {
        return Err(listing.error);
      }
      assert forall i | i in d0 && Debris(d0[i], p) :: i in listing.value;
      hide *;
      r := ClearListed(h0, d0, p, listing.value);
    }

    method ClearListed(ghost h0: seq<State>, ghost d0: Fleet, p: string, l: Fleet) returns (r: Result<()>)
      requires Sweeping(h0, d0, p) && host.containers == d0 && l == Listed(d0, p)
      requires forall i | i in d0 && Debris(d0[i], p) :: i in l
      modifies host
      ensures Sweeping(h0, d0, p) && old(host.tick) <= host.tick
      ensures r.Ok? ==> NoDebris(host.containers, p)
      ensures NoDebris(d0, p) ==> host.Idle()
      ensures AddressesSwept(d0, old(host.addresses), host.addresses, p)
      ensures old(Addressed(host.containers, host.addresses)) ==> Addressed(host.containers, host.addresses)
      ensures host.SmoothFrom(old(host.tick)) ==> r.Ok?
    {
      hide Debris, Sweeping, Unique, Addressed;
      var todo := l.Keys;
      r := Ok(());
      while todo != {} && r.Ok?
        invariant todo <= l.Keys
        invariant Sweeping(h0, d0, p) && old(host.tick) <= host.tick
        invariant forall i | i in todo :: i in host.containers && host.containers[i] == d0[i]
        invariant r.Ok? ==> forall i | i in d0 && Debris(d0[i], p) :: i in todo || i !in host.containers
        invariant NoDebris(d0, p) ==> host.Idle()
        invariant AddressesSwept(d0, old(host.addresses), host.addresses, p)
        invariant old(Addressed(host.containers, host.addresses)) ==> Addressed(host.containers, host.addresses)
        invariant host.SmoothFrom(old(host.tick)) ==> r.Ok?
        decreases todo
      {
        var id :| id in todo;
        todo := todo - {id};
        r := ClearOne(h0, d0, p, id, l[id]);
      }
      SweptClean(h0, d0, p);
    }

    /** Roll a found journal back and delete it. If intact, the journal is one
        that rolls the fleet back to b; whatever it is, only what is its own is
        touched, and it is kept unless every container it replaced is there. */
    method Recover(ghost b: Fleet, ghost intact: bool, p: string, j: Journal) returns (r: Result<()>)
      requires host.Valid() && host.disk == Some(j)
      requires intact ==> Recoverable(b, host.containers, j, p)
      modifies host
      ensures host.Valid() && Recovered(old(State(host.containers, host.disk)), old(host.history), host.history,
                                        State(host.containers, host.disk), j, p)
      ensures old(host.tick) <= host.tick
      ensures r.Ok? ==> host.disk.None? && OldSeen(old(host.containers), j, p)
      ensures !OldSeen(old(host.containers), j, p) ==> host.disk == Some(j)
      ensures intact ==> RolledBack(b, old(host.history), host.history, State(host.containers, host.disk), j, p)
      ensures host.SmoothFrom(old(host.tick)) && intact && OldSeen(old(host.containers), j, p) ==>
                r.Ok? && host.containers.Keys == b.Keys
      ensures host.SmoothFrom(old(host.tick)) && old(Addressed(host.containers, host.addresses)) ==>
                Addressed(host.containers, host.addresses)
    {
      ghost var g := Ledger(intact, b, Origin(host.history, ScopeOf(j)), host.history,
                                host.SmoothFrom(host.tick) && Addressed(host.containers, host.addresses));
      Opened(g, host.containers, j, p);
      hide Recoverable, Restored, OldSeen, ErasedFrom, UndoneFrom, Account, Addressed, ScopeOf, Recovered, RolledBack;
      var undone, _ := Undo(g, p, j);
      Closed(g, host.history, host.containers, j, p);
      if undone {
        Deletable(g, host.history, host.containers, j, p);
        r := host.DeleteJournal();
      } else {
        r := Err(Fault);
      }
    }

    /** What runs before every reconciliation: a journal left by an earlier
        run is rolled back, then debris is cleared. */
    method Sweep(ghost b: Fleet, ghost intact: bool, p: string) returns (r: Result<()>)
      requires host.Valid()
      requires intact && host.disk.Some? ==> Recoverable(b, host.containers, host.disk.value, p) && NoDebris(b, p)
      modifies host
      ensures host.Valid() && old(host.tick) <= host.tick && old(host.history) <= host.history
      ensures SweepReport(b, intact, old(State(host.containers, host.disk)), old(host.history), host.history,
                          State(host.containers, host.disk), r.Ok?, p)
      ensures old(host.disk).None? && NoDebris(old(host.containers), p) ==> host.Idle()
      ensures old(host.disk).None? ==> AddressesSwept(old(host.containers), old(host.addresses), host.addresses, p)
      ensures (host.SmoothFrom(old(host.tick)) &&
               (old(host.disk).Some? ==> intact && OldSeen(old(host.containers), old(host.disk).value, p))) ==> r.Ok?
      ensures host.SmoothFrom(old(host.tick)) && old(Addressed(host.containers, host.addresses)) ==>
                Addressed(host.containers, host.addresses)
    {
      ghost var h0, was := host.history, State(host.containers, host.disk);
      Untouched(b, intact, h0, was, p);
      hide Recoverable, Swept, NoDebris, OldSeen, Recovered, RolledBack, Addressed, SweepReport, AddressesSwept;
      var journal := host.LoadJournal();
      if journal.Err? {
        return Err(journal.error);
      }
      r := Ok(());
      if journal.value.Some? {
        r := Recover(b, intact, p, journal.value.value);
      }
      ghost var h1, s1 := host.history, State(host.containers, host.disk);
      if r.Ok? {
        r := ClearDebris(p);
      }
      if was.disk.Some? {
        FinishedRecovery(b, intact, was, h0, h1, s1, host.history, State(host.containers, host.disk), r.Ok?,
                         was.disk.value, p);
      } else {
        FinishedSwept(b, intact, was, h0, host.history, State(host.containers, host.disk), r.Ok?, p);
      }
    }
  }
}
