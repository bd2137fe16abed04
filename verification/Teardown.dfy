/** Tearing a project down. */
module Teardown {
  import opened Containers
  import opened Environment
  import opened Rollback
  import opened Runtime

  /** From state was on, only the project's own containers were touched. */
  ghost predicate Tearing(host: Host, h0: seq<State>, was: State, p: string)
    reads host
  {
    && host.Valid() && host.disk == was.disk && OursOnly(was.containers, host.containers, p)
    && h0 <= host.history && TendedThrough(host.history, |h0|, was, p)
  }

  lemma TendedStep(h0: seq<State>, h: seq<State>, was: State, s: State, p: string)
    requires h0 <= h && TendedThrough(h, |h0|, was, p) && Tended(was, s, p)
    ensures TendedThrough(h + [s], |h0|, was, p)
  {
    hide Tended;
  }

  /** A container of the project may be switched off or removed. */
  lemma TearAt(h0: seq<State>, h: seq<State>, was: State, d: Fleet, p: string, x: Id)
    requires h0 <= h && TendedThrough(h, |h0|, was, p) && OursOnly(was.containers, d, p)
    requires x in d && x in was.containers && Ours(was.containers[x], p)
    ensures var d' := d[x := d[x].(running := false)];
            OursOnly(was.containers, d', p) && TendedThrough(h + [State(d', was.disk)], |h0|, was, p)
    ensures OursOnly(was.containers, d - {x}, p) && TendedThrough(h + [State(d - {x}, was.disk)], |h0|, was, p)
  {
    var d' := d[x := d[x].(running := false)];
    assert OursOnly(was.containers, d', p) && OursOnly(was.containers, d - {x}, p);
    hide OursOnly;
    TendedStep(h0, h, was, State(d', was.disk), p);
    TendedStep(h0, h, was, State(d - {x}, was.disk), p);
  }

  /** Stop and remove one container of the project. */
  method Discard(host: Host, ghost h0: seq<State>, ghost was: State, ghost p: string, id: Id, running: bool)
    returns (r: Result<()>)
    requires Tearing(host, h0, was, p)
    requires id in host.containers && id in was.containers && Ours(was.containers[id], p)
    modifies host
    ensures Tearing(host, h0, was, p) && old(host.tick) <= host.tick
    ensures Spared(old(host.containers), host.containers, id)
    ensures r.Ok? ==> id !in host.containers
    ensures host.SmoothFrom(old(host.tick)) ==> r.Ok?
  {
    hide OursOnly, TendedThrough, Only, Without, Spared, Unique, Ours;
    ghost var d := host.containers;
    TearAt(h0, host.history, was, d, p, id);
    r := Ok(());
    if running {
      r := host.StopContainer(id);
      OnlyStill(d, host.containers, id);
      TearAt(h0, host.history, was, host.containers, p, id);
    }
    ghost var d1 := host.containers;
    if r.Ok? {
      r := host.RemoveContainer(id);
      if r == Err(NotFound) {
        r := Ok(());
      }
    }
    SparedSteps(d, d1, host.containers, id);
  }

  lemma OnlyStill(d0: Fleet, d: Fleet, x: Id)
    requires Only(d0, d, x)
    ensures x in d
  {
  }

  /** Stop and remove every managed container of the project, then drop the
      journal: nothing is left to recover. Nothing else is ever touched. */
  method Down(svc: Service, p: string) returns (r: Result<()>)
    requires svc.host.Valid()
    modifies svc.host
    ensures svc.host.Valid() && old(svc.host.history) <= svc.host.history
    ensures TendedThrough(svc.host.history, |old(svc.host.history)|, old(State(svc.host.containers, svc.host.disk)), p)
    ensures Tended(old(State(svc.host.containers, svc.host.disk)), State(svc.host.containers, svc.host.disk), p)
    ensures r.Ok? ==> svc.host.disk.None? &&
                      forall i | i in old(svc.host.containers) && Ours(old(svc.host.containers[i]), p) ::
                        i !in svc.host.containers
    ensures svc.host.SmoothFrom(old(svc.host.tick)) ==> r.Ok?
  {
    var host := svc.host;
    ghost var h0, was := host.history, State(host.containers, host.disk);
    OursRefl(was.containers, p);
    assert TendedThrough(h0, |h0|, was, p);
    hide OursOnly, TendedThrough, Unique, Ours;
    r := RemoveOurs(host, h0, was, p);
    if r.Ok? {
      TendedStep(h0, host.history, was, State(host.containers, None), p);
      r := host.DeleteJournal();
      if r.Ok? {
        r := host.Call();
      }
    }
  }

  method RemoveOurs(host: Host, ghost h0: seq<State>, ghost was: State, p: string) returns (r: Result<()>)
    requires Tearing(host, h0, was, p) && host.containers == was.containers
    modifies host
    ensures Tearing(host, h0, was, p) && old(host.tick) <= host.tick
    ensures r.Ok? ==> forall i | i in was.containers && Ours(was.containers[i], p) :: i !in host.containers
    ensures host.SmoothFrom(old(host.tick)) ==> r.Ok?
  {
    hide OursOnly, TendedThrough, Unique;
    var listing := host.ListProjectContainers(p);
    if listing.Err? {
      return Err(listing.error);
    }
    var l := listing.value;
    assert forall i | i in was.containers && Ours(was.containers[i], p) :: i in l;
    var todo := l.Keys;
    r := Ok(());
    while todo != {} && r.Ok?
      invariant todo <= l.Keys
      invariant Tearing(host, h0, was, p) && old(host.tick) <= host.tick
      invariant forall i | i in todo :: i in host.containers && host.containers[i] == was.containers[i]
      invariant r.Ok? ==> forall i | i in was.containers && Ours(was.containers[i], p) :: i in todo || i !in host.containers
      invariant host.SmoothFrom(old(host.tick)) ==> r.Ok?
      decreases todo
    {
      var id :| id in todo;
      todo := todo - {id};
      if l[id].labels.managed {
        r := Discard(host, h0, was, p, id, l[id].running);
      }
    }
  }
}
