/** The intent gate as an object: the sections its callers and its worker run
    under the mutex, each held to one step of the transition system. */
module IntentGate {

  import opened Containers
  import opened Gate

  class IntentGate {
    var queue: seq<nat>
    var active: bool
    var broken: bool
    var wake: bool
    var acquisitions: nat
    var worker: Worker
    var kernel: bool
    var reqs: seq<Req>
    ghost var grants: seq<nat>

    ghost function State(): Gate
      reads this
    {
      Gate(queue, active, broken, wake, acquisitions, worker, kernel, reqs, grants)
    }

    constructor ()
      ensures State() == Opened() && Inv(State())
    {
      queue, active, broken, wake, acquisitions := [], false, false, false, 0;
      worker, kernel, reqs, grants := Idle, false, [], [];
      new;
      OpenedInv();
    }

    /** The first section of acquire: fail fast on a broken gate, or queue up and
        wake an idle worker. */
    method Enqueue() returns (r: Option<nat>)
      requires Inv(State())
      modifies this
      ensures State() == Apply(old(State()), Enter) && Inv(State())
      ensures r == if old(broken) then None else Some(|old(reqs)|)
      ensures old(broken) ==> State() == old(State())
      ensures !old(broken) ==>
                && queue == old(queue) + [|old(reqs)|] && reqs == old(reqs) + [Req(None, [], false, false, Waiting)]
                && active && (wake <==> old(wake) || !old(active))
    {
      EnterStep(State());
      if broken {
        return None;
      }
      r := Some(|reqs|);
      queue := queue + [|reqs|];
      reqs := reqs + [FRESH];
      if !active {
        active := true;
        wake := true;
      }
    }

    /** A caller takes its outcome. */
    method Receive(r: nat) returns (granted: bool)
      requires Inv(State()) && Enabled(State(), Label.Receive(r))
      modifies `reqs
      ensures State() == Apply(old(State()), Label.Receive(r)) && Inv(State())
      ensures granted == (old(reqs[r].granted) == Some(Grant))
      ensures reqs == old(reqs)[r := old(reqs[r]).(granted := None, phase := if granted then Holding else Returned)]
    {
      CallerStep(State(), Label.Receive(r));
      granted := reqs[r].granted.value == Grant;
      reqs := reqs[r := reqs[r].(granted := None, phase := if granted then Holding else Returned)];
    }

    /** The section of acquire that a done context runs: a grant that raced the
        cancellation is taken, to be released; otherwise the request is marked. */
    method Cancel(r: nat)
      requires Inv(State()) && Enabled(State(), Label.Cancel(r))
      modifies `reqs
      ensures State() == Apply(old(State()), Label.Cancel(r)) && Inv(State())
      ensures reqs == old(reqs)[r := match old(reqs[r].granted)
                                     case None => old(reqs[r]).(canceled := true, phase := Returned)
                                     case Some(Grant) => old(reqs[r]).(granted := None, phase := Releasing)
                                     case Some(_) => old(reqs[r]).(granted := None, phase := Returned)]
    {
      CallerStep(State(), Label.Cancel(r));
      match reqs[r].granted {
        case Some(o) =>
          reqs := reqs[r := reqs[r].(granted := None, phase := if o == Grant then Releasing else Returned)];
        case None =>
          reqs := reqs[r := reqs[r].(canceled := true, phase := Returned)];
      }
    }

    /** release: closing done twice would panic, and never happens. */
    method Release(r: nat)
      requires Inv(State()) && Enabled(State(), Label.Release(r))
      modifies `reqs
      ensures !old(reqs[r].done)
      ensures State() == Apply(old(State()), Label.Release(r)) && Inv(State())
      ensures reqs == old(reqs)[r := old(reqs[r]).(done := true, phase := Returned)]
    {
      assert Sound(reqs[r]);
      CallerStep(State(), Label.Release(r));
      reqs := reqs[r := reqs[r].(done := true, phase := Returned)];
    }

    /** A send on the buffered channel, which must find it empty. */
    method Send(r: nat, o: Outcome)
      requires r < |reqs| && reqs[r].granted.None?
      modifies `reqs
      ensures reqs == old(reqs)[r := Sent(old(reqs)[r], o)]
    {
      reqs := reqs[r := reqs[r].(granted := Some(o), sent := reqs[r].sent + [o])];
    }

    method DropCanceled() returns (dropped: nat)
      requires Indexes(queue, reqs)
      modifies `queue
      ensures Skipped(old(queue), reqs, dropped, queue)
      ensures Pruned(old(queue), reqs, queue)
    {
      StalePrunes(queue, reqs);
      dropped := 0;
      ghost var was := queue;
      while |queue| > 0 && reqs[queue[0]].canceled
        invariant Indexes(queue, reqs) && dropped <= |was| && queue == was[dropped..]
        invariant Stale(was, reqs) == dropped + Stale(queue, reqs)
        decreases |queue|
      {
        queue := queue[1..];
        dropped := dropped + 1;
      }
    }

    /** Whether live requests remain; the worker is marked idle when none do. */
    method PendingWork() returns (live: bool)
      requires Inv(State()) && worker == Checking
      modifies this
      ensures State() == Apply(old(State()), Pending) && Inv(State())
      ensures live == (queue != []) && reqs == old(reqs) && Indexes(old(queue), reqs)
      ensures Pruned(old(queue), reqs, queue)
      ensures live ==> worker == Counting
      ensures !live ==> worker == Idle && !active
    {
      hide Inv, Stale, Pruned, Indexes;
      ghost var g := State();
      QueuedWait(g);
      PendingStep(g);
      AwakeWhileQueued(g);
      ghost var h := Apply(g, Pending);
      var dropped := DropCanceled();
      live := |queue| > 0;
      if live {
        worker := Counting;
      } else {
        active := false;
        worker := Idle;
      }
      assert State() == h;
    }

    /** The acquisition's outcome goes to the head of the queue, or, where that
        was canceled meanwhile, to no one. */
    method HandOff() returns (head: Option<nat>, release: bool)
      requires Inv(State()) && worker.Granting?
      modifies this
      ensures State() == Apply(old(State()), GrantHead) && Inv(State())
      ensures head == (if worker.Serving? then Some(worker.head) else None)
      ensures release == (old(worker.ok) && head.None?)
    {
      hide Inv, Stale, Sent, Apply, Enabled, Indexes, Pruned, Granted, Skipped;
      ghost var g := State();
      WhenGranting(g);
      var ok := worker.ok;
      var dropped := DropCanceled();
      if |queue| == 0 || dropped > 0 {
        release := StandDown(g, dropped, ok);
        head := None;
      } else {
        head := HandToHead(g, ok);
        release := false;
      }
    }

    /** The acquisition was for no one: the worker gives it up, and looks again. */
    method StandDown(ghost g: Gate, ghost n: nat, ok: bool) returns (release: bool)
      requires Inv(g) && g.worker == Granting(ok) && State() == g.(queue := queue)
      requires Skipped(g.queue, g.reqs, n, queue) && (queue == [] || n > 0)
      modifies `active, `worker
      ensures Enabled(g, GrantHead) && Indexes(g.queue, g.reqs) && State() == Apply(g, GrantHead)
      ensures release == ok && !worker.Serving?
    {
      hide Inv, Stale, Sent, Apply, Enabled, Indexes, Pruned, Granted, Skipped;
      WhenGranting(g);
      HandedToNone(g, n, queue);
      if |queue| == 0 {
        active := false;
      }
      release := ok;
      worker := if ok then Unlocking else Checking;
    }

    method HandToHead(ghost g: Gate, ok: bool) returns (head: Option<nat>)
      requires Inv(g) && g.worker == Granting(ok) && State() == g.(queue := queue)
      requires Skipped(g.queue, g.reqs, 0, queue) && queue != []
      modifies this
      ensures Enabled(g, GrantHead) && Indexes(g.queue, g.reqs) && State() == Apply(g, GrantHead)
      ensures head == if worker.Serving? then Some(worker.head) else None
      ensures head.Some? <==> ok
    {
      hide Inv, Stale, Sent, Apply, Enabled, Indexes, Pruned, Granted, Skipped;
      WhenGranting(g);
      HandedToHead(g, 0, queue);
      head := Answer(ok);
    }

    /** The head of the queue is told how the acquisition went. */
    method Answer(ok: bool) returns (head: Option<nat>)
      requires queue != [] && queue[0] < |reqs| && reqs[queue[0]].granted.None?
      modifies this
      ensures var g, r := old(State()), old(queue[0]);
        && head == (if ok then Some(r) else None)
        && State() == g.(queue := g.queue[1..], reqs := g.reqs[r := Sent(g.reqs[r], if ok then Grant else FlockFailed)],
                         worker := if ok then Serving(r) else Checking, grants := if ok then g.grants + [r] else g.grants)
    {
      var r := queue[0];
      queue := queue[1..];
      head := None;
      if !ok {
        Send(r, FlockFailed);
        worker := Checking;
      } else {
        Send(r, Grant);
        grants := grants + [r];
        head := Some(r);
        worker := Serving(r);
      }
    }

    /** After a failed unlock every live queued request is sent the failure. */
    method PoisonAll()
      requires Inv(State()) && worker == Poisoning
      modifies this
      ensures State() == Apply(old(State()), Poison) && Inv(State())
      ensures broken && queue == [] && |reqs| == |old(reqs)|
      ensures forall r | 0 <= r < |reqs| ::
                reqs[r].granted == if r in old(queue) && !old(reqs)[r].canceled then Some(Poisoned) else old(reqs)[r].granted
    {
      hide Inv, AllPoisoned, Sent;
      PoisonStep(State());
      QueuedWait(State());
      broken := true;
      ghost var was := reqs;
      PoisonNone(was);
      for k := 0 to |queue|
        invariant worker == Poisoning && queue == old(queue) && Indexes(queue, was)
        invariant reqs == AllPoisoned(was, queue[..k])
        invariant unchanged(`active, `wake, `acquisitions, `kernel, `grants) && broken
      {
        PoisonOne(was, queue, k);
        if !reqs[queue[k]].canceled {
          Send(queue[k], Poisoned);
        }
      }
      assert queue[..|queue|] == queue;
      PoisonedAll(was, queue);
      queue := [];
      active := false;
      kernel := false;
      worker := Stopped;
    }
  }

  lemma PoisonedAll(reqs: seq<Req>, queue: seq<nat>)
    ensures |AllPoisoned(reqs, queue)| == |reqs|
    ensures forall r | 0 <= r < |reqs| ::
              AllPoisoned(reqs, queue)[r].granted ==
              if r in queue && !reqs[r].canceled then Some(Poisoned) else reqs[r].granted
  {
  }

  lemma PoisonNone(reqs: seq<Req>)
    ensures AllPoisoned(reqs, []) == reqs
  {
  }

  lemma PoisonOne(reqs: seq<Req>, queue: seq<nat>, k: nat)
    requires Indexes(queue, reqs) && k < |queue|
    requires forall i, j :: 0 <= i < j < |queue| ==> queue[i] != queue[j]
    ensures var r, part := queue[k], AllPoisoned(reqs, queue[..k]);
      && |part| == |reqs| && part[r] == reqs[r]
      && AllPoisoned(reqs, queue[..k + 1]) == if reqs[r].canceled then part else part[r := Sent(reqs[r], Poisoned)]
  {
    hide Sent;
    assert queue[..k + 1] == queue[..k] + [queue[k]];
    assert queue[k] !in queue[..k];
  }

  lemma QueuedWait(g: Gate)
    requires Inv(g)
    ensures Indexes(g.queue, g.reqs)
    ensures forall k :: 0 <= k < |g.queue| && !g.reqs[g.queue[k]].canceled ==> g.reqs[g.queue[k]].granted.None?
    ensures forall j, k :: 0 <= j < k < |g.queue| ==> g.queue[j] != g.queue[k]
  {
    hide Serviced, Served;
    assert forall k :: 0 <= k < |g.queue| ==> Sound(g.reqs[g.queue[k]]);
  }

  /** Of the queue, the first n are canceled and rest is what follows. */
  predicate Skipped(queue: seq<nat>, reqs: seq<Req>, n: nat, rest: seq<nat>) {
    Indexes(queue, reqs) && n == Stale(queue, reqs) && rest == queue[n..]
  }

  lemma WhenGranting(g: Gate)
    requires Inv(g) && g.worker.Granting?
    ensures Enabled(g, GrantHead) && Indexes(g.queue, g.reqs) && Inv(Apply(g, GrantHead))
  {
    GrantStep(g);
  }

  /** What the hand-off comes to where it was for no one... */
  lemma HandedToNone(g: Gate, n: nat, rest: seq<nat>)
    requires Inv(g) && g.worker.Granting? && Skipped(g.queue, g.reqs, n, rest)
    requires Enabled(g, GrantHead) && Indexes(g.queue, g.reqs) && (rest == [] || n > 0)
    ensures Apply(g, GrantHead) ==
            g.(queue := rest, active := g.active && rest != [], worker := if g.worker.ok then Unlocking else Checking)
  {
  }

  /** ...and where the head of the queue still waits for it. */
  lemma HandedToHead(g: Gate, n: nat, rest: seq<nat>)
    requires Inv(g) && g.worker.Granting? && Skipped(g.queue, g.reqs, n, rest)
    requires Enabled(g, GrantHead) && Indexes(g.queue, g.reqs) && rest != [] && n == 0
    ensures rest[0] < |g.reqs| && g.reqs[rest[0]].granted.None?
    ensures Apply(g, GrantHead) ==
            g.(queue := rest[1..],
               reqs := g.reqs[rest[0] := Sent(g.reqs[rest[0]], if g.worker.ok then Grant else FlockFailed)],
               worker := if g.worker.ok then Serving(rest[0]) else Checking,
               grants := if g.worker.ok then g.grants + [rest[0]] else g.grants)
  {
    HeadWaits(g);
  }

  lemma HeadWaits(g: Gate)
    requires Inv(g)
    ensures Indexes(g.queue, g.reqs)
    ensures g.queue != [] && !g.reqs[g.queue[0]].canceled ==> g.reqs[g.queue[0]].granted.None?
    ensures Stale(g.queue, g.reqs) == 0 && g.queue != [] ==> !g.reqs[g.queue[0]].canceled
  {
    QueuedWait(g);
  }
}
