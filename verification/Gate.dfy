/** The intent gate of one lock name in one process, as a transition system:
    internal/lock/flock_unix.go.

    A step is one section under the gate's mutex, one channel operation or one
    system call, so that every interleaving of the callers with the worker is a
    sequence of steps. Requests are numbered in the order they enter the queue. */
module Gate {

  import opened Containers

  datatype Outcome = Grant | FlockFailed | Poisoned

  /** Where a caller is: waiting for its outcome; granted and polling for the
      main lock; granted and about to release; back at its caller. */
  datatype Phase = Waiting | Holding | Releasing | Returned

  /** granted is the buffered channel, sent all that was ever sent on it. */
  datatype Req = Req(granted: Option<Outcome>, sent: seq<Outcome>, done: bool, canceled: bool, phase: Phase)

  /** The worker's next step. */
  datatype Worker = Idle | Checking | Counting | Locking | Granting(ok: bool) | Serving(head: nat)
                  | Unlocking | Poisoning | Stopped

  /** grants lists the requests that were granted, in order; kernel says that
      this gate's descriptor holds the intent lock. */
  datatype Gate = Gate(queue: seq<nat>, active: bool, broken: bool, wake: bool, acquisitions: nat,
                       worker: Worker, kernel: bool, reqs: seq<Req>, grants: seq<nat>)

  datatype Label = Enter | Receive(r: nat) | Cancel(r: nat) | Polled(r: nat) | Release(r: nat)
                 | Wake | Pending | Count | Flock(ok: bool) | GrantHead | Done
                 | Unlock(ok: bool, dropped: bool) | Poison

  const FRESH: Req := Req(None, [], false, false, Waiting)

  predicate Enabled(g: Gate, l: Label) {
    match l
    case Enter => true
    case Receive(r) => r < |g.reqs| && g.reqs[r].phase == Waiting && g.reqs[r].granted.Some?
    case Cancel(r) => r < |g.reqs| && g.reqs[r].phase == Waiting
    case Polled(r) => r < |g.reqs| && g.reqs[r].phase == Holding
    case Release(r) => r < |g.reqs| && g.reqs[r].phase == Releasing
    case Wake => g.worker == Idle && g.wake
    case Pending => g.worker == Checking
    case Count => g.worker == Counting
    case Flock(_) => g.worker == Locking
    case GrantHead => g.worker.Granting?
    case Done => g.worker.Serving? && g.worker.head < |g.reqs| && g.reqs[g.worker.head].done
    case Unlock(_, _) => g.worker == Unlocking
    case Poison => g.worker == Poisoning
  }

  predicate Indexes(queue: seq<nat>, reqs: seq<Req>) { forall k :: 0 <= k < |queue| ==> queue[k] < |reqs| }

  /** How many canceled requests the queue starts with. */
  function Stale(queue: seq<nat>, reqs: seq<Req>): (n: nat)
    requires Indexes(queue, reqs)
    ensures n <= |queue|
  {
    if queue != [] && reqs[queue[0]].canceled then 1 + Stale(queue[1..], reqs) else 0
  }

  lemma {:induction false} StaleCanceled(queue: seq<nat>, reqs: seq<Req>)
    requires Indexes(queue, reqs)
    ensures forall k :: 0 <= k < Stale(queue, reqs) ==> reqs[queue[k]].canceled
    ensures Stale(queue, reqs) < |queue| ==> !reqs[queue[Stale(queue, reqs)]].canceled
  {
    if queue != [] && reqs[queue[0]].canceled {
      StaleCanceled(queue[1..], reqs);
      assert forall k :: 1 <= k < Stale(queue, reqs) ==> queue[k] == queue[1..][k - 1];
    }
  }

  function Sent(q: Req, o: Outcome): Req { q.(granted := Some(o), sent := q.sent + [o]) }

  /** What each caller does with the outcome it takes from its channel. */
  function Taken(q: Req, canceling: bool): Req
    requires q.granted.Some?
  {
    q.(granted := None, phase := if q.granted.value != Grant then Returned else if canceling then Releasing else Holding)
  }

  /** Every live request of the queue is sent the poison. */
  function AllPoisoned(reqs: seq<Req>, queue: seq<nat>): seq<Req> {
    seq(|reqs|, r requires 0 <= r < |reqs| =>
      if r in queue && !reqs[r].canceled then Sent(reqs[r], Poisoned) else reqs[r])
  }

  function Granted(g: Gate, ok: bool): Gate
    requires Indexes(g.queue, g.reqs)
  {
    var n := Stale(g.queue, g.reqs);
    var rest := g.queue[n..];
    if rest == [] || n > 0 then
      g.(queue := rest, active := g.active && rest != [], worker := if ok then Unlocking else Checking)
    else if ok then
      g.(queue := rest[1..], reqs := g.reqs[rest[0] := Sent(g.reqs[rest[0]], Grant)], worker := Serving(rest[0]),
         grants := g.grants + [rest[0]])
    else
      g.(queue := rest[1..], reqs := g.reqs[rest[0] := Sent(g.reqs[rest[0]], FlockFailed)], worker := Checking)
  }

  function Apply(g: Gate, l: Label): Gate
    requires Enabled(g, l) && Indexes(g.queue, g.reqs)
  {
    match l
    case Enter =>
      if g.broken then g
      else g.(queue := g.queue + [|g.reqs|], reqs := g.reqs + [FRESH], active := true, wake := g.wake || !g.active)
    case Receive(r) => g.(reqs := g.reqs[r := Taken(g.reqs[r], false)])
    case Cancel(r) =>
      if g.reqs[r].granted.Some? then g.(reqs := g.reqs[r := Taken(g.reqs[r], true)])
      else g.(reqs := g.reqs[r := g.reqs[r].(canceled := true, phase := Returned)])
    case Polled(r) => g.(reqs := g.reqs[r := g.reqs[r].(phase := Releasing)])
    case Release(r) => g.(reqs := g.reqs[r := g.reqs[r].(done := true, phase := Returned)])
    case Wake => g.(wake := false, worker := Checking)
    case Pending =>
      var rest := g.queue[Stale(g.queue, g.reqs)..];
      g.(queue := rest, active := g.active && rest != [], worker := if rest == [] then Idle else Counting)
    case Count => g.(acquisitions := g.acquisitions + 1, worker := Locking)
    case Flock(ok) => g.(kernel := ok, worker := Granting(ok))
    case GrantHead => Granted(g, g.worker.ok)
    case Done => g.(worker := Unlocking)
    case Unlock(ok, dropped) => g.(kernel := !ok && !dropped, worker := if ok then Checking else Poisoning)
    case Poison =>
      g.(broken := true, reqs := AllPoisoned(g.reqs, g.queue), queue := [], active := false, kernel := false,
         worker := Stopped)
  }

  function Opened(): Gate { Gate([], false, false, false, 0, Idle, false, [], []) }

  /** A grant that has not been handed back. */
  predicate Outstanding(g: Gate, r: nat) {
    r < |g.reqs| && g.reqs[r].sent == [Grant] && !g.reqs[r].done
  }

  /** Entered, not canceled, and still without an outcome. */
  predicate Live(g: Gate, r: nat) {
    r < |g.reqs| && g.reqs[r].sent == [] && !g.reqs[r].canceled
  }

  /** One caller's side. It is sent one outcome at most; a canceled one none; a
      grant is handed back exactly once, and only by a caller that took it. */
  predicate Sound(q: Req) {
    && |q.sent| <= 1
    && (q.granted.Some? ==> q.sent == [q.granted.value] && q.phase == Waiting)
    && (q.canceled ==> q.sent == [] && q.phase == Returned)
    && (q.phase == Waiting ==> (q.granted.Some? <==> q.sent != []))
    && (q.phase == Holding || q.phase == Releasing ==> q.sent == [Grant] && !q.done)
    && (q.done ==> q.sent == [Grant] && q.phase == Returned)
    && (q.phase == Returned && q.sent == [Grant] ==> q.done)
    && (q.phase == Returned && q.sent == [] ==> q.canceled)
  }

  /** The queue holds each request that waits for an outcome, in the order they
      came, and none that has one. */
  ghost predicate Queued(g: Gate) {
    && Indexes(g.queue, g.reqs)
    && (forall j, k :: 0 <= j < k < |g.queue| ==> g.queue[j] < g.queue[k])
    && (forall k :: 0 <= k < |g.queue| ==> g.reqs[g.queue[k]].sent == [])
    && (forall r :: 0 <= r < |g.reqs| && g.reqs[r].sent == [] && !g.reqs[r].canceled ==> r in g.queue)
  }

  /** The worker's side: a grant stands only while the worker serves it under
      the kernel lock, and the worker sleeps only when there is nothing to do. */
  ghost predicate Serviced(g: Gate) {
    && (forall r :: 0 <= r < |g.reqs| && Outstanding(g, r) ==> g.worker == Serving(r))
    && (g.worker.Serving? ==> g.worker.head < |g.reqs| && g.reqs[g.worker.head].sent == [Grant])
    && (g.worker.Serving? || g.worker == Unlocking || g.worker == Granting(true) ==> g.kernel)
    && (g.kernel ==> g.worker.Serving? || g.worker == Unlocking || g.worker == Granting(true) || g.worker == Poisoning)
    && (g.broken <==> g.worker == Stopped)
    && (g.queue != [] ==> g.active)
    && (g.active ==> g.wake || g.worker != Idle)
    && (g.active ==> !g.broken)
  }

  /** Whoever has an outcome, everyone before it has one or gave up. */
  ghost predicate Ordered(reqs: seq<Req>) {
    forall q, r :: 0 <= q < r < |reqs| && reqs[r].sent != [] ==> reqs[q].sent != [] || reqs[q].canceled
  }

  /** The grants are those that were sent, in order of arrival. */
  ghost predicate Listed(reqs: seq<Req>, grants: seq<nat>) {
    && (forall j, k :: 0 <= j < k < |grants| ==> grants[j] < grants[k])
    && (forall k :: 0 <= k < |grants| ==> grants[k] < |reqs| && reqs[grants[k]].sent == [Grant])
    && (forall r :: 0 <= r < |reqs| && reqs[r].sent == [Grant] ==> r in grants)
  }

  /** First come, first served, each under an acquisition of its own. */
  ghost predicate Served(g: Gate) {
    && Ordered(g.reqs) && Listed(g.reqs, g.grants)
    && |g.grants| <= g.acquisitions
    && (g.worker == Locking || g.worker.Granting? ==> |g.grants| < g.acquisitions)
  }

  ghost predicate Inv(g: Gate) {
    && (forall r :: 0 <= r < |g.reqs| ==> Sound(g.reqs[r]))
    && Queued(g) && Serviced(g) && Served(g)
  }

  lemma OpenedInv()
    ensures Inv(Opened())
  {
  }

  lemma AwakeWhileQueued(g: Gate)
    requires Inv(g)
    ensures g.queue != [] ==> g.active
  {
  }

  lemma EnterQueued(g: Gate, h: Gate)
    requires Queued(g) && h.queue == g.queue + [|g.reqs|] && h.reqs == g.reqs + [FRESH]
    ensures Queued(h)
  {
    assert h.queue[|g.queue|] == |g.reqs|;
    assert forall r :: r in g.queue ==> r in h.queue;
  }

  lemma EnterServiced(g: Gate, h: Gate)
    requires Serviced(g) && !g.broken && h.reqs == g.reqs + [FRESH] && h.active && !h.broken
    requires h == g.(queue := h.queue, reqs := h.reqs, active := true, wake := g.wake || !g.active)
    ensures Serviced(h)
  {
    forall r | 0 <= r < |h.reqs| && Outstanding(h, r) ensures r < |g.reqs| && Outstanding(g, r) {
    }
  }

  lemma EnterServed(g: Gate, h: Gate)
    requires Served(g) && h.reqs == g.reqs + [FRESH]
    requires h.grants == g.grants && h.worker == g.worker && h.acquisitions == g.acquisitions
    ensures Served(h)
  {
    assert Listed(h.reqs, h.grants);
  }

  lemma EnterStep(g: Gate)
    requires Inv(g)
    ensures Inv(Apply(g, Enter))
  {
    var h := Apply(g, Enter);
    if !g.broken {
      assert Sound(FRESH) && forall r | 0 <= r < |h.reqs| :: Sound(h.reqs[r]);
      hide Sound, Queued, Serviced, Served;
      EnterQueued(g, h);
      EnterServiced(g, h);
      EnterServed(g, h);
    }
  }

  /** A step of caller r that changes its own request and nothing else. */
  lemma OwnStep(g: Gate, r: nat, q: Req)
    requires Inv(g) && r < |g.reqs| && Sound(q) && q.sent == g.reqs[r].sent
    requires g.reqs[r].canceled ==> q.canceled
    requires q.done || (q.sent == [Grant] ==> !g.reqs[r].done)
    requires q.sent == [] && !q.canceled ==> !g.reqs[r].canceled
    ensures Inv(g.(reqs := g.reqs[r := q]))
  {
    var h := g.(reqs := g.reqs[r := q]);
    assert forall k :: 0 <= k < |g.reqs| ==> h.reqs[k].sent == g.reqs[k].sent;
    assert forall k :: 0 <= k < |g.reqs| ==> Outstanding(h, k) ==> Outstanding(g, k);
    assert forall k :: 0 <= k < |g.reqs| ==> Sound(h.reqs[k]);
    assert Queued(h) && Serviced(h) by { OwnServiced(g, h); }
    assert Served(h) by { OwnServed(g, h); }
    hide Sound, Queued, Serviced, Served, Outstanding;
  }

  lemma OwnServiced(g: Gate, h: Gate)
    requires Queued(g) && Serviced(g) && h == g.(reqs := h.reqs) && |h.reqs| == |g.reqs|
    requires forall k :: 0 <= k < |g.reqs| ==> h.reqs[k].sent == g.reqs[k].sent && (g.reqs[k].canceled ==> h.reqs[k].canceled)
    requires forall k :: 0 <= k < |g.reqs| ==> Outstanding(h, k) ==> Outstanding(g, k)
    ensures Queued(h) && Serviced(h)
  {
  }

  lemma OwnServed(g: Gate, h: Gate)
    requires Served(g) && h == g.(reqs := h.reqs) && |h.reqs| == |g.reqs|
    requires forall k :: 0 <= k < |g.reqs| ==> h.reqs[k].sent == g.reqs[k].sent && (g.reqs[k].canceled ==> h.reqs[k].canceled)
    ensures Served(h)
  {
  }

  lemma CallerStep(g: Gate, l: Label)
    requires Inv(g) && Enabled(g, l) && (l.Receive? || l.Cancel? || l.Polled? || l.Release?)
    ensures Inv(Apply(g, l))
  {
    assert Sound(g.reqs[l.r]);
    hide Queued, Serviced, Served;
    OwnStep(g, l.r, Apply(g, l).reqs[l.r]);
  }

  lemma WorkerStep(g: Gate, l: Label)
    requires Inv(g) && Enabled(g, l) && (l.Wake? || l.Count? || l.Flock? || l.Done? || l.Unlock?)
    ensures Inv(Apply(g, l))
  {
  }

  lemma DroppedQueue(g: Gate, n: nat)
    requires Queued(g) && n <= |g.queue|
    requires forall k :: 0 <= k < n ==> g.reqs[g.queue[k]].canceled
    ensures Queued(g.(queue := g.queue[n..]))
  {
    var rest := g.queue[n..];
    assert forall k :: 0 <= k < |rest| ==> rest[k] == g.queue[n + k];
    assert forall j, k :: 0 <= j < k < |rest| ==> rest[j] == g.queue[n + j] < g.queue[n + k] == rest[k];
    forall r | 0 <= r < |g.reqs| && g.reqs[r].sent == [] && !g.reqs[r].canceled
      ensures r in rest
    {
      var k :| 0 <= k < |g.queue| && g.queue[k] == r;
      assert rest[k - n] == r;
    }
  }

  lemma FreshQueue(g: Gate)
    requires Inv(g)
    ensures Indexes(g.queue, g.reqs)
    ensures Queued(g.(queue := g.queue[Stale(g.queue, g.reqs)..]))
  {
    StaleCanceled(g.queue, g.reqs);
    DroppedQueue(g, Stale(g.queue, g.reqs));
  }

  lemma SameServed(g: Gate, h: Gate)
    requires Served(g) && h.reqs == g.reqs && h.grants == g.grants && h.acquisitions >= g.acquisitions
    requires h.worker == Locking || h.worker.Granting? ==> |h.grants| < h.acquisitions
    ensures Served(h)
  {
  }

  /** Canceled heads go and no one is served: the worker moves on. */
  lemma Requeued(g: Gate, rest: seq<nat>, w: Worker)
    requires Inv(g) && Queued(g.(queue := rest)) && (rest != [] ==> g.queue != [])
    requires w == (if g.worker == Granting(true) then Unlocking
                   else if g.worker.Granting? then Checking
                   else if rest == [] then Idle else Counting)
    requires g.worker.Granting? || g.worker == Checking
    ensures Inv(g.(queue := rest, active := g.active && rest != [], worker := w))
  {
    var h := g.(queue := rest, active := g.active && rest != [], worker := w);
    assert Served(h) by { SameServed(g, h); }
    assert Queued(h);
    hide Sound, Served, Queued;
    assert forall k :: 0 <= k < |g.reqs| ==> !Outstanding(g, k);
  }

  lemma PendingStep(g: Gate)
    requires Inv(g) && Enabled(g, Pending)
    ensures Inv(Apply(g, Pending))
  {
    FreshQueue(g);
    hide Stale, Inv, Queued;
    var rest := g.queue[Stale(g.queue, g.reqs)..];
    Requeued(g, rest, if rest == [] then Idle else Counting);
  }

  /** The head of the queue gets an outcome: everyone before it has one or gave
      up, and everyone after it still waits. */
  lemma SentStep(g: Gate, o: Outcome)
    requires Inv(g) && g.worker.Granting? && g.worker.ok == (o == Grant) && o != Poisoned
    requires g.queue != [] && !g.reqs[g.queue[0]].canceled
    ensures var r := g.queue[0];
      Inv(g.(queue := g.queue[1..], reqs := g.reqs[r := Sent(g.reqs[r], o)],
             worker := if o == Grant then Serving(r) else Checking,
             grants := if o == Grant then g.grants + [r] else g.grants))
  {
    var r := g.queue[0];
    var h := g.(queue := g.queue[1..], reqs := g.reqs[r := Sent(g.reqs[r], o)],
                worker := if o == Grant then Serving(r) else Checking,
                grants := if o == Grant then g.grants + [r] else g.grants);
    assert Sound(g.reqs[r]) && g.reqs[r].sent == [] && h.reqs[r].sent == [o] && Sound(h.reqs[r]);
    SentQueued(g, h, r);
    SentServed(g, h, r, o);
    SentServiced(g, h, r);
    hide Queued, Served, Serviced, Sound;
  }

  lemma SentServiced(g: Gate, h: Gate, r: nat)
    requires Serviced(g) && g.worker.Granting? && g.queue != [] && r < |g.reqs| && |h.reqs| == |g.reqs|
    requires forall k :: 0 <= k < |g.reqs| && k != r ==> h.reqs[k] == g.reqs[k]
    requires !h.reqs[r].done && |h.reqs[r].sent| == 1 && (g.worker.ok <==> h.reqs[r].sent == [Grant])
    requires h == g.(queue := g.queue[1..], reqs := h.reqs, worker := if g.worker.ok then Serving(r) else Checking, grants := h.grants)
    ensures Serviced(h)
  {
    forall k | 0 <= k < |h.reqs| && k != r
      ensures !Outstanding(h, k)
    {
      assert Outstanding(g, k) == Outstanding(h, k);
    }
  }

  lemma SentQueued(g: Gate, h: Gate, r: nat)
    requires Queued(g) && g.queue != [] && r == g.queue[0]
    requires h.queue == g.queue[1..] && |h.reqs| == |g.reqs| && h.reqs[r].sent != []
    requires forall k :: 0 <= k < |g.reqs| && k != r ==> h.reqs[k] == g.reqs[k]
    ensures Queued(h)
  {
    forall q | 0 <= q < |h.reqs| && h.reqs[q].sent == [] && !h.reqs[q].canceled
      ensures q in h.queue
    {
      var k :| 0 <= k < |g.queue| && g.queue[k] == q;
      assert h.queue[k - 1] == q;
    }
  }

  /** The head of the queue is the first that still waits. */
  lemma HeadFirst(g: Gate)
    requires Queued(g) && Ordered(g.reqs) && g.queue != [] && !g.reqs[g.queue[0]].canceled
    ensures forall q | 0 <= q < g.queue[0] :: g.reqs[q].sent != [] || g.reqs[q].canceled
    ensures forall k | g.queue[0] <= k < |g.reqs| :: g.reqs[k].sent == []
  {
    var r := g.queue[0];
    assert forall k :: 0 <= k < |g.queue| ==> g.queue[k] >= r;
  }

  lemma SentOrdered(reqs: seq<Req>, reqs': seq<Req>, r: nat)
    requires Ordered(reqs) && r < |reqs| == |reqs'| && forall k | 0 <= k < |reqs| && k != r :: reqs'[k] == reqs[k]
    requires forall q | 0 <= q < r :: reqs[q].sent != [] || reqs[q].canceled
    requires reqs'[r].sent != []
    ensures Ordered(reqs')
  {
  }

  lemma SentListed(reqs: seq<Req>, reqs': seq<Req>, grants: seq<nat>, r: nat, o: Outcome)
    requires Listed(reqs, grants) && r < |reqs| == |reqs'| && forall k | 0 <= k < |reqs| && k != r :: reqs'[k] == reqs[k]
    requires forall k | r <= k < |reqs| :: reqs[k].sent == []
    requires reqs'[r].sent == [o]
    ensures Listed(reqs', if o == Grant then grants + [r] else grants)
  {
    var more := if o == Grant then grants + [r] else grants;
    assert forall k | 0 <= k < |grants| :: grants[k] < r;
    assert forall k | 0 <= k < |grants| :: more[k] == grants[k];
    assert o == Grant ==> more[|grants|] == r;
    forall q | 0 <= q < |reqs'| && reqs'[q].sent == [Grant] ensures q in more {
      if q != r {
        var k :| 0 <= k < |grants| && grants[k] == q;
        assert more[k] == q;
      }
    }
  }

  lemma SentServed(g: Gate, h: Gate, r: nat, o: Outcome)
    requires Queued(g) && Served(g) && g.worker.Granting? && g.queue != [] && r == g.queue[0] && !g.reqs[r].canceled
    requires h == g.(queue := g.queue[1..], reqs := g.reqs[r := Sent(g.reqs[r], o)],
                     worker := if o == Grant then Serving(r) else Checking,
                     grants := if o == Grant then g.grants + [r] else g.grants)
    ensures Served(h)
  {
    assert r < |g.reqs| && g.reqs[r].sent == [];
    hide Queued, Ordered, Listed;
    HeadFirst(g);
    SentOrdered(g.reqs, h.reqs, r);
    SentListed(g.reqs, h.reqs, g.grants, r, o);
  }

  lemma GrantStep(g: Gate)
    requires Inv(g) && Enabled(g, GrantHead)
    ensures Inv(Apply(g, GrantHead))
  {
    FreshQueue(g);
    StaleCanceled(g.queue, g.reqs);
    hide Stale, Inv, Queued, Sent;
    var n := Stale(g.queue, g.reqs);
    if g.queue[n..] == [] || n > 0 {
      Requeued(g, g.queue[n..], if g.worker.ok then Unlocking else Checking);
    } else {
      SentStep(g, if g.worker.ok then Grant else FlockFailed);
    }
  }

  lemma PoisonStep(g: Gate)
    requires Inv(g) && Enabled(g, Poison)
    ensures Inv(Apply(g, Poison))
  {
    PoisonSent(g);
    hide AllPoisoned, Inv;
    StoppedInv(g, Apply(g, Poison));
  }

  lemma StoppedInv(g: Gate, h: Gate)
    requires Inv(g) && g.worker == Poisoning && |h.reqs| == |g.reqs|
    requires h == g.(broken := true, reqs := h.reqs, queue := [], active := false, kernel := false, worker := Stopped)
    requires forall r | 0 <= r < |g.reqs| :: h.reqs[r] ==
               if g.reqs[r].sent == [] && !g.reqs[r].canceled then Sent(g.reqs[r], Poisoned) else g.reqs[r]
    ensures Inv(h)
  {
    forall r | 0 <= r < |h.reqs| ensures Sound(h.reqs[r]) && h.reqs[r].done == g.reqs[r].done {
      assert Sound(g.reqs[r]);
    }
    assert forall r | 0 <= r < |h.reqs| :: h.reqs[r].sent == [Grant] <==> g.reqs[r].sent == [Grant];
    hide Sound;
  }

  lemma PoisonSent(g: Gate)
    requires Queued(g) && Enabled(g, Poison)
    ensures |Apply(g, Poison).reqs| == |g.reqs|
    ensures forall r | 0 <= r < |g.reqs| :: Apply(g, Poison).reqs[r] ==
              if g.reqs[r].sent == [] && !g.reqs[r].canceled then Sent(g.reqs[r], Poisoned) else g.reqs[r]
  {
  }

  lemma StepInv(g: Gate, l: Label)
    requires Inv(g) && Enabled(g, l)
    ensures Inv(Apply(g, l))
  {
    hide Inv, Apply, Enabled;
    match l
    case Enter => EnterStep(g);
    case Receive(_) => CallerStep(g, l);
    case Cancel(_) => CallerStep(g, l);
    case Polled(_) => CallerStep(g, l);
    case Release(_) => CallerStep(g, l);
    case Pending => PendingStep(g);
    case GrantHead => GrantStep(g);
    case Poison => PoisonStep(g);
    case _ => WorkerStep(g, l);
  }

  /** A run of the gate from its opening: gs[k + 1] is what ls[k] made of gs[k]. */
  ghost predicate Run(gs: seq<Gate>, ls: seq<Label>) {
    && |gs| == |ls| + 1 && gs[0] == Opened()
    && forall k :: 0 <= k < |ls| ==>
         Enabled(gs[k], ls[k]) && Indexes(gs[k].queue, gs[k].reqs) && gs[k + 1] == Apply(gs[k], ls[k])
  }

  lemma {:induction false} RunInv(gs: seq<Gate>, ls: seq<Label>, k: nat)
    requires Run(gs, ls) && k < |gs|
    ensures Inv(gs[k])
  {
    hide Inv, Apply, Enabled;
    if k == 0 {
      OpenedInv();
    } else {
      RunInv(gs, ls, k - 1);
      StepInv(gs[k - 1], ls[k - 1]);
    }
  }

  /** Over every interleaving: one grant stands at a time, under the kernel lock,
      and no request is ever sent a second outcome. */
  lemma OneGrant(gs: seq<Gate>, ls: seq<Label>, k: nat, q: nat, r: nat)
    requires Run(gs, ls) && k < |gs|
    ensures Outstanding(gs[k], q) && Outstanding(gs[k], r) ==> q == r
    ensures Outstanding(gs[k], r) ==> gs[k].kernel
    ensures r < |gs[k].reqs| ==> |gs[k].reqs[r].sent| <= 1
  {
    RunInv(gs, ls, k);
    hide Run;
  }

  /** Callers are granted in the order they came, and never two under one kernel
      acquisition. */
  lemma GrantsInOrder(gs: seq<Gate>, ls: seq<Label>, k: nat, i: nat, j: nat)
    requires Run(gs, ls) && k < |gs| && i < j < |gs[k].grants|
    ensures gs[k].grants[i] < gs[k].grants[j]
    ensures |gs[k].grants| <= gs[k].acquisitions
  {
    RunInv(gs, ls, k);
    hide Run, Queued, Serviced, Sound;
  }

  // ----- whom an acquisition is for ---------------------------------------

  /** The worker acquires only while someone is queued. */
  predicate Busy(g: Gate) {
    g.worker == Counting || g.worker == Locking || g.worker.Granting? ==> g.queue != []
  }

  lemma OpenedBusy()
    ensures Busy(Opened())
  {
  }

  lemma BusyStep(g: Gate, l: Label)
    requires Busy(g) && Enabled(g, l) && Indexes(g.queue, g.reqs)
    ensures Busy(Apply(g, l))
  {
  }

  lemma {:induction false} RunBusy(gs: seq<Gate>, ls: seq<Label>, k: nat)
    requires Run(gs, ls) && k < |gs|
    ensures Busy(gs[k])
  {
    hide Busy, Apply, Enabled;
    if k == 0 {
      OpenedBusy();
    } else {
      RunBusy(gs, ls, k - 1);
      BusyStep(gs[k - 1], ls[k - 1]);
    }
  }

  predicate Acquiring(g: Gate, r: nat) {
    (g.worker == Locking || g.worker.Granting?) && g.queue != [] && g.queue[0] == r
  }

  lemma AcquiringStep(g: Gate, l: Label, r: nat)
    requires Enabled(g, l) && Indexes(g.queue, g.reqs) && !l.GrantHead?
    requires Acquiring(g, r) || (l.Count? && g.queue != [] && g.queue[0] == r)
    ensures Acquiring(Apply(g, l), r)
  {
  }

  /** While the worker blocks, the head it acquires for stays at the head. */
  lemma {:induction false} HeadStays(gs: seq<Gate>, ls: seq<Label>, i: nat, k: nat)
    requires Run(gs, ls) && i < k < |gs| && ls[i] == Count
    requires forall m | i < m < k :: ls[m] != GrantHead
    ensures gs[i].queue != [] && Acquiring(gs[k], gs[i].queue[0])
  {
    RunBusy(gs, ls, i);
    hide Acquiring, Apply;
    if k > i + 1 {
      HeadStays(gs, ls, i, k - 1);
    }
    AcquiringStep(gs[k - 1], ls[k - 1], gs[i].queue[0]);
  }

  /** Canceled requests left the front of the queue, and only they. */
  ghost predicate Pruned(queue: seq<nat>, reqs: seq<Req>, rest: seq<nat>)
    requires Indexes(queue, reqs)
  {
    exists n :: 0 <= n <= |queue| && rest == queue[n..] &&
                (forall k :: 0 <= k < n ==> reqs[queue[k]].canceled) &&
                (n < |queue| ==> !reqs[queue[n]].canceled)
  }

  lemma StalePrunes(queue: seq<nat>, reqs: seq<Req>)
    requires Indexes(queue, reqs)
    ensures Pruned(queue, reqs, queue[Stale(queue, reqs)..])
  {
    StaleCanceled(queue, reqs);
  }

  /** The outcome of an acquisition made for request r: r is told it and goes on
      with it, and nobody else is told anything; if r was canceled, nobody is
      told at all, and a lock that was obtained is given up. */
  ghost predicate Delivered(g: Gate, h: Gate, r: nat)
    requires g.worker.Granting? && Indexes(g.queue, g.reqs) && r in g.queue
  {
    if g.reqs[r].canceled then
      && Pruned(g.queue, g.reqs, h.queue) && h.active == (g.active && h.queue != [])
      && h.worker == (if g.worker.ok then Unlocking else Checking)
      && h == g.(queue := h.queue, active := h.active, worker := h.worker)
    else
      var o := if g.worker.ok then Grant else FlockFailed;
      && h.queue == g.queue[1..]
      && h.worker == (if g.worker.ok then Serving(r) else Checking)
      && h.grants == (if g.worker.ok then g.grants + [r] else g.grants)
      && h.reqs == g.reqs[r := g.reqs[r].(granted := Some(o), sent := g.reqs[r].sent + [o])]
      && h == g.(queue := h.queue, reqs := h.reqs, worker := h.worker, grants := h.grants)
  }

  lemma GrantDelivers(g: Gate)
    requires Indexes(g.queue, g.reqs) && Enabled(g, GrantHead) && g.queue != []
    ensures Delivered(g, Apply(g, GrantHead), g.queue[0])
  {
    StaleCanceled(g.queue, g.reqs);
    var h := Apply(g, GrantHead);
    assert Stale(g.queue, g.reqs) > 0 <==> g.reqs[g.queue[0]].canceled;
  }

  /** Over every run: an acquisition serves the request that was first when it
      began, or none. If that one gives up while the worker blocks, the lock is
      not handed on: the worker unlocks and starts over. */
  lemma AcquiredForHead(gs: seq<Gate>, ls: seq<Label>, i: nat, j: nat)
    requires Run(gs, ls) && i < j < |ls| && ls[i] == Count && ls[j] == GrantHead
    requires forall m | i < m < j :: ls[m] != GrantHead
    ensures gs[i].queue != [] && Indexes(gs[j].queue, gs[j].reqs) && gs[i].queue[0] in gs[j].queue && gs[j].worker.Granting?
    ensures Delivered(gs[j], gs[j + 1], gs[i].queue[0])
  {
    HeadStays(gs, ls, i, j);
    hide Apply, Delivered, Indexes;
    assert Indexes(gs[j].queue, gs[j].reqs) && Enabled(gs[j], ls[j]) && gs[j + 1] == Apply(gs[j], ls[j]);
    GrantDelivers(gs[j]);
  }

  /** And each hand-off has an acquisition of its own, which found the lock given
      up by this gate: at every one of them other processes contend too. */
  lemma {:induction false} OwnAcquisition(gs: seq<Gate>, ls: seq<Label>, j: nat) returns (i: nat, t: nat)
    requires Run(gs, ls) && j < |gs| && gs[j].worker.Granting?
    ensures i < t < j && ls[i] == Count && ls[t] == Flock(gs[j].worker.ok) && !gs[t].kernel
    ensures forall m | i < m < j :: ls[m] != GrantHead
  {
    hide Inv, Queued, Served;
    GrantingStep(gs[j - 1], ls[j - 1]);
    if gs[j - 1].worker.Granting? {
      i, t := OwnAcquisition(gs, ls, j - 1);
    } else {
      t := j - 1;
      i := Counted(gs, ls, t);
      RunInv(gs, ls, t);
      LockingFree(gs[t]);
    }
  }

  lemma GrantingStep(g: Gate, l: Label)
    requires Enabled(g, l) && Indexes(g.queue, g.reqs) && Apply(g, l).worker.Granting?
    ensures !l.GrantHead?
    ensures g.worker == Apply(g, l).worker || (g.worker == Locking && l == Flock(Apply(g, l).worker.ok))
  {
  }

  lemma LockingFree(g: Gate)
    requires Inv(g) && g.worker == Locking
    ensures !g.kernel
  {
  }

  lemma {:induction false} Counted(gs: seq<Gate>, ls: seq<Label>, k: nat) returns (i: nat)
    requires Run(gs, ls) && k < |gs| && gs[k].worker == Locking
    ensures i < k && ls[i] == Count && forall m | i < m < k :: ls[m] != GrantHead
  {
    LockingStep(gs[k - 1], ls[k - 1]);
    if ls[k - 1].Count? {
      i := k - 1;
    } else {
      i := Counted(gs, ls, k - 1);
    }
  }

  lemma LockingStep(g: Gate, l: Label)
    requires Enabled(g, l) && Indexes(g.queue, g.reqs) && Apply(g, l).worker == Locking
    ensures !l.GrantHead? && (g.worker == Locking || l == Count)
  {
  }

  /** Looking for work drops the canceled head of the queue, and the worker goes
      to sleep if nothing is left, and else acquires for one that has not given up. */
  lemma PendingPrunes(g: Gate)
    requires Indexes(g.queue, g.reqs) && Enabled(g, Pending)
    ensures var h := Apply(g, Pending);
      && Pruned(g.queue, g.reqs, h.queue) && h.active == (g.active && h.queue != [])
      && h.worker == (if h.queue == [] then Idle else Counting)
      && h == g.(queue := h.queue, active := h.active, worker := h.worker)
  {
    StaleCanceled(g.queue, g.reqs);
  }

  /** Request r gets its outcome in this step. */
  predicate Answers(g: Gate, l: Label, r: nat)
    requires Enabled(g, l) && Indexes(g.queue, g.reqs)
  {
    r < |g.reqs| && |Apply(g, l).reqs| >= |g.reqs| && |Apply(g, l).reqs[r].sent| > |g.reqs[r].sent|
  }

  /** Every send finds its buffer empty, so none ever blocks the worker; and it
      goes to a caller that is still waiting. */
  lemma SendNeverBlocks(g: Gate, l: Label, r: nat)
    requires Inv(g) && Enabled(g, l) && Answers(g, l, r)
    ensures g.reqs[r].granted.None? && g.reqs[r].phase == Waiting && !g.reqs[r].canceled
  {
    StaleCanceled(g.queue, g.reqs);
    hide Serviced, Served, Stale;
    assert Sound(g.reqs[r]);
  }

  /** Outcomes are given in the order of arrival: no live request is passed by
      a later one. */
  lemma FirstComeFirstServed(g: Gate, l: Label, q: nat, r: nat)
    requires Inv(g) && Enabled(g, l) && Answers(g, l, r) && q < r && Live(g, q)
    ensures Answers(g, l, q)
  {
    StepInv(g, l);
    var h := Apply(g, l);
    assert h.reqs[r].sent != [];
    assert Served(h);
    hide Inv, Served;
    assert !h.reqs[q].canceled by { CancelsOne(g, l, q); }
  }

  lemma GrantCancels(g: Gate)
    requires Indexes(g.queue, g.reqs) && Enabled(g, GrantHead)
    ensures |Apply(g, GrantHead).reqs| == |g.reqs|
    ensures forall q | 0 <= q < |g.reqs| :: Apply(g, GrantHead).reqs[q].canceled == g.reqs[q].canceled
  {
    hide Stale;
  }

  lemma PoisonCancels(g: Gate)
    requires Indexes(g.queue, g.reqs) && Enabled(g, Poison)
    ensures |Apply(g, Poison).reqs| == |g.reqs|
    ensures forall q | 0 <= q < |g.reqs| :: Apply(g, Poison).reqs[q].canceled == g.reqs[q].canceled
  {
  }

  lemma CancelsOne(g: Gate, l: Label, q: nat)
    requires Indexes(g.queue, g.reqs) && Enabled(g, l) && Live(g, q)
    ensures |Apply(g, l).reqs| >= |g.reqs|
    ensures Apply(g, l).reqs[q].canceled ==> l == Cancel(q)
  {
    hide Stale, AllPoisoned, Indexes;
    match l
    case GrantHead => GrantCancels(g);
    case Poison => PoisonCancels(g);
    case _ =>
  }

  /** No wake-up is lost: while a live request waits, the worker has a next step
      of its own, or it serves a caller that has one, or a token waits for it. */
  lemma NoLostWakeup(g: Gate, r: nat)
    requires Inv(g) && Live(g, r)
    ensures !g.broken && r in g.queue
    ensures g.worker == Idle ==> g.wake && Enabled(g, Wake)
    ensures g.worker.Serving? ==>
      var h := g.worker.head;
      Enabled(g, Done) || Enabled(g, Receive(h)) || Enabled(g, Polled(h)) || Enabled(g, Release(h))
    ensures !g.worker.Serving? ==> exists l :: Enabled(g, l) && !l.Enter? && !l.Receive? && !l.Cancel? && !l.Polled? && !l.Release?
  {
    assert r in g.queue;
    hide Served;
    if g.worker.Serving? {
      assert Sound(g.reqs[g.worker.head]);
    }
    assert g.worker == Idle ==> Enabled(g, Wake);
    assert g.worker == Checking ==> Enabled(g, Pending);
    assert g.worker == Counting ==> Enabled(g, Count);
    assert g.worker == Locking ==> Enabled(g, Flock(true));
    assert g.worker.Granting? ==> Enabled(g, GrantHead);
    assert g.worker == Unlocking ==> Enabled(g, Unlock(true, true));
    assert g.worker == Poisoning ==> Enabled(g, Poison);
  }

  /** Poisoning reaches every live request, leaves none behind, and lets no later
      one in. */
  lemma PoisonReachesAll(g: Gate, r: nat)
    requires Inv(g) && Enabled(g, Poison)
    ensures Live(g, r) ==> Apply(g, Poison).reqs[r].granted == Some(Poisoned)
    ensures !Live(Apply(g, Poison), r)
    ensures Apply(Apply(g, Poison), Enter) == Apply(g, Poison)
  {
    StepInv(g, Poison);
  }

  /** How often r's grant was handed back. */
  function Releases(ls: seq<Label>, r: nat): nat {
    if ls == [] then 0 else Releases(ls[..|ls| - 1], r) + if ls[|ls| - 1] == Release(r) then 1 else 0
  }

  predicate HandedBack(g: Gate, r: nat) { r < |g.reqs| && g.reqs[r].done }

  lemma GrantDone(g: Gate, r: nat)
    requires Indexes(g.queue, g.reqs) && Enabled(g, GrantHead)
    ensures HandedBack(Apply(g, GrantHead), r) <==> HandedBack(g, r)
  {
    hide Stale, Sound;
    var n := Stale(g.queue, g.reqs);
    if n < |g.queue| {
      var x := g.queue[n];
      assert x < |g.reqs| && g.queue[n..][0] == x;
      hide Indexes;
      assert Sent(g.reqs[x], Grant).done == g.reqs[x].done == Sent(g.reqs[x], FlockFailed).done;
    }
  }

  lemma PoisonDone(g: Gate, r: nat)
    requires Inv(g) && Enabled(g, Poison)
    ensures HandedBack(Apply(g, Poison), r) <==> HandedBack(g, r)
  {
    hide Serviced, Served, Sound, Queued;
  }

  lemma DoneByRelease(g: Gate, l: Label, r: nat)
    requires Inv(g) && Enabled(g, l)
    ensures HandedBack(Apply(g, l), r) <==> HandedBack(g, r) || l == Release(r)
    ensures l == Release(r) ==> !HandedBack(g, r)
  {
    assert r < |g.reqs| ==> Sound(g.reqs[r]);
    hide Serviced, Served, Sound, Queued, Stale, AllPoisoned, Granted;
    if l.GrantHead? {
      GrantDone(g, r);
    } else if l.Poison? {
      PoisonDone(g, r);
    }
  }

  lemma {:induction false} ReleasesDone(gs: seq<Gate>, ls: seq<Label>, n: nat, r: nat)
    requires Run(gs, ls) && n <= |ls|
    ensures Releases(ls[..n], r) == if HandedBack(gs[n], r) then 1 else 0
  {
    hide Inv, Apply, Enabled;
    if n > 0 {
      ReleasesDone(gs, ls, n - 1, r);
      RunInv(gs, ls, n - 1);
      DoneByRelease(gs[n - 1], ls[n - 1], r);
      assert ls[..n][..n - 1] == ls[..n - 1];
    }
  }

  /** Over every run a grant is handed back at most once, and once its caller is
      back, exactly once, however cancellation raced the hand-off. */
  lemma ReleasedOnce(gs: seq<Gate>, ls: seq<Label>, r: nat)
    requires Run(gs, ls)
    ensures Releases(ls, r) <= 1
    ensures var g := gs[|ls|];
      r < |g.reqs| && g.reqs[r].phase == Returned ==> Releases(ls, r) == if g.reqs[r].sent == [Grant] then 1 else 0
  {
    RunInv(gs, ls, |ls|);
    ReleasesDone(gs, ls, |ls|, r);
    assert ls[..|ls|] == ls;
    hide Run, Releases, Queued, Serviced, Served;
    assert r < |gs[|ls|].reqs| ==> Sound(gs[|ls|].reqs[r]);
  }
}
