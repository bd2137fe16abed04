/** Two stages of one lock name, over every process and locker that uses it:
    a caller holds the name's intent while it polls for the main lock
    (internal/lock/flock_unix.go). */
module Overtaking {

  import opened Gate

  datatype Mode = Shared | Exclusive

  /** A request of one gate. */
  datatype Caller = Caller(gate: nat, req: nat)

  /** One gate per process and locker; main holds the kernel's view of the main
      lock, one descriptor per caller. */
  datatype System = System(gates: seq<Gate>, main: map<Caller, Mode>)

  datatype Move = Join
                | Local(i: nat, l: Label)
                | Take(c: Caller, how: Mode)
                | GiveUp(c: Caller)
                | Unlock(c: Caller)

  /** flock: shared holders coexist, an exclusive one is alone. */
  predicate Compatible(main: map<Caller, Mode>, how: Mode) {
    main == map[] || (how == Shared && forall c :: c in main ==> main[c] == Shared)
  }

  predicate Polls(s: System, c: Caller) {
    c.gate < |s.gates| && c.req < |s.gates[c.gate].reqs| && s.gates[c.gate].reqs[c.req].phase == Holding
  }

  predicate Free(s: System, i: nat) { forall k :: 0 <= k < |s.gates| && k != i ==> !s.gates[k].kernel }

  ghost predicate CanMove(s: System, m: Move) {
    match m
    case Join => true
    case Local(i, l) =>
      && i < |s.gates| && Enabled(s.gates[i], l) && !l.Polled?
      && (l == Flock(true) ==> Free(s, i))
    case Take(c, how) => Polls(s, c) && Compatible(s.main, how)
    case GiveUp(c) => Polls(s, c)
    case Unlock(c) => c in s.main
  }

  ghost predicate AllInv(s: System) { forall k :: 0 <= k < |s.gates| ==> Inv(s.gates[k]) }

  function Stepped(s: System, i: nat, l: Label): System
    requires i < |s.gates| && Enabled(s.gates[i], l) && Indexes(s.gates[i].queue, s.gates[i].reqs)
  {
    s.(gates := s.gates[i := Apply(s.gates[i], l)])
  }

  /** A poll that succeeds holds the main lock; either way the caller goes on to
      release its intent. */
  function Moved(s: System, m: Move): System
    requires CanMove(s, m) && AllInv(s)
  {
    match m
    case Join => s.(gates := s.gates + [Opened()])
    case Local(i, l) => Stepped(s, i, l)
    case Take(c, how) => Stepped(s, c.gate, Polled(c.req)).(main := s.main[c := how])
    case GiveUp(c) => Stepped(s, c.gate, Polled(c.req))
    case Unlock(c) => s.(main := s.main - {c})
  }

  /** The kernel gives the intent lock to one descriptor, and an exclusive main
      lock to one caller. */
  ghost predicate SystemInv(s: System) {
    && AllInv(s)
    && (forall i, k :: 0 <= i < k < |s.gates| ==> !(s.gates[i].kernel && s.gates[k].kernel))
    && (forall c, d :: c in s.main && d in s.main && s.main[c] == Exclusive ==> d == c)
  }

  /** Only an acquisition takes the intent lock. */
  lemma KernelOnlyByFlock(g: Gate, l: Label)
    requires Inv(g) && Enabled(g, l) && l != Flock(true)
    ensures Apply(g, l).kernel ==> g.kernel
  {
    hide Queued, Served, Sound;
  }

  lemma SteppedInv(s: System, i: nat, l: Label)
    requires SystemInv(s) && i < |s.gates| && Enabled(s.gates[i], l) && (l == Flock(true) ==> Free(s, i))
    ensures SystemInv(Stepped(s, i, l))
  {
    StepInv(s.gates[i], l);
    if l != Flock(true) {
      KernelOnlyByFlock(s.gates[i], l);
    }
    hide Inv, Apply, Enabled;
  }

  lemma MovedInv(s: System, m: Move)
    requires SystemInv(s) && CanMove(s, m)
    ensures SystemInv(Moved(s, m))
  {
    match m
    case Join => OpenedInv();
    case Local(i, l) => SteppedInv(s, i, l);
    case Take(c, how) =>
      assert Enabled(s.gates[c.gate], Polled(c.req));
      SteppedInv(s, c.gate, Polled(c.req));
      hide Inv, Apply, Enabled;
    case GiveUp(c) => SteppedInv(s, c.gate, Polled(c.req));
    case Unlock(c) =>
  }

  /** From the grant until the caller hands it back. */
  predicate HoldsIntent(s: System, c: Caller) {
    c.gate < |s.gates| && Outstanding(s.gates[c.gate], c.req)
  }

  lemma PollsUnderIntent(s: System, c: Caller)
    requires AllInv(s) && Polls(s, c)
    ensures HoldsIntent(s, c)
  {
    assert Inv(s.gates[c.gate]) && Sound(s.gates[c.gate].reqs[c.req]);
  }

  /** At most one caller has the intent, in all the processes together. */
  lemma OneIntent(s: System, c: Caller, d: Caller)
    requires SystemInv(s) && HoldsIntent(s, c) && HoldsIntent(s, d)
    ensures c == d
  {
    var g, h := s.gates[c.gate], s.gates[d.gate];
    assert g.worker == Serving(c.req) && h.worker == Serving(d.req);
    assert g.kernel && h.kernel;
  }

  ghost predicate Run(ss: seq<System>, ms: seq<Move>) {
    && |ss| == |ms| + 1 && ss[0] == System([], map[])
    && forall k :: 0 <= k < |ms| ==> CanMove(ss[k], ms[k]) && AllInv(ss[k]) && ss[k + 1] == Moved(ss[k], ms[k])
  }

  lemma {:induction false} RunInv(ss: seq<System>, ms: seq<Move>, k: nat)
    requires Run(ss, ms) && k < |ss|
    ensures SystemInv(ss[k])
  {
    assert SystemInv(System([], map[]));
    hide SystemInv, CanMove, Moved;
    if k > 0 {
      RunInv(ss, ms, k - 1);
      MovedInv(ss[k - 1], ms[k - 1]);
    }
  }

  /** One move: past a caller that has the intent, nobody gets at the main lock. */
  lemma NoNewHolder(s: System, m: Move, c: Caller)
    requires SystemInv(s) && CanMove(s, m) && HoldsIntent(s, c)
    ensures forall d :: d in Moved(s, m).main && d != c ==> d in s.main && s.main[d] == Moved(s, m).main[d]
  {
    if m.Take? {
      PollsUnderIntent(s, m.c);
      OneIntent(s, c, m.c);
    }
  }

  /** Over every run of all the processes: while a caller has the intent, nobody
      else comes by the main lock; the others that hold it can only become
      fewer. */
  lemma {:induction false} NoOvertaking(ss: seq<System>, ms: seq<Move>, i: nat, j: nat, c: Caller)
    requires Run(ss, ms) && i <= j < |ss|
    requires forall k :: i <= k <= j ==> HoldsIntent(ss[k], c)
    ensures forall d :: d in ss[j].main && d != c ==> d in ss[i].main && ss[i].main[d] == ss[j].main[d]
  {
    hide SystemInv, CanMove, Moved, HoldsIntent;
    if i < j {
      NoOvertaking(ss, ms, i, j - 1, c);
      RunInv(ss, ms, j - 1);
      NoNewHolder(ss[j - 1], ms[j - 1], c);
    }
  }

  /** Nobody passes a caller between its grant and its main lock: the holders it
      then shares with were there at the grant, and for an exclusive lock they
      are all gone. */
  lemma NeverPassed(ss: seq<System>, ms: seq<Move>, i: nat, j: nat, c: Caller, how: Mode)
    requires Run(ss, ms) && i <= j < |ms| && ms[j] == Take(c, how)
    requires forall k :: i <= k <= j ==> HoldsIntent(ss[k], c)
    ensures c in ss[j + 1].main && ss[j + 1].main[c] == how
    ensures forall d :: d in ss[j + 1].main && d != c ==> d in ss[i].main
    ensures how == Exclusive ==> ss[j + 1].main.Keys == {c}
  {
    NoOvertaking(ss, ms, i, j, c);
    assert CanMove(ss[j], ms[j]) && ss[j + 1] == Moved(ss[j], ms[j]);
  }
}
