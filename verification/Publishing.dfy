/** One up under the shared store hold, with everyone else's steps between any
    two of its own: internal/app/lifecycle.go and internal/app/candidates.go. */
module Publishing {

  import opened Containers
  import opened Collection

  /** A step of publisher p. */
  predicate Of(l: Label, p: nat) {
    match l
    case Begin(q) => q == p
    case Freeze(q, _, _) => q == p
    case Publish(q, _, _) => q == p
    case Record(q) => q == p
    case Deploy(q, _, _, _) => q == p
    case Approve(q, _) => q == p
    case Bind(q, _, _) => q == p
    case End(q) => q == p
    case _ => false
  }

  /** While p publishes, no one else speaks for it and no collection holds the
      store. */
  lemma Undisturbed(s: State, l: Label, p: nat)
    requires Inv(s) && p in s.publishers && Enabled(s, l) && !Of(l, p)
    ensures Inv(Apply(s, l)) && p in Apply(s, l).publishers && Apply(s, l).publishers[p] == s.publishers[p]
    ensures Grown(s, Apply(s, l))
  {
    hide *;
    StepInv(s, l);
    HeldOff(s, p);
    OthersPublish(s, l, p);
    OthersGrow(s, l);
  }

  lemma OthersPublish(s: State, l: Label, p: nat)
    requires s.gc.Off? && p in s.publishers && Enabled(s, l) && !Of(l, p)
    ensures p in Apply(s, l).publishers && Apply(s, l).publishers[p] == s.publishers[p]
  {
    hide Whole, Kept, Trusted, HasRecord, WithoutRecord, LiveCandidates, LiveArtifacts, Approved, Pinned, Bound, Newest, SnapshotsOf;
  }

  lemma OthersGrow(s: State, l: Label)
    requires s.gc.Off? && Enabled(s, l)
    ensures Grown(s, Apply(s, l))
  {
    hide Whole, Kept, Trusted, HasRecord, WithoutRecord, LiveCandidates, LiveArtifacts, Approved, Pinned, Bound, Newest, SnapshotsOf;
    if Storing(l) {
      assert l.Freeze? || l.Publish? || l.Record?;
    } else {
      hide Apply, Enabled;
      StoreSteady(s, l);
    }
  }

  lemma HeldOff(s: State, p: nat)
    requires Inv(s) && p in s.publishers
    ensures s.gc.Off?
  {
  }

  lemma GrownOn(s: State, t: State, u: State)
    requires Grown(s, t) && Grown(t, u)
    ensures Grown(s, u)
  {
  }

  /** What preparing a candidate does to the store, in order. */
  function Preparation(p: nat, snapshot: Option<Digest>, candidate: Digest, now: int): seq<Label> {
    [Label.Freeze(p, snapshot, now), Label.Publish(p, candidate, now), Label.Record(p)]
  }

  function Deployments(p: nat, project: Project, artifact: Option<Digest>, names: seq<string>): seq<Label> {
    seq(|names|, i requires 0 <= i < |names| => Label.Deploy(p, names[i], project, artifact))
  }

  /** Why an up stops short without a failing call, having done this much: the
      candidate is recorded with other inputs, the next name is taken, or the
      project is not registered. */
  predicate Hindered(s: State, done: seq<Label>, p: nat, project: Project, snapshot: Option<Digest>, candidate: Digest,
                     artifact: Option<Digest>, names: seq<string>, now: int) {
    var prepared, deployed := Preparation(p, snapshot, candidate, now), Deployments(p, project, artifact, names);
    || (done == prepared[..2] && candidate in s.records && s.records[candidate] != snapshot)
    || (exists i :: 0 <= i < |names| && done == prepared + deployed[..i] && names[i] in s.live)
    || (done == prepared + deployed && project !in s.registry)
  }

  predicate NoApproval(ls: seq<Label>) {
    forall k | 0 <= k < |ls| :: !ls[k].Approve?
  }

  class Session {
    const schedule: nat -> Label
    const burst: nat -> nat
    const faulty: nat -> bool

    var tick: nat
    var state: State

    // The steps this session itself took, oldest first.
    ghost var taken: seq<Label>

    constructor (schedule: nat -> Label, burst: nat -> nat, faulty: nat -> bool, state: State)
      requires Inv(state)
      ensures Inv(this.state) && this.state == state
    {
      this.schedule, this.burst, this.faulty, this.state, this.tick, this.taken := schedule, burst, faulty, state, 0, [];
    }

    // One of the calls from tick t to tick u fails.
    ghost predicate Faulted(t: nat, u: nat) {
      exists k :: t <= k <= u && faulty(k)
    }

    method Others(p: nat) returns (failed: bool)
      requires Inv(state) && p in state.publishers
      modifies `tick, `state
      ensures Inv(state) && p in state.publishers && state.publishers[p] == old(state).publishers[p]
      ensures Grown(old(state), state) && old(tick) <= tick && (failed ==> faulty(old(tick)))
    {
      failed := faulty(tick);
      var n := burst(tick);
      assert Grown(state, state);
      hide Inv, Enabled, Apply, Grown;
      for k := 0 to n
        invariant Inv(state) && p in state.publishers && state.publishers[p] == old(state).publishers[p]
        invariant Grown(old(state), state) && old(tick) <= tick
      {
        var l := schedule(tick);
        tick := tick + 1;
        if !Of(l, p) && Enabled(state, l) {
          Undisturbed(state, l, p);
          GrownOn(old(state), state, Apply(state, l));
          state := Apply(state, l);
        }
      }
    }

    method Advance(l: Label)
      requires Inv(state) && Enabled(state, l)
      modifies `state, `taken
      ensures Inv(state) && state == Apply(old(state), l) && taken == old(taken) + [l]
    {
      StepInv(state, l);
      state, taken := Apply(state, l), taken + [l];
    }

    /** The inputs are frozen, the plan published and its record written, in this
        order; a record that says otherwise is a conflict. */
    method PrepareCandidate(p: nat, snapshot: Option<Digest>, candidate: Digest, now: int) returns (ok: bool)
      requires Inv(state) && p in state.publishers && state.publishers[p].stage == Begun
      modifies this
      ensures Inv(state) && p in state.publishers && old(tick) <= tick
      ensures !ok ==> Faulted(old(tick), tick) || (taken == old(taken) + Preparation(p, snapshot, candidate, now)[..2] &&
                                                   candidate in state.records && state.records[candidate] != snapshot)
      ensures ok ==> state.publishers[p] == Publisher(Recorded, snapshot, candidate)
      ensures ok ==> taken == old(taken) + Preparation(p, snapshot, candidate, now)
      ensures !ok ==> exists i :: 0 <= i < 3 && taken == old(taken) + Preparation(p, snapshot, candidate, now)[..i]
      ensures candidate in old(state).records && old(state).records[candidate] != snapshot ==> !ok
    {
      hide Inv, Whole, Kept, Trusted, HasRecord, WithoutRecord;
      ghost var steps := Preparation(p, snapshot, candidate, now);
      var failed := Others(p);
      if failed {
        assert taken == old(taken) + steps[..0];
        return false;
      }
      Advance(Label.Freeze(p, snapshot, now));
      assert taken == old(taken) + steps[..1];
      failed := Others(p);
      if failed {
        return false;
      }
      Advance(Label.Publish(p, candidate, now));
      assert taken == old(taken) + steps[..2];
      failed := Others(p);
      if failed || (candidate in state.records && state.records[candidate] != snapshot) {
        return false;
      }
      Advance(Label.Record(p));
      assert taken == old(taken) + steps;
      ok := true;
    }

    /** The containers run the candidate; where a name is taken this up gives up. */
    method DeployAll(p: nat, project: Project, artifact: Option<Digest>, names: seq<string>) returns (ok: bool, ghost n: nat)
      requires Inv(state) && p in state.publishers && state.publishers[p].stage == Recorded
      modifies this
      ensures Inv(state) && p in state.publishers && state.publishers[p] == old(state).publishers[p]
      ensures n <= |names| && taken == old(taken) + Deployments(p, project, artifact, names)[..n] && old(tick) <= tick
      ensures if ok then n == |names| else Faulted(old(tick), tick) || (n < |names| && names[n] in state.live)
    {
      hide Inv, Whole, Kept, Trusted, HasRecord, WithoutRecord;
      ghost var steps := Deployments(p, project, artifact, names);
      n := 0;
      for i := 0 to |names|
        invariant Inv(state) && p in state.publishers && state.publishers[p] == old(state).publishers[p]
        invariant taken == old(taken) + steps[..i] && old(tick) <= tick && n == i
      {
        var failed := Others(p);
        if failed || names[i] in state.live {
          return false, n;
        }
        Advance(Label.Deploy(p, names[i], project, artifact));
        n := n + 1;
      }
      ok := true;
    }

    /** The approved pointer moves last, and only to what is whole; an up that
        fails has not moved it. Whatever happens, the hold is released. */
    method Up(p: nat, project: Project, snapshot: Option<Digest>, candidate: Digest, artifact: Option<Digest>,
              names: seq<string>, now: int)
      returns (ok: bool)
      requires Inv(state) && p !in state.publishers
      modifies this
      ensures Inv(state) && p !in state.publishers
      ensures ok ==>
        && project in state.registry && state.registry[project].approved == Some(candidate)
        && candidate in state.records && state.records[candidate] == snapshot
        && Whole(state.objects, state.records, candidate)
      ensures ok ==>
        taken == old(taken) + [Label.Begin(p)] + Preparation(p, snapshot, candidate, now)
                 + Deployments(p, project, artifact, names) + [Label.Approve(p, project)] + [Label.End(p)]
      ensures !ok ==> old(taken) <= taken && NoApproval(taken[|old(taken)|..])
      ensures !ok ==>
        || Faulted(old(tick), tick) || (taken == old(taken) && !state.gc.Off?)
        || (|old(taken)| + 1 < |taken| &&
            Hindered(state, taken[|old(taken)| + 1..|taken| - 1], p, project, snapshot, candidate, artifact, names, now))
    {
      hide Inv, Whole, Kept, Trusted, HasRecord, WithoutRecord, Hindered;
      ok := state.gc.Off?;
      if ok {
        Advance(Label.Begin(p));
        ghost var begun := taken;
        ok := Held(p, project, snapshot, candidate, artifact, names, now);
        ghost var was, done := state, taken[|begun|..];
        Advance(Label.End(p));
        assert !ok ==> taken[|old(taken)| + 1..|taken| - 1] == done;
        if !ok && !Faulted(old(tick), tick) {
          HinderedStill(was, p, done, project, snapshot, candidate, artifact, names, now);
        }
        assert !ok ==> taken[|old(taken)|..] == [Label.Begin(p)] + taken[|begun|..|taken| - 1] + [Label.End(p)];
      }
    }

    method Held(p: nat, project: Project, snapshot: Option<Digest>, candidate: Digest, artifact: Option<Digest>,
                names: seq<string>, now: int)
      returns (ok: bool)
      requires Inv(state) && p in state.publishers && state.publishers[p].stage == Begun
      modifies this
      ensures Inv(state) && p in state.publishers
      ensures ok ==>
        && project in state.registry && state.registry[project].approved == Some(candidate)
        && candidate in state.records && state.records[candidate] == snapshot
        && Whole(state.objects, state.records, candidate)
      ensures ok ==>
        taken == old(taken) + Preparation(p, snapshot, candidate, now) + Deployments(p, project, artifact, names)
                 + [Label.Approve(p, project)]
      ensures !ok ==> old(taken) <= taken && NoApproval(taken[|old(taken)|..])
      ensures old(tick) <= tick
      ensures !ok ==> Faulted(old(tick), tick) ||
                      Hindered(state, taken[|old(taken)|..], p, project, snapshot, candidate, artifact, names, now)
    {
      hide Inv, Whole, Kept, Trusted, HasRecord, WithoutRecord, Hindered, Preparation, Deployments;
      ghost var before, prepared := taken, Preparation(p, snapshot, candidate, now);
      Unapproving(p, project, snapshot, candidate, artifact, names, now);
      ok := PrepareCandidate(p, snapshot, candidate, now);
      if !ok {
        StoppedRecording(state, taken[|before|..], p, project, snapshot, candidate, artifact, names, now);
        return;
      }
      assert taken == before + prepared;
      ghost var n;
      ok, n := DeployAll(p, project, artifact, names);
      assert taken[|before|..] == prepared + Deployments(p, project, artifact, names)[..n];
      StoppedDeploying(state, n, p, project, snapshot, candidate, artifact, names, now);
      if !ok {
        return;
      }
      ok := PointAt(p, project);
    }

    /** The registry's pointer moves. */
    method PointAt(p: nat, project: Project) returns (ok: bool)
      requires Inv(state) && p in state.publishers && state.publishers[p].stage == Recorded
      modifies this
      ensures Inv(state) && p in state.publishers && old(tick) <= tick
      ensures var candidate, snapshot := old(state).publishers[p].candidate, old(state).publishers[p].snapshot;
        ok ==>
          && project in state.registry && state.registry[project].approved == Some(candidate)
          && candidate in state.records && state.records[candidate] == snapshot
          && Whole(state.objects, state.records, candidate)
      ensures taken == if ok then old(taken) + [Label.Approve(p, project)] else old(taken)
      ensures !ok ==> Faulted(old(tick), tick) || project !in state.registry
    {
      hide Inv, Whole, Kept, Trusted, HasRecord, WithoutRecord;
      var failed := Others(p);
      ok := !failed && project in state.registry;
      if ok {
        WhenRecorded(state, p);
        Advance(Label.Approve(p, project));
      }
    }
  }

  lemma Unapproving(p: nat, project: Project, snapshot: Option<Digest>, candidate: Digest, artifact: Option<Digest>,
                    names: seq<string>, now: int)
    ensures forall n | 0 <= n <= 3 :: |Preparation(p, snapshot, candidate, now)| == 3 &&
                                      NoApproval(Preparation(p, snapshot, candidate, now)[..n])
    ensures |Deployments(p, project, artifact, names)| == |names|
    ensures forall n | 0 <= n <= |names| ::
              NoApproval(Preparation(p, snapshot, candidate, now) + Deployments(p, project, artifact, names)[..n])
  {
  }

  lemma StoppedRecording(s: State, done: seq<Label>, p: nat, project: Project, snapshot: Option<Digest>, candidate: Digest,
                         artifact: Option<Digest>, names: seq<string>, now: int)
    ensures done == Preparation(p, snapshot, candidate, now)[..2] && candidate in s.records && s.records[candidate] != snapshot ==>
              Hindered(s, done, p, project, snapshot, candidate, artifact, names, now)
  {
  }

  lemma StoppedDeploying(s: State, n: nat, p: nat, project: Project, snapshot: Option<Digest>, candidate: Digest,
                         artifact: Option<Digest>, names: seq<string>, now: int)
    requires n <= |names|
    ensures n < |names| && names[n] in s.live ==>
              Hindered(s, Preparation(p, snapshot, candidate, now) + Deployments(p, project, artifact, names)[..n], p, project,
                       snapshot, candidate, artifact, names, now)
    ensures forall t: State | n == |names| && project !in t.registry ::
              Hindered(t, Preparation(p, snapshot, candidate, now) + Deployments(p, project, artifact, names)[..n], p, project,
                       snapshot, candidate, artifact, names, now)
  {
  }

  lemma HinderedStill(s: State, p: nat, done: seq<Label>, project: Project, snapshot: Option<Digest>, candidate: Digest,
                      artifact: Option<Digest>, names: seq<string>, now: int)
    requires p in s.publishers && Hindered(s, done, p, project, snapshot, candidate, artifact, names, now)
    ensures Hindered(Apply(s, Label.End(p)), done, p, project, snapshot, candidate, artifact, names, now)
  {
  }

  lemma WhenRecorded(s: State, p: nat)
    requires Inv(s) && p in s.publishers && s.publishers[p].stage == Stage.Recorded
    ensures var c := s.publishers[p].candidate;
      c in s.records && s.records[c] == s.publishers[p].snapshot && Whole(s.objects, s.records, c)
  {
  }
}
