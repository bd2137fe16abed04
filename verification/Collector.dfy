/** One garbage collection, with everyone else's steps between any two of its
    own: internal/app/gc.go and internal/store/gc.go. */
module Collector {

  import opened Containers
  import opened Collection

  /** The collector's own steps. */
  predicate Collecting(l: Label) {
    || l.Hold? || l.ReadLive? || l.ReadRegistry? || l.ReadPending? || l.ReadStore?
    || l.Remove? || l.Unrecord? || l.Orphan? || l.Finish?
  }

  /** Refused: the roots could not be computed. Broke: a removal failed. */
  datatype Outcome = Refused | Broke | Collected(removed: seq<Item>, skipped: seq<Item>, orphans: seq<Item>)

  /** What a collection has read: the containers, the registry, and the requests
      it found when it listed those of each registered project. */
  datatype Seen = Seen(live: map<string, Live>, registry: map<Project, Registration>,
                       asked: map<Project, map<(Project, string), Digest>>)

  /** A container that roots something and cannot say what: it must name its
      project and its candidate, and if an artifact, properly. */
  predicate Suspect(c: Live) {
    !c.builder && (!c.project.Named? || !c.candidate.Named? || c.artifact.Malformed?)
  }

  /** Pinned by a project, run by a container, or the newest that a release brought. */
  ghost predicate NeedsArtifact(seen: Seen, releases: seq<Release>, a: Digest) {
    || (exists p :: p in seen.registry && seen.registry[p].artifact == Some(a))
    || (exists n :: n in seen.live && !seen.live[n].builder && seen.live[n].artifact == Named(a))
    || (exists k :: 0 <= k < |releases| && releases[k].digest == a && !releases[k].devBuild &&
                    forall j :: 0 <= j < k ==> releases[j].devBuild)
  }

  /** Approved, run by a container, or asked for by a request. */
  ghost predicate NeedsCandidate(seen: Seen, c: Digest) {
    || (exists p :: p in seen.registry && seen.registry[p].approved == Some(c))
    || (exists n :: n in seen.live && !seen.live[n].builder && seen.live[n].candidate == Named(c))
    || (exists p, q :: p in seen.asked && (p, q) in seen.asked[p] && seen.asked[p][(p, q)] == c)
  }

  /** All that must survive a collection that has read this of the store. */
  ghost predicate Needed(seen: Seen, s: State, item: Item) {
    match item.kind
    case Artifact => NeedsArtifact(seen, s.releases, item.digest)
    case Candidate => NeedsCandidate(seen, item.digest)
    case Snapshot => exists c :: c in s.records && NeedsCandidate(seen, c) && s.records[c] == Some(item.digest)
  }

  /** What was seen is what there was at some time since the from-th state. */
  ghost predicate Witnessed(past: seq<State>, from: nat, seen: Seen) {
    && (exists k :: from <= k < |past| && past[k].live == seen.live)
    && (exists k :: from <= k < |past| && past[k].registry == seen.registry)
    && seen.asked.Keys == seen.registry.Keys
    && forall p :: p in seen.asked ==> exists k :: from <= k < |past| && past[k].pending == seen.asked[p]
  }

  /** The requests of these registered projects, each as they were at some time. */
  ghost predicate AllAsked(past: seq<State>, from: nat, registry: map<Project, Registration>,
                           asked: map<Project, map<(Project, string), Digest>>, done: set<Project>) {
    && (exists k :: from <= k < |past| && past[k].registry == registry)
    && asked.Keys == done
    && forall p :: p in asked ==> exists k :: from <= k < |past| && past[k].pending == asked[p]
  }

  function Members(q: seq<Project>): set<Project> { set p | p in q }

  lemma MembersMore(q: seq<Project>, i: nat)
    requires i < |q| && forall j, k :: 0 <= j < k < |q| ==> q[j] != q[k]
    ensures Members(q[..i + 1]) == Members(q[..i]) + {q[i]} && q[i] !in Members(q[..i])
    ensures Members(q[i..]) - {q[i]} == Members(q[i + 1..]) && q[i] in Members(q[i..])
  {
    assert q[..i + 1] == q[..i] + [q[i]] && q[i..] == [q[i]] + q[i + 1..];
  }

  lemma NoneAsked(past: seq<State>, from: nat, registry: map<Project, Registration>)
    requires from < |past| && past[from].registry == registry
    ensures AllAsked(past, from, registry, map[], {})
    ensures Asked(map[]) == {}
  {
  }

  lemma OneAsked(past: seq<State>, more: seq<State>, from: nat, registry: map<Project, Registration>,
                 asked: map<Project, map<(Project, string), Digest>>, done: set<Project>, p: Project,
                 found: map<(Project, string), Digest>)
    requires AllAsked(past, from, registry, asked, done) && past <= more && p !in done
    requires from < |more| && more[|more| - 1].pending == found
    ensures p !in asked && AllAsked(more, from, registry, asked[p := found], done + {p})
    ensures Asked(asked[p := found]) == Asked(asked) + Bound(found, p)
  {
    AskedMore(asked, p, found);
  }

  lemma WitnessedAll(past: seq<State>, later: nat, from: nat, k: nat, seen: Seen)
    requires from <= later && from <= k < |past| && past[k].live == seen.live
    requires AllAsked(past, later, seen.registry, seen.asked, seen.registry.Keys)
    ensures Witnessed(past, from, seen)
  {
  }

  lemma WitnessedLater(past: seq<State>, from: nat, more: seq<State>, seen: Seen)
    requires Witnessed(past, from, seen) && past <= more
    ensures Witnessed(more, from, seen)
  {
  }

  /** The containers were at some time these, and one cannot be trusted. */
  ghost predicate Doubted(past: seq<State>, from: nat, live: map<string, Live>) {
    && (exists k :: from <= k < |past| && past[k].live == live)
    && exists n :: n in live && Suspect(live[n])
  }

  lemma DoubtedLater(past: seq<State>, more: seq<State>, from: nat, live: map<string, Live>)
    requires past <= more
    ensures Doubted(past, from, live) ==> Doubted(more, from, live)
  {
  }

  lemma DoubtedNow(past: seq<State>, from: nat, live: map<string, Live>)
    requires from < |past| && past[|past| - 1].live == live
    ensures (exists n :: n in live && Suspect(live[n])) ==> Doubted(past, from, live)
  {
  }

  function Asked(asked: map<Project, map<(Project, string), Digest>>): set<Digest> {
    set p, k | p in asked && k in asked[p] && k.0 == p :: asked[p][k]
  }

  lemma AskedMore(asked: map<Project, map<(Project, string), Digest>>, p: Project, pending: map<(Project, string), Digest>)
    requires p !in asked
    ensures Asked(asked[p := pending]) == Asked(asked) + Bound(pending, p)
  {
    var more := asked[p := pending];
    forall c | c in Asked(asked) + Bound(pending, p) ensures c in Asked(more) {
      if c in Asked(asked) {
        var q, k :| q in asked && k in asked[q] && k.0 == q && asked[q][k] == c;
        assert q in more && more[q] == asked[q];
      } else {
        var k :| k in pending && k.0 == p && pending[k] == c;
        assert more[p] == pending;
      }
    }
  }

  /** The roots, as a collection that has seen this computes them. */
  function RootsOf(seen: Seen, s: State): Roots {
    var candidates := LiveCandidates(seen.live) + Approved(seen.registry) + Asked(seen.asked);
    Roots(LiveArtifacts(seen.live) + Pinned(seen.registry) + Newest(s.releases), candidates,
          SnapshotsOf(candidates, s.records))
  }

  lemma {:induction false} NewestFirst(releases: seq<Release>, a: Digest)
    ensures a in Newest(releases) <==>
            exists k :: 0 <= k < |releases| && releases[k].digest == a && !releases[k].devBuild &&
                        forall j :: 0 <= j < k ==> releases[j].devBuild
  {
    if releases != [] && releases[0].devBuild {
      NewestFirst(releases[1..], a);
      if a in Newest(releases) {
        var k :| 0 <= k < |releases[1..]| && releases[1..][k].digest == a && !releases[1..][k].devBuild &&
                 forall j :: 0 <= j < k ==> releases[1..][j].devBuild;
        assert releases[k + 1] == releases[1..][k];
        forall j | 0 <= j < k + 1 ensures releases[j].devBuild {
          assert j > 0 ==> releases[j] == releases[1..][j - 1];
        }
      }
      if k :| 0 <= k < |releases| && releases[k].digest == a && !releases[k].devBuild && forall j :: 0 <= j < k ==> releases[j].devBuild {
        assert releases[k] == releases[1..][k - 1];
        assert forall j :: 0 <= j < k - 1 ==> releases[1..][j] == releases[j + 1];
      }
    }
  }

  lemma CandidateNeeded(seen: Seen, s: State, c: Digest)
    requires seen.asked.Keys == seen.registry.Keys
    ensures c in RootsOf(seen, s).candidates <==> NeedsCandidate(seen, c)
  {
    if p, q :| p in seen.asked && (p, q) in seen.asked[p] && seen.asked[p][(p, q)] == c {
      assert (p, q).0 == p;
    }
    if c in Asked(seen.asked) {
      var p, k :| p in seen.asked && k in seen.asked[p] && k.0 == p && seen.asked[p][k] == c;
      assert k == (p, k.1);
    }
  }

  /** The roots keep exactly what must survive. */
  lemma NeededKept(seen: Seen, s: State, item: Item)
    requires seen.asked.Keys == seen.registry.Keys
    ensures Kept(RootsOf(seen, s), item) <==> Needed(seen, s, item)
  {
    match item.kind
    case Artifact => NewestFirst(s.releases, item.digest);
    case Candidate => CandidateNeeded(seen, s, item.digest);
    case Snapshot =>
      forall c ensures c in RootsOf(seen, s).candidates <==> NeedsCandidate(seen, c) {
        CandidateNeeded(seen, s, c);
      }
      hide NeedsCandidate, LiveCandidates, Approved, Asked;
  }

  /** An object the collection may remove. */
  predicate Garbage(objects: map<Item, int>, roots: Roots, cutoff: int, item: Item) {
    item in objects && !Kept(roots, item) && objects[item] <= cutoff
  }

  /** While the store is held, others touch neither it nor the collector. */
  ghost predicate Beside(s: State, t: State) {
    && t.gc == s.gc && t.roots == s.roots
    && (!s.gc.Off? ==> t.objects == s.objects && t.records == s.records && t.releases == s.releases)
  }

  lemma OthersAside(s: State, l: Label)
    requires Enabled(s, l) && !Collecting(l)
    ensures Apply(s, l).gc == s.gc && Apply(s, l).roots == s.roots
  {
    hide Enabled, WithObject;
    match l
    case Begin(_) =>
    case Freeze(_, _, _) =>
    case Publish(_, _, _) =>
    case Record(_) =>
    case Deploy(_, _, _, _) =>
    case Approve(_, _) =>
    case Bind(_, _, _) =>
    case End(_) =>
    case Register(_, _) =>
    case Unregister(_) =>
    case Settle(_, _) =>
    case Build(_) =>
    case Appear(_, _) =>
    case Vanish(_) =>
    case Lease(_) =>
    case Unlease(_) =>
  }

  lemma NoPublisher(s: State, l: Label)
    requires Inv(s) && Enabled(s, l) && !Collecting(l) && !s.gc.Off?
    ensures !Storing(l)
  {
    hide Intact, Rooted, Leased, Plain, Backed, Kept, HasRecord, Whole, Trusted;
  }

  lemma BesideStep(s: State, l: Label)
    requires Inv(s) && Enabled(s, l) && !Collecting(l)
    ensures Beside(s, Apply(s, l)) && Inv(Apply(s, l))
  {
    hide Inv, Enabled, Apply;
    StepInv(s, l);
    OthersAside(s, l);
    if !s.gc.Off? {
      NoPublisher(s, l);
      StoreSteady(s, l);
    }
  }

  lemma BesideTrans(s: State, t: State, u: State)
    requires Beside(s, t) && Beside(t, u)
    ensures Beside(s, u)
  {
  }

  predicate SameStore(s: State, t: State) {
    t.objects == s.objects && t.records == s.records && t.releases == s.releases
  }

  /** A registry record whose references are among the roots. */
  predicate Noted(r: Registration, artifacts: set<Digest>, candidates: set<Digest>) {
    && (r.artifact.Some? ==> r.artifact.value in artifacts)
    && (r.approved.Some? ==> r.approved.value in candidates)
  }

  lemma RegistryRead(s: State)
    requires s.gc.Reading? && s.gc.live && !s.gc.registry
    ensures Enabled(s, ReadRegistry)
    ensures Apply(s, ReadRegistry) ==
      s.(gc := s.gc.(registry := true, todo := s.registry.Keys),
         roots := Roots(s.roots.artifacts + Pinned(s.registry), s.roots.candidates + Approved(s.registry), s.roots.snapshots))
  {
  }

  lemma PendingRead(s: State, p: Project)
    requires s.gc.Reading? && s.gc.registry && p in s.gc.todo
    ensures Enabled(s, ReadPending(p))
    ensures Apply(s, ReadPending(p)) ==
      s.(gc := s.gc.(todo := s.gc.todo - {p}),
         roots := s.roots.(candidates := s.roots.candidates + Bound(s.pending, p)))
  {
  }

  predicate AllNotes(registry: map<Project, Registration>, projects: seq<Project>, artifacts: set<Digest>, candidates: set<Digest>) {
    forall k :: 0 <= k < |projects| ==> projects[k] in registry && Noted(registry[projects[k]], artifacts, candidates)
  }

  lemma NotesKept(registry: map<Project, Registration>, projects: seq<Project>, i: nat, a: set<Digest>, c: set<Digest>,
                  a': set<Digest>, c': set<Digest>)
    requires a <= a' && c <= c' && i < |projects| && AllNotes(registry, projects[..i], a, c)
    requires projects[i] in registry && Noted(registry[projects[i]], a', c')
    ensures AllNotes(registry, projects[..i + 1], a', c')
  {
    assert forall k :: 0 <= k < i ==> projects[..i + 1][k] == projects[..i][k];
  }

  /** The roots are those read one by one, and what the registry names besides. */
  predicate Gathered(roots: Roots, artifacts: set<Digest>, candidates: set<Digest>, registry: map<Project, Registration>) {
    roots == Roots(artifacts + Pinned(registry), candidates + Approved(registry), {})
  }

  /** And they are what the registry and the requests name. */
  predicate Tallied(roots: Roots, artifacts0: set<Digest>, candidates0: set<Digest>, registry: map<Project, Registration>,
                    asked: map<Project, map<(Project, string), Digest>>) {
    roots == Roots(artifacts0 + Pinned(registry), candidates0 + Approved(registry) + Asked(asked), {})
  }

  lemma OneTallied(roots: Roots, artifacts0: set<Digest>, candidates0: set<Digest>, registry: map<Project, Registration>,
                   asked: map<Project, map<(Project, string), Digest>>, p: Project, found: map<(Project, string), Digest>)
    requires Tallied(roots, artifacts0, candidates0, registry, asked) && p !in asked
    ensures Tallied(roots.(candidates := roots.candidates + Bound(found, p)), artifacts0, candidates0, registry, asked[p := found])
  {
    AskedMore(asked, p, found);
  }

  lemma NothingAsked(past: seq<State>, from: nat, registry: map<Project, Registration>, projects: seq<Project>,
                     artifacts0: set<Digest>, candidates0: set<Digest>)
    requires from < |past| && past[from].registry == registry && forall p :: p in projects <==> p in registry
    ensures AllAsked(past, from, registry, map[], Members(projects[..0])) && Members(projects[0..]) == registry.Keys
    ensures AllNotes(registry, projects[..0], artifacts0, candidates0)
    ensures var roots := Roots(artifacts0 + Pinned(registry), candidates0 + Approved(registry), {});
            Gathered(roots, artifacts0, candidates0, registry) && Tallied(roots, artifacts0, candidates0, registry, map[])
  {
    NoneAsked(past, from, registry);
    assert Members(projects[..0]) == {};
  }

  lemma AllRead(roots: Roots, registry: map<Project, Registration>, projects: seq<Project>,
                asked: map<Project, map<(Project, string), Digest>>, artifacts0: set<Digest>, candidates0: set<Digest>,
                artifacts: set<Digest>, candidates: set<Digest>)
    requires forall p :: p in projects <==> p in registry
    requires Gathered(roots, artifacts, candidates, registry) && Tallied(roots, artifacts0, candidates0, registry, asked)
    requires AllNotes(registry, projects[..|projects|], artifacts, candidates)
    ensures roots == Roots(artifacts, candidates, {})
    ensures roots == Roots(artifacts0 + Pinned(registry), candidates0 + Approved(registry) + Asked(asked), {})
    ensures Members(projects[|projects|..]) == {} && Members(projects[..|projects|]) == registry.Keys
  {
    assert projects[..|projects|] == projects;
    AllNoted(registry, projects, artifacts, candidates);
  }

  lemma LiveRead(s: State)
    requires s.gc == Reading(false, false, {}, {}) && s.roots == NONE && forall n :: n in s.live ==> Trusted(s.live[n])
    ensures Enabled(s, ReadLive)
    ensures Apply(s, ReadLive) ==
      s.(gc := Reading(true, false, {}, LiveCandidates(s.live)), roots := Roots(LiveArtifacts(s.live), LiveCandidates(s.live), {}))
  {
  }

  lemma RunningRooted(s: State)
    requires Inv(s) && s.gc.Reading?
    ensures s.gc.running <= s.roots.candidates
  {
  }

  lemma LiveRecorded(s: State)
    requires Inv(s)
    ensures LiveCandidates(s.live) <= s.records.Keys
  {
    hide Publishing, Rooted, Leased;
    forall n | n in s.live && s.live[n].candidate.Named? ensures s.live[n].candidate.value in s.records {
      assert Whole(s.objects, s.records, s.live[n].candidate.value);
    }
  }

  lemma StoreRead(s: State, cutoff: int)
    requires s.gc.Reading? && s.gc.registry && s.gc.todo == {} && s.gc.running <= s.records.Keys
    ensures Enabled(s, ReadStore(cutoff))
    ensures Apply(s, ReadStore(cutoff)) ==
      s.(gc := Removing(cutoff),
         roots := Roots(s.roots.artifacts + Newest(s.releases), s.roots.candidates, SnapshotsOf(s.roots.candidates, s.records)))
  {
  }

  lemma AllNoted(registry: map<Project, Registration>, projects: seq<Project>, artifacts: set<Digest>, candidates: set<Digest>)
    requires forall p :: p in registry ==> p in projects
    requires forall k :: 0 <= k < |projects| && projects[k] in registry ==> Noted(registry[projects[k]], artifacts, candidates)
    ensures artifacts + Pinned(registry) == artifacts && candidates + Approved(registry) == candidates
  {
    assert forall p :: p in registry ==> Noted(registry[p], artifacts, candidates);
  }

  /** A trusted container whose references are among the roots. */
  predicate Rooting(c: Live, artifacts: set<Digest>, candidates: set<Digest>) {
    && Trusted(c)
    && (!c.builder ==> c.candidate.value in candidates && (c.artifact.Named? ==> c.artifact.value in artifacts))
  }

  /** The releases q are some of those of s, in the same order. */
  predicate Drawn(q: seq<Release>, s: seq<Release>) {
    if q == [] then true
    else if s == [] then false
    else if q[0] == s[0] then Drawn(q[1..], s[1..])
    else Drawn(q, s[1..])
  }

  lemma {:induction false} DrawnSelf(s: seq<Release>)
    ensures Drawn(s, s)
  {
    if s != [] {
      DrawnSelf(s[1..]);
    }
  }

  lemma {:induction false} DrawnLess(q: seq<Release>, s: seq<Release>)
    requires q != [] && Drawn(q, s)
    ensures Drawn(q[1..], s)
  {
    if q[0] == s[0] {
      if |q| > 1 && q[1] == s[0] {
        DrawnLess(q[1..], s[1..]);
      }
    } else {
      DrawnLess(q, s[1..]);
      if |q| > 1 && q[1] == s[0] {
        DrawnLess(q[1..], s[1..]);
      }
    }
  }

  lemma {:induction false} DrawnTrans(p: seq<Release>, q: seq<Release>, s: seq<Release>)
    requires Drawn(p, q) && Drawn(q, s)
    ensures Drawn(p, s)
    decreases |s|
  {
    if p != [] {
      if q[0] != s[0] {
        DrawnTrans(p, q, s[1..]);
        DrawnWider(p, s);
      } else if p[0] == q[0] {
        DrawnTrans(p[1..], q[1..], s[1..]);
      } else {
        DrawnTrans(p, q[1..], s[1..]);
      }
    }
  }

  lemma {:induction false} DrawnWider(p: seq<Release>, s: seq<Release>)
    requires s != [] && Drawn(p, s[1..])
    ensures Drawn(p, s)
  {
    if p != [] && p[0] == s[0] {
      DrawnLess(p, s[1..]);
    }
  }

  lemma {:induction false} ShelvedDrawn(releases: seq<Release>, d: Digest)
    ensures Drawn(Shelved(releases, d), releases)
    ensures forall r :: r in Shelved(releases, d) <==> r in releases && r.digest != d
  {
    if releases != [] {
      ShelvedDrawn(releases[1..], d);
      if releases[0].digest != d {
        assert Shelved(releases, d)[1..] == Shelved(releases[1..], d);
      } else {
        assert Shelved(releases, d) == Shelved(releases[1..], d);
        DrawnWider(Shelved(releases, d), releases);
      }
    }
  }

  /** Records only went, and the releases kept their order. */
  predicate Fewer(s: State, t: State) {
    && (forall c :: c in t.records ==> c in s.records && t.records[c] == s.records[c])
    && (forall r :: r in t.releases ==> r in s.releases)
    && Drawn(t.releases, s.releases)
  }

  lemma FewerSame(s: State, t: State)
    requires t.records == s.records && t.releases == s.releases
    ensures Fewer(s, t)
  {
    DrawnSelf(s.releases);
  }

  lemma FewerTrans(s: State, t: State, u: State)
    requires Fewer(s, t) && Fewer(t, u)
    ensures Fewer(s, u)
  {
    DrawnTrans(u.releases, t.releases, s.releases);
  }

  lemma WithoutRecordFewer(s: State, item: Item)
    ensures var h := WithoutRecord(s, item);
            && Fewer(s, h) && Unrecorded(h, item)
            && (forall r :: r in s.releases && item != Item(Artifact, r.digest) ==> r in h.releases)
  {
    ShelvedDrawn(s.releases, item.digest);
    DrawnSelf(s.releases);
    hide Drawn, Shelved;
  }

  /** No record of the item is left. */
  predicate Unrecorded(s: State, item: Item) {
    && (item.kind == Candidate ==> item.digest !in s.records)
    && (item.kind == Artifact ==> forall r :: r in s.releases ==> r.digest != item.digest)
  }

  /** Each of these was in use at some time. */
  ghost predicate AllLeased(past: seq<State>, from: nat, items: seq<Item>) {
    forall i :: i in items ==> exists k :: from <= k < |past| && i in past[k].leases
  }

  lemma LeasedOn(past: seq<State>, more: seq<State>, from: nat, a: seq<Item>, b: seq<Item>)
    requires past <= more && from < |past| && AllLeased(past, from, a)
    requires forall i :: i in b ==> i in more[|more| - 1].leases
    ensures AllLeased(more, from, a + b) && AllLeased(more, from, a)
  {
    forall i | i in a + b ensures exists k :: from <= k < |more| && i in more[k].leases {
      if i in b {
        assert i in more[|more| - 1].leases;
      } else {
        var k :| from <= k < |past| && i in past[k].leases;
        assert more[k] == past[k];
      }
    }
  }

  lemma LeasedPasses(past: seq<State>, more: seq<State>, from: nat, from': nat, a: seq<Item>, b: seq<Item>)
    requires past <= more && from <= from' && AllLeased(past, from, a) && AllLeased(more, from', b)
    ensures AllLeased(more, from, a + b)
  {
  }

  lemma LeasedNone(past: seq<State>, from: nat)
    ensures AllLeased(past, from, [])
  {
  }

  lemma LeasedLater(past: seq<State>, more: seq<State>, from: nat, from': nat, items: seq<Item>)
    requires AllLeased(past, from', items) && past <= more && from <= from'
    ensures AllLeased(more, from, items)
  {
  }

  /** From s to t nothing that must survive went, nor its record, nor anything
      younger than the cutoff. */
  ghost predicate Spares(s: State, t: State, seen: Seen, cutoff: int) {
    && (forall i :: i in t.objects ==> i in s.objects && t.objects[i] == s.objects[i])
    && (forall i :: i in s.objects && i !in t.objects ==> !Needed(seen, s, i) && s.objects[i] <= cutoff)
    && Fewer(s, t)
    && (forall r :: r in s.releases && NeedsArtifact(seen, s.releases, r.digest) ==> r in t.releases)
    && (forall c :: c in s.records && NeedsCandidate(seen, c) ==> c in t.records)
  }

  /** What need not survive and is old enough has gone, with its record, unless it
      was skipped; a dry run only reports it. */
  ghost predicate Takes(s: State, t: State, seen: Seen, cutoff: int, dryRun: bool, removed: seq<Item>, skipped: seq<Item>,
                        orphans: seq<Item>) {
    && (forall i :: i in s.objects && !Needed(seen, s, i) && s.objects[i] <= cutoff ==> i in removed || i in skipped)
    && (forall i :: i in removed || i in skipped ==> i in s.objects && !Needed(seen, s, i) && s.objects[i] <= cutoff)
    && (forall i :: i in s.objects ==> (i !in t.objects <==> !dryRun && i in removed))
    && (forall i :: i in skipped ==> i in t.objects)
    && (forall i :: i in orphans ==> !Needed(seen, s, i) && i !in t.objects)
    && (!dryRun ==> forall i :: i in removed || i in orphans ==> Unrecorded(t, i))
    && (dryRun ==> SameStore(s, t) && skipped == [])
  }

  datatype Removal = Removed | InUse | Failed

  /** Between s and t the collector dropped nothing but item and its record. */
  ghost predicate Dropped(s: State, t: State, item: Item) {
    && t.roots == s.roots
    && t.objects == (if item in t.objects then s.objects else s.objects - {item})
    && Fewer(s, t) && (forall r :: r in s.releases && !(item == Item(Artifact, r.digest)) ==> r in t.releases)
    && (forall c :: c in s.records && !(item == Item(Candidate, c)) ==> c in t.records)
  }

  /** Between s and t the collector dropped nothing but garbage. */
  ghost predicate Cleared(s: State, t: State, cutoff: int) {
    && t.roots == s.roots
    && (forall i :: i in t.objects ==> i in s.objects && t.objects[i] == s.objects[i])
    && (forall i :: i in s.objects && i !in t.objects ==> Garbage(s.objects, s.roots, cutoff, i))
    && Fewer(s, t) && (forall r :: r in s.releases && r.digest in s.roots.artifacts ==> r in t.releases)
    && (forall c :: c in s.records && c in s.roots.candidates ==> c in t.records)
  }

  /** A pass takes exactly the garbage among what it lists, but for what is in
      use; a dry run reports it and takes nothing. */
  ghost predicate Passed(s: State, t: State, digests: seq<Digest>, kind: Kind, cutoff: int, dryRun: bool, removed: seq<Item>, skipped: seq<Item>) {
    && (forall i :: i in removed ==> i.kind == kind && i.digest in digests && Garbage(s.objects, s.roots, cutoff, i))
    && (forall i :: i in skipped ==> i.kind == kind && i.digest in digests && Garbage(s.objects, s.roots, cutoff, i) && i in t.objects)
    && (forall d :: d in digests && Garbage(s.objects, s.roots, cutoff, Item(kind, d)) ==>
          Item(kind, d) in removed || Item(kind, d) in skipped)
    && (forall i :: i in s.objects ==> (i !in t.objects <==> !dryRun && i in removed))
    && (!dryRun ==> forall i :: i in removed ==> Unrecorded(t, i))
    && (dryRun ==> SameStore(s, t) && skipped == [])
  }

  /** What several passes over all the objects of their kinds come to. */
  ghost predicate Swept(s: State, t: State, kinds: set<Kind>, cutoff: int, dryRun: bool, removed: seq<Item>, skipped: seq<Item>) {
    && (forall i :: i in removed ==> i.kind in kinds && Garbage(s.objects, s.roots, cutoff, i))
    && (forall i :: i in skipped ==> i.kind in kinds && Garbage(s.objects, s.roots, cutoff, i) && i in t.objects)
    && (forall i :: i in s.objects && i.kind in kinds && Garbage(s.objects, s.roots, cutoff, i) ==> i in removed || i in skipped)
    && (forall i :: i in s.objects ==> (i !in t.objects <==> !dryRun && i in removed))
    && (!dryRun ==> forall i :: i in removed ==> Unrecorded(t, i))
    && (dryRun ==> SameStore(s, t) && skipped == [])
  }

  /** The orphaned records that went: no object and no root stood behind them. */
  ghost predicate Culled(s: State, t: State, dryRun: bool, orphans: seq<Item>) {
    && t.objects == s.objects && t.roots == s.roots
    && (forall i :: i in orphans ==> !Kept(s.roots, i) && i !in s.objects)
    && (forall c :: c in s.records && c !in t.records ==> Item(Candidate, c) in orphans)
    && (!dryRun ==> forall i :: i in orphans ==> Unrecorded(t, i))
    && (dryRun ==> SameStore(s, t))
  }

  /** Every record without an object or a root is among the orphans. */
  ghost predicate Searched(s: State, orphans: seq<Item>) {
    && (forall c :: c in s.records ==> Finds(s, orphans, Item(Candidate, c)))
    && (forall r :: r in s.releases ==> Finds(s, orphans, Item(Artifact, r.digest)))
  }

  predicate Finds(s: State, orphans: seq<Item>, item: Item) {
    Kept(s.roots, item) || item in s.objects || item in orphans
  }

  /** Every record left is of an object that is there or must survive. */
  ghost predicate Tidy(s: State, t: State, seen: Seen) {
    && (forall c :: c in t.records ==> NeedsCandidate(seen, c) || Item(Candidate, c) in t.objects)
    && (forall r :: r in t.releases ==> NeedsArtifact(seen, s.releases, r.digest) || Item(Artifact, r.digest) in t.objects)
  }

  /** The roots hold the newest release, the snapshots of the rooted candidates,
      and every candidate that is referred to. */
  ghost predicate RootsRead(s: State, t: State) {
    && Newest(s.releases) <= t.roots.artifacts
    && t.roots.snapshots == SnapshotsOf(t.roots.candidates, s.records)
    && (forall c :: Referred(t, c) ==> c in t.roots.candidates)
  }

  class World {
    /** What the others do, how much of it at each turn, and which calls fail. */
    const schedule: nat -> Label
    const burst: nat -> nat
    const faulty: nat -> bool

    var tick: nat
    var state: State

    // Every state so far, the present one last.
    ghost var past: seq<State>

    ghost predicate Valid()
      reads this
    {
      Inv(state) && past != [] && past[|past| - 1] == state
    }

    // One of the calls from tick t to tick u fails.
    ghost predicate Faulted(t: nat, u: nat) {
      exists k :: t <= k <= u && faulty(k)
    }

    twostate predicate Later()
      reads this
    {
      old(past) <= past && old(tick) <= tick
    }

    constructor (schedule: nat -> Label, burst: nat -> nat, faulty: nat -> bool, state: State)
      requires Inv(state)
      ensures Valid() && this.state == state
    {
      this.schedule, this.burst, this.faulty, this.state, this.tick := schedule, burst, faulty, state, 0;
      this.past := [state];
    }

    /** Anything the others may do by now. */
    method Others() returns (failed: bool)
      requires Valid()
      modifies this
      ensures Valid() && Later() && Beside(old(state), state)
      ensures failed ==> faulty(old(tick))
    {
      failed := faulty(tick);
      var n := burst(tick);
      hide Inv, Enabled, Apply;
      for k := 0 to n
        invariant Valid() && Later() && Beside(old(state), state)
      {
        var l := schedule(tick);
        tick := tick + 1;
        if !Collecting(l) && Enabled(state, l) {
          BesideStep(state, l);
          BesideTrans(old(state), state, Apply(state, l));
          state := Apply(state, l);
          past := past + [state];
        }
      }
    }

    /** The live containers' projects, candidates and artifacts; none where a
        label cannot be trusted. */
    method ReadLive(live: map<string, Live>) returns (ok: bool, artifacts: set<Digest>, candidates: set<Digest>)
      ensures ok <==> forall n :: n in live ==> Trusted(live[n])
      ensures ok <==> forall n :: n in live ==> !Suspect(live[n])
      ensures ok ==> artifacts == LiveArtifacts(live) && candidates == LiveCandidates(live)
    {
      var names := Elements(live.Keys);
      ok, artifacts, candidates := true, {}, {};
      for i := 0 to |names|
        invariant ok && artifacts <= LiveArtifacts(live) && candidates <= LiveCandidates(live)
        invariant forall k :: 0 <= k < i ==> Rooting(live[names[k]], artifacts, candidates)
      {
        var c := live[names[i]];
        if c.builder {
          continue;
        }
        if !c.project.Named? || !c.candidate.Named? {
          return false, {}, {};
        }
        candidates := candidates + {c.candidate.value};
        match c.artifact {
          case Absent =>
          case Malformed => return false, {}, {};
          case Named(a) => artifacts := artifacts + {a};
        }
      }
      forall n | n in live
        ensures Rooting(live[n], artifacts, candidates)
      {
        assert n in names;
      }
    }

    method PendingOf(project: Project) returns (bound: set<Digest>)
      ensures bound == Bound(state.pending, project)
    {
      var pending := state.pending;
      var keys := Elements(pending.Keys);
      bound := {};
      for i := 0 to |keys|
        invariant bound <= Bound(pending, project)
        invariant forall k :: 0 <= k < i && keys[k].0 == project ==> pending[keys[k]] in bound
      {
        if keys[i].0 == project {
          bound := bound + {pending[keys[i]]};
        }
      }
      assert forall k :: k in pending ==> k in keys;
    }

    method NewestRelease(releases: seq<Release>) returns (newest: set<Digest>)
      ensures newest == Newest(releases)
    {
      newest := {};
      var i := 0;
      while i < |releases|
        invariant i <= |releases| && newest == {} && Newest(releases[i..]) == Newest(releases)
      {
        if !releases[i].devBuild {
          return {releases[i].digest};
        }
        i := i + 1;
      }
    }

    /** A record read by itself, which may fail. */
    method ReadRecord(c: Digest) returns (record: Option<Option<Digest>>)
      ensures record.Some? ==> c in state.records && record.value == state.records[c]
      ensures record.None? ==> c !in state.records || faulty(tick)
    {
      if c in state.records && !faulty(tick) {
        return Some(state.records[c]);
      }
      return None;
    }

    /** The snapshots of the rooted candidates. A candidate that runs must have its
        record read, one way or the other. */
    method Snapshots(candidates: set<Digest>, running: set<Digest>) returns (ok: bool, snapshots: set<Digest>)
      requires running <= candidates
      ensures ok ==> running <= state.records.Keys && snapshots == SnapshotsOf(candidates, state.records)
      ensures !ok ==> faulty(tick) || !(running <= state.records.Keys)
    {
      var records := state.records;
      var listed := Elements(records.Keys);
      var left := running;
      snapshots := {};
      for i := 0 to |listed|
        invariant snapshots <= SnapshotsOf(candidates, records)
        invariant forall k :: 0 <= k < i && listed[k] in candidates && records[listed[k]].Some? ==> records[listed[k]].value in snapshots
        invariant left <= running && running - left <= records.Keys
      {
        var c := listed[i];
        if c in candidates && records[c].Some? {
          snapshots := snapshots + {records[c].value};
        }
        left := left - {c};
      }
      assert forall c :: c in records ==> c in listed;
      assert snapshots == SnapshotsOf(candidates, records);
      var missed := Elements(left);
      for i := 0 to |missed|
        invariant snapshots == SnapshotsOf(candidates, records)
        invariant forall k :: 0 <= k < i ==> missed[k] in records
      {
        var record := ReadRecord(missed[i]);
        if record.None? {
          return false, {};
        }
        if record.value.Some? {
          snapshots := snapshots + {record.value.value};
        }
      }
      assert forall c :: c in left ==> c in missed;
      ok := true;
    }

    /** The collector's own next step. */
    method Advance(l: Label)
      requires Valid() && Enabled(state, l) && Collecting(l)
      modifies `state, `past
      ensures Valid() && Later() && state == Apply(old(state), l)
    {
      StepInv(state, l);
      state := Apply(state, l);
      past := past + [state];
    }

    /** The references of the registry, and of the requests of its projects. */
    method ReadProjects(artifacts0: set<Digest>, candidates0: set<Digest>)
      returns (ok: bool, artifacts: set<Digest>, candidates: set<Digest>, ghost registry0: map<Project, Registration>,
               ghost asked: map<Project, map<(Project, string), Digest>>)
      requires Valid() && state.gc.Reading? && state.gc.live && !state.gc.registry
      requires state.roots == Roots(artifacts0, candidates0, {})
      modifies this
      ensures Valid() && Later() && SameStore(old(state), state) && state.gc.Reading?
      ensures !ok ==> Faulted(old(tick), tick)
      ensures ok ==> state.gc == old(state).gc.(registry := true, todo := {}) && state.roots == Roots(artifacts, candidates, {})
      ensures ok ==> registry0 == old(state).registry && AllAsked(past, |old(past)| - 1, registry0, asked, registry0.Keys)
      ensures ok ==> state.roots == Roots(artifacts0 + Pinned(registry0), candidates0 + Approved(registry0) + Asked(asked), {})
    {
      hide Inv, Apply, Pinned, Approved, Bound, Noted, Asked, AllAsked, Members, Gathered, Tallied, AllNotes;
      artifacts, candidates := artifacts0, candidates0;
      var registry := state.registry;
      registry0, asked := registry, map[];
      var projects := Elements(registry.Keys);
      RegistryRead(state);
      Advance(Label.ReadRegistry);
      NothingAsked(past, |old(past)| - 1, registry, projects, artifacts0, candidates0);
      for i := 0 to |projects|
        invariant Valid() && Later() && SameStore(old(state), state)
        invariant state.gc == old(state).gc.(registry := true, todo := Members(projects[i..]))
        invariant Gathered(state.roots, artifacts, candidates, registry)
        invariant Tallied(state.roots, artifacts0, candidates0, registry, asked)
        invariant AllNotes(registry, projects[..i], artifacts, candidates)
        invariant AllAsked(past, |old(past)| - 1, registry, asked, Members(projects[..i]))
      {
        ghost var a, c, was, roots := artifacts, candidates, past, state.roots;
        ghost var found;
        MembersMore(projects, i);
        ok, artifacts, candidates, found := ReadProject(registry, projects[i], artifacts, candidates);
        if !ok {
          return;
        }
        NotesKept(registry, projects, i, a, c, artifacts, candidates);
        OneAsked(was, past, |old(past)| - 1, registry, asked, Members(projects[..i]), projects[i], found);
        OneTallied(roots, artifacts0, candidates0, registry, asked, projects[i], found);
        asked := asked[projects[i] := found];
      }
      AllRead(state.roots, registry, projects, asked, artifacts0, candidates0, artifacts, candidates);
      ok := true;
    }

    method ReadProject(registry: map<Project, Registration>, project: Project, artifacts0: set<Digest>, candidates0: set<Digest>)
      returns (ok: bool, artifacts: set<Digest>, candidates: set<Digest>, ghost found: map<(Project, string), Digest>)
      requires Valid() && state.gc.Reading? && state.gc.registry && project in state.gc.todo && project in registry
      requires Gathered(state.roots, artifacts0, candidates0, registry)
      modifies this
      ensures Valid() && Later() && SameStore(old(state), state) && state.gc.Reading?
      ensures !ok ==> faulty(old(tick))
      ensures ok ==> state.gc == old(state).gc.(todo := old(state).gc.todo - {project})
      ensures ok ==> Gathered(state.roots, artifacts, candidates, registry)
      ensures ok ==> artifacts0 <= artifacts && candidates0 <= candidates && Noted(registry[project], artifacts, candidates)
      ensures ok ==> found == state.pending &&
                     state.roots == old(state.roots).(candidates := old(state).roots.candidates + Bound(found, project))
    {
      hide Inv, Apply, Pinned, Approved, Bound;
      found := map[];
      artifacts, candidates := Note(registry, project, artifacts0, candidates0);
      var failed := Others();
      if failed {
        return false, {}, {}, found;
      }
      var bound := PendingOf(project);
      candidates := candidates + bound;
      found := state.pending;
      PendingRead(state, project);
      Advance(Label.ReadPending(project));
      ok := true;
    }

    method Note(registry: map<Project, Registration>, project: Project, artifacts0: set<Digest>, candidates0: set<Digest>)
      returns (artifacts: set<Digest>, candidates: set<Digest>)
      requires project in registry
      ensures artifacts0 <= artifacts && candidates0 <= candidates && Noted(registry[project], artifacts, candidates)
      ensures artifacts + Pinned(registry) == artifacts0 + Pinned(registry)
      ensures candidates + Approved(registry) == candidates0 + Approved(registry)
    {
      artifacts, candidates := artifacts0, candidates0;
      var record := registry[project];
      if record.artifact.Some? {
        artifacts := artifacts + {record.artifact.value};
      }
      if record.approved.Some? {
        candidates := candidates + {record.approved.value};
      }
    }

    /** What must survive, from the containers, the registry, the requests and the
        store; refused if a call fails or a container cannot be trusted. */
    method ReadRoots(cutoff: int) returns (ok: bool, roots: Roots, ghost seen: Seen)
      requires Valid() && state.gc == Reading(false, false, {}, {}) && state.roots == NONE
      modifies this
      ensures Valid() && Later() && SameStore(old(state), state)
      ensures !ok ==> state.gc.Reading?
      ensures !ok ==> Faulted(old(tick), tick) || Doubted(past, |old(past)| - 1, seen.live)
      ensures ok ==> state.gc == Removing(cutoff) && state.roots == roots
      ensures ok ==> Newest(state.releases) <= roots.artifacts && roots.snapshots == SnapshotsOf(roots.candidates, state.records)
      ensures ok ==> Witnessed(past, |old(past)| - 1, seen) && roots == RootsOf(seen, state)
      ensures ok ==> forall n :: n in seen.live ==> !Suspect(seen.live[n])
    {
      hide Inv, Apply, Enabled, Newest, SnapshotsOf, LiveCandidates, LiveArtifacts, Pinned, Approved, Asked, Witnessed, AllAsked;
      hide Doubted, Suspect;
      roots, seen := NONE, Seen(map[], map[], map[]);
      var artifacts, candidates;
      ghost var live, k;
      ok, artifacts, candidates, live, k := ReadContainers();
      seen := Seen(live, map[], map[]);
      ghost var read := past;
      if ok {
        var failed := Others();
        ok := !failed;
      }
      if ok {
        ghost var was, registry, asked := past, state.registry, map[];
        ok, artifacts, candidates, registry, asked := ReadProjects(artifacts, candidates);
        if ok {
          seen := Seen(live, registry, asked);
          WitnessedAll(past, |was| - 1, |old(past)| - 1, k, seen);
          was := past;
          ok, roots := ReadStored(cutoff, artifacts, candidates);
          WitnessedLater(was, |old(past)| - 1, past, seen);
        }
      }
      DoubtedLater(read, past, |old(past)| - 1, live);
    }

    /** What the containers name, if each can be trusted to. */
    method ReadContainers()
      returns (ok: bool, artifacts: set<Digest>, candidates: set<Digest>, ghost live: map<string, Live>, ghost k: nat)
      requires Valid() && state.gc == Reading(false, false, {}, {}) && state.roots == NONE
      modifies this
      ensures Valid() && Later() && SameStore(old(state), state) && state.gc.Reading?
      ensures !ok ==> Faulted(old(tick), tick) || Doubted(past, |old(past)| - 1, live)
      ensures ok ==> state.gc == Reading(true, false, {}, LiveCandidates(live)) && LiveCandidates(live) <= state.records.Keys
      ensures ok ==> artifacts == LiveArtifacts(live) && candidates == LiveCandidates(live)
      ensures ok ==> state.roots == Roots(artifacts, candidates, {})
      ensures ok ==> (forall n :: n in live ==> !Suspect(live[n])) && |old(past)| - 1 <= k < |past| && past[k].live == live
    {
      hide Inv, Apply, Enabled, LiveCandidates, LiveArtifacts, Doubted, Suspect;
      artifacts, candidates, live, k := {}, {}, map[], 0;
      var failed := Others();
      if failed {
        return false, {}, {}, live, k;
      }
      live, k := state.live, |past| - 1;
      DoubtedNow(past, |old(past)| - 1, live);
      ok, artifacts, candidates := ReadLive(state.live);
      if ok {
        LiveRead(state);
        LiveRecorded(state);
        Advance(Label.ReadLive);
      }
    }

    /** The newest release and the snapshots, which nobody else changes meanwhile. */
    method ReadStored(cutoff: int, artifacts: set<Digest>, candidates: set<Digest>) returns (ok: bool, roots: Roots)
      requires Valid() && state.gc.Reading? && state.gc.registry && state.gc.todo == {}
      requires state.roots == Roots(artifacts, candidates, {})
      modifies this
      ensures Valid() && Later() && SameStore(old(state), state)
      ensures !ok ==> state.gc.Reading?
      ensures !ok && old(state.gc.running) <= state.records.Keys ==> Faulted(old(tick), tick)
      ensures ok ==> state.gc == Removing(cutoff) && state.roots == roots
      ensures ok ==> roots == Roots(artifacts + Newest(state.releases), candidates, SnapshotsOf(candidates, state.records))
    {
      hide Inv, Apply, Enabled, Newest, SnapshotsOf;
      roots := NONE;
      var failed := Others();
      if failed {
        return false, roots;
      }
      var newest := NewestRelease(state.releases);
      failed := Others();
      if failed {
        return false, roots;
      }
      var snapshots;
      RunningRooted(state);
      ok, snapshots := Snapshots(candidates, state.gc.running);
      if !ok {
        return;
      }
      StoreRead(state, cutoff);
      Advance(Label.ReadStore(cutoff));
      roots := Roots(artifacts + newest, candidates, snapshots);
    }

    /** Unpublish one object and drop its record: refused while it is leased, and
        able to fail before, and between, the two. */
    method RemoveObject(item: Item, cutoff: int) returns (r: Removal)
      requires Valid() && state.gc == Removing(cutoff) && Garbage(state.objects, state.roots, cutoff, item)
      modifies this
      ensures Valid() && Later() && Dropped(old(state), state, item) && state.roots == old(state).roots
      ensures r.Removed? ==> state.gc == Removing(cutoff) && item !in state.objects && Unrecorded(state, item)
      ensures r.InUse? ==> state.gc == Removing(cutoff) && item in state.objects && item in state.leases
      ensures r.Failed? ==> state.gc.Removing? || state.gc.Unrecording?
      ensures r.Failed? ==> Faulted(old(tick), tick)
    {
      hide Inv, Kept, Dropped, Enabled, Apply, Unrecorded, SameStore;
      ghost var was := state;
      var failed := Others();
      BesideDropped(was, state, item);
      if failed {
        return Failed;
      }
      if item in state.leases {
        return InUse;
      }
      RemoveEnabled(state, item, cutoff);
      ghost var before := state;
      Advance(Label.Remove(item));
      ghost var after := state;
      failed := Others();
      RemoveDropped(was, before, after, state, item, cutoff);
      if failed {
        return Failed;
      }
      UnrecordDropped(was, state, item, cutoff);
      Advance(Label.Unrecord);
      return Removed;
    }

    /** An object of garbage: reported, skipped as in use, or gone. */
    method Take(ghost s: State, ghost from: nat, ghost before: seq<Digest>, kind: Kind, d: Digest, cutoff: int, dryRun: bool,
                removed0: seq<Item>, skipped0: seq<Item>)
      returns (ok: bool, removed: seq<Item>, skipped: seq<Item>)
      requires Valid() && state.gc == Removing(cutoff) && state.roots == s.roots && d !in before
      requires Item(kind, d) in state.objects && Garbage(s.objects, s.roots, cutoff, Item(kind, d)) &&
               Garbage(state.objects, state.roots, cutoff, Item(kind, d))
      requires Cleared(s, state, cutoff) && Passed(s, state, before, kind, cutoff, dryRun, removed0, skipped0)
      requires from < |past| && AllLeased(past, from, skipped0)
      modifies this
      ensures Valid() && Later() && Cleared(s, state, cutoff) && state.roots == s.roots
      ensures ok ==> state.gc == Removing(cutoff)
      ensures !ok ==> state.gc.Removing? || state.gc.Unrecording?
      ensures !ok ==> Faulted(old(tick), tick)
      ensures ok ==> Passed(s, state, before + [d], kind, cutoff, dryRun, removed, skipped)
      ensures ok ==> AllLeased(past, from, skipped)
    {
      hide Inv, Kept, Cleared, Passed, Dropped, Unrecorded, AllLeased, Garbage;
      var item := Item(kind, d);
      removed, skipped, ok := removed0, skipped0, true;
      ghost var was := state;
      if dryRun {
        PassedOn(s, was, state, before, kind, cutoff, dryRun, removed, skipped, d);
        removed := removed + [item];
      } else {
        var r := RemoveObject(item, cutoff);
        ClearedOn(s, was, state, cutoff, item);
        ok := !r.Failed?;
        if ok {
          PassedOn(s, was, state, before, kind, cutoff, dryRun, removed, skipped, d);
        }
        LeasedOn(old(past), past, from, skipped0, if r.InUse? then [item] else []);
        if r.InUse? {
          skipped := skipped + [item];
        } else {
          removed := removed + [item];
        }
      }
    }

    /** One pass over the listed objects of a kind. */
    method RemovePass(digests: seq<Digest>, kind: Kind, cutoff: int, dryRun: bool) returns (ok: bool, removed: seq<Item>, skipped: seq<Item>)
      requires Valid() && state.gc == Removing(cutoff)
      requires forall i, j :: 0 <= i < j < |digests| ==> digests[i] != digests[j]
      modifies this
      ensures Valid() && Later() && Cleared(old(state), state, cutoff) && state.roots == old(state).roots
      ensures ok ==> state.gc == Removing(cutoff)
      ensures !ok ==> state.gc.Removing? || state.gc.Unrecording?
      ensures !ok ==> Faulted(old(tick), tick)
      ensures ok ==> Passed(old(state), state, digests, kind, cutoff, dryRun, removed, skipped)
      ensures ok ==> AllLeased(past, |old(past)| - 1, skipped)
    {
      FewerSame(state, state);
      assert Cleared(state, state, cutoff) && Passed(state, state, [], kind, cutoff, dryRun, [], []);
      hide Inv, Kept, Cleared, Passed, Unrecorded, AllLeased, Fewer, Faulted;
      LeasedNone(past, |past| - 1);
      removed, skipped := [], [];
      for i := 0 to |digests|
        invariant Valid() && Later() && state.gc == Removing(cutoff) && state.roots == old(state).roots && Cleared(old(state), state, cutoff)
        invariant Passed(old(state), state, digests[..i], kind, cutoff, dryRun, removed, skipped)
        invariant AllLeased(past, |old(past)| - 1, skipped)
      {
        var item := Item(kind, digests[i]);
        assert digests[..i + 1] == digests[..i] + [digests[i]] && digests[i] !in digests[..i];
        Untouched(old(state), state, digests[..i], kind, cutoff, dryRun, removed, skipped, digests[i]);
        if Kept(state.roots, item) || item !in state.objects || state.objects[item] > cutoff {
          continue;
        }
        ok, removed, skipped := Take(old(state), |old(past)| - 1, digests[..i], kind, digests[i], cutoff, dryRun, removed, skipped);
        if !ok {
          return;
        }
      }
      assert digests[..|digests|] == digests;
      ok := true;
    }

    method ListObjects(kind: Kind) returns (digests: seq<Digest>)
      ensures forall i, j :: 0 <= i < j < |digests| ==> digests[i] != digests[j]
      ensures forall i :: i in state.objects && i.kind == kind ==> i.digest in digests
    {
      digests := Elements(set i | i in state.objects && i.kind == kind :: i.digest);
    }

    /** A pass over all the objects of a kind. */
    method RemoveKind(ghost s: State, ghost from: nat, ghost done: set<Kind>, kind: Kind, cutoff: int, dryRun: bool,
                      removed0: seq<Item>, skipped0: seq<Item>)
      returns (ok: bool, removed: seq<Item>, skipped: seq<Item>)
      requires Valid() && state.gc == Removing(cutoff) && state.roots == s.roots && kind !in done
      requires Cleared(s, state, cutoff) && Swept(s, state, done, cutoff, dryRun, removed0, skipped0)
      requires from < |past| && AllLeased(past, from, skipped0)
      modifies this
      ensures Valid() && Later() && Cleared(s, state, cutoff) && state.roots == s.roots
      ensures ok ==> state.gc == Removing(cutoff)
      ensures !ok ==> state.gc.Removing? || state.gc.Unrecording?
      ensures !ok ==> Faulted(old(tick), tick)
      ensures ok ==> Swept(s, state, done + {kind}, cutoff, dryRun, removed, skipped)
      ensures ok ==> AllLeased(past, from, skipped)
    {
      hide Inv, Kept, Cleared, Passed, Swept, AllLeased, Faulted;
      ghost var was, before := state, past;
      var digests := ListObjects(kind);
      ok, removed, skipped := RemovePass(digests, kind, cutoff, dryRun);
      ClearedTrans(s, was, state, cutoff);
      if ok {
        SweptOn(s, was, state, done, kind, digests, cutoff, dryRun, removed0, skipped0, removed, skipped);
        LeasedPasses(before, past, from, |before| - 1, skipped0, skipped);
      }
      removed, skipped := removed0 + removed, skipped0 + skipped;
    }

    /** The three passes. */
    method RemoveAll(cutoff: int, dryRun: bool) returns (ok: bool, removed: seq<Item>, skipped: seq<Item>)
      requires Valid() && state.gc == Removing(cutoff)
      modifies this
      ensures Valid() && Later() && Cleared(old(state), state, cutoff) && state.roots == old(state).roots
      ensures ok ==> state.gc == Removing(cutoff)
      ensures !ok ==> state.gc.Removing? || state.gc.Unrecording?
      ensures !ok ==> Faulted(old(tick), tick)
      ensures ok ==> Swept(old(state), state, {Artifact, Candidate, Snapshot}, cutoff, dryRun, removed, skipped)
      ensures ok ==> AllLeased(past, |old(past)| - 1, skipped)
    {
      hide Inv, Kept, Cleared, Passed, Swept, AllLeased, Fewer, Garbage;
      ghost var s, from := state, |past| - 1;
      NothingSwept(s, cutoff, dryRun);
      LeasedNone(past, from);
      ok, removed, skipped := RemoveKind(s, from, {}, Artifact, cutoff, dryRun, [], []);
      if ok {
        ok, removed, skipped := RemoveKind(s, from, {} + {Artifact}, Candidate, cutoff, dryRun, removed, skipped);
        if ok {
          ok, removed, skipped := RemoveKind(s, from, {} + {Artifact} + {Candidate}, Snapshot, cutoff, dryRun, removed, skipped);
          assert {} + {Artifact} + {Candidate} + {Snapshot} == {Artifact, Candidate, Snapshot};
        }
      }
    }

    /** RemoveObject where there is no object: the record goes, if it is there. */
    method RemoveRecord(item: Item, cutoff: int) returns (ok: bool)
      requires Valid() && state.gc == Removing(cutoff) && !Kept(state.roots, item) && item !in state.objects
      modifies this
      ensures Valid() && Later() && Dropped(old(state), state, item) && state.roots == old(state).roots && state.objects == old(state).objects && state.gc == Removing(cutoff)
      ensures ok ==> Unrecorded(state, item)
      ensures !ok ==> SameStore(old(state), state) && Faulted(old(tick), tick)
    {
      hide Inv, Kept, Dropped, Enabled, Apply, HasRecord;
      var failed := Others();
      NothingDropped(old(state), state, item);
      ghost var was := state;
      if !failed && HasRecord(state, item) {
        OrphanDropped(state, item);
        Advance(Label.Orphan(item));
        DroppedBeside(old(state), was, state, item);
      }
      ok := !failed;
    }

    /** Records whose object is gone go too; kept ones are never touched. */
    method RemoveOrphans(cutoff: int, dryRun: bool) returns (ok: bool, orphans: seq<Item>)
      requires Valid() && state.gc == Removing(cutoff)
      modifies this
      ensures Valid() && Later() && Cleared(old(state), state, cutoff) && Culled(old(state), state, dryRun, orphans)
      ensures state.gc == Removing(cutoff) && state.roots == old(state).roots
      ensures !ok ==> Faulted(old(tick), tick)
      ensures Faulted(old(tick), tick) || Searched(old(state), orphans)
    {
      hide Inv, Kept, Cleared, Culled, Dropped, Fewer, Unrecorded, Finds;
      NothingCulled(state, cutoff, dryRun);
      orphans := [];
      var all := Recorded();
      ok := true;
      for i := 0 to |all|
        invariant Valid() && Later() && state.gc == Removing(cutoff) && state.roots == old(state).roots && ok
        invariant Cleared(old(state), state, cutoff) && Culled(old(state), state, dryRun, orphans)
        invariant Faulted(old(tick), tick) || forall k :: 0 <= k < i ==> Finds(old(state), orphans, all[k])
      {
        ghost var before := orphans;
        ok, orphans := CullOne(old(state), all[i], cutoff, dryRun, orphans);
        FindsMore(old(state), before, orphans);
        if !ok {
          return;
        }
      }
      SearchedAll(old(state), all, orphans);
    }

    /** One record. */
    method CullOne(ghost s: State, item: Item, cutoff: int, dryRun: bool, orphans0: seq<Item>)
      returns (ok: bool, orphans: seq<Item>)
      requires Valid() && state.gc == Removing(cutoff) && state.roots == s.roots
      requires Cleared(s, state, cutoff) && Culled(s, state, dryRun, orphans0)
      modifies this
      ensures Valid() && Later() && state.gc == Removing(cutoff) && state.roots == s.roots
      ensures Cleared(s, state, cutoff) && Culled(s, state, dryRun, orphans) && orphans0 <= orphans
      ensures !ok ==> Faulted(old(tick), tick)
      ensures Faulted(old(tick), tick) || Finds(s, orphans, item)
    {
      hide Inv, Kept, Cleared, Dropped, Fewer, Unrecorded;
      orphans, ok := orphans0, true;
      if Kept(state.roots, item) {
        return;
      }
      ghost var was := state;
      var failed := Others();
      Idle(s, was, state, cutoff, dryRun, orphans);
      if failed || item in state.objects {
        return;
      }
      was := state;
      if !dryRun {
        ok := RemoveRecord(item, cutoff);
      }
      if ok {
        CulledOn(s, was, state, cutoff, dryRun, orphans, item);
        orphans := orphans + [item];
      } else {
        Idle(s, was, state, cutoff, dryRun, orphans);
      }
    }

    /** The items that have a record. */
    method Recorded() returns (all: seq<Item>)
      ensures forall c :: c in state.records ==> Item(Candidate, c) in all
      ensures forall r :: r in state.releases ==> Item(Artifact, r.digest) in all
    {
      var releases := state.releases;
      var candidates := Elements(state.records.Keys);
      var first := seq(|releases|, i requires 0 <= i < |releases| => Item(Artifact, releases[i].digest));
      var second := seq(|candidates|, i requires 0 <= i < |candidates| => Item(Candidate, candidates[i]));
      forall c | c in state.records ensures Item(Candidate, c) in second {
        var i :| 0 <= i < |candidates| && candidates[i] == c;
        assert second[i] == Item(Candidate, c);
      }
      forall r | r in releases ensures Item(Artifact, r.digest) in first {
        var i :| 0 <= i < |releases| && releases[i] == r;
        assert first[i] == Item(Artifact, r.digest);
      }
      all := first + second;
    }

    /** A collection that has the store to itself. It gives up with the store
        untouched, and only for a call that failed or a container that cannot be
        trusted; or it takes the garbage that is not in use: nothing that must
        survive by what it has seen, nothing younger than the cutoff. */
    method Collect(cutoff: int, dryRun: bool) returns (r: Outcome, ghost seen: Seen)
      requires Valid() && state.gc == Reading(false, false, {}, {}) && state.roots == NONE
      modifies this
      ensures Valid() && Later() && state.gc.Off?
      ensures r.Refused? ==> SameStore(old(state), state)
      ensures r.Refused? ==> Faulted(old(tick), tick) || Doubted(past, |old(past)| - 1, seen.live)
      ensures r.Broke? ==> Faulted(old(tick), tick)
      ensures !r.Refused? ==> Witnessed(past, |old(past)| - 1, seen) && forall n :: n in seen.live ==> !Suspect(seen.live[n])
      ensures !r.Refused? ==> Spares(old(state), state, seen, cutoff)
      ensures r.Collected? ==> Takes(old(state), state, seen, cutoff, dryRun, r.removed, r.skipped, r.orphans)
      ensures r.Collected? ==> AllLeased(past, |old(past)| - 1, r.skipped)
      ensures r.Collected? && !dryRun ==> Faulted(old(tick), tick) || Tidy(old(state), state, seen)
      ensures !r.Refused? ==> Cleared(old(state).(roots := state.roots), state, cutoff) && RootsRead(old(state), state)
      ensures r.Collected? ==>
        Swept(old(state).(roots := state.roots), state, {Artifact, Candidate, Snapshot}, cutoff, dryRun, r.removed, r.skipped)
    {
      hide Inv, Kept, Cleared, Passed, Swept, Culled, Enabled, Apply, RootsRead, Spares, Takes, Witnessed, Doubted, Suspect, RootsOf;
      hide AllLeased, Tidy, Searched, Fewer;
      var ok, roots;
      ok, roots, seen := ReadRoots(cutoff);
      if !ok {
        ghost var read := past;
        Finished(state);
        Advance(Label.Finish);
        DoubtedLater(read, past, |old(past)| - 1, seen.live);
        return Refused, seen;
      }
      ghost var was, before, from := state, past, |old(past)| - 1;
      SeenKeys(before, from, seen);
      var removed, skipped, orphans;
      ok, removed, skipped, orphans := Reclaim(cutoff, dryRun);
      Covered(old(state), was, state);
      Judged(old(state), was, state, seen, cutoff, dryRun, removed, skipped, orphans);
      ghost var after := past;
      Finished(state);
      Advance(Label.Finish);
      WitnessedLater(before, from, past, seen);
      if ok {
        LeasedLater(after, past, from, |before| - 1, skipped);
      }
      r := if ok then Collected(removed, skipped, orphans) else Broke;
    }

    /** All that is removed once the roots are known. */
    method Reclaim(cutoff: int, dryRun: bool) returns (ok: bool, removed: seq<Item>, skipped: seq<Item>, orphans: seq<Item>)
      requires Valid() && state.gc == Removing(cutoff)
      modifies this
      ensures Valid() && Later() && state.roots == old(state).roots && (state.gc.Removing? || state.gc.Unrecording?)
      ensures Cleared(old(state), state, cutoff)
      ensures !ok ==> Faulted(old(tick), tick)
      ensures ok ==> Swept(old(state), state, {Artifact, Candidate, Snapshot}, cutoff, dryRun, removed, skipped)
      ensures ok ==> Purged(old(state), state, dryRun, orphans) && AllLeased(past, |old(past)| - 1, skipped)
      ensures ok && !dryRun && !Faulted(old(tick), tick) ==> Cleaned(old(state), state)
    {
      hide Inv, Kept, Cleared, Passed, Swept, Culled, AllLeased, Searched, Fewer, Purged, Cleaned;
      ok, removed, skipped := RemoveAll(cutoff, dryRun);
      orphans := [];
      if ok {
        ghost var swept, mid := state, past;
        ok, orphans := RemoveOrphans(cutoff, dryRun);
        LeasedLater(mid, past, |old(past)| - 1, |old(past)| - 1, skipped);
        Purging(old(state), swept, state, cutoff, dryRun, removed, skipped, orphans);
      }
    }
  }

  lemma BesideDropped(s: State, t: State, item: Item)
    requires Beside(s, t) && !s.gc.Off?
    ensures Dropped(s, t, item) && SameStore(s, t) && t.gc == s.gc && t.roots == s.roots
  {
    FewerSame(s, t);
    hide Drawn;
  }

  lemma RemoveEnabled(s: State, item: Item, cutoff: int)
    requires s.gc == Removing(cutoff) && Garbage(s.objects, s.roots, cutoff, item) && item !in s.leases
    ensures Enabled(s, Label.Remove(item))
  {
  }

  /** The object went, others did this and that, and the record is still there. */
  lemma RemoveDropped(s: State, t: State, u: State, v: State, item: Item, cutoff: int)
    requires Beside(s, t) && t.gc == Removing(cutoff) && s.gc == t.gc && Enabled(t, Label.Remove(item))
    requires u == Apply(t, Label.Remove(item)) && Beside(u, v)
    ensures Dropped(s, v, item) && v.roots == s.roots && v.gc == Unrecording(cutoff, item) && item !in v.objects
  {
    assert v.releases == s.releases && v.records == s.records && v.objects == s.objects - {item};
    FewerSame(s, v);
    hide Drawn, Fewer;
  }

  lemma UnrecordDropped(s: State, t: State, item: Item, cutoff: int)
    requires Dropped(s, t, item) && t.gc == Unrecording(cutoff, item) && item !in t.objects && t.roots == s.roots
    ensures Enabled(t, Label.Unrecord)
    ensures var h := Apply(t, Label.Unrecord);
            && Dropped(s, h, item) && Unrecorded(h, item) && h.roots == s.roots
            && h.gc == Removing(cutoff) && item !in h.objects
  {
    var h := Apply(t, Label.Unrecord);
    WithoutRecordFewer(t, item);
    DroppedRecord(t, item);
    assert h == WithoutRecord(t, item).(gc := Removing(cutoff));
    hide WithoutRecord, Shelved, Apply;
    assert Fewer(t, h) by { hide Drawn; }
    FewerTrans(s, t, h);
    hide Fewer, Drawn;
  }

  lemma NothingDropped(s: State, t: State, item: Item)
    requires SameStore(s, t) && t.roots == s.roots
    ensures Dropped(s, t, item)
    ensures !HasRecord(t, item) ==> Unrecorded(t, item)
  {
    FewerSame(s, t);
    hide Drawn;
  }

  lemma DroppedBeside(s: State, t: State, u: State, item: Item)
    requires SameStore(s, t) && t.roots == s.roots && Dropped(t, u, item)
    ensures Dropped(s, u, item)
  {
    hide Drawn;
  }

  lemma OrphanDropped(s: State, item: Item)
    requires s.gc.Removing? && HasRecord(s, item) && item !in s.objects && !Kept(s.roots, item)
    ensures Enabled(s, Label.Orphan(item))
    ensures var h := Apply(s, Label.Orphan(item));
            Dropped(s, h, item) && Unrecorded(h, item) && h == s.(releases := h.releases, records := h.records)
  {
    DroppedRecord(s, item);
    WithoutRecordFewer(s, item);
    hide WithoutRecord, HasRecord, Fewer, Unrecorded, Kept;
  }

  lemma ClearedTrans(s: State, t: State, u: State, cutoff: int)
    requires Cleared(s, t, cutoff) && Cleared(t, u, cutoff)
    ensures Cleared(s, u, cutoff)
  {
    FewerTrans(s, t, u);
    hide Kept, Fewer;
  }

  lemma NothingSwept(s: State, cutoff: int, dryRun: bool)
    ensures Cleared(s, s, cutoff) && Swept(s, s, {}, cutoff, dryRun, [], [])
  {
    FewerSame(s, s);
  }

  lemma SweptOn(s: State, t: State, u: State, kinds: set<Kind>, kind: Kind, digests: seq<Digest>, cutoff: int, dryRun: bool,
                removed: seq<Item>, skipped: seq<Item>, gone: seq<Item>, used: seq<Item>)
    requires Swept(s, t, kinds, cutoff, dryRun, removed, skipped) && Cleared(s, t, cutoff) && kind !in kinds
    requires Passed(t, u, digests, kind, cutoff, dryRun, gone, used) && Cleared(t, u, cutoff)
    requires forall i :: i in t.objects && i.kind == kind ==> i.digest in digests
    ensures Swept(s, u, kinds + {kind}, cutoff, dryRun, removed + gone, skipped + used)
  {
    forall i | Unrecorded(t, i) ensures Unrecorded(u, i) {
      StillUnrecorded(t, u, i);
    }
    hide Kept, Fewer, Unrecorded;
    GarbageStill(s, t, kinds, cutoff, dryRun, removed, skipped, kind);
    forall i | i in s.objects && i.kind == kind && Garbage(s.objects, s.roots, cutoff, i)
      ensures i in gone || i in used
    {
      assert Garbage(t.objects, t.roots, cutoff, i) && i == Item(kind, i.digest);
    }
    hide Garbage;
  }

  /** An earlier pass leaves objects of another kind as they were. */
  lemma GarbageStill(s: State, t: State, kinds: set<Kind>, cutoff: int, dryRun: bool, removed: seq<Item>, skipped: seq<Item>,
                     kind: Kind)
    requires Swept(s, t, kinds, cutoff, dryRun, removed, skipped) && Cleared(s, t, cutoff) && kind !in kinds
    ensures forall i: Item :: Garbage(t.objects, t.roots, cutoff, i) ==> Garbage(s.objects, s.roots, cutoff, i)
    ensures forall i: Item :: i.kind == kind && Garbage(s.objects, s.roots, cutoff, i) ==> Garbage(t.objects, t.roots, cutoff, i)
  {
    hide Kept, Fewer, Unrecorded;
  }

  lemma Idle(s: State, t: State, u: State, cutoff: int, dryRun: bool, orphans: seq<Item>)
    requires Cleared(s, t, cutoff) && Culled(s, t, dryRun, orphans) && SameStore(t, u) && u.roots == t.roots
    ensures Cleared(s, u, cutoff) && Culled(s, u, dryRun, orphans)
  {
    hide Kept, Drawn;
  }

  lemma NothingCulled(s: State, cutoff: int, dryRun: bool)
    ensures Cleared(s, s, cutoff) && Culled(s, s, dryRun, [])
  {
    FewerSame(s, s);
  }

  lemma FindsMore(s: State, orphans: seq<Item>, more: seq<Item>)
    requires orphans <= more
    ensures forall i :: Finds(s, orphans, i) ==> Finds(s, more, i)
  {
  }

  lemma SearchedAll(s: State, all: seq<Item>, orphans: seq<Item>)
    requires forall c :: c in s.records ==> Item(Candidate, c) in all
    requires forall r :: r in s.releases ==> Item(Artifact, r.digest) in all
    ensures (forall k :: 0 <= k < |all| ==> Finds(s, orphans, all[k])) ==> Searched(s, orphans)
  {
    hide Finds;
  }

  lemma CulledOn(s: State, t: State, u: State, cutoff: int, dryRun: bool, orphans: seq<Item>, item: Item)
    requires Cleared(s, t, cutoff) && Culled(s, t, dryRun, orphans)
    requires item !in t.objects && !Kept(t.roots, item)
    requires if dryRun then u == t else Dropped(t, u, item) && u.objects == t.objects && Unrecorded(u, item)
    ensures Cleared(s, u, cutoff) && Culled(s, u, dryRun, orphans + [item])
  {
    assert item.kind == Candidate ==> item.digest !in s.roots.candidates;
    assert item.kind == Artifact ==> item.digest !in s.roots.artifacts;
    if !dryRun {
      FewerTrans(s, t, u);
      forall i | Unrecorded(t, i) ensures Unrecorded(u, i) {
        StillUnrecorded(t, u, i);
      }
    }
    hide Kept, Fewer, Unrecorded;
  }

  lemma StillUnrecorded(s: State, t: State, item: Item)
    requires Fewer(s, t) && Unrecorded(s, item)
    ensures Unrecorded(t, item)
  {
    hide Drawn;
  }

  lemma CulledStore(s: State, t: State, dryRun: bool, orphans: seq<Item>)
    requires Culled(s, t, dryRun, orphans)
    ensures t.objects == s.objects && (dryRun ==> SameStore(s, t))
    ensures forall i :: i in orphans ==> !Kept(t.roots, i) && i !in t.objects
    ensures !dryRun ==> forall i :: i in orphans ==> Unrecorded(t, i)
  {
    hide Unrecorded, Kept;
  }

  lemma SweptStill(s: State, t: State, u: State, cutoff: int, dryRun: bool, removed: seq<Item>, skipped: seq<Item>)
    requires Swept(s, t, {Artifact, Candidate, Snapshot}, cutoff, dryRun, removed, skipped)
    requires u.objects == t.objects && (dryRun ==> SameStore(t, u)) && Fewer(t, u)
    ensures Swept(s, u, {Artifact, Candidate, Snapshot}, cutoff, dryRun, removed, skipped)
  {
    forall i | Unrecorded(t, i) ensures Unrecorded(u, i) {
      StillUnrecorded(t, u, i);
    }
    hide Kept, Unrecorded, Fewer;
  }

  lemma ClearedFewer(s: State, t: State, cutoff: int)
    requires Cleared(s, t, cutoff)
    ensures Fewer(s, t)
  {
  }

  /** What the roots decided, in terms of what was seen. */
  lemma Judged(s: State, t: State, u: State, seen: Seen, cutoff: int, dryRun: bool, removed: seq<Item>, skipped: seq<Item>,
               orphans: seq<Item>)
    requires seen.asked.Keys == seen.registry.Keys && SameStore(s, t) && t.roots == u.roots == RootsOf(seen, t)
    requires Cleared(t, u, cutoff)
    ensures Spares(s, u.(gc := Off), seen, cutoff)
    ensures Cleared(s.(roots := u.roots), u.(gc := Off), cutoff)
    ensures Swept(t, u, {Artifact, Candidate, Snapshot}, cutoff, dryRun, removed, skipped) ==>
              Swept(s.(roots := u.roots), u.(gc := Off), {Artifact, Candidate, Snapshot}, cutoff, dryRun, removed, skipped)
    ensures Swept(t, u, {Artifact, Candidate, Snapshot}, cutoff, dryRun, removed, skipped) && Purged(t, u, dryRun, orphans) ==>
              Takes(s, u.(gc := Off), seen, cutoff, dryRun, removed, skipped, orphans)
    ensures Cleaned(t, u) ==> Tidy(s, u.(gc := Off), seen)
  {
    var roots := RootsOf(seen, s);
    assert roots == RootsOf(seen, t);
    forall i: Item ensures Kept(roots, i) <==> Needed(seen, s, i) {
      NeededKept(seen, s, i);
    }
    forall a ensures NeedsArtifact(seen, s.releases, a) <==> a in roots.artifacts && Kept(roots, Item(Artifact, a)) {
      assert Needed(seen, s, Item(Artifact, a)) <==> Kept(roots, Item(Artifact, a));
    }
    forall c ensures NeedsCandidate(seen, c) <==> c in roots.candidates && Kept(roots, Item(Candidate, c)) {
      assert Needed(seen, s, Item(Candidate, c)) <==> Kept(roots, Item(Candidate, c));
    }
    hide *;
    SameCleared(s, t, u, cutoff, dryRun, removed, skipped);
    var v := u.(gc := Off);
    if Purged(t, u, dryRun, orphans) {
      PurgedOff(t, u, dryRun, orphans);
    }
    JudgedSpares(s, v, roots, seen, cutoff);
    JudgedTakes(s, v, roots, seen, cutoff, dryRun, removed, skipped, orphans);
    if Cleaned(t, u) {
      JudgedTidy(s, t, u, roots, seen);
    }
  }

  lemma PurgedOff(s: State, t: State, dryRun: bool, orphans: seq<Item>)
    requires Purged(s, t, dryRun, orphans)
    ensures forall i :: i in orphans ==> !Kept(s.roots, i) && i !in t.(gc := Off).objects
    ensures !dryRun ==> forall i :: i in orphans ==> Unrecorded(t.(gc := Off), i)
  {
    hide Kept;
  }

  lemma JudgedTidy(s: State, t: State, u: State, roots: Roots, seen: Seen)
    requires Cleaned(t, u) && t.roots == roots
    requires forall a :: NeedsArtifact(seen, s.releases, a) <==> a in roots.artifacts && Kept(roots, Item(Artifact, a))
    requires forall c :: NeedsCandidate(seen, c) <==> c in roots.candidates && Kept(roots, Item(Candidate, c))
    ensures Tidy(s, u.(gc := Off), seen)
  {
    hide NeedsArtifact, NeedsCandidate;
  }

  lemma JudgedSpares(s: State, t: State, roots: Roots, seen: Seen, cutoff: int)
    requires Cleared(s.(roots := roots), t, cutoff) && forall i: Item :: Kept(roots, i) <==> Needed(seen, s, i)
    requires forall a :: NeedsArtifact(seen, s.releases, a) <==> a in roots.artifacts && Kept(roots, Item(Artifact, a))
    requires forall c :: NeedsCandidate(seen, c) <==> c in roots.candidates && Kept(roots, Item(Candidate, c))
    ensures Spares(s, t, seen, cutoff)
  {
    hide Needed, NeedsArtifact, NeedsCandidate, Kept, Drawn;
  }

  lemma JudgedTakes(s: State, t: State, roots: Roots, seen: Seen, cutoff: int, dryRun: bool, removed: seq<Item>,
                    skipped: seq<Item>, orphans: seq<Item>)
    requires forall i: Item :: Kept(roots, i) <==> Needed(seen, s, i)
    ensures Swept(s.(roots := roots), t, {Artifact, Candidate, Snapshot}, cutoff, dryRun, removed, skipped) &&
            (forall i :: i in orphans ==> !Kept(roots, i) && i !in t.objects) &&
            (!dryRun ==> forall i :: i in orphans ==> Unrecorded(t, i)) ==>
              Takes(s, t, seen, cutoff, dryRun, removed, skipped, orphans)
  {
    hide Needed, Kept, Unrecorded;
    forall i: Item ensures i.kind in {Artifact, Candidate, Snapshot} {
      match i.kind
      case Artifact =>
      case Candidate =>
      case Snapshot =>
    }
  }

  /** The orphans had neither object nor root, and their records are gone. */
  ghost predicate Purged(s: State, t: State, dryRun: bool, orphans: seq<Item>) {
    && (forall i :: i in orphans ==> !Kept(s.roots, i) && i !in t.objects)
    && (!dryRun ==> forall i :: i in orphans ==> Unrecorded(t, i))
  }

  /** Every record left is of an object that is there, or of a root. */
  ghost predicate Cleaned(s: State, t: State) {
    && (forall c :: c in t.records ==> Kept(s.roots, Item(Candidate, c)) || Item(Candidate, c) in t.objects)
    && (forall r :: r in t.releases ==> Kept(s.roots, Item(Artifact, r.digest)) || Item(Artifact, r.digest) in t.objects)
  }

  lemma Purging(s: State, t: State, u: State, cutoff: int, dryRun: bool, removed: seq<Item>, skipped: seq<Item>, orphans: seq<Item>)
    requires t.roots == s.roots && Cleared(s, t, cutoff) && Cleared(t, u, cutoff) && Culled(t, u, dryRun, orphans)
    requires Swept(s, t, {Artifact, Candidate, Snapshot}, cutoff, dryRun, removed, skipped)
    ensures Cleared(s, u, cutoff) && Swept(s, u, {Artifact, Candidate, Snapshot}, cutoff, dryRun, removed, skipped)
    ensures Purged(s, u, dryRun, orphans)
    ensures !dryRun && Searched(t, orphans) ==> Cleaned(s, u)
  {
    CulledStore(t, u, dryRun, orphans);
    ClearedFewer(t, u, cutoff);
    hide Cleared, Culled, Swept, Kept;
    SweptStill(s, t, u, cutoff, dryRun, removed, skipped);
    ClearedTrans(s, t, u, cutoff);
    if !dryRun && Searched(t, orphans) {
      SearchedCleaned(t, u, orphans);
    }
  }

  lemma SearchedCleaned(s: State, t: State, orphans: seq<Item>)
    requires Searched(s, orphans) && Fewer(s, t) && t.objects == s.objects
    requires forall i :: i in orphans ==> Unrecorded(t, i)
    ensures Cleaned(s, t)
  {
    hide Kept, Drawn;
    forall c | c in t.records ensures Kept(s.roots, Item(Candidate, c)) || Item(Candidate, c) in t.objects {
      assert Finds(s, orphans, Item(Candidate, c));
    }
    forall r | r in t.releases ensures Kept(s.roots, Item(Artifact, r.digest)) || Item(Artifact, r.digest) in t.objects {
      assert Finds(s, orphans, Item(Artifact, r.digest));
    }
  }

  lemma SeenKeys(past: seq<State>, from: nat, seen: Seen)
    requires Witnessed(past, from, seen)
    ensures seen.asked.Keys == seen.registry.Keys
  {
  }

  lemma SameCleared(s: State, t: State, u: State, cutoff: int, dryRun: bool, removed: seq<Item>, skipped: seq<Item>)
    requires SameStore(s, t) && Cleared(t, u, cutoff)
    ensures Cleared(s.(roots := u.roots), u.(gc := Off), cutoff)
    ensures Swept(t, u, {Artifact, Candidate, Snapshot}, cutoff, dryRun, removed, skipped) ==>
      Swept(s.(roots := u.roots), u.(gc := Off), {Artifact, Candidate, Snapshot}, cutoff, dryRun, removed, skipped)
  {
    hide Kept;
  }

  lemma Covered(s: State, t: State, u: State)
    requires SameStore(s, t) && u.roots == t.roots && Inv(u) && (u.gc.Removing? || u.gc.Unrecording?)
    requires Newest(t.releases) <= t.roots.artifacts && t.roots.snapshots == SnapshotsOf(t.roots.candidates, t.records)
    ensures RootsRead(s, u.(gc := Off))
  {
    var v := u.(gc := Off);
    hide Kept, Whole, Newest, SnapshotsOf;
    forall c | Referred(v, c)
      ensures c in v.roots.candidates
    {
      assert Referred(u, c);
    }
  }

  lemma Finished(s: State)
    requires !s.gc.Off?
    ensures Enabled(s, Label.Finish) && Apply(s, Label.Finish) == s.(gc := Off)
  {
  }

  /** An item the pass has not come to is as it was, and counts for nothing if it
      is no garbage. */
  lemma Untouched(s: State, t: State, digests: seq<Digest>, kind: Kind, cutoff: int, dryRun: bool, removed: seq<Item>, skipped: seq<Item>, d: Digest)
    requires Passed(s, t, digests, kind, cutoff, dryRun, removed, skipped) && Cleared(s, t, cutoff) && d !in digests
    ensures Item(kind, d) in s.objects <==> Item(kind, d) in t.objects
    ensures Item(kind, d) in t.objects ==> s.objects[Item(kind, d)] == t.objects[Item(kind, d)]
    ensures !Garbage(s.objects, s.roots, cutoff, Item(kind, d)) ==> Passed(s, t, digests + [d], kind, cutoff, dryRun, removed, skipped)
  {
    hide Kept;
  }

  lemma ClearedOn(s: State, t: State, u: State, cutoff: int, item: Item)
    requires Cleared(s, t, cutoff) && Garbage(s.objects, s.roots, cutoff, item) && Dropped(t, u, item)
    ensures Cleared(s, u, cutoff)
  {
    assert item.kind == Candidate ==> item.digest !in s.roots.candidates;
    assert item.kind == Artifact ==> item.digest !in s.roots.artifacts;
    FewerTrans(s, t, u);
    hide Kept, Fewer;
  }

  /** One more item of garbage: reported, skipped as in use, or gone. */
  lemma PassedOn(s: State, t: State, u: State, digests: seq<Digest>, kind: Kind, cutoff: int, dryRun: bool, removed: seq<Item>, skipped: seq<Item>, d: Digest)
    requires Passed(s, t, digests, kind, cutoff, dryRun, removed, skipped) && Cleared(s, t, cutoff) && d !in digests
    requires Garbage(s.objects, s.roots, cutoff, Item(kind, d)) && Item(kind, d) in t.objects
    requires if dryRun then u == t else Dropped(t, u, Item(kind, d))
    requires !dryRun && Item(kind, d) !in u.objects ==> Unrecorded(u, Item(kind, d))
    ensures dryRun || Item(kind, d) !in u.objects ==> Passed(s, u, digests + [d], kind, cutoff, dryRun, removed + [Item(kind, d)], skipped)
    ensures !dryRun && Item(kind, d) in u.objects ==> Passed(s, u, digests + [d], kind, cutoff, dryRun, removed, skipped + [Item(kind, d)])
  {
    if !dryRun {
      forall i | Unrecorded(t, i) ensures Unrecorded(u, i) {
        StillUnrecorded(t, u, i);
      }
    }
    hide Kept, Unrecorded, Fewer;
  }

  /** The elements of a set, in some order. */
  method Elements<T(==)>(s: set<T>) returns (q: seq<T>)
    ensures forall x :: x in q <==> x in s
    ensures forall i, j :: 0 <= i < j < |q| ==> q[i] != q[j]
  {
    q := [];
    var rest := s;
    while rest != {}
      invariant forall x :: x in s <==> x in q || x in rest
      invariant forall x :: x in q ==> x !in rest
      invariant forall i, j :: 0 <= i < j < |q| ==> q[i] != q[j]
      decreases |rest|
    {
      var x :| x in rest;
      q, rest := q + [x], rest - {x};
    }
  }
}
