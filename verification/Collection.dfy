/** Garbage collection beside publishers, as a transition system:
    internal/app/gc.go, internal/app/lifecycle.go, internal/store.

    Publishers share the store-global lock from their first publication to the
    write that makes it reachable; a collection holds it alone. Everything else
    (leases, removals of containers, requests and projects) is under no such
    lock and may fall between any two steps of a collection. */
module Collection {

  import opened Containers

  type Digest = string
  type Project = string

  datatype Kind = Artifact | Candidate | Snapshot

  datatype Item = Item(kind: Kind, digest: Digest)

  /** A label of a live container: absent, unparsable, or naming its subject. */
  datatype Tag = Absent | Malformed | Named(value: string)

  /** A managed container, running or not; builder marks the dev-build one. */
  datatype Live = Live(builder: bool, project: Tag, candidate: Tag, artifact: Tag)

  /** A registry record's references. */
  datatype Registration = Registration(artifact: Option<Digest>, approved: Option<Digest>)

  /** An installed artifact's record. */
  datatype Release = Release(digest: Digest, devBuild: bool)

  /** What a collection must not touch. */
  datatype Roots = Roots(artifacts: set<Digest>, candidates: set<Digest>, snapshots: set<Digest>)

  /** How far a publisher is. */
  datatype Stage = Begun | Frozen | Published | Recorded

  datatype Publisher = Publisher(stage: Stage, snapshot: Option<Digest>, candidate: Digest)

  /** A collection: reading its roots (whether it has listed the containers and
      the registry, the projects whose requests are yet to be listed, and the
      candidates the containers run); done reading; or between an object and its
      record. */
  datatype Gc =
    | Off
    | Reading(live: bool, registry: bool, todo: set<Project>, running: set<Digest>)
    | Removing(cutoff: int)
    | Unrecording(cutoff: int, item: Item)

  /** objects gives each published tree its modification time, records each
      candidate record's snapshot, releases the artifact records newest first. */
  datatype State = State(
    objects: map<Item, int>,
    records: map<Digest, Option<Digest>>,
    releases: seq<Release>,
    leases: multiset<Item>,
    registry: map<Project, Registration>,
    pending: map<(Project, string), Digest>,
    live: map<string, Live>,
    publishers: map<nat, Publisher>,
    gc: Gc,
    roots: Roots)

  datatype Label =
    // publishers
    | Begin(p: nat)
    | Freeze(p: nat, snapshot: Option<Digest>, now: int)
    | Publish(p: nat, candidate: Digest, now: int)
    | Record(p: nat)
    | Deploy(p: nat, name: string, project: Project, artifact: Option<Digest>)
    | Approve(p: nat, project: Project)
    | Bind(p: nat, project: Project, request: string)
    | End(p: nat)
    // everyone
    | Register(project: Project, artifact: Option<Digest>)
    | Unregister(project: Project)
    | Settle(project: Project, request: string)
    | Build(name: string)
    | Appear(name: string, container: Live)
    | Vanish(name: string)
    | Lease(item: Item)
    | Unlease(item: Item)
    // the collector
    | Hold
    | ReadLive
    | ReadRegistry
    | ReadPending(project: Project)
    | ReadStore(cutoff: int)
    | Remove(item: Item)
    | Unrecord
    | Orphan(item: Item)
    | Finish

  const NONE: Roots := Roots({}, {}, {})

  predicate Kept(roots: Roots, item: Item) {
    match item.kind
    case Artifact => item.digest in roots.artifacts
    case Candidate => item.digest in roots.candidates
    case Snapshot => item.digest in roots.snapshots
  }

  /** A container whose labels can be trusted: the dev-build container names
      nothing, and every other one names its project and its candidate. */
  predicate Trusted(c: Live) {
    c.builder || (c.project.Named? && c.candidate.Named? && !c.artifact.Malformed?)
  }

  function LiveCandidates(live: map<string, Live>): set<Digest> {
    set n | n in live && !live[n].builder && live[n].candidate.Named? :: live[n].candidate.value
  }

  function LiveArtifacts(live: map<string, Live>): set<Digest> {
    set n | n in live && !live[n].builder && live[n].artifact.Named? :: live[n].artifact.value
  }

  function Approved(registry: map<Project, Registration>): set<Digest> {
    set p | p in registry && registry[p].approved.Some? :: registry[p].approved.value
  }

  function Pinned(registry: map<Project, Registration>): set<Digest> {
    set p | p in registry && registry[p].artifact.Some? :: registry[p].artifact.value
  }

  function Bound(pending: map<(Project, string), Digest>, project: Project): set<Digest> {
    set k | k in pending && k.0 == project :: pending[k]
  }

  /** The newest artifact that a release brought. */
  function Newest(releases: seq<Release>): set<Digest> {
    if releases == [] then {} else if releases[0].devBuild then Newest(releases[1..]) else {releases[0].digest}
  }

  function SnapshotsOf(candidates: set<Digest>, records: map<Digest, Option<Digest>>): set<Digest> {
    set c | c in candidates && c in records && records[c].Some? :: records[c].value
  }

  /** The record file of an item goes; snapshots have none. */
  function WithoutRecord(s: State, item: Item): State {
    match item.kind
    case Artifact => s.(releases := Shelved(s.releases, item.digest))
    case Candidate => s.(records := s.records - {item.digest})
    case Snapshot => s
  }

  function Shelved(releases: seq<Release>, digest: Digest): seq<Release> {
    if releases == [] then []
    else (if releases[0].digest == digest then [] else [releases[0]]) + Shelved(releases[1..], digest)
  }

  predicate HasRecord(s: State, item: Item) {
    match item.kind
    case Artifact => exists r :: r in s.releases && r.digest == item.digest
    case Candidate => item.digest in s.records
    case Snapshot => false
  }

  predicate Enabled(s: State, l: Label) {
    match l
    case Begin(p) => p !in s.publishers && s.gc.Off?
    case Freeze(p, _, _) => p in s.publishers && s.publishers[p].stage == Begun
    case Publish(p, _, _) => p in s.publishers && s.publishers[p].stage == Frozen
    case Record(p) =>
      && p in s.publishers && s.publishers[p].stage == Published
      && (s.publishers[p].candidate in s.records ==> s.records[s.publishers[p].candidate] == s.publishers[p].snapshot)
    case Deploy(p, name, _, _) => p in s.publishers && s.publishers[p].stage == Recorded && name !in s.live
    case Approve(p, project) => p in s.publishers && s.publishers[p].stage == Recorded && project in s.registry
    case Bind(p, _, _) => p in s.publishers && s.publishers[p].stage == Recorded
    case End(p) => p in s.publishers
    case Register(project, _) => project !in s.registry && forall k :: k in s.pending ==> k.0 != project
    case Unregister(_) => true
    case Settle(project, request) => true
    case Build(name) => name !in s.live
    // A managed container no publisher here has deployed: left by an earlier
    // engine, say, with whatever labels. One that names a candidate was started
    // from the store, and not beside a collection.
    case Appear(name, c) =>
      && name !in s.live && (c.builder ==> c.candidate == Absent)
      && (c.candidate.Named? ==> s.gc.Off? && Whole(s.objects, s.records, c.candidate.value))
    case Vanish(_) => true
    case Lease(item) => item in s.objects
    case Unlease(item) => item in s.leases
    case Hold => s.gc.Off? && s.publishers == map[]
    case ReadLive => s.gc == Reading(false, false, {}, {}) && forall n :: n in s.live ==> Trusted(s.live[n])
    case ReadRegistry => s.gc.Reading? && s.gc.live && !s.gc.registry
    case ReadPending(project) => s.gc.Reading? && s.gc.registry && project in s.gc.todo
    case ReadStore(_) => s.gc.Reading? && s.gc.registry && s.gc.todo == {} && s.gc.running <= s.records.Keys
    case Remove(item) =>
      && s.gc.Removing? && item in s.objects && !Kept(s.roots, item)
      && s.objects[item] <= s.gc.cutoff && item !in s.leases
    case Unrecord => s.gc.Unrecording?
    case Orphan(item) => s.gc.Removing? && HasRecord(s, item) && item !in s.objects && !Kept(s.roots, item)
    case Finish => !s.gc.Off?
  }

  function WithObject(objects: map<Item, int>, item: Item, now: int): map<Item, int> {
    if item in objects then objects else objects[item := now]
  }

  function Apply(s: State, l: Label): State
    requires Enabled(s, l)
  {
    match l
    case Begin(p) => s.(publishers := s.publishers[p := Publisher(Begun, None, "")])
    case Freeze(p, snapshot, now) =>
      s.(publishers := s.publishers[p := s.publishers[p].(stage := Frozen, snapshot := snapshot)],
         objects := if snapshot.Some? then WithObject(s.objects, Item(Snapshot, snapshot.value), now) else s.objects)
    case Publish(p, candidate, now) =>
      s.(publishers := s.publishers[p := s.publishers[p].(stage := Published, candidate := candidate)],
         objects := WithObject(s.objects, Item(Candidate, candidate), now))
    case Record(p) =>
      s.(publishers := s.publishers[p := s.publishers[p].(stage := Recorded)],
         records := s.records[s.publishers[p].candidate := s.publishers[p].snapshot])
    case Deploy(p, name, project, artifact) =>
      s.(live := s.live[name := Live(false, Named(project), Named(s.publishers[p].candidate),
                                     if artifact.Some? then Named(artifact.value) else Absent)])
    case Approve(p, project) =>
      s.(registry := s.registry[project := s.registry[project].(approved := Some(s.publishers[p].candidate))])
    case Bind(p, project, request) =>
      s.(pending := s.pending[(project, request) := s.publishers[p].candidate],
         publishers := s.publishers[p := Publisher(Begun, None, "")])
    case End(p) => s.(publishers := s.publishers - {p})
    case Register(project, artifact) => s.(registry := s.registry[project := Registration(artifact, None)])
    case Unregister(project) => s.(registry := s.registry - {project})
    case Settle(project, request) => s.(pending := s.pending - {(project, request)})
    case Build(name) => s.(live := s.live[name := Live(true, Absent, Absent, Absent)])
    case Appear(name, c) => s.(live := s.live[name := c])
    case Vanish(name) => s.(live := s.live - {name})
    case Lease(item) => s.(leases := s.leases + multiset{item})
    case Unlease(item) => s.(leases := s.leases - multiset{item})
    case Hold => s.(gc := Reading(false, false, {}, {}), roots := NONE)
    case ReadLive =>
      s.(gc := Reading(true, false, {}, LiveCandidates(s.live)),
         roots := s.roots.(artifacts := s.roots.artifacts + LiveArtifacts(s.live),
                           candidates := s.roots.candidates + LiveCandidates(s.live)))
    case ReadRegistry =>
      s.(gc := s.gc.(registry := true, todo := s.registry.Keys),
         roots := s.roots.(artifacts := s.roots.artifacts + Pinned(s.registry),
                           candidates := s.roots.candidates + Approved(s.registry)))
    case ReadPending(project) =>
      s.(gc := s.gc.(todo := s.gc.todo - {project}),
         roots := s.roots.(candidates := s.roots.candidates + Bound(s.pending, project)))
    case ReadStore(cutoff) =>
      s.(gc := Removing(cutoff),
         roots := s.roots.(artifacts := s.roots.artifacts + Newest(s.releases),
                           snapshots := SnapshotsOf(s.roots.candidates, s.records)))
    case Remove(item) => s.(objects := s.objects - {item}, gc := Unrecording(s.gc.cutoff, item))
    case Unrecord => WithoutRecord(s, s.gc.item).(gc := Removing(s.gc.cutoff))
    case Orphan(item) => WithoutRecord(s, item)
    case Finish => s.(gc := Off)
  }

  /** All that candidate c is made of is in the store. */
  predicate Whole(objects: map<Item, int>, records: map<Digest, Option<Digest>>, c: Digest) {
    && Item(Candidate, c) in objects && c in records
    && (records[c].Some? ==> Item(Snapshot, records[c].value) in objects)
  }

  /** What a record, a request or a container reaches is whole. */
  ghost predicate Intact(s: State) {
    && (forall p :: p in s.registry && s.registry[p].approved.Some? ==> Whole(s.objects, s.records, s.registry[p].approved.value))
    && (forall k :: k in s.pending && k.0 in s.registry ==> Whole(s.objects, s.records, s.pending[k]))
    && (forall n :: n in s.live && s.live[n].candidate.Named? ==> Whole(s.objects, s.records, s.live[n].candidate.value))
  }

  /** What a publisher has published so far is there. */
  predicate Backed(objects: map<Item, int>, records: map<Digest, Option<Digest>>, p: Publisher) {
    && (!p.stage.Begun? && p.snapshot.Some? ==> Item(Snapshot, p.snapshot.value) in objects)
    && (p.stage.Published? || p.stage.Recorded? ==> Item(Candidate, p.candidate) in objects)
    && (p.stage.Recorded? ==> p.candidate in records && records[p.candidate] == p.snapshot)
  }

  ghost predicate Publishing(s: State) {
    && (s.publishers != map[] ==> s.gc.Off?)
    && (forall p :: p in s.publishers ==> Backed(s.objects, s.records, s.publishers[p]))
  }

  /** What the collector has read so far covers what is reachable now. */
  ghost predicate Rooted(s: State) {
    && (s.gc.Removing? || s.gc.Unrecording? || (s.gc.Reading? && s.gc.live) ==>
          forall n :: n in s.live && s.live[n].candidate.Named? ==> s.live[n].candidate.value in s.roots.candidates)
    && (s.gc.Removing? || s.gc.Unrecording? || (s.gc.Reading? && s.gc.registry) ==>
          && (forall p :: p in s.registry && s.registry[p].approved.Some? ==> s.registry[p].approved.value in s.roots.candidates)
          && (forall k :: k in s.pending && k.0 in s.registry && !(s.gc.Reading? && k.0 in s.gc.todo) ==>
                s.pending[k] in s.roots.candidates))
    && (s.gc.Removing? || s.gc.Unrecording? ==>
          forall c :: c in s.roots.candidates && c in s.records && s.records[c].Some? ==> s.records[c].value in s.roots.snapshots)
    && (s.gc.Unrecording? ==> !Kept(s.roots, s.gc.item))
    && (s.gc.Reading? && s.gc.registry ==> s.gc.live)
    && (s.gc.Reading? ==> s.gc.running <= s.roots.candidates)
  }

  ghost predicate Leased(s: State) { forall i :: i in s.leases ==> i in s.objects }

  /** The dev-build container names no candidate. */
  ghost predicate Plain(s: State) { forall n :: n in s.live && s.live[n].builder ==> s.live[n].candidate == Absent }

  ghost predicate Inv(s: State) { Intact(s) && Publishing(s) && Rooted(s) && Leased(s) && Plain(s) }

  function Empty(): State { State(map[], map[], [], multiset{}, map[], map[], map[], map[], Off, NONE) }

  /** The store only grew. */
  ghost predicate Grown(s: State, h: State) {
    && (forall i :: i in s.objects ==> i in h.objects)
    && (forall c :: c in s.records ==> c in h.records && h.records[c] == s.records[c])
  }

  lemma WholeGrows(s: State, h: State)
    requires Grown(s, h)
    ensures forall c :: Whole(s.objects, s.records, c) ==> Whole(h.objects, h.records, c)
    ensures forall p :: Backed(s.objects, s.records, p) ==> Backed(h.objects, h.records, p)
    ensures Leased(s) && h.leases == s.leases ==> Leased(h)
  {
  }

  /** Publishing: the publisher's own step is backed, and everyone else's store
      only grew. */
  lemma StoreGrown(s: State, h: State, p: nat)
    requires Inv(s) && s.gc.Off? && h.gc.Off? && Grown(s, h)
    requires h.leases == s.leases && h.registry == s.registry && h.pending == s.pending && h.live == s.live
    requires forall q :: q in h.publishers && q != p ==> q in s.publishers && h.publishers[q] == s.publishers[q]
    requires p in h.publishers ==> Backed(h.objects, h.records, h.publishers[p])
    ensures Inv(h)
  {
    assert Plain(h);
    WholeGrows(s, h);
    RootedOff(h);
    hide Whole, Backed, Grown, Rooted, Leased, Plain;
  }

  lemma PublishStep(s: State, l: Label)
    requires Inv(s) && Enabled(s, l) && (l.Begin? || l.Freeze? || l.Publish? || l.Record? || l.End?)
    ensures Inv(Apply(s, l))
  {
    var h := Apply(s, l);
    assert s.gc.Off?;
    assert l.p in s.publishers ==> Backed(s.objects, s.records, s.publishers[l.p]);
    hide Inv;
    assert l.p in h.publishers ==> Backed(h.objects, h.records, h.publishers[l.p]);
    StoreGrown(s, h, l.p);
  }

  lemma RootedOff(s: State)
    requires s.gc.Off?
    ensures Rooted(s)
  {
  }

  /** Referring: what a publisher has recorded is whole when it is first pointed
      at. */
  lemma ReferStep(s: State, l: Label)
    requires Inv(s) && Enabled(s, l) && (l.Deploy? || l.Approve? || l.Bind?)
    ensures Inv(Apply(s, l))
  {
    var h := Apply(s, l);
    assert l.p in s.publishers && s.gc.Off?;
    assert Whole(s.objects, s.records, s.publishers[l.p].candidate);
    assert l.Bind? ==> Backed(h.objects, h.records, h.publishers[l.p]);
    hide Whole, Backed, Rooted, Kept;
    assert Rooted(h) by { RootedOff(h); }
  }

  lemma IntactSame(s: State, h: State)
    requires Intact(s) && h.objects == s.objects && h.records == s.records
    requires forall p | p in h.registry && h.registry[p].approved.Some? :: p in s.registry && h.registry[p] == s.registry[p]
    requires forall k | k in h.pending && k.0 in h.registry :: k in s.pending && k.0 in s.registry && h.pending[k] == s.pending[k]
    requires forall n | n in h.live && h.live[n].candidate.Named? ::
               (n in s.live && h.live[n] == s.live[n]) || Whole(s.objects, s.records, h.live[n].candidate.value)
    ensures Intact(h)
  {
    hide Whole;
  }

  lemma PublishingSame(s: State, h: State)
    requires Publishing(s) && h.publishers == s.publishers && h.gc == s.gc && h.objects == s.objects && h.records == s.records
    ensures Publishing(h)
  {
    hide Backed;
  }

  lemma RootedSame(s: State, h: State)
    requires Rooted(s) && h.gc == s.gc && h.roots == s.roots && h.records == s.records
    requires forall p | p in h.registry && h.registry[p].approved.Some? :: p in s.registry && h.registry[p] == s.registry[p]
    requires forall k | k in h.pending && k.0 in h.registry :: k in s.pending && k.0 in s.registry && h.pending[k] == s.pending[k]
    requires forall n | n in h.live && h.live[n].candidate.Named? :: s.gc.Off? || (n in s.live && h.live[n] == s.live[n])
    ensures Rooted(h)
  {
    hide Kept;
  }

  lemma LeaseStep(s: State, l: Label)
    requires Inv(s) && Enabled(s, l) && (l.Lease? || l.Unlease?)
    ensures Inv(Apply(s, l))
  {
    var h := Apply(s, l);
    assert h == s.(leases := h.leases) && (forall i :: i in h.leases ==> i in h.objects) && Plain(h);
    hide Intact, Publishing, Rooted, Plain, Apply, Enabled, Whole;
    IntactSame(s, h);
    PublishingSame(s, h);
    RootedSame(s, h);
  }

  lemma ContainerStep(s: State, l: Label)
    requires Inv(s) && Enabled(s, l) && (l.Build? || l.Vanish? || l.Appear?)
    ensures Inv(Apply(s, l))
  {
    var h := Apply(s, l);
    hide Whole, Intact, Publishing, Rooted;
    assert h == s.(live := h.live) && Plain(h) && Leased(h);
    assert forall n | n in h.live && h.live[n].candidate.Named? ::
        (n in s.live && h.live[n] == s.live[n]) || (s.gc.Off? && Whole(s.objects, s.records, h.live[n].candidate.value));
    hide Apply, Enabled, Plain, Leased;
    IntactSame(s, h);
    PublishingSame(s, h);
    RootedSame(s, h);
  }

  lemma RegistryStep(s: State, l: Label)
    requires Inv(s) && Enabled(s, l) && (l.Register? || l.Unregister? || l.Settle?)
    ensures Inv(Apply(s, l))
  {
    var h := Apply(s, l);
    hide Whole, Intact, Publishing, Rooted;
    assert h == s.(registry := h.registry, pending := h.pending) && Plain(h) && Leased(h);
    assert forall p | p in h.registry && h.registry[p].approved.Some? :: p in s.registry && h.registry[p] == s.registry[p];
    assert forall k | k in h.pending && k.0 in h.registry :: k in s.pending && k.0 in s.registry && h.pending[k] == s.pending[k];
    hide Apply, Enabled, Plain, Leased;
    IntactSame(s, h);
    PublishingSame(s, h);
    RootedSame(s, h);
  }

  lemma ReadLiveStep(s: State)
    requires Inv(s) && Enabled(s, ReadLive)
    ensures Inv(Apply(s, ReadLive))
  {
    var h := Apply(s, ReadLive);
    forall n | n in s.live && s.live[n].candidate.Named?
      ensures s.live[n].candidate.value in h.roots.candidates
    {
      assert s.live[n].candidate.value in LiveCandidates(s.live);
    }
    hide Whole, Backed, Kept;
  }

  lemma ReadRegistryStep(s: State)
    requires Inv(s) && Enabled(s, ReadRegistry)
    ensures Inv(Apply(s, ReadRegistry))
  {
    var h := Apply(s, ReadRegistry);
    forall p | p in s.registry && s.registry[p].approved.Some?
      ensures s.registry[p].approved.value in h.roots.candidates
    {
      assert s.registry[p].approved.value in Approved(s.registry);
    }
    hide Whole, Backed, Kept;
  }

  lemma ReadPendingStep(s: State, project: Project)
    requires Inv(s) && Enabled(s, ReadPending(project))
    ensures Inv(Apply(s, ReadPending(project)))
  {
    var h := Apply(s, ReadPending(project));
    forall k | k in s.pending && k.0 == project
      ensures s.pending[k] in h.roots.candidates
    {
      assert s.pending[k] in Bound(s.pending, project);
    }
    hide Whole, Backed, Kept;
  }

  lemma ReadStoreStep(s: State, cutoff: int)
    requires Inv(s) && Enabled(s, ReadStore(cutoff))
    ensures Inv(Apply(s, ReadStore(cutoff)))
  {
    var h := Apply(s, ReadStore(cutoff));
    forall c | c in s.roots.candidates && c in s.records && s.records[c].Some?
      ensures s.records[c].value in h.roots.snapshots
    {
      assert s.records[c].value in SnapshotsOf(s.roots.candidates, s.records);
    }
    hide Whole, Backed, Kept;
  }

  lemma HoldStep(s: State, l: Label)
    requires Inv(s) && Enabled(s, l) && (l.Hold? || l.Finish?)
    ensures Inv(Apply(s, l))
  {
    var h := Apply(s, l);
    hide Whole, Backed, Kept, Intact;
    assert h == s.(gc := h.gc, roots := h.roots) && Plain(h) && Leased(h) && Publishing(h) && Rooted(h);
    hide Apply, Enabled, Plain, Leased, Publishing, Rooted;
    IntactSame(s, h);
  }

  /** Between s and h the collector dropped nothing but item, or its record. */
  ghost predicate OnlyDropped(s: State, h: State, item: Item) {
    && h.registry == s.registry && h.pending == s.pending && h.live == s.live
    && h.publishers == s.publishers && h.leases == s.leases && h.roots == s.roots
    && (forall i :: i in s.objects && i != item ==> i in h.objects)
    && (forall c :: c in h.records ==> c in s.records && h.records[c] == s.records[c])
    && (forall c :: c in s.records && !(item.kind.Candidate? && c == item.digest) ==> c in h.records)
    && (item in s.leases ==> item in h.objects)
  }

  lemma WholeSpared(s: State, h: State, item: Item)
    requires OnlyDropped(s, h, item) && Rooted(s) && (s.gc.Removing? || s.gc.Unrecording?) && !Kept(s.roots, item)
    ensures forall c :: c in s.roots.candidates && Whole(s.objects, s.records, c) ==> Whole(h.objects, h.records, c)
  {
  }

  lemma IntactSpared(s: State, h: State, item: Item)
    requires Intact(s) && Rooted(s) && (s.gc.Removing? || s.gc.Unrecording?) && OnlyDropped(s, h, item)
    requires forall c :: c in s.roots.candidates && Whole(s.objects, s.records, c) ==> Whole(h.objects, h.records, c)
    ensures Intact(h)
  {
    hide Whole, Kept;
  }

  lemma RootedSpared(s: State, h: State, item: Item)
    requires Rooted(s) && (s.gc.Removing? || s.gc.Unrecording?) && (h.gc.Removing? || h.gc.Unrecording?)
    requires OnlyDropped(s, h, item) && (h.gc.Unrecording? ==> !Kept(h.roots, h.gc.item))
    ensures Rooted(h)
  {
    hide Kept;
  }

  /** Dropping an item that is not kept, or its record, leaves whole everything
      the roots name, and so everything that is reached. */
  lemma DropStep(s: State, h: State, item: Item)
    requires Inv(s) && (s.gc.Removing? || s.gc.Unrecording?) && (h.gc.Removing? || h.gc.Unrecording?)
    requires OnlyDropped(s, h, item) && !Kept(s.roots, item) && (h.gc.Unrecording? ==> !Kept(h.roots, h.gc.item))
    ensures Inv(h)
  {
    assert h.publishers == map[] && Leased(h) && Plain(h);
    hide Whole, Backed, Kept, Intact, Rooted, OnlyDropped, Leased, Plain;
    WholeSpared(s, h, item);
    IntactSpared(s, h, item);
    RootedSpared(s, h, item);
  }

  lemma DroppedRecord(s: State, item: Item)
    ensures var h := WithoutRecord(s, item); h == s.(releases := h.releases, records := h.records)
    ensures var h := WithoutRecord(s, item); h.records == if item.kind == Candidate then s.records - {item.digest} else s.records
    ensures var h := WithoutRecord(s, item); h.releases == if item.kind == Artifact then Shelved(s.releases, item.digest) else s.releases
  {
  }

  lemma RemoveStep(s: State, item: Item)
    requires Inv(s) && Enabled(s, Remove(item))
    ensures Inv(Apply(s, Remove(item)))
  {
    hide Kept, HasRecord, Whole, Backed, Trusted;
    var h := s.(objects := s.objects - {item}, gc := Unrecording(s.gc.cutoff, item));
    assert Apply(s, Remove(item)) == h;
    hide Inv, Kept;
    DropStep(s, h, item);
  }

  lemma UnrecordStep(s: State)
    requires Inv(s) && Enabled(s, Unrecord)
    ensures Inv(Apply(s, Unrecord))
  {
    hide Kept, HasRecord, Whole, Backed, Trusted;
    var item := s.gc.item;
    var h := WithoutRecord(s, item).(gc := Removing(s.gc.cutoff));
    assert Apply(s, Unrecord) == h;
    assert !Kept(s.roots, item) && Leased(s);
    hide Inv, Kept, WithoutRecord;
    DroppedRecord(s, item);
    DropStep(s, h, item);
  }

  lemma OrphanStep(s: State, item: Item)
    requires Inv(s) && Enabled(s, Orphan(item))
    ensures Inv(Apply(s, Orphan(item)))
  {
    hide Kept, HasRecord, Whole, Backed, Intact, Rooted, Trusted, WithoutRecord;
    var h := WithoutRecord(s, item);
    assert Apply(s, Orphan(item)) == h;
    assert Leased(s);
    hide Inv, Enabled, Apply, Leased;
    DroppedRecord(s, item);
    DropStep(s, h, item);
  }

  lemma StepInv(s: State, l: Label)
    requires Inv(s) && Enabled(s, l)
    ensures Inv(Apply(s, l))
  {
    hide Inv, Enabled, Apply;
    match l
    case Begin(_) => PublishStep(s, l);
    case Freeze(_, _, _) => PublishStep(s, l);
    case Publish(_, _, _) => PublishStep(s, l);
    case Record(_) => PublishStep(s, l);
    case End(_) => PublishStep(s, l);
    case Deploy(_, _, _, _) => ReferStep(s, l);
    case Approve(_, _) => ReferStep(s, l);
    case Bind(_, _, _) => ReferStep(s, l);
    case Hold => HoldStep(s, l);
    case Finish => HoldStep(s, l);
    case ReadLive => ReadLiveStep(s);
    case ReadRegistry => ReadRegistryStep(s);
    case ReadPending(project) => ReadPendingStep(s, project);
    case ReadStore(cutoff) => ReadStoreStep(s, cutoff);
    case Remove(item) => RemoveStep(s, item);
    case Unrecord => UnrecordStep(s);
    case Orphan(item) => OrphanStep(s, item);
    case Register(_, _) => RegistryStep(s, l);
    case Unregister(_) => RegistryStep(s, l);
    case Settle(_, _) => RegistryStep(s, l);
    case Lease(_) => LeaseStep(s, l);
    case Unlease(_) => LeaseStep(s, l);
    case Build(_) => ContainerStep(s, l);
    case Appear(_, _) => ContainerStep(s, l);
    case Vanish(_) => ContainerStep(s, l);
  }

  /** A step that publishes and removes nothing leaves the store alone. */
  predicate Storing(l: Label) {
    l.Freeze? || l.Publish? || l.Record? || l.Remove? || l.Unrecord? || l.Orphan?
  }

  predicate Reads(l: Label) {
    l.Hold? || l.ReadLive? || l.ReadRegistry? || l.ReadPending? || l.ReadStore? || l.Finish?
  }

  lemma ReadingSteady(s: State, l: Label)
    requires Enabled(s, l) && Reads(l)
    ensures Apply(s, l).objects == s.objects && Apply(s, l).records == s.records && Apply(s, l).releases == s.releases
  {
    hide Enabled, LiveCandidates, LiveArtifacts, Approved, Pinned, Bound, Newest, SnapshotsOf, WithoutRecord, WithObject;
    match l
    case Hold =>
    case ReadLive =>
    case ReadRegistry =>
    case ReadPending(_) =>
    case ReadStore(_) =>
    case Finish =>
  }

  predicate Refers(l: Label) {
    l.Begin? || l.Deploy? || l.Approve? || l.Bind? || l.End?
  }

  lemma RefersSteady(s: State, l: Label)
    requires Enabled(s, l) && Refers(l)
    ensures Apply(s, l).objects == s.objects && Apply(s, l).records == s.records && Apply(s, l).releases == s.releases
  {
    hide Enabled, LiveCandidates, LiveArtifacts, Approved, Pinned, Bound, Newest, SnapshotsOf, WithoutRecord, WithObject;
    match l
    case Begin(_) =>
    case Deploy(_, _, _, _) =>
    case Approve(_, _) =>
    case Bind(_, _, _) =>
    case End(_) =>
  }

  lemma OthersSteady(s: State, l: Label)
    requires Enabled(s, l) && !Storing(l) && !Reads(l) && !Refers(l)
    ensures Apply(s, l).objects == s.objects && Apply(s, l).records == s.records && Apply(s, l).releases == s.releases
  {
    hide Enabled, LiveCandidates, LiveArtifacts, Approved, Pinned, Bound, Newest, SnapshotsOf, WithoutRecord, WithObject;
    match l
    case Register(_, _) =>
    case Unregister(_) =>
    case Settle(_, _) =>
    case Build(_) =>
    case Appear(_, _) =>
    case Vanish(_) =>
    case Lease(_) =>
    case Unlease(_) =>
  }

  lemma StoreSteady(s: State, l: Label)
    requires Enabled(s, l) && !Storing(l)
    ensures Apply(s, l).objects == s.objects && Apply(s, l).records == s.records && Apply(s, l).releases == s.releases
  {
    hide Enabled, Apply;
    if Reads(l) {
      ReadingSteady(s, l);
    } else if Refers(l) {
      RefersSteady(s, l);
    } else {
      OthersSteady(s, l);
    }
  }

  /** A run of publishers, collections and everyone else, from an empty store. */
  ghost predicate Run(ss: seq<State>, ls: seq<Label>) {
    && |ss| == |ls| + 1 && ss[0] == Empty()
    && forall k :: 0 <= k < |ls| ==> Enabled(ss[k], ls[k]) && ss[k + 1] == Apply(ss[k], ls[k])
  }

  lemma {:induction false} RunInv(ss: seq<State>, ls: seq<Label>, k: nat)
    requires Run(ss, ls) && k < |ss|
    ensures Inv(ss[k])
  {
    assert Inv(Empty());
    hide Inv, Enabled, Apply, Empty;
    if k > 0 {
      RunInv(ss, ls, k - 1);
      StepInv(ss[k - 1], ls[k - 1]);
    }
  }

  /** What the registry, a request or a container reaches. */
  ghost predicate Reached(s: State, item: Item) {
    exists c :: Referred(s, c) &&
      (item == Item(Candidate, c) || (c in s.records && s.records[c].Some? && item == Item(Snapshot, s.records[c].value)))
  }

  ghost predicate Referred(s: State, c: Digest) {
    || (exists p :: p in s.registry && s.registry[p].approved == Some(c))
    || (exists k :: k in s.pending && k.0 in s.registry && s.pending[k] == c)
    || (exists n :: n in s.live && s.live[n].candidate == Named(c))
  }

  /** Deploying, approving and asking each make what the publisher has recorded
      something that is referred to. */
  lemma PointsAt(s: State, l: Label)
    requires Enabled(s, l) && (l.Deploy? || l.Approve? || (l.Bind? && l.project in s.registry))
    ensures l.p in s.publishers && Referred(Apply(s, l), s.publishers[l.p].candidate)
    ensures l.Deploy? ==>
      var c := Apply(s, l).live[l.name];
      !c.builder && c.project == Named(l.project) && c.artifact == if l.artifact.Some? then Named(l.artifact.value) else Absent
  {
    var h, c := Apply(s, l), s.publishers[l.p].candidate;
    match l
    case Deploy(_, name, _, _) => assert h.live[name].candidate == Named(c);
    case Approve(_, project) => assert h.registry[project].approved == Some(c);
    case Bind(_, project, request) => assert (project, request).0 == project && h.pending[(project, request)] == c;
  }

  /** Over every interleaving and whatever the minimum age: what is reachable is
      in the store, and so is the record that says what it is. */
  lemma ReachedSurvives(ss: seq<State>, ls: seq<Label>, k: nat, c: Digest)
    requires Run(ss, ls) && k < |ss| && Referred(ss[k], c)
    ensures Whole(ss[k].objects, ss[k].records, c)
  {
    RunInv(ss, ls, k);
    hide Run, Publishing, Rooted, Leased;
  }

  /** No removal takes what is reachable, leased, or younger than the cutoff. */
  lemma RemovalJustified(ss: seq<State>, ls: seq<Label>, k: nat, item: Item)
    requires Run(ss, ls) && k < |ls| && ls[k] == Remove(item)
    ensures !Reached(ss[k], item) && item !in ss[k].leases && ss[k].objects[item] <= ss[k].gc.cutoff
  {
    RunInv(ss, ls, k);
    var s := ss[k];
    assert Enabled(s, ls[k]);
    hide Run, Publishing, Leased, Apply;
    forall c | Referred(s, c)
      ensures c in s.roots.candidates && c in s.records
    {
      assert Whole(s.objects, s.records, c);
    }
  }

  /** Until its roots are complete a collection deletes nothing, so one that
      gives up while reading has deleted nothing. */
  lemma {:induction false} ReadingDeletesNothing(ss: seq<State>, ls: seq<Label>, i: nat, j: nat)
    requires Run(ss, ls) && i <= j < |ss|
    requires forall k :: i <= k < j ==> ss[k].gc.Reading?
    requires forall k :: i <= k < j ==> !ls[k].ReadStore?
    ensures ss[j].objects == ss[i].objects && ss[j].records == ss[i].records && ss[j].releases == ss[i].releases
  {
    hide Inv, Enabled, Apply, Empty;
    if i < j {
      ReadingDeletesNothing(ss, ls, i, j - 1);
      RunInv(ss, ls, j - 1);
      InvPublishing(ss[j - 1]);
      ReadingKeeps(ss[j - 1], ls[j - 1]);
    }
  }

  lemma InvPublishing(s: State)
    requires Inv(s)
    ensures Publishing(s)
  {
  }

  lemma ReadingStill(s: State, l: Label)
    requires Publishing(s) && Enabled(s, l) && s.gc.Reading?
    ensures !Storing(l)
  {
    hide Backed, Kept, HasRecord, Whole, Trusted;
  }

  lemma ReadingKeeps(s: State, l: Label)
    requires Publishing(s) && Enabled(s, l) && s.gc.Reading?
    ensures Apply(s, l).objects == s.objects && Apply(s, l).records == s.records && Apply(s, l).releases == s.releases
  {
    hide Apply, Enabled, Publishing;
    ReadingStill(s, l);
    StoreSteady(s, l);
  }
}
