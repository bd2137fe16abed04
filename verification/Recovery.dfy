/** What a replacement journal means for the container table: the invariant
    every journaled step and every undo step keeps, and what it buys. */
module Recovery {
  import opened Containers

  // ----- the invariant -------------------------------------------------

  /** Entry e records the base container `id`. */
  predicate Touches(e: Entry, id: Id) {
    match e
    case Replace(_, prior, _, _) => id == prior
    case Create(_, _) => false
    case Start(_, started) => id == started
  }

  predicate Touched(j: Journal, id: Id) {
    exists k :: 0 <= k < |j.entries| && Touches(j.entries[k], id)
  }

  predicate FreshId(b: Fleet, newId: Option<Id>) {
    newId.Some? ==> newId.value !in b
  }

  /** What entry e says of the base fleet b, and how far the container it
      records may have strayed from b in the current fleet d. */
  ghost predicate EntryOk(b: Fleet, d: Fleet, e: Entry) {
    Canonical(e.name) &&
    match e
    case Replace(n, prior, wasRunning, newId) =>
      prior in b && b[prior].name == n && b[prior].running == wasRunning && b[prior].labels.managed &&
      prior in d && d[prior].labels == b[prior].labels &&
      (d[prior].name == n || d[prior].name == Prev(n)) && (d[prior].running ==> wasRunning) &&
      FreshId(b, newId)
    case Create(n, newId) =>
      !Taken(b, n) && FreshId(b, newId)
    case Start(n, id) =>
      id in b && b[id].name == n && !b[id].running && b[id].labels.managed &&
      id in d && d[id] == b[id].(running := d[id].running)
  }

  /** Container c, known as id, is the one entry e created. */
  ghost predicate MadeBy(b: Fleet, j: Journal, p: string, e: Entry, id: Id, c: Container) {
    Owns(j, p, c.labels) &&
    match e
    case Replace(n, _, _, newId) =>
      !Taken(b, Next(n)) &&
      (c.name == Next(n) || (c.name == n && newId.Some?)) &&
      (newId.Some? ==> newId.value == id)
    case Create(n, newId) =>
      c.name == n && (newId.Some? ==> newId.value == id)
    case Start(_, _) => false
  }

  ghost predicate Made(b: Fleet, j: Journal, p: string, id: Id, c: Container) {
    exists k :: 0 <= k < |j.entries| && MadeBy(b, j, p, j.entries[k], id, c)
  }

  function NewIdOf(e: Entry): Option<Id> {
    if e.Start? then None else e.newId
  }

  /** A journaled id names the container its own entry created. */
  ghost predicate NewOk(b: Fleet, d: Fleet, j: Journal, p: string, e: Entry) {
    NewIdOf(e).Some? && NewIdOf(e).value in d ==> MadeBy(b, j, p, e, NewIdOf(e).value, d[NewIdOf(e).value])
  }

  predicate DistinctNames(j: Journal) {
    forall k, m | 0 <= k < m < |j.entries| :: j.entries[k].name != j.entries[m].name
  }

  /** With journal j present, d can be rolled back to the base fleet b: every
      base container still exists and strays only where an entry says so, and
      every other container is provably some entry's creation. */
  ghost predicate Recoverable(b: Fleet, d: Fleet, j: Journal, p: string) {
    && Unique(b) && Unique(d)
    && DistinctNames(j)
    && (forall k | 0 <= k < |j.entries| :: EntryOk(b, d, j.entries[k]))
    && (forall k | 0 <= k < |j.entries| :: NewOk(b, d, j, p, j.entries[k]))
    && (forall id | id in b :: b[id].labels.txn != j.nonce)
    && (forall id | id in b && !Touched(j, id) :: id in d && d[id] == b[id])
    && (forall id | id in d && id !in b :: Made(b, j, p, id, d[id]))
  }

  // ----- what a run may journal -----------------------------------------

  // The names a run may journal, and the base containers it may journal for
  // replacement and for a start.
  datatype Scope = Scope(names: set<Name>, replaced: set<Id>, started: set<Id>)

  const NOTHING := Scope({}, {}, {})

  predicate Within(e: Entry, c: Scope) {
    e.name in c.names &&
    match e
    case Replace(_, prior, _, _) => prior in c.replaced
    case Create(_, _) => true
    case Start(_, id) => id in c.started
  }

  predicate InScope(j: Journal, c: Scope) {
    forall k | 0 <= k < |j.entries| :: Within(j.entries[k], c)
  }

  predicate Narrower(c: Scope, c': Scope) {
    c.names <= c'.names && c.replaced <= c'.replaced && c.started <= c'.started
  }

  /** Exactly what journal j records. */
  function ScopeOf(j: Journal): (c: Scope)
    ensures InScope(j, c)
  {
    Scope(set e | e in j.entries :: e.name,
          set e | e in j.entries && e.Replace? :: e.oldId,
          set e | e in j.entries && e.Start? :: e.id)
  }

  lemma ScopeOfNarrower(j: Journal, c: Scope)
    requires InScope(j, c)
    ensures Narrower(ScopeOf(j), c)
  {
    forall e | e in j.entries ensures Within(e, c) {
      var k :| 0 <= k < |j.entries| && j.entries[k] == e;
    }
  }

  /** A container that was off, that an unfinished start turned on, and that
      undo cannot turn off again: it lacks the project's label, and only
      the project's containers are listed. */
  predicate Stray(was: Container, now: Container, p: string) {
    was.labels.managed && was.labels.project != p && !was.running && now == was.(running := true)
  }

  predicate Leftover(c: Container, p: string) {
    c.labels.managed && c.labels.project == p && HasSuffix(c.name, STAGED) && !c.running
  }

  /** With no journal present: the base fleet, but for started strays and
      stopped staged debris. */
  ghost predicate Restored(b: Fleet, d: Fleet, p: string, c: Scope) {
    && (forall id | id in b :: id in d && (d[id] == b[id] || (id in c.started && Stray(b[id], d[id], p))))
    && (forall id | id in d && id !in b :: Leftover(d[id], p))
  }

  /** Nothing is lost while the journal exists, and no container the engine
      does not manage, or does not name in the journal, is changed. */
  lemma NothingLost(b: Fleet, d: Fleet, j: Journal, p: string)
    requires Recoverable(b, d, j, p)
    ensures b.Keys <= d.Keys
    ensures forall id | id in b :: d[id].labels == b[id].labels
    ensures forall id | id in b && !b[id].labels.managed :: d[id] == b[id]
    ensures forall id | id in b && (forall k | 0 <= k < |j.entries| :: j.entries[k].name != b[id].name) :: d[id] == b[id]
  {
    forall id | id in b
      ensures id in d && d[id].labels == b[id].labels
      ensures !b[id].labels.managed ==> d[id] == b[id]
      ensures (forall k | 0 <= k < |j.entries| :: j.entries[k].name != b[id].name) ==> d[id] == b[id]
    {
      if Touched(j, id) {
        var k :| 0 <= k < |j.entries| && Touches(j.entries[k], id);
        assert EntryOk(b, d, j.entries[k]);
      }
    }
  }

  /** No container is two entries' creation. */
  lemma MadeOnce(b: Fleet, d: Fleet, j: Journal, p: string, k: nat, m: nat, id: Id, c: Container)
    requires Recoverable(b, d, j, p) && k < |j.entries| && m < |j.entries|
    requires MadeBy(b, j, p, j.entries[k], id, c) && MadeBy(b, j, p, j.entries[m], id, c)
    ensures k == m
  {
    assert EntryOk(b, d, j.entries[k]) && EntryOk(b, d, j.entries[m]);
    NamesApart(j.entries[k].name, j.entries[m].name);
    NamesApart(j.entries[m].name, j.entries[k].name);
  }

  /** One entry creates at most one container. */
  lemma MadeUnique(b: Fleet, d: Fleet, j: Journal, p: string, e: Entry, x: Id, y: Id)
    requires Recoverable(b, d, j, p) && e in j.entries
    requires x in d && y in d && MadeBy(b, j, p, e, x, d[x]) && MadeBy(b, j, p, e, y, d[y])
    ensures x == y
  {
  }

  /** While entry k has a creation, nothing else sits at its staged name,
      and nothing but its prior container and its creation at its own name. */
  lemma OccupiesNames(b: Fleet, d: Fleet, j: Journal, p: string, k: nat, id: Id)
    requires Recoverable(b, d, j, p) && k < |j.entries| && id in d
    ensures d[id].name == j.entries[k].name ==>
              Touches(j.entries[k], id) || (id !in b && MadeBy(b, j, p, j.entries[k], id, d[id]))
    ensures d[id].name == Next(j.entries[k].name) && id !in b ==> MadeBy(b, j, p, j.entries[k], id, d[id])
    ensures d[id].name == Next(j.entries[k].name) && id in b ==> b[id].name == Next(j.entries[k].name)
    ensures d[id].name == Prev(j.entries[k].name) && id in b ==>
              Touches(j.entries[k], id) || b[id].name == Prev(j.entries[k].name)
    ensures d[id].name == Prev(j.entries[k].name) ==> id in b
  {
    var e := j.entries[k];
    assert EntryOk(b, d, e);
    if id !in b {
      var m :| 0 <= m < |j.entries| && MadeBy(b, j, p, j.entries[m], id, d[id]);
      assert EntryOk(b, d, j.entries[m]);
      NamesApart(e.name, j.entries[m].name);
      NamesApart(j.entries[m].name, e.name);
    } else if Touched(j, id) {
      var m :| 0 <= m < |j.entries| && Touches(j.entries[m], id);
      assert EntryOk(b, d, j.entries[m]);
      NamesApart(e.name, j.entries[m].name);
      NamesApart(j.entries[m].name, e.name);
    }
  }

  // ----- the steps that keep it ----------------------------------------

  lemma UniqueUpdate(d: Fleet, x: Id, c: Container)
    requires Unique(d)
    requires x in d ==> c.name == d[x].name || !Taken(d - {x}, c.name)
    requires x !in d ==> !Taken(d, c.name)
    ensures Unique(d[x := c])
  {
    forall i | i in d && i != x ensures d[i].name != c.name {
      assert i in d - {x};
    }
  }

  lemma EntryFrame(b: Fleet, d: Fleet, d': Fleet, e: Entry)
    requires EntryOk(b, d, e)
    requires forall id | Touches(e, id) && id in d :: id in d' && d'[id] == d[id]
    ensures EntryOk(b, d', e)
  {
    assert e.Replace? ==> Touches(e, e.oldId);
    assert e.Start? ==> Touches(e, e.id);
  }

  /** Base containers are nobody's creation, and entries record distinct ones. */
  lemma TouchedOnce(b: Fleet, d: Fleet, j: Journal, p: string, k: nat, m: nat, x: Id)
    requires Recoverable(b, d, j, p) && k < |j.entries| && m < |j.entries|
    requires Touches(j.entries[k], x) && Touches(j.entries[m], x)
    ensures k == m && x in b && b[x].name == j.entries[k].name && x in d
  {
    assert EntryOk(b, d, j.entries[k]) && EntryOk(b, d, j.entries[m]);
  }

  /** The new shape c of the one container x is one its entries allow. */
  ghost predicate Allowed(b: Fleet, d: Fleet, j: Journal, p: string, x: Id, c: Container) {
    if x in b then
      Touched(j, x) &&
      forall k | 0 <= k < |j.entries| && Touches(j.entries[k], x) :: EntryOk(b, d[x := c], j.entries[k])
    else
      Made(b, j, p, x, c) &&
      forall k | 0 <= k < |j.entries| && NewIdOf(j.entries[k]) == Some(x) :: MadeBy(b, j, p, j.entries[k], x, c)
  }

  lemma ChangeEntry(b: Fleet, d: Fleet, j: Journal, p: string, x: Id, c: Container, k: nat)
    requires Recoverable(b, d, j, p) && Allowed(b, d, j, p, x, c) && k < |j.entries|
    ensures EntryOk(b, d[x := c], j.entries[k]) && NewOk(b, d[x := c], j, p, j.entries[k])
  {
    var d' := d[x := c];
    assert EntryOk(b, d, j.entries[k]) && NewOk(b, d, j, p, j.entries[k]);
    if Touches(j.entries[k], x) {
      TouchedOnce(b, d, j, p, k, k, x);
    } else {
      EntryFrame(b, d, d', j.entries[k]);
    }
  }

  /** Changing or adding one container keeps the invariant when its new
      shape is allowed and its name is free. */
  lemma Change(b: Fleet, d: Fleet, j: Journal, p: string, x: Id, c: Container)
    requires Recoverable(b, d, j, p) && Allowed(b, d, j, p, x, c)
    requires x in d ==> c.name == d[x].name || !Taken(d - {x}, c.name)
    requires x !in d ==> !Taken(d, c.name)
    ensures Recoverable(b, d[x := c], j, p)
  {
    var d' := d[x := c];
    UniqueUpdate(d, x, c);
    forall k | 0 <= k < |j.entries| ensures EntryOk(b, d', j.entries[k]) && NewOk(b, d', j, p, j.entries[k]) {
      ChangeEntry(b, d, j, p, x, c, k);
    }
    forall id | id in d' && id !in b ensures Made(b, j, p, id, d'[id]) {
      assert id != x ==> Made(b, j, p, id, d[id]);
    }
  }

  /** A created container may be started or stopped freely. */
  lemma SwitchMade(b: Fleet, d: Fleet, j: Journal, p: string, x: Id, on: bool)
    requires Recoverable(b, d, j, p) && x in d && x !in b
    ensures Recoverable(b, d[x := d[x].(running := on)], j, p)
  {
    var c := d[x].(running := on);
    var k :| 0 <= k < |j.entries| && MadeBy(b, j, p, j.entries[k], x, d[x]);
    assert MadeBy(b, j, p, j.entries[k], x, c);
    forall m | 0 <= m < |j.entries| && NewIdOf(j.entries[m]) == Some(x) ensures MadeBy(b, j, p, j.entries[m], x, c) {
      assert NewOk(b, d, j, p, j.entries[m]);
    }
    Change(b, d, j, p, x, c);
  }

  lemma DropMade(b: Fleet, d: Fleet, j: Journal, p: string, x: Id)
    requires Recoverable(b, d, j, p) && x !in b
    ensures Recoverable(b, d - {x}, j, p)
  {
    forall k | 0 <= k < |j.entries|
      ensures EntryOk(b, d - {x}, j.entries[k]) && NewOk(b, d - {x}, j, p, j.entries[k])
    {
      assert EntryOk(b, d, j.entries[k]) && NewOk(b, d, j, p, j.entries[k]);
    }
  }

  /** A replacement may swap between its staged and its canonical name, but
      only once its id is journaled may it take the canonical one. */
  lemma RenameMade(b: Fleet, d: Fleet, j: Journal, p: string, k: nat, x: Id, n: Name)
    requires Recoverable(b, d, j, p) && k < |j.entries| && j.entries[k].Replace?
    requires x in d && x !in b && MadeBy(b, j, p, j.entries[k], x, d[x])
    requires n == Next(j.entries[k].name) || (n == j.entries[k].name && j.entries[k].newId.Some?)
    requires !Taken(d - {x}, n)
    ensures Recoverable(b, d[x := d[x].(name := n)], j, p)
    ensures MadeBy(b, j, p, j.entries[k], x, d[x].(name := n))
  {
    var c := d[x].(name := n);
    assert MadeBy(b, j, p, j.entries[k], x, c);
    forall m | 0 <= m < |j.entries| && NewIdOf(j.entries[m]) == Some(x) ensures m == k {
      assert NewOk(b, d, j, p, j.entries[m]);
      MadeOnce(b, d, j, p, k, m, x, d[x]);
    }
    Change(b, d, j, p, x, c);
  }

  /** The old container of a replacement may move between its own and its
      retired name, and may run whenever it ran at the base. */
  lemma MoveOld(b: Fleet, d: Fleet, j: Journal, p: string, k: nat, c: Container)
    requires Recoverable(b, d, j, p) && k < |j.entries| && j.entries[k].Replace?
    requires j.entries[k].oldId in d ==>
               c.labels == d[j.entries[k].oldId].labels &&
               (c.name == d[j.entries[k].oldId].name || !Taken(d - {j.entries[k].oldId}, c.name))
    requires c.running ==> j.entries[k].wasRunning
    requires c.name == j.entries[k].name || c.name == Prev(j.entries[k].name)
    ensures j.entries[k].oldId in d
    ensures Recoverable(b, d[j.entries[k].oldId := c], j, p)
  {
    var prior := j.entries[k].oldId;
    assert EntryOk(b, d, j.entries[k]);
    assert Touches(j.entries[k], prior);
    assert EntryOk(b, d[prior := c], j.entries[k]);
    forall m | 0 <= m < |j.entries| && Touches(j.entries[m], prior) ensures EntryOk(b, d[prior := c], j.entries[m]) {
      TouchedOnce(b, d, j, p, k, m, prior);
    }
    Change(b, d, j, p, prior, c);
  }

  /** The container of a journaled start may run or not. */
  lemma SwitchStarted(b: Fleet, d: Fleet, j: Journal, p: string, k: nat, on: bool)
    requires Recoverable(b, d, j, p) && k < |j.entries| && j.entries[k].Start?
    ensures j.entries[k].id in d
    ensures Recoverable(b, d[j.entries[k].id := d[j.entries[k].id].(running := on)], j, p)
  {
    var x := j.entries[k].id;
    assert EntryOk(b, d, j.entries[k]);
    var c := d[x].(running := on);
    assert Touches(j.entries[k], x);
    assert EntryOk(b, d[x := c], j.entries[k]);
    forall m | 0 <= m < |j.entries| && Touches(j.entries[m], x) ensures EntryOk(b, d[x := c], j.entries[m]) {
      TouchedOnce(b, d, j, p, k, m, x);
    }
    Change(b, d, j, p, x, c);
  }

  /** Replacing the entries by ones that allow at least as much. */
  lemma Rewrite(b: Fleet, d: Fleet, j: Journal, j': Journal, p: string)
    requires Recoverable(b, d, j, p)
    requires j'.nonce == j.nonce && DistinctNames(j')
    requires forall k | 0 <= k < |j'.entries| :: EntryOk(b, d, j'.entries[k])
    requires |j.entries| <= |j'.entries|
    requires forall k, x | 0 <= k < |j.entries| && Touches(j.entries[k], x) :: Touches(j'.entries[k], x)
    requires forall k, x | 0 <= k < |j.entries| && x in d && x !in b && MadeBy(b, j, p, j.entries[k], x, d[x]) ::
               MadeBy(b, j', p, j'.entries[k], x, d[x])
    requires forall k | 0 <= k < |j'.entries| :: NewOk(b, d, j', p, j'.entries[k])
    ensures Recoverable(b, d, j', p)
  {
    forall id | Touched(j, id) ensures Touched(j', id) {
      var k :| 0 <= k < |j.entries| && Touches(j.entries[k], id);
      assert Touches(j'.entries[k], id);
    }
    forall id | id in d && id !in b ensures Made(b, j', p, id, d[id]) {
      var k :| 0 <= k < |j.entries| && MadeBy(b, j, p, j.entries[k], id, d[id]);
      assert MadeBy(b, j', p, j'.entries[k], id, d[id]);
    }
  }

  function Appended(j: Journal, e: Entry): (r: Journal)
    ensures |r.entries| == |j.entries| + 1 && r.entries[|j.entries|] == e
    ensures r.nonce == j.nonce && r.candidate == j.candidate
  {
    j.(entries := j.entries + [e])
  }

  /** Journaling an entry before its effect changes nothing yet. */
  lemma Append(b: Fleet, d: Fleet, j: Journal, p: string, e: Entry)
    requires Recoverable(b, d, j, p)
    requires EntryOk(b, d, e) && NewIdOf(e).None?
    requires forall k | 0 <= k < |j.entries| :: j.entries[k].name != e.name
    ensures Recoverable(b, d, Appended(j, e), p)
  {
    var j' := Appended(j, e);
    forall k | 0 <= k < |j'.entries|
      ensures EntryOk(b, d, j'.entries[k]) && NewOk(b, d, j', p, j'.entries[k])
    {
      if k < |j.entries| {
        assert EntryOk(b, d, j.entries[k]) && NewOk(b, d, j, p, j.entries[k]);
      }
    }
    Rewrite(b, d, j, j', p);
  }

  function WithNewId(e: Entry, id: Id): Entry
    requires !e.Start?
  {
    match e
    case Replace(_, _, _, _) => e.(newId := Some(id))
    case Create(_, _) => e.(newId := Some(id))
  }

  function Backfilled(j: Journal, k: nat, id: Id): Journal
    requires k < |j.entries| && !j.entries[k].Start?
  {
    j.(entries := j.entries[k := WithNewId(j.entries[k], id)])
  }

  /** Backfilling the id an entry's action minted. */
  lemma Backfill(b: Fleet, d: Fleet, j: Journal, p: string, k: nat, x: Id)
    requires Recoverable(b, d, j, p) && k < |j.entries| && !j.entries[k].Start?
    requires j.entries[k].newId.None?
    requires x in d && x !in b && MadeBy(b, j, p, j.entries[k], x, d[x])
    ensures Recoverable(b, d, Backfilled(j, k, x), p)
    ensures MadeBy(b, Backfilled(j, k, x), p, Backfilled(j, k, x).entries[k], x, d[x])
  {
    var j' := Backfilled(j, k, x);
    forall m | 0 <= m < |j'.entries|
      ensures EntryOk(b, d, j'.entries[m]) && NewOk(b, d, j', p, j'.entries[m])
    {
      assert EntryOk(b, d, j.entries[m]) && NewOk(b, d, j, p, j.entries[m]);
    }
    forall m, y | 0 <= m < |j.entries| && y in d && y !in b && MadeBy(b, j, p, j.entries[m], y, d[y])
      ensures MadeBy(b, j', p, j'.entries[m], y, d[y])
    {
      if m == k {
        MadeUnique(b, d, j, p, j.entries[k], x, y);
      }
    }
    Rewrite(b, d, j, j', p);
  }

  /** The one container an id-less entry's action may create: it carries the
      transaction's labels and sits at the one name the entry allows. */
  lemma CreateMade(b: Fleet, d: Fleet, j: Journal, p: string, k: nat, x: Id, c: Container)
    requires Recoverable(b, d, j, p) && k < |j.entries| && x !in b && x !in d
    requires !Taken(d, c.name) && Owns(j, p, c.labels)
    requires !j.entries[k].Start? && j.entries[k].newId.None?
    requires c.name == if j.entries[k].Replace? then Next(j.entries[k].name) else j.entries[k].name
    requires forall m | 0 <= m < |j.entries| :: NewIdOf(j.entries[m]) != Some(x)
    ensures MadeBy(b, j, p, j.entries[k], x, c)
    ensures Recoverable(b, d[x := c], j, p)
  {
    var e := j.entries[k];
    if e.Replace? && Taken(b, c.name) {
      var i :| i in b && b[i].name == c.name;
      BaseStaged(b, d, j, p, e.name, i);
      assert false;
    }
    assert MadeBy(b, j, p, e, x, c);
    Change(b, d, j, p, x, c);
  }

  /** Base containers under transient names are never touched. */
  lemma BaseStaged(b: Fleet, d: Fleet, j: Journal, p: string, n: Name, i: Id)
    requires Recoverable(b, d, j, p) && Canonical(n) && i in b
    requires b[i].name == Next(n) || b[i].name == Prev(n)
    ensures i in d && d[i] == b[i]
  {
    if Touched(j, i) {
      var m :| 0 <= m < |j.entries| && Touches(j.entries[m], i);
      assert EntryOk(b, d, j.entries[m]);
      NamesApart(n, j.entries[m].name);
    }
  }

  // ----- undoing one entry ---------------------------------------------

  /** Entry e has been rolled back in d: its base container is as it was and
      its creation is gone, or (replacements only) parked and stopped. */
  ghost predicate Undone(b: Fleet, d: Fleet, j: Journal, p: string, e: Entry) {
    match e
    case Replace(n, prior, _, _) =>
      prior in b && prior in d && d[prior] == b[prior] &&
      forall x | x in d && x !in b && MadeBy(b, j, p, e, x, d[x]) :: d[x].name == Next(n) && !d[x].running
    case Create(_, _) =>
      forall x | x in d && x !in b :: !MadeBy(b, j, p, e, x, d[x])
    case Start(_, id) =>
      id in b && id in d && (d[id].running ==> b[id].labels.project != p)
  }

  /** Entry e's creation is gone altogether. */
  ghost predicate Erased(b: Fleet, d: Fleet, j: Journal, p: string, e: Entry) {
    forall x | x in d && x !in b :: !MadeBy(b, j, p, e, x, d[x])
  }

  /** The containers entry e is allowed to affect. */
  ghost predicate Reaches(b: Fleet, d: Fleet, j: Journal, p: string, e: Entry, id: Id) {
    Touches(e, id) || (id in d && id !in b && MadeBy(b, j, p, e, id, d[id]))
  }

  /** From d to d', only containers entry e reaches have changed. */
  ghost predicate Frame(b: Fleet, d: Fleet, d': Fleet, j: Journal, p: string, e: Entry) {
    && d'.Keys <= d.Keys
    && (forall id | id in d && !Reaches(b, d, j, p, e, id) :: id in d' && d'[id] == d[id])
    && (forall id | id in d' && id !in b && MadeBy(b, j, p, e, id, d[id]) :: MadeBy(b, j, p, e, id, d'[id]))
  }

  /** Undoing one entry leaves every other entry's progress alone. */
  lemma UndoneFrame(b: Fleet, d: Fleet, d': Fleet, j: Journal, p: string, k: nat, m: nat)
    requires Recoverable(b, d, j, p) && Recoverable(b, d', j, p)
    requires k < |j.entries| && m < |j.entries| && k != m
    requires Frame(b, d, d', j, p, j.entries[k])
    ensures Undone(b, d, j, p, j.entries[m]) ==> Undone(b, d', j, p, j.entries[m])
    ensures Erased(b, d, j, p, j.entries[m]) ==> Erased(b, d', j, p, j.entries[m])
  {
    var e, f := j.entries[k], j.entries[m];
    assert EntryOk(b, d, e) && EntryOk(b, d, f);
    forall x | x in d' && x !in b && MadeBy(b, j, p, f, x, d'[x]) ensures d'[x] == d[x] {
      if Reaches(b, d, j, p, e, x) {
        MadeOnce(b, d', j, p, k, m, x, d'[x]);
      }
    }
  }

  /** With every entry undone, deleting the journal leaves the base fleet. */
  lemma AllUndone(b: Fleet, d: Fleet, j: Journal, p: string, c: Scope)
    requires Recoverable(b, d, j, p) && InScope(j, c)
    requires forall k | 0 <= k < |j.entries| :: Undone(b, d, j, p, j.entries[k])
    ensures Restored(b, d, p, c)
    ensures (forall k | 0 <= k < |j.entries| :: Erased(b, d, j, p, j.entries[k])) ==> d.Keys == b.Keys
  {
    forall id | id in b ensures id in d && (d[id] == b[id] || (id in c.started && Stray(b[id], d[id], p))) {
      if Touched(j, id) {
        var k :| 0 <= k < |j.entries| && Touches(j.entries[k], id);
        assert Undone(b, d, j, p, j.entries[k]) && EntryOk(b, d, j.entries[k]) && Within(j.entries[k], c);
      }
    }
    forall id | id in d && id !in b ensures Leftover(d[id], p) {
      var k :| 0 <= k < |j.entries| && MadeBy(b, j, p, j.entries[k], id, d[id]);
      assert Undone(b, d, j, p, j.entries[k]);
      NamesApart(j.entries[k].name, j.entries[k].name);
      assert HasSuffix(Next(j.entries[k].name), STAGED);
    }
    forall id | id in d && id !in b ensures exists k :: 0 <= k < |j.entries| && !Erased(b, d, j, p, j.entries[k]) {
      var k :| 0 <= k < |j.entries| && MadeBy(b, j, p, j.entries[k], id, d[id]);
      assert !Erased(b, d, j, p, j.entries[k]);
    }
  }

  // ----- the durable journal and the one in memory ----------------------

  /** Entry f on disk is entry e in memory, perhaps without its minted id. */
  predicate Earlier(f: Entry, e: Entry) {
    f == e ||
    (match e
     case Replace(_, _, _, _) => f == e.(newId := None)
     case Create(_, _) => f == e.(newId := None)
     case Start(_, _) => false)
  }

  /** The journal on disk may lag by an unwritten id and lead by an entry
      whose write was reported failed and whose action therefore never ran. */
  predicate Covers(dj: Journal, j: Journal) {
    && dj.nonce == j.nonce && dj.candidate == j.candidate
    && |j.entries| <= |dj.entries|
    && forall k | 0 <= k < |j.entries| :: Earlier(dj.entries[k], j.entries[k])
  }

  /** The state rollback starts from and keeps: recoverable by the journal in
      memory and by the one on disk; before any write, nothing has changed. */
  ghost predicate Kept(b: Fleet, d: Fleet, disk: Option<Journal>, j: Journal, p: string) {
    && Recoverable(b, d, j, p)
    && (disk.Some? ==> Recoverable(b, d, disk.value, p) && Covers(disk.value, j))
    && (disk.None? ==> d == b)
  }

  lemma CoveredScope(dj: Journal, j: Journal, c: Scope)
    requires Covers(dj, j) && InScope(dj, c)
    ensures InScope(j, c)
  {
    forall k | 0 <= k < |j.entries| ensures Within(j.entries[k], c) {
      assert Within(dj.entries[k], c) && Earlier(dj.entries[k], j.entries[k]);
    }
  }

  lemma SameMaker(b: Fleet, d: Fleet, dj: Journal, j: Journal, p: string, k: nat, x: Id)
    requires Recoverable(b, d, dj, p) && Covers(dj, j) && k < |j.entries|
    requires x in d && x !in b && MadeBy(b, j, p, j.entries[k], x, d[x])
    ensures MadeBy(b, dj, p, dj.entries[k], x, d[x])
  {
    var m :| 0 <= m < |dj.entries| && MadeBy(b, dj, p, dj.entries[m], x, d[x]);
    assert EntryOk(b, d, dj.entries[k]) && EntryOk(b, d, dj.entries[m]);
    NamesApart(dj.entries[k].name, dj.entries[m].name);
    NamesApart(dj.entries[m].name, dj.entries[k].name);
  }

  lemma KeepSwitch(b: Fleet, d: Fleet, disk: Option<Journal>, j: Journal, p: string, x: Id, on: bool)
    requires Kept(b, d, disk, j, p) && disk.Some? && x in d && x !in b
    ensures Kept(b, d[x := d[x].(running := on)], disk, j, p)
  {
    SwitchMade(b, d, j, p, x, on);
    SwitchMade(b, d, disk.value, p, x, on);
  }

  lemma KeepDrop(b: Fleet, d: Fleet, disk: Option<Journal>, j: Journal, p: string, x: Id)
    requires Kept(b, d, disk, j, p) && disk.Some? && x !in b
    ensures Kept(b, d - {x}, disk, j, p)
  {
    DropMade(b, d, j, p, x);
    DropMade(b, d, disk.value, p, x);
  }

  lemma KeepPark(b: Fleet, d: Fleet, disk: Option<Journal>, j: Journal, p: string, k: nat, x: Id)
    requires Kept(b, d, disk, j, p) && disk.Some? && k < |j.entries| && j.entries[k].Replace?
    requires x in d && x !in b && MadeBy(b, j, p, j.entries[k], x, d[x])
    requires !Taken(d - {x}, Next(j.entries[k].name))
    ensures Kept(b, d[x := d[x].(name := Next(j.entries[k].name))], disk, j, p)
    ensures MadeBy(b, j, p, j.entries[k], x, d[x].(name := Next(j.entries[k].name)))
  {
    SameMaker(b, d, disk.value, j, p, k, x);
    assert Earlier(disk.value.entries[k], j.entries[k]);
    RenameMade(b, d, j, p, k, x, Next(j.entries[k].name));
    RenameMade(b, d, disk.value, p, k, x, Next(j.entries[k].name));
  }

  lemma KeepOld(b: Fleet, d: Fleet, disk: Option<Journal>, j: Journal, p: string, k: nat, c: Container)
    requires Kept(b, d, disk, j, p) && disk.Some? && k < |j.entries| && j.entries[k].Replace?
    requires j.entries[k].oldId in d ==>
               c.labels == d[j.entries[k].oldId].labels &&
               (c.name == d[j.entries[k].oldId].name || !Taken(d - {j.entries[k].oldId}, c.name))
    requires c.running ==> j.entries[k].wasRunning
    requires c.name == j.entries[k].name || c.name == Prev(j.entries[k].name)
    ensures j.entries[k].oldId in d
    ensures Kept(b, d[j.entries[k].oldId := c], disk, j, p)
  {
    assert Earlier(disk.value.entries[k], j.entries[k]);
    MoveOld(b, d, j, p, k, c);
    MoveOld(b, d, disk.value, p, k, c);
  }

  lemma KeepStarted(b: Fleet, d: Fleet, disk: Option<Journal>, j: Journal, p: string, k: nat, on: bool)
    requires Kept(b, d, disk, j, p) && disk.Some? && k < |j.entries| && j.entries[k].Start?
    ensures j.entries[k].id in d
    ensures Kept(b, d[j.entries[k].id := d[j.entries[k].id].(running := on)], disk, j, p)
  {
    assert Earlier(disk.value.entries[k], j.entries[k]);
    SwitchStarted(b, d, j, p, k, on);
    SwitchStarted(b, d, disk.value, p, k, on);
  }
}
