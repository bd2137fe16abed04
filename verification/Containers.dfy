/** The container world one project's reconciliation acts on: names, labels,
    the daemon's container table, and the replacement journal. */
module Containers {

  datatype Option<+T> = None | Some(value: T)

  // ----- names ---------------------------------------------------------

  type Name = string

  // Proper names are made of [a-z0-9-]. The old and the new container of a
  // replacement bear, for a while, their name with a dot and a role added.
  predicate Canonical(n: Name) {
    forall i | 0 <= i < |n| :: 'a' <= n[i] <= 'z' || '0' <= n[i] <= '9' || n[i] == '-'
  }

  const RETIRED: string := ".prev"
  const STAGED: string := ".next"

  function Prev(n: Name): Name { n + RETIRED }

  function Next(n: Name): Name { n + STAGED }

  predicate HasSuffix(n: Name, s: string) {
    |s| <= |n| && n[|n| - |s|..] == s
  }

  predicate Transient(n: Name) {
    HasSuffix(n, RETIRED) || HasSuffix(n, STAGED)
  }

  /** The dot tells the roles apart: canonical, retired and staged
      names never collide, and each determines the name it came from. */
  lemma NamesApart(a: Name, b: Name)
    requires Canonical(a) && Canonical(b)
    ensures !Transient(a) && Transient(Prev(a)) && Transient(Next(a))
    ensures Prev(a) != b && Next(a) != b && Prev(a) != Next(b)
    ensures Prev(a) == Prev(b) ==> a == b
    ensures Next(a) == Next(b) ==> a == b
  {
    assert Prev(a)[|a|] == '.' && Next(a)[|a|] == '.';
    assert Prev(a)[|a| + 4] == 'v' && Next(b)[|b| + 4] == 't';
    assert Prev(a)[..|a|] == a == Next(a)[..|a|];
    assert Prev(b)[..|b|] == b == Next(b)[..|b|];
    assert HasSuffix(Prev(a), RETIRED) && HasSuffix(Next(a), STAGED);
  }

  // ----- containers ----------------------------------------------------

  type Id = nat

  // The labels reconciliation reads. An absent label reads as "", as false
  // for the managed marker, and as 0 for the transaction nonce.
  datatype Labels = Labels(managed: bool, project: string, candidate: string, txn: nat, dns: string)

  datatype Container = Container(name: Name, running: bool, labels: Labels)

  // The daemon's table. Ids are minted once and never reused.
  type Fleet = map<Id, Container>

  predicate Unique(d: Fleet) {
    forall i, j | i in d && j in d && d[i].name == d[j].name :: i == j
  }

  predicate Taken(d: Fleet, n: Name) {
    exists i :: i in d && d[i].name == n
  }

  /** The container at a name; names are unique, so it is determined. */
  function At(d: Fleet, n: Name): (r: Option<Id>)
    requires Unique(d)
    ensures r.Some? <==> Taken(d, n)
    ensures r.Some? ==> r.value in d && d[r.value].name == n
  {
    if Taken(d, n) then
      var i :| i in d && d[i].name == n;
      Some(i)
    else
      None
  }

  /** From d to d', at most container x changed. */
  predicate Only(d: Fleet, d': Fleet, x: Id) {
    x in d && d'.Keys == d.Keys && forall i | i in d && i != x :: d'[i] == d[i]
  }

  /** From d to d', at most container x went away. */
  predicate Without(d: Fleet, d': Fleet, x: Id) {
    && d'.Keys <= d.Keys
    && (forall i | i in d && i != x :: i in d')
    && (forall i | i in d' :: d'[i] == d[i])
  }

  /** From d to d', at most container x changed or went away. */
  predicate Spared(d: Fleet, d': Fleet, x: Id) {
    d'.Keys <= d.Keys && forall i | i in d && i != x :: i in d' && d'[i] == d[i]
  }

  lemma SparedSteps(d0: Fleet, d1: Fleet, d2: Fleet, x: Id)
    requires d1 == d0 || Only(d0, d1, x)
    requires d2 == d1 || Without(d1, d2, x)
    ensures Spared(d0, d2, x)
  {
  }

  // What a label-filtered listing returns.
  function Listed(d: Fleet, project: string): Fleet {
    map i | i in d && d[i].labels.project == project :: d[i]
  }

  // ----- the journal ---------------------------------------------------

  datatype Entry =
    | Replace(name: Name, oldId: Id, wasRunning: bool, newId: Option<Id>)
    | Create(name: Name, newId: Option<Id>)
    | Start(name: Name, id: Id)

  datatype Journal = Journal(candidate: string, nonce: nat, entries: seq<Entry>)

  /** All four labels say that this transaction made the container. */
  predicate Owns(j: Journal, project: string, l: Labels) {
    l.txn == j.nonce && l.managed && l.project == project && l.candidate == j.candidate
  }

  /** A managed container of the project parked under a transient name. */
  predicate Debris(c: Container, project: string) {
    c.labels.project == project && c.labels.managed && Transient(c.name)
  }

  predicate NoDebris(d: Fleet, project: string) {
    forall i | i in d :: !Debris(d[i], project)
  }
}
