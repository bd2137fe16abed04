/** The install plan: the steps of the build and their named parts
    (internal/builder/install.go). The recipes' texts are inputs. */
module Install {

  import opened Containers
  import B = BuildStream
  import T = Terminal

  /** One row of the bill of materials. */
  datatype Part = Part(id: string, title: string, detail: string, refresh: bool)

  /** A text fragment and the part it belongs to; no id marks chrome. */
  datatype Chunk = Chunk(part: Part, text: string)

  datatype Plan = Plan(dockerfile: string, parts: seq<Part>, stepPart: seq<nat>, refreshKinds: seq<string>)

  const NO_PART: Part := Part("", "", "", false)

  const BASE_IMAGE_ARG: string := "VIBE_BASE_IMAGE"

  function Chrome(text: string): Chunk { Chunk(NO_PART, text) }

  /** A line that is an instruction and not blank, a comment or a continuation. */
  predicate Instruction(line: string) {
    line != "" && line[0] != '#' && line[0] != ' ' && line[0] != '\t'
  }

  function Count(lines: seq<string>): nat {
    if lines == [] then 0 else Count(lines[..|lines| - 1]) + if Instruction(lines[|lines| - 1]) then 1 else 0
  }

  function Instructions(text: string): nat { Count(T.Split(text)) }

  method CountInstructions(text: string) returns (n: nat)
    ensures n == Instructions(text)
  {
    var lines := T.Split(text);
    n := 0;
    for k := 0 to |lines|
      invariant n == Count(lines[..k])
    {
      assert lines[..k + 1][..k] == lines[..k];
      if lines[k] == "" || lines[k][0] == '#' || lines[k][0] == ' ' || lines[k][0] == '\t' {
        continue;
      }
      n := n + 1;
    }
    assert lines[..|lines|] == lines;
  }

  lemma {:induction false} CountJoined(p: seq<string>, q: seq<string>)
    ensures Count(p + q) == Count(p) + Count(q)
  {
    hide Instruction;
    if q == [] {
      assert p + q == p;
    } else {
      assert (p + q)[..|p + q| - 1] == p + q[..|q| - 1];
      CountJoined(p, q[..|q| - 1]);
    }
  }

  predicate Terminated(text: string) { text != "" && text[|text| - 1] == '\n' }

  /** Fragments that end their last line can be counted one by one. */
  lemma InstructionsJoined(a: string, b: string)
    requires a == "" || Terminated(a)
    ensures Instructions(a + b) == Instructions(a) + Instructions(b)
  {
    var p, q := T.Split(a), T.Split(b);
    B.SplitAcross(a, b);
    LastPiece(a);
    NoLines();
    hide Count, T.Split;
    assert B.Last(p) + q[0] == q[0];
    assert T.Split(a + b) == B.Whole(p) + q;
    CountJoined(B.Whole(p), q);
    assert p == B.Whole(p) + [""];
    CountJoined(B.Whole(p), [""]);
  }

  /** Line by line: a line counts unless it is empty or begins as a comment or a
      continuation does. */
  lemma LineCounts(line: string, text: string)
    requires '\n' !in line
    ensures Instructions(line + "\n" + text) ==
            Instructions(text) + if line == "" || line[0] in {'#', ' ', '\t'} then 0 else 1
    ensures Instructions(line) == if line == "" || line[0] in {'#', ' ', '\t'} then 0 else 1
  {
    assert T.OneLine(line);
    T.SplitAfter(line, text);
    T.SplitOneLine(line);
    CountJoined([line], T.Split(text));
    assert [line][..0] == [];
    hide T.Split;
  }

  lemma NoLines()
    ensures Count([""]) == 0
  {
    assert [""][..0] == [];
  }

  lemma LastPiece(a: string)
    requires a == "" || Terminated(a)
    ensures B.Last(T.Split(a)) == ""
  {
    if a != "" {
      var s := a[..|a| - 1];
      assert a == s + "\n";
      B.SplitAcross(s, "\n");
      assert T.Split("\n") == ["", ""] by { assert "\n"[1..] == ""; }
    }
  }

  function Repeat<X>(x: X, n: nat): (xs: seq<X>)
    ensures |xs| == n && forall k :: 0 <= k < n ==> xs[k] == x
  {
    seq(n, _ => x)
  }

  /** The ids of the first n chunks' parts, each where it first comes up. */
  function Ids(chunks: seq<Chunk>, n: nat): seq<string>
    requires n <= |chunks|
  {
    if n == 0 then []
    else
      var before, id := Ids(chunks, n - 1), chunks[n - 1].part.id;
      if id == "" || id in before then before else before + [id]
  }

  /** Some chunk has a part. */
  predicate Named(chunks: seq<Chunk>) { Ids(chunks, |chunks|) != [] }

  function LastId(chunks: seq<Chunk>): string
    requires Named(chunks)
  {
    Ids(chunks, |chunks|)[|Ids(chunks, |chunks|)| - 1]
  }

  /** The part of chunk k, or for chrome the next part there is; the tail's chrome
      joins the part that came up last. */
  function Owner(chunks: seq<Chunk>, k: nat): string
    requires k <= |chunks| && Named(chunks)
    decreases |chunks| - k
  {
    if k == |chunks| then LastId(chunks)
    else if chunks[k].part.id != "" then chunks[k].part.id
    else Owner(chunks, k + 1)
  }

  /** Instruction by instruction, the part it belongs to. */
  function Owners(chunks: seq<Chunk>, k: nat): seq<string>
    requires k <= |chunks| && Named(chunks)
    decreases |chunks| - k
  {
    if k == |chunks| then []
    else Repeat(Owner(chunks, k), Instructions(chunks[k].text)) + Owners(chunks, k + 1)
  }

  function Concat(chunks: seq<Chunk>, n: nat): string
    requires n <= |chunks|
  {
    if n == 0 then "" else Concat(chunks, n - 1) + chunks[n - 1].text
  }

  predicate AllTerminated(chunks: seq<Chunk>) { forall c :: c in chunks ==> Terminated(c.text) }

  lemma {:induction false} ConcatTerminated(chunks: seq<Chunk>, n: nat)
    requires AllTerminated(chunks) && n <= |chunks|
    ensures Concat(chunks, n) == "" || Terminated(Concat(chunks, n))
  {
    if n > 0 {
      assert chunks[n - 1] in chunks;
    }
  }

  /** There is an owner for each instruction of the whole file, and no more. */
  lemma {:induction false} OwnersCount(chunks: seq<Chunk>, k: nat)
    requires k <= |chunks| && Named(chunks) && AllTerminated(chunks)
    ensures Instructions(Concat(chunks, |chunks|)) == Instructions(Concat(chunks, k)) + |Owners(chunks, k)|
    decreases |chunks| - k
  {
    hide Instructions, Named;
    if k < |chunks| {
      OwnersCount(chunks, k + 1);
      ConcatTerminated(chunks, k);
      InstructionsJoined(Concat(chunks, k), chunks[k].text);
    }
  }

  /** The plan says of every step which part owns it. */
  ghost predicate Owned(parts: seq<Part>, stepPart: seq<nat>, owners: seq<string>) {
    && |stepPart| == |owners|
    && forall s :: 0 <= s < |stepPart| ==> stepPart[s] < |parts| && parts[stepPart[s]].id == owners[s]
  }

  ghost predicate Indexed(parts: seq<Part>, ids: seq<string>, index: map<string, nat>) {
    && |parts| == |ids| && (forall j :: 0 <= j < |ids| ==> parts[j].id == ids[j])
    && (forall i, j :: 0 <= i < j < |ids| ==> ids[i] != ids[j])
    && (forall id :: id in index ==> index[id] < |ids| && ids[index[id]] == id)
    && (forall id :: id in ids ==> id in index)
  }

  /** The chunks so far are planned: chrome that waits for its part is pending. */
  ghost predicate Planned(parts: seq<Part>, stepPart: seq<nat>, index: map<string, nat>, pending: nat, chunks: seq<Chunk>, k: nat)
    requires k <= |chunks| && Named(chunks)
  {
    && Indexed(parts, Ids(chunks, k), index)
    && exists owners :: Owned(parts, stepPart, owners)
         && owners + Repeat(Owner(chunks, k), pending) + Owners(chunks, k) == Owners(chunks, 0)
  }

  lemma RepeatMore(front: seq<string>, id: string, p: nat, n: nat, rest: seq<string>)
    ensures front + Repeat(id, p) + (Repeat(id, n) + rest) == front + Repeat(id, p + n) + rest
  {
  }

  lemma OwnersUnfold(chunks: seq<Chunk>, k: nat)
    requires k < |chunks| && Named(chunks)
    ensures Owners(chunks, k) == Repeat(Owner(chunks, k), Instructions(chunks[k].text)) + Owners(chunks, k + 1)
    ensures Owner(chunks, k) == if chunks[k].part.id == "" then Owner(chunks, k + 1) else chunks[k].part.id
    ensures var before, id := Ids(chunks, k), chunks[k].part.id;
      Ids(chunks, k + 1) == if id == "" || id in before then before else before + [id]
  {
    hide Instructions;
  }

  lemma PlanChrome(parts: seq<Part>, stepPart: seq<nat>, index: map<string, nat>, pending: nat, chunks: seq<Chunk>, k: nat)
    requires k < |chunks| && Named(chunks) && Planned(parts, stepPart, index, pending, chunks, k)
    requires chunks[k].part.id == ""
    ensures Planned(parts, stepPart, index, pending + Instructions(chunks[k].text), chunks, k + 1)
  {
    hide Instructions, Owned, Indexed, Owner, Owners, Ids, Repeat, Named;
    OwnersUnfold(chunks, k);
    var owners :| Owned(parts, stepPart, owners)
      && owners + Repeat(Owner(chunks, k), pending) + Owners(chunks, k) == Owners(chunks, 0);
    RepeatMore(owners, Owner(chunks, k), pending, Instructions(chunks[k].text), Owners(chunks, k + 1));
  }

  lemma IndexPart(parts: seq<Part>, index: map<string, nat>, ids: seq<string>, part: Part, grown: seq<Part>, idx: nat)
    requires Indexed(parts, ids, index) && part.id != ""
    requires if part.id in index then grown == parts && idx == index[part.id] else grown == parts + [part] && idx == |parts|
    ensures idx < |grown| && grown[idx].id == part.id && parts <= grown
    ensures Indexed(grown, if part.id in ids then ids else ids + [part.id], index[part.id := idx])
  {
  }

  lemma OwnedMore(parts: seq<Part>, grown: seq<Part>, stepPart: seq<nat>, owners: seq<string>, idx: nat, n: nat)
    requires Owned(parts, stepPart, owners) && parts <= grown && idx < |grown|
    ensures Owned(grown, stepPart + Repeat(idx, n), owners + Repeat(grown[idx].id, n))
  {
  }

  lemma PlanPart(parts: seq<Part>, stepPart: seq<nat>, index: map<string, nat>, pending: nat, chunks: seq<Chunk>, k: nat,
                 grown: seq<Part>, idx: nat)
    requires k < |chunks| && Named(chunks) && Planned(parts, stepPart, index, pending, chunks, k)
    requires chunks[k].part.id != ""
    requires if chunks[k].part.id in index then grown == parts && idx == index[chunks[k].part.id]
             else grown == parts + [chunks[k].part] && idx == |parts|
    ensures Planned(grown, stepPart + Repeat(idx, pending + Instructions(chunks[k].text)), index[chunks[k].part.id := idx], 0, chunks, k + 1)
  {
    hide Instructions, Owned, Indexed, Owner, Owners, Ids, Repeat, Named;
    OwnersUnfold(chunks, k);
    var owners :| Owned(parts, stepPart, owners)
      && owners + Repeat(Owner(chunks, k), pending) + Owners(chunks, k) == Owners(chunks, 0);
    var id, n := chunks[k].part.id, Instructions(chunks[k].text);
    RepeatMore(owners, id, pending, n, Owners(chunks, k + 1));
    IndexPart(parts, index, Ids(chunks, k), chunks[k].part, grown, idx);
    OwnedMore(parts, grown, stepPart, owners, idx, pending + n);
    var more := owners + Repeat(id, pending + n);
    assert more + Repeat(Owner(chunks, k + 1), 0) + Owners(chunks, k + 1) == Owners(chunks, 0) by {
      assert Repeat(Owner(chunks, k + 1), 0) == [];
    }
  }

  lemma OwnersEnd(chunks: seq<Chunk>)
    requires Named(chunks)
    ensures Owners(chunks, |chunks|) == [] && Owner(chunks, |chunks|) == LastId(chunks)
  {
  }

  lemma IndexLast(parts: seq<Part>, index: map<string, nat>, chunks: seq<Chunk>)
    requires Named(chunks) && Indexed(parts, Ids(chunks, |chunks|), index)
    ensures |parts| > 0 && parts[|parts| - 1].id == LastId(chunks)
  {
    hide Ids;
  }

  lemma PlanTail(parts: seq<Part>, stepPart: seq<nat>, index: map<string, nat>, pending: nat, chunks: seq<Chunk>)
    requires Named(chunks) && Planned(parts, stepPart, index, pending, chunks, |chunks|)
    ensures |parts| > 0 && Owned(parts, stepPart + Repeat((|parts| - 1) as nat, pending), Owners(chunks, 0))
    ensures Indexed(parts, Ids(chunks, |chunks|), index)
  {
    hide Instructions, Repeat, Ids, Owner, Owners, Owned, Indexed, LastId, Named;
    OwnersEnd(chunks);
    IndexLast(parts, index, chunks);
    var owners :| Owned(parts, stepPart, owners)
      && owners + Repeat(Owner(chunks, |chunks|), pending) + Owners(chunks, |chunks|) == Owners(chunks, 0);
    OwnedMore(parts, parts, stepPart, owners, |parts| - 1, pending);
    assert owners + Repeat(LastId(chunks), pending) + [] == owners + Repeat(LastId(chunks), pending);
  }

  /** Recipes as the engine writes them: a named part, titled by its id, and text
      that ends its last line. */
  ghost predicate Recipe(c: Chunk) { c.part.id != "" && c.part.title == c.part.id && Terminated(c.text) }

  function Header(): string {
    "# Generated by the vibe engine from image.agents / image.toolchains.\n"
    + "# Not project input: regenerated every build, pins move with engine releases.\n"
    + "ARG " + BASE_IMAGE_ARG + "\nFROM ${" + BASE_IMAGE_ARG + "}\n"
  }

  /** The fragments in file order: chrome between the root and the user layers. */
  function Chunks(path: string, roots: seq<Chunk>, users: seq<Chunk>): seq<Chunk> {
    [Chrome(Header())]
    + (if path == "" then [] else [Chrome("\nENV PATH=" + path + ":${PATH}\n")])
    + (if roots == [] then [] else [Chrome("\nUSER root\n")] + roots)
    + [Chrome("\nUSER vscode\n")]
    + users
  }

  lemma ChunksTerminated(path: string, roots: seq<Chunk>, users: seq<Chunk>)
    requires (forall c :: c in roots ==> Recipe(c)) && (forall c :: c in users ==> Recipe(c))
    ensures AllTerminated(Chunks(path, roots, users))
    ensures forall c :: c in Chunks(path, roots, users) ==> c.part == NO_PART || Recipe(c)
  {
  }

  lemma RootsNamed(path: string, roots: seq<Chunk>, users: seq<Chunk>)
    requires roots != [] && forall c :: c in roots ==> Recipe(c)
    ensures Named(Chunks(path, roots, users))
  {
    hide Ids;
    var chunks := Chunks(path, roots, users);
    var k := if path == "" then 2 else 3;
    assert chunks[k] == roots[0] && roots[0] in roots;
    IdsFound(chunks, k, |chunks|);
  }

  lemma {:induction false} IdsFound(chunks: seq<Chunk>, k: nat, n: nat)
    requires k < n <= |chunks| && chunks[k].part.id != ""
    ensures chunks[k].part.id in Ids(chunks, n)
  {
    if k < n - 1 {
      IdsFound(chunks, k, n - 1);
    }
  }

  /** Every instruction of the file is a step of exactly one part: the part whose
      recipe it is from, or for chrome the part that follows. */
  ghost predicate Faithful(plan: Plan, chunks: seq<Chunk>) {
    && Named(chunks) && |plan.parts| == |Ids(chunks, |chunks|)|
    && (forall j :: 0 <= j < |plan.parts| ==> plan.parts[j].id == Ids(chunks, |chunks|)[j])
    && (forall i, j :: 0 <= i < j < |plan.parts| ==> plan.parts[i].id != plan.parts[j].id)
    && Owned(plan.parts, plan.stepPart, Owners(chunks, 0))
    && plan.dockerfile == Concat(chunks, |chunks|)
    && |plan.stepPart| == Instructions(plan.dockerfile)
  }

  /** The kinds whose layers declare a cache-busting argument, in layer order. */
  function Refreshed(parts: seq<Part>, n: nat): seq<string>
    requires n <= |parts|
  {
    if n == 0 then [] else Refreshed(parts, n - 1) + if parts[n - 1].refresh then [parts[n - 1].id] else []
  }

  method GenerateInstallPlan(path: string, roots: seq<Chunk>, users: seq<Chunk>) returns (plan: Plan)
    requires roots != [] && (forall c :: c in roots ==> Recipe(c)) && (forall c :: c in users ==> Recipe(c))
    ensures Faithful(plan, Chunks(path, roots, users))
    ensures forall p :: p in plan.parts ==> p.title == p.id
    ensures plan.refreshKinds == Refreshed(plan.parts, |plan.parts|)
  {
    hide Chunks, Faithful, Recipe, Terminated;
    ChunksTerminated(path, roots, users);
    RootsNamed(path, roots, users);
    plan := Annotate(Chunks(path, roots, users));
  }

  /** Chrome waits for its neighbouring part; each part is listed once. */
  method Annotate(chunks: seq<Chunk>) returns (plan: Plan)
    requires Named(chunks) && AllTerminated(chunks) && forall c :: c in chunks ==> c.part == NO_PART || Recipe(c)
    ensures Faithful(plan, chunks)
    ensures forall p :: p in plan.parts ==> p.title == p.id
    ensures plan.refreshKinds == Refreshed(plan.parts, |plan.parts|)
  {
    hide Planned, Instructions, Owners, Ids, Repeat, Chunks, Indexed, Recipe, Terminated, AllTerminated, Owned, Named, Faithful;
    var parts, stepPart, index: map<string, nat>, pending, dockerfile := [], [], map[], 0, "";
    Unplanned(chunks);
    for k := 0 to |chunks|
      invariant Planned(parts, stepPart, index, pending, chunks, k)
      invariant dockerfile == Concat(chunks, k)
      invariant forall p :: p in parts ==> p.title == p.id
    {
      var c := chunks[k];
      dockerfile := dockerfile + c.text;
      var n := CountInstructions(c.text);
      if c.part.id == "" {
        PlanChrome(parts, stepPart, index, pending, chunks, k);
        pending := pending + n;
        continue;
      }
      assert c in chunks;
      Titled(c);
      ghost var was := parts;
      var idx;
      if c.part.id in index {
        idx := index[c.part.id];
      } else {
        idx := |parts|;
        parts := parts + [c.part];
      }
      PlanPart(was, stepPart, index, pending, chunks, k, parts, idx);
      index := index[c.part.id := idx];
      stepPart := Extend(stepPart, idx, pending + n);
      pending := 0;
    }
    PlanTail(parts, stepPart, index, pending, chunks);
    stepPart := Extend(stepPart, |parts| - 1, pending);
    OwnersCount(chunks, 0);
    plan := Plan(dockerfile, parts, stepPart, []);
    Faithfully(plan, index, chunks);
    for j := 0 to |parts|
      invariant plan.(refreshKinds := []) == Plan(dockerfile, parts, stepPart, [])
      invariant plan.refreshKinds == Refreshed(parts, j)
    {
      if parts[j].refresh {
        plan := plan.(refreshKinds := plan.refreshKinds + [parts[j].id]);
      }
    }
    Faithfully(plan, index, chunks);
  }

  method Extend(stepPart0: seq<nat>, idx: nat, n: nat) returns (stepPart: seq<nat>)
    ensures stepPart == stepPart0 + Repeat(idx, n)
  {
    stepPart := stepPart0;
    for i := 0 to n
      invariant stepPart == stepPart0 + Repeat(idx, i)
    {
      stepPart := stepPart + [idx];
    }
  }

  lemma Titled(c: Chunk)
    requires c.part == NO_PART || Recipe(c)
    ensures c.part.title == c.part.id
  {
  }

  lemma Unplanned(chunks: seq<Chunk>)
    requires Named(chunks)
    ensures Planned([], [], map[], 0, chunks, 0)
  {
    hide Instructions, Owners, Named;
    assert Owned([], [], []);
    assert [] + Repeat(Owner(chunks, 0), 0) + Owners(chunks, 0) == Owners(chunks, 0) by {
      assert Repeat(Owner(chunks, 0), 0) == [];
    }
  }

  lemma Faithfully(plan: Plan, index: map<string, nat>, chunks: seq<Chunk>)
    requires Named(chunks) && Indexed(plan.parts, Ids(chunks, |chunks|), index)
    requires Owned(plan.parts, plan.stepPart, Owners(chunks, 0)) && plan.dockerfile == Concat(chunks, |chunks|)
    requires Instructions(plan.dockerfile) == Instructions("") + |Owners(chunks, 0)|
    ensures Faithful(plan, chunks)
  {
    hide Ids, Owners, Concat;
    assert Instructions("") == 0 by { assert [""][..0] == []; }
  }
}
