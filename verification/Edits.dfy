/** The alignment of two plans: diffOps of internal/terminal/diff.go. */
module Edits {

  import opened Lcs

  datatype Kind = Keep | Delete | Insert

  /** A line that both texts have, or that only one of them has. */
  datatype Op = Op(kind: Kind, line: string)

  type Ops = seq<Op>

  /** The lines the ops read from the first side... */
  function Before(ops: Ops): Lines {
    if ops == [] then []
    else (if ops[0].kind == Insert then [] else [ops[0].line]) + Before(ops[1..])
  }

  /** ...and write to the second. */
  function After(ops: Ops): Lines {
    if ops == [] then []
    else (if ops[0].kind == Delete then [] else [ops[0].line]) + After(ops[1..])
  }

  function Kept(ops: Ops): nat {
    if ops == [] then 0 else (if ops[0].kind == Keep then 1 else 0) + Kept(ops[1..])
  }

  lemma {:induction false} Joined(p: Ops, q: Ops)
    ensures Before(p + q) == Before(p) + Before(q)
    ensures After(p + q) == After(p) + After(q)
    ensures Kept(p + q) == Kept(p) + Kept(q)
  {
    if p == [] {
      assert p + q == q;
    } else {
      hide Before, After, Kept;
      assert p + q == [p[0]] + (p[1..] + q) && p == [p[0]] + p[1..];
      Headed(p[0], p[1..] + q);
      Headed(p[0], p[1..]);
      Joined(p[1..], q);
      var b, a := if p[0].kind == Insert then [] else [p[0].line], if p[0].kind == Delete then [] else [p[0].line];
      Associative(b, Before(p[1..]), Before(q));
      Associative(a, After(p[1..]), After(q));
    }
  }

  lemma Associative(a: Lines, b: Lines, c: Lines)
    ensures a + b + c == a + (b + c)
  {
  }

  lemma Headed(o: Op, ops: Ops)
    ensures Before([o] + ops) == (if o.kind == Insert then [] else [o.line]) + Before(ops)
    ensures After([o] + ops) == (if o.kind == Delete then [] else [o.line]) + After(ops)
    ensures Kept([o] + ops) == (if o.kind == Keep then 1 else 0) + Kept(ops)
  {
    assert ([o] + ops)[1..] == ops;
  }

  lemma Appended(ops: Ops, kind: Kind, line: string)
    ensures Before(ops + [Op(kind, line)]) == if kind == Insert then Before(ops) else Before(ops) + [line]
    ensures After(ops + [Op(kind, line)]) == if kind == Delete then After(ops) else After(ops) + [line]
    ensures Kept(ops + [Op(kind, line)]) == if kind == Keep then Kept(ops) + 1 else Kept(ops)
  {
    Joined(ops, [Op(kind, line)]);
  }

  /** One line of the same kind each. */
  function All(kind: Kind, lines: Lines): Ops {
    seq(|lines|, i requires 0 <= i < |lines| => Op(kind, lines[i]))
  }

  lemma {:induction false} AllSides(kind: Kind, lines: Lines)
    ensures Before(All(kind, lines)) == if kind == Insert then [] else lines
    ensures After(All(kind, lines)) == if kind == Delete then [] else lines
    ensures Kept(All(kind, lines)) == if kind == Keep then |lines| else 0
  {
    if lines != [] {
      assert All(kind, lines)[1..] == All(kind, lines[1..]);
      AllSides(kind, lines[1..]);
    }
  }

  /** Ops that only keep change nothing; any other op shows on a side. */
  lemma {:induction false} NothingChanged(ops: Ops)
    ensures |Before(ops)| + |After(ops)| == |ops| + Kept(ops)
    ensures (forall k :: 0 <= k < |ops| ==> ops[k].kind == Keep) ==> Before(ops) == After(ops)
    ensures Kept(ops) <= |ops|
    ensures Kept(ops) == |ops| ==> forall k :: 0 <= k < |ops| ==> ops[k].kind == Keep
  {
    if ops != [] {
      NothingChanged(ops[1..]);
      assert (forall k :: 0 <= k < |ops| ==> ops[k].kind == Keep)
        ==> forall k :: 0 <= k < |ops[1..]| ==> ops[1..][k].kind == Keep;
    }
  }

  /** The kept lines are common to both sides, whatever the ops. */
  lemma {:induction false} KeptCommon(ops: Ops)
    ensures Kept(ops) <= Length(Before(ops), After(ops))
  {
    var c := KeptLines(ops);
    LengthMaximal(c, Before(ops), After(ops));
  }

  lemma {:induction false} KeptLines(ops: Ops) returns (c: Lines)
    ensures |c| == Kept(ops) && Within(c, Before(ops)) && Within(c, After(ops))
  {
    if ops == [] {
      c := [];
    } else {
      c := KeptLines(ops[1..]);
      var b, a := Before(ops[1..]), After(ops[1..]);
      match ops[0].kind
      case Keep =>
        assert Before(ops)[1..] == b && After(ops)[1..] == a;
        assert ([ops[0].line] + c)[1..] == c;
        c := [ops[0].line] + c;
      case Delete =>
        assert Before(ops)[1..] == b && After(ops) == a;
      case Insert =>
        assert After(ops)[1..] == a && Before(ops) == b;
    }
  }

  newtype int32 = x: int | -0x8000_0000 <= x < 0x8000_0000

  /** The widest table that is filled. */
  const MAX_CELLS: nat := 0x10_0000

  /** Row i, column j of a table with m + 1 columns. */
  function Idx(i: nat, j: nat, m: nat): nat { i * (m + 1) + j }

  lemma IdxWithin(i: nat, j: nat, n: nat, m: nat)
    requires i <= n && j <= m
    ensures Idx(i, j, m) < (n + 1) * (m + 1)
  {
    assert i * (m + 1) <= n * (m + 1);
  }

  lemma IdxApart(i: nat, j: nat, x: nat, y: nat, m: nat)
    requires j <= m && y <= m && (i != x || j != y)
    ensures Idx(i, j, m) != Idx(x, y, m)
  {
    if i < x {
      assert (i + 1) * (m + 1) <= x * (m + 1);
    } else if x < i {
      assert (x + 1) * (m + 1) <= i * (m + 1);
    }
  }

  /** The cells the recurrence has reached, counting down from the last, hold
      the length of a longest common subsequence of what is left of each side. */
  ghost predicate Filled(t: seq<int32>, a: Lines, b: Lines, i: nat, j: nat) {
    && |t| == (|a| + 1) * (|b| + 1)
    && forall x: nat, y: nat :: x <= |a| && y <= |b| ==>
         && (IdxWithin(x, y, |a|, |b|); Idx(x, y, |b|) < |t|)
         && (x > i || (x == i && y >= j) || y == |b| ==> t[Idx(x, y, |b|)] as int == Length(a[x..], b[y..]))
  }

  lemma Cell(t: seq<int32>, a: Lines, b: Lines, i: nat, j: nat, x: nat, y: nat)
    requires Filled(t, a, b, i, j) && x <= |a| && y <= |b|
    requires x > i || (x == i && y >= j) || y == |b|
    ensures Idx(x, y, |b|) < |t| && t[Idx(x, y, |b|)] as int == Length(a[x..], b[y..])
  {
  }

  lemma FillCell(t: seq<int32>, a: Lines, b: Lines, i: nat, j: nat, v: int32)
    requires Filled(t, a, b, i, j + 1) && i < |a| && j < |b| && Idx(i, j, |b|) < |t|
    requires v as int == Length(a[i..], b[j..])
    ensures Filled(t[Idx(i, j, |b|) := v], a, b, i, j)
  {
    var u := t[Idx(i, j, |b|) := v];
    forall x: nat, y: nat | x <= |a| && y <= |b|
      ensures Idx(x, y, |b|) < |u|
      ensures x > i || (x == i && y >= j) || y == |b| ==> u[Idx(x, y, |b|)] as int == Length(a[x..], b[y..])
    {
      IdxWithin(x, y, |a|, |b|);
      if x != i || y != j {
        IdxApart(i, j, x, y, |b|);
      }
    }
  }

  /** The table never overflows: a cell counts lines of the shorter side. */
  lemma Narrow(a: Lines, b: Lines)
    requires |a| * |b| <= MAX_CELLS
    ensures Length(a, b) <= MAX_CELLS
  {
    LengthBounded(a, b);
    if a != [] && b != [] {
      assert |a| <= |a| * |b|;
    }
  }

  lemma Shrunk(a: Lines, b: Lines, i: nat, j: nat)
    requires |a| * |b| <= MAX_CELLS && i <= |a| && j <= |b|
    ensures |a[i..]| * |b[j..]| <= MAX_CELLS
  {
    assert (|a| - i) * (|b| - j) <= |a| * (|b| - j) <= |a| * |b|;
  }

  method FillTable(a: Lines, b: Lines) returns (table: array<int32>)
    requires |a| * |b| <= MAX_CELLS
    ensures fresh(table) && Filled(table[..], a, b, 0, 0)
  {
    var n, m := |a|, |b|;
    table := new int32[(n + 1) * (m + 1)](_ => 0);
    assert Filled(table[..], a, b, n, 0) by {
      forall x: nat, y: nat | x <= n && y <= m
        ensures Idx(x, y, m) < table.Length
      {
        IdxWithin(x, y, n, m);
      }
    }
    hide Idx, Filled, Length;
    for i := n downto 0
      invariant Filled(table[..], a, b, i, 0)
    {
      assert Filled(table[..], a, b, i, m) by { NextRow(table[..], a, b, i); }
      for j := m downto 0
        invariant Filled(table[..], a, b, i, j)
      {
        ghost var was := table[..];
        IdxWithin(i, j, n, m);
        Cell(was, a, b, i, j + 1, i + 1, j + 1);
        Cell(was, a, b, i, j + 1, i + 1, j);
        Cell(was, a, b, i, j + 1, i, j + 1);
        Shrunk(a, b, i, j);
        Narrow(a[i..], b[j..]);
        Unfold(a, b, i, j);
        assert |was| == (n + 1) * (m + 1) by { IdxWithin(n, m, n, m); }
        if a[i] == b[j] {
          table[Idx(i, j, m)] := table[Idx(i + 1, j + 1, m)] + 1;
        } else {
          var down, right := table[Idx(i + 1, j, m)], table[Idx(i, j + 1, m)];
          table[Idx(i, j, m)] := if down < right then right else down;
        }
        FillCell(was, a, b, i, j, table[Idx(i, j, m)]);
        assert table[..] == was[Idx(i, j, m) := table[Idx(i, j, m)]];
      }
    }
  }

  lemma NextRow(t: seq<int32>, a: Lines, b: Lines, i: nat)
    requires Filled(t, a, b, i + 1, 0) && i < |a|
    ensures Filled(t, a, b, i, |b|)
  {
  }

  lemma Unfold(a: Lines, b: Lines, i: nat, j: nat)
    requires i < |a| && j < |b|
    ensures Length(a[i..], b[j..]) ==
      if a[i] == b[j] then 1 + Length(a[i + 1..], b[j + 1..])
      else Max(Length(a[i + 1..], b[j..]), Length(a[i..], b[j + 1..]))
  {
    assert a[i..][1..] == a[i + 1..] && b[j..][1..] == b[j + 1..];
  }

  /** A minimal edit script while the table is affordable, and a correct one
      always. */
  method DiffOps(a: Lines, b: Lines) returns (ops: Ops)
    ensures Before(ops) == a && After(ops) == b
    ensures |a| * |b| <= MAX_CELLS ==> Kept(ops) == Length(a, b)
    ensures |a| * |b| > MAX_CELLS ==> ops == All(Delete, a) + All(Insert, b)
  {
    if |a| == 0 && |b| == 0 {
      return [];
    }
    if |a| * |b| > MAX_CELLS {
      ops := All(Delete, a) + All(Insert, b);
      AllSides(Delete, a);
      AllSides(Insert, b);
      Joined(All(Delete, a), All(Insert, b));
      return;
    }
    var table := FillTable(a, b);
    ops := Walk(a, b, table);
  }

  /** The ops so far align i lines with j, on the way to a longest common
      subsequence. */
  ghost predicate Reached(ops: Ops, a: Lines, b: Lines, i: nat, j: nat) {
    && i <= |a| && j <= |b|
    && Before(ops) == a[..i] && After(ops) == b[..j]
    && Kept(ops) + Length(a[i..], b[j..]) == Length(a, b)
  }

  /** Dropping a line costs nothing where the table says so. */
  ghost predicate Droppable(a: Lines, b: Lines, i: nat, j: nat)
    requires i < |a| && j <= |b|
  {
    j == |b| || (a[i] != b[j] && Length(a[i + 1..], b[j..]) >= Length(a[i..], b[j + 1..]))
  }

  lemma StepKeep(ops: Ops, a: Lines, b: Lines, i: nat, j: nat)
    requires Reached(ops, a, b, i, j) && i < |a| && j < |b| && a[i] == b[j]
    ensures Reached(ops + [Op(Keep, a[i])], a, b, i + 1, j + 1)
  {
    Appended(ops, Keep, a[i]);
    Unfold(a, b, i, j);
  }

  lemma StepDelete(ops: Ops, a: Lines, b: Lines, i: nat, j: nat)
    requires Reached(ops, a, b, i, j) && i < |a| && Droppable(a, b, i, j)
    ensures Reached(ops + [Op(Delete, a[i])], a, b, i + 1, j)
  {
    hide Before, After, Kept;
    Appended(ops, Delete, a[i]);
    assert a[..i + 1] == a[..i] + [a[i]];
    if j < |b| {
      Unfold(a, b, i, j);
    } else {
      assert b[j..] == [];
    }
  }

  lemma StepInsert(ops: Ops, a: Lines, b: Lines, i: nat, j: nat)
    requires Reached(ops, a, b, i, j) && j < |b|
    requires i < |a| ==> a[i] != b[j] && !Droppable(a, b, i, j)
    ensures Reached(ops + [Op(Insert, b[j])], a, b, i, j + 1)
  {
    Appended(ops, Insert, b[j]);
    if i < |a| {
      Unfold(a, b, i, j);
    }
  }

  lemma Outset(a: Lines, b: Lines)
    ensures Reached([], a, b, 0, 0)
  {
    assert a[0..] == a && b[0..] == b;
  }

  method Walk(a: Lines, b: Lines, table: array<int32>) returns (ops: Ops)
    requires Filled(table[..], a, b, 0, 0)
    ensures Before(ops) == a && After(ops) == b && Kept(ops) == Length(a, b)
  {
    var n, m := |a|, |b|;
    ops := [];
    var i, j := 0, 0;
    hide Idx, Filled, Length, Before, After, Kept, Reached;
    Outset(a, b);
    while i < n && j < m
      invariant i <= n && j <= m && Reached(ops, a, b, i, j)
      decreases n - i + m - j
    {
      Cell(table[..], a, b, 0, 0, i + 1, j);
      Cell(table[..], a, b, 0, 0, i, j + 1);
      if a[i] == b[j] {
        StepKeep(ops, a, b, i, j);
        ops := ops + [Op(Keep, a[i])];
        i, j := i + 1, j + 1;
      } else if table[Idx(i + 1, j, m)] >= table[Idx(i, j + 1, m)] {
        StepDelete(ops, a, b, i, j);
        ops := ops + [Op(Delete, a[i])];
        i := i + 1;
      } else {
        StepInsert(ops, a, b, i, j);
        ops := ops + [Op(Insert, b[j])];
        j := j + 1;
      }
    }
    while i < n
      invariant i <= n && j <= m && (i < n ==> j == m) && Reached(ops, a, b, i, j)
    {
      StepDelete(ops, a, b, i, j);
      ops := ops + [Op(Delete, a[i])];
      i := i + 1;
    }
    while j < m
      invariant j <= m && Reached(ops, a, b, n, j)
    {
      StepInsert(ops, a, b, n, j);
      ops := ops + [Op(Insert, b[j])];
      j := j + 1;
    }
    Whole(ops, a, b);
  }

  lemma Whole(ops: Ops, a: Lines, b: Lines)
    requires Reached(ops, a, b, |a|, |b|)
    ensures Before(ops) == a && After(ops) == b && Kept(ops) == Length(a, b)
  {
  }
}
