/** One project block's roster and its row budget: signalCap and rosterBlock of
    internal/tmuxui/frame.go. */
module Roster {

  import N = Numerals

  /** One row of a block: an entry, or a header or marker drawn beside them. */
  datatype AgentRow = AgentRow(name: string, dim: bool, header: bool, count: nat, conn: string, folded: bool, hide: bool)

  type Rows = seq<AgentRow>

  function Header(name: string, count: nat, folded: bool, dim: bool): AgentRow {
    AgentRow(name, dim, true, count, "", folded, false)
  }

  function HiddenIn(rows: Rows, n: nat): (h: nat)
    requires n <= |rows|
    ensures h <= n
  {
    if n == 0 then 0 else HiddenIn(rows, n - 1) + if rows[n - 1].hide then 1 else 0
  }

  function Hidden(rows: Rows): nat { HiddenIn(rows, |rows|) }

  function SignalIn(rows: Rows, n: nat): (s: nat)
    requires n <= |rows|
    ensures s <= n
  {
    if n == 0 then 0 else SignalIn(rows, n - 1) + if rows[n - 1].dim then 0 else 1
  }

  /** The rows that ask for attention. */
  function Signal(rows: Rows): nat { SignalIn(rows, |rows|) }

  function Headers(agents: nat, services: nat): nat {
    if services == 0 then 0 else if agents > 0 then 2 else 1
  }

  /** The height at which exactly the dim rows fold. */
  function Cap(agents: Rows, services: Rows): nat {
    var signal := Signal(agents) + Signal(services);
    if signal == 0 then 0
    else Headers(|agents|, |services|) + signal + if signal < |agents| + |services| then 1 else 0
  }

  method SignalCap(agents: Rows, services: Rows) returns (cap: nat)
    ensures cap == Cap(agents, services)
  {
    var signal := 0;
    for i := 0 to |agents|
      invariant signal == SignalIn(agents, i)
    {
      if !agents[i].dim {
        signal := signal + 1;
      }
    }
    for i := 0 to |services|
      invariant signal == Signal(agents) + SignalIn(services, i)
    {
      if !services[i].dim {
        signal := signal + 1;
      }
    }
    if signal == 0 {
      return 0;
    }
    var headers, marker := 0, 0;
    if |services| > 0 {
      headers := 1;
      if |agents| > 0 {
        headers := 2;
      }
    }
    if signal < |agents| + |services| {
      marker := 1;
    }
    cap := headers + signal + marker;
  }

  /** How many entries fold where total of them are laid out under the headers. */
  function Folding(total: nat, headers: nat, avail: nat): nat {
    if total + headers <= avail then 0
    else total - (if avail < headers + 1 then 0 else avail - headers - 1)
  }

  /** Nothing but the hide marks has changed. */
  ghost predicate SameBut(a: Rows, b: Rows) {
    |a| == |b| && forall i :: 0 <= i < |a| ==> b[i] == a[i].(hide := b[i].hide)
  }

  /** From row c down, the rows that a pass may hide are hidden. */
  ghost predicate Swept(a: Rows, b: Rows, quiet: bool, c: nat) {
    && |a| == |b| && c <= |a|
    && forall i :: 0 <= i < |a| ==> b[i] == a[i].(hide := a[i].hide || (i >= c && (!quiet || a[i].dim)))
  }

  /** Dim rows fold before the others, services before agents, and from the bottom
      up. */
  ghost predicate InOrder(agents: Rows, services: Rows) {
    && (forall i, j :: 0 <= i < j < |agents| && agents[i].hide && agents[i].dim == agents[j].dim ==> agents[j].hide)
    && (forall i, j :: 0 <= i < j < |services| && services[i].hide && services[i].dim == services[j].dim ==> services[j].hide)
    && (forall i, j :: 0 <= i < |agents| && 0 <= j < |services| && agents[i].hide && agents[i].dim == services[j].dim ==> services[j].hide)
    && QuietFirst(agents, services)
  }

  /** A row that asks for attention folds only after every dim one. */
  ghost predicate QuietFirst(agents: Rows, services: Rows) {
    (exists r :: (r in agents || r in services) && r.hide && !r.dim) ==>
      forall r :: (r in agents || r in services) && r.dim ==> r.hide
  }

  /** The fold hides n of the rows, in its order. */
  ghost predicate Folds(agents: Rows, services: Rows, n: nat) {
    Hidden(agents) + Hidden(services) == n && InOrder(agents, services)
  }

  /** Hide rows from the bottom while any are still to be hidden. */
  method HidePass(list: array<AgentRow>, quiet: bool, k: nat) returns (left: nat, ghost c: nat)
    modifies list
    ensures Swept(old(list[..]), list[..], quiet, c)
    ensures left + Hidden(list[..]) == k + Hidden(old(list[..]))
    ensures left <= k && (left > 0 ==> c == 0)
    ensures k == 0 ==> c == list.Length
  {
    hide Hidden;
    left := k;
    c := list.Length;
    ghost var was := list[..];
    var i := list.Length;
    while i > 0 && left > 0
      invariant i <= list.Length && c == i && Swept(was, list[..], quiet, c)
      invariant left + Hidden(list[..]) == k + Hidden(was)
      invariant left <= k && (k == 0 ==> c == list.Length)
    {
      i := i - 1;
      if list[i].hide || (quiet && !list[i].dim) {
        c := i;
        continue;
      }
      ghost var now := list[..];
      HideOne(now, i);
      list[i] := list[i].(hide := true);
      assert list[..] == now[i := now[i].(hide := true)];
      left := left - 1;
      c := i;
    }
  }

  lemma {:induction false} HideOne(rows: Rows, i: nat)
    requires i < |rows| && !rows[i].hide
    ensures Hidden(rows[i := rows[i].(hide := true)]) == Hidden(rows) + 1
  {
    HideWithin(rows, i, |rows|);
  }

  lemma {:induction false} HideWithin(rows: Rows, i: nat, n: nat)
    requires i < |rows| && n <= |rows| && !rows[i].hide
    ensures HiddenIn(rows[i := rows[i].(hide := true)], n) == HiddenIn(rows, n) + if i < n then 1 else 0
  {
    if n > 0 {
      HideWithin(rows, i, n - 1);
    }
  }

  /** Four passes: the dim rows of the services and then of the agents, and after
      those the others, until enough are hidden. */
  method FoldRows(agents: array<AgentRow>, services: array<AgentRow>, n: nat)
    requires agents != services && n <= agents.Length + services.Length
    requires (forall r :: r in agents[..] ==> !r.hide) && (forall r :: r in services[..] ==> !r.hide)
    modifies agents, services
    ensures SameBut(old(agents[..]), agents[..]) && SameBut(old(services[..]), services[..])
    ensures Folds(agents[..], services[..], n)
  {
    ghost var a0, s0 := agents[..], services[..];
    NoneHidden(a0);
    NoneHidden(s0);
    hide Hidden, Swept, Folds, SameBut;
    var left1, left2, left3, left4;
    ghost var c1, c2, c3, c4;
    left1, c1 := HidePass(services, true, n);
    ghost var s1 := services[..];
    left2, c2 := HidePass(agents, true, left1);
    ghost var a1 := agents[..];
    left3, c3 := HidePass(services, false, left2);
    left4, c4 := HidePass(agents, false, left3);
    AllFolded(a0, s0, a1, s1, agents[..], services[..], c1, c2, c3, c4, left4, n);
    FoldedInOrder(a0, s0, a1, s1, agents[..], services[..], c1, c2, c3, c4, left1 > 0, left2 > 0, left3 > 0);
    Folded(agents[..], services[..], n);
  }

  /** The passes hide as many rows as asked for. */
  lemma AllFolded(a0: Rows, s0: Rows, a1: Rows, s1: Rows, a: Rows, s: Rows, c1: nat, c2: nat, c3: nat, c4: nat, left: nat, n: nat)
    requires Swept(s0, s1, true, c1) && Swept(a0, a1, true, c2) && Swept(s1, s, false, c3) && Swept(a1, a, false, c4)
    requires left + Hidden(a) + Hidden(s) == n <= |a0| + |s0|
    requires left > 0 ==> c3 == 0 && c4 == 0
    ensures left == 0
  {
    if left > 0 {
      AllHiddenIn(a, |a|);
      AllHiddenIn(s, |s|);
    }
  }

  /** A pass begins only where the ones before it have hidden all they may. */
  lemma FoldedInOrder(a0: Rows, s0: Rows, a1: Rows, s1: Rows, a: Rows, s: Rows, c1: nat, c2: nat, c3: nat, c4: nat,
                      second: bool, third: bool, fourth: bool)
    requires (forall r :: r in a0 ==> !r.hide) && (forall r :: r in s0 ==> !r.hide)
    requires Swept(s0, s1, true, c1) && Swept(a0, a1, true, c2) && Swept(s1, s, false, c3) && Swept(a1, a, false, c4)
    requires (second ==> c1 == 0) && (third ==> second && c2 == 0) && (fourth ==> third && c3 == 0)
    requires (!second ==> c2 == |a0|) && (!third ==> c3 == |s0|) && (!fourth ==> c4 == |a0|)
    ensures SameBut(a0, a) && SameBut(s0, s) && InOrder(a, s)
  {
    assert forall i :: 0 <= i < |a| ==> a[i].hide == (i >= c4 || (i >= c2 && a[i].dim)) by {
      assert forall i :: 0 <= i < |a0| ==> a0[i] in a0;
    }
    assert forall i :: 0 <= i < |s| ==> s[i].hide == (i >= c3 || (i >= c1 && s[i].dim)) by {
      assert forall i :: 0 <= i < |s0| ==> s0[i] in s0;
    }
  }

  lemma Folded(agents: Rows, services: Rows, n: nat)
    requires Hidden(agents) + Hidden(services) == n && InOrder(agents, services)
    ensures Folds(agents, services, n)
  {
  }

  lemma NoneHidden(rows: Rows)
    requires forall r :: r in rows ==> !r.hide
    ensures Hidden(rows) == 0
  {
    NoneHiddenIn(rows, |rows|);
  }

  lemma {:induction false} NoneHiddenIn(rows: Rows, n: nat)
    requires n <= |rows| && forall r :: r in rows ==> !r.hide
    ensures HiddenIn(rows, n) == 0
  {
    if n > 0 {
      NoneHiddenIn(rows, n - 1);
      assert rows[n - 1] in rows;
    }
  }

  lemma {:induction false} AllHiddenIn(rows: Rows, n: nat)
    requires n <= |rows| && forall i :: 0 <= i < n ==> rows[i].hide
    ensures HiddenIn(rows, n) == n
  {
    if n > 0 {
      AllHiddenIn(rows, n - 1);
    }
  }

  function Visible(rows: Rows): Rows {
    if rows == [] then [] else Visible(rows[..|rows| - 1]) + if rows[|rows| - 1].hide then [] else [rows[|rows| - 1]]
  }

  /** A group's rows hang off its header. */
  function Tree(rows: Rows): Rows {
    seq(|rows|, i requires 0 <= i < |rows| =>
      rows[i].(conn := if i == |rows| - 1 then "\U{2514} " else "\U{251C} "))
  }

  function Group(name: string, rows: Rows, grouped: bool): Rows {
    if rows == [] then []
    else if grouped then [Header(name, |rows|, false, true)] + Tree(Visible(rows))
    else Visible(rows)
  }

  function Marker(hidden: nat): AgentRow { Header("\U{2026} +" + N.Decimal(hidden) + " more", 0, false, true) }

  /** The block before it is cut to its height. A folded services group is its
      header alone, bright where it hides a row that asks for attention. */
  function Layout(agents: Rows, services: Rows, svcFold: bool, hidden: nat): Rows {
    var grouped := services != [];
    Group("agents", agents, grouped)
    + (if grouped && svcFold then [Header("services", |services|, true, Signal(services) == 0)]
       else Group("services", services, grouped))
    + (if hidden > 0 then [Marker(hidden)] else [])
  }

  function Cut(rows: Rows, avail: nat): Rows { if |rows| > avail then rows[..avail] else rows }

  method AddGroup(out0: Rows, name: string, rows: Rows, grouped: bool) returns (out: Rows)
    ensures out == out0 + Group(name, rows, grouped)
  {
    out := out0;
    if |rows| == 0 {
      return;
    }
    if grouped {
      out := out + [Header(name, |rows|, false, true)];
    }
    var vis: Rows := [];
    for i := 0 to |rows|
      invariant vis == Visible(rows[..i])
    {
      assert rows[..i + 1][..i] == rows[..i];
      if !rows[i].hide {
        vis := vis + [rows[i]];
      }
    }
    assert rows[..|rows|] == rows;
    if grouped {
      vis := TreeConns(vis);
    }
    out := out + vis;
    assert grouped ==> out0 + [Header(name, |rows|, false, true)] + vis == out0 + ([Header(name, |rows|, false, true)] + vis);
  }

  method TreeConns(rows0: Rows) returns (rows: Rows)
    ensures rows == Tree(rows0)
  {
    rows := rows0;
    for i := 0 to |rows|
      invariant |rows| == |rows0|
      invariant forall k :: 0 <= k < |rows| ==> rows[k] == if k < i then Tree(rows0)[k] else rows0[k]
    {
      if i == |rows| - 1 {
        rows := rows[i := rows[i].(conn := "\U{2514} ")];
      } else {
        rows := rows[i := rows[i].(conn := "\U{251C} ")];
      }
    }
  }

  /** The entries the block lays out. */
  function LaidOut(agents: nat, services: nat, svcFold: bool): nat { agents + if svcFold then 0 else services }

  /** The block within avail rows: the hide marks are set on the given rows, and
      folded services keep theirs. */
  method RosterBlock(agents: array<AgentRow>, services: array<AgentRow>, avail: int, svcFold: bool) returns (out: Rows)
    requires agents != services
    requires (forall r :: r in agents[..] ==> !r.hide) && (forall r :: r in services[..] ==> !r.hide)
    modifies agents, services
    ensures avail <= 0 ==> out == [] && agents[..] == old(agents[..]) && services[..] == old(services[..])
    ensures SameBut(old(agents[..]), agents[..]) && SameBut(old(services[..]), services[..])
    ensures avail > 0 ==>
      var n := Folding(LaidOut(agents.Length, services.Length, svcFold), Headers(agents.Length, services.Length), avail);
      && Folds(agents[..], if svcFold then [] else services[..], n)
      && (svcFold ==> services[..] == old(services[..]))
      && out == Cut(Layout(agents[..], services[..], svcFold, n), avail)
  {
    if avail <= 0 {
      return [];
    }
    hide Folds, Layout, SameBut, Cut;
    Unmarked(services[..]);
    var headers := HeaderRows(agents.Length, services.Length);
    var hidden;
    if svcFold {
      var none := new AgentRow[0];
      hidden := FoldBlock(agents, none, headers, avail);
      assert none[..] == [];
    } else {
      hidden := FoldBlock(agents, services, headers, avail);
    }
    out := Compose(agents[..], services[..], svcFold, hidden, avail);
  }

  method HeaderRows(agents: nat, services: nat) returns (headers: nat)
    ensures headers == Headers(agents, services)
  {
    headers := 0;
    if services > 0 {
      headers := 1;
      if agents > 0 {
        headers := 2;
      }
    }
  }

  lemma Unmarked(rows: Rows)
    ensures SameBut(rows, rows)
  {
  }

  method FoldBlock(agents: array<AgentRow>, laid: array<AgentRow>, headers: nat, avail: nat) returns (hidden: nat)
    requires agents != laid && avail > 0 && headers <= 2 && (laid.Length == 0 && agents.Length == 0 ==> headers <= 1)
    requires (forall r :: r in agents[..] ==> !r.hide) && (forall r :: r in laid[..] ==> !r.hide)
    modifies agents, laid
    ensures SameBut(old(agents[..]), agents[..]) && SameBut(old(laid[..]), laid[..])
    ensures hidden == Folding(agents.Length + laid.Length, headers, avail) && Folds(agents[..], laid[..], hidden)
  {
    hide Folds;
    hidden := 0;
    var total := agents.Length + laid.Length + headers;
    if total > avail {
      var slots := avail - headers - 1;
      if slots < 0 {
        slots := 0;
      }
      hidden := agents.Length + laid.Length - slots;
      FoldRows(agents, laid, hidden);
    } else {
      NothingFolds(agents[..], laid[..]);
    }
  }

  method Compose(agents: Rows, services: Rows, svcFold: bool, hidden: nat, avail: nat) returns (out: Rows)
    ensures out == Cut(Layout(agents, services, svcFold, hidden), avail)
  {
    hide Group, Signal, Marker;
    var grouped := |services| > 0;
    out := AddGroup([], "agents", agents, grouped);
    if grouped && svcFold {
      var svcSignal := HasSignal(services);
      out := out + [Header("services", |services|, true, !svcSignal)];
    } else {
      out := AddGroup(out, "services", services, grouped);
    }
    if hidden > 0 {
      out := out + [Marker(hidden)];
    }
    if |out| > avail {
      out := out[..avail];
    }
  }

  method HasSignal(rows: Rows) returns (signal: bool)
    ensures signal == (Signal(rows) > 0)
  {
    signal := false;
    for i := 0 to |rows|
      invariant signal == (SignalIn(rows, i) > 0)
    {
      if !rows[i].dim {
        signal := true;
      }
    }
  }

  lemma NothingFolds(agents: Rows, services: Rows)
    requires (forall r :: r in agents ==> !r.hide) && (forall r :: r in services ==> !r.hide)
    ensures Folds(agents, services, 0)
  {
    NoneHidden(agents);
    NoneHidden(services);
    hide Hidden;
    assert forall i :: 0 <= i < |agents| ==> agents[i] in agents;
    assert forall i :: 0 <= i < |services| ==> services[i] in services;
  }

  // ----- the block, row by row --------------------------------------------

  /** idx are the rows that are not hidden, from the top. */
  ghost predicate Unhidden(idx: seq<nat>, rows: Rows) {
    && (forall j, k :: 0 <= j < k < |idx| ==> idx[j] < idx[k])
    && (forall k :: 0 <= k < |idx| ==> idx[k] < |rows| && !rows[idx[k]].hide)
    && (forall i :: 0 <= i < |rows| && !rows[i].hide ==> i in idx)
  }

  lemma {:induction false} VisibleRows(rows: Rows) returns (idx: seq<nat>)
    ensures Unhidden(idx, rows) && |Visible(rows)| == |idx|
    ensures forall k :: 0 <= k < |idx| ==> idx[k] < |rows| && Visible(rows)[k] == rows[idx[k]]
  {
    idx := [];
    if rows != [] {
      var n := |rows| - 1;
      idx := VisibleRows(rows[..n]);
      UnhiddenMore(idx, rows);
      idx := if rows[n].hide then idx else idx + [n];
    }
  }

  lemma UnhiddenMore(idx: seq<nat>, rows: Rows)
    requires rows != [] && Unhidden(idx, rows[..|rows| - 1]) && |Visible(rows[..|rows| - 1])| == |idx|
    requires forall k :: 0 <= k < |idx| ==> idx[k] < |rows| - 1 && Visible(rows[..|rows| - 1])[k] == rows[idx[k]]
    ensures var more := if rows[|rows| - 1].hide then idx else idx + [|rows| - 1];
      && Unhidden(more, rows) && |Visible(rows)| == |more|
      && forall k :: 0 <= k < |more| ==> more[k] < |rows| && Visible(rows)[k] == rows[more[k]]
  {
    var n := |rows| - 1;
    var front := rows[..n];
    assert Visible(rows) == Visible(front) + if rows[n].hide then [] else [rows[n]];
    hide Visible;
    assert forall i :: 0 <= i < n ==> front[i] == rows[i];
    IndexesMore(idx, n, rows[n].hide);
    var more := if rows[n].hide then idx else idx + [n];
    forall i | 0 <= i < |rows| && !rows[i].hide ensures i in more {
      if i < n {
        assert !front[i].hide && i in idx;
      }
    }
  }

  lemma IndexesMore(idx: seq<nat>, n: nat, skip: bool)
    requires forall k :: 0 <= k < |idx| ==> idx[k] < n
    ensures var more := if skip then idx else idx + [n];
      && (forall k :: 0 <= k < |idx| ==> more[k] == idx[k]) && (!skip ==> more[|idx|] == n)
      && (forall i :: i in more <==> i in idx || (!skip && i == n))
  {
  }

  /** A group reads: its name and how many it has, where the block is grouped, and
      then the rows that are not hidden, each behind a connector to that header. */
  ghost predicate GroupReads(out: Rows, name: string, rows: Rows, grouped: bool, idx: seq<nat>) {
    if rows == [] then out == []
    else
      && Unhidden(idx, rows)
      && if grouped then
           && |out| == |idx| + 1 && out[0] == AgentRow(name, true, true, |rows|, "", false, false)
           && forall k :: 0 <= k < |idx| ==>
                out[k + 1] == rows[idx[k]].(conn := if k == |idx| - 1 then "\U{2514} " else "\U{251C} ")
         else |out| == |idx| && forall k :: 0 <= k < |idx| ==> out[k] == rows[idx[k]]
  }

  lemma GroupRead(name: string, rows: Rows, grouped: bool) returns (idx: seq<nat>)
    ensures GroupReads(Group(name, rows, grouped), name, rows, grouped, idx)
  {
    idx := VisibleRows(rows);
    hide Visible;
  }

  /** The marker says how many rows are hidden. */
  ghost predicate MarkerReads(row: AgentRow, hidden: nat) {
    && row == AgentRow(row.name, true, true, 0, "", false, false)
    && exists digits :: row.name == "\U{2026} +" + digits + " more" && N.Numeral(digits, hidden)
  }

  /** The block reads: the agents, the services or the header that stands for them,
      bright if one of them asks for attention, and where rows are hidden how
      many; as much of it as there is room for. */
  ghost predicate BlockReads(out: Rows, agents: Rows, services: Rows, svcFold: bool, hidden: nat, avail: nat,
                             top: Rows, low: Rows, tail: Rows, ia: seq<nat>, ib: seq<nat>) {
    && GroupReads(top, "agents", agents, services != [], ia)
    && (if services != [] && svcFold then
          low == [AgentRow("services", forall r :: r in services ==> r.dim, true, |services|, "", true, false)]
        else GroupReads(low, "services", services, services != [], ib))
    && (if hidden > 0 then |tail| == 1 && MarkerReads(tail[0], hidden) else tail == [])
    && out <= top + low + tail && |out| <= avail && (|out| < avail ==> out == top + low + tail)
  }

  lemma MarkerRead(hidden: nat)
    ensures MarkerReads(Marker(hidden), hidden)
  {
    N.DecimalNumeral(hidden);
    hide N.Numeral, N.Decimal;
    assert Marker(hidden).name == "\U{2026} +" + N.Decimal(hidden) + " more";
  }

  lemma {:induction false} AllDim(rows: Rows, n: nat)
    requires n <= |rows|
    ensures SignalIn(rows, n) == 0 <==> forall i :: 0 <= i < n ==> rows[i].dim
  {
    if n > 0 {
      AllDim(rows, n - 1);
    }
  }

  /** The reference layout reads so. */
  lemma LayoutReads(agents: Rows, services: Rows, svcFold: bool, hidden: nat, avail: nat)
    returns (top: Rows, low: Rows, tail: Rows, ia: seq<nat>, ib: seq<nat>)
    ensures BlockReads(Cut(Layout(agents, services, svcFold, hidden), avail), agents, services, svcFold, hidden, avail,
                       top, low, tail, ia, ib)
  {
    var grouped := services != [];
    ia := GroupRead("agents", agents, grouped);
    ib := GroupRead("services", services, grouped);
    AllDim(services, |services|);
    assert Signal(services) == 0 <==> forall r :: r in services ==> r.dim;
    MarkerRead(hidden);
    hide Group, GroupReads, Marker, MarkerReads, Signal;
    top := Group("agents", agents, grouped);
    low := if grouped && svcFold then [Header("services", |services|, true, Signal(services) == 0)]
           else Group("services", services, grouped);
    tail := if hidden > 0 then [Marker(hidden)] else [];
    assert Layout(agents, services, svcFold, hidden) == top + low + tail;
    hide Layout, Cut;
    CutFront(top + low + tail, avail);
  }

  lemma CutFront(all: Rows, avail: nat)
    ensures Cut(all, avail) <= all && |Cut(all, avail)| <= avail && (|Cut(all, avail)| < avail ==> Cut(all, avail) == all)
  {
  }

  /** Rows fold only where not all fit, and then no more than must: with the headers
      and the marker the rest fills the height, unless none is left at all. */
  lemma FoldingExact(total: nat, headers: nat, avail: nat)
    ensures var n := Folding(total, headers, avail);
      && n <= total && (n == 0 <==> total + headers <= avail || total == 0)
      && (n > 0 ==> total - n + headers + 1 == avail || (n == total && avail <= headers))
  {
  }

  /** The cap is the least height at which no more rows fold than are dim. */
  lemma CapLeast(agents: Rows, services: Rows, avail: nat)
    requires 0 < avail < Cap(agents, services)
    ensures Folding(|agents| + |services|, Headers(|agents|, |services|), avail) >
            |agents| - Signal(agents) + |services| - Signal(services)
  {
    hide SignalIn;
  }

  /** The entries among the rows drawn. */
  function Entries(rows: Rows): nat {
    if rows == [] then 0 else Entries(rows[..|rows| - 1]) + if rows[|rows| - 1].header then 0 else 1
  }

  predicate Plain(rows: Rows) { forall r :: r in rows ==> !r.header }

  lemma {:induction false} EntriesJoined(p: Rows, q: Rows)
    ensures Entries(p + q) == Entries(p) + Entries(q)
  {
    if q == [] {
      assert p + q == p;
    } else {
      assert (p + q)[..|p + q| - 1] == p + q[..|q| - 1];
      EntriesJoined(p, q[..|q| - 1]);
    }
  }

  lemma {:induction false} EntriesPlain(rows: Rows)
    requires Plain(rows)
    ensures Entries(rows) == |rows|
  {
    if rows != [] {
      EntriesPlain(rows[..|rows| - 1]);
      assert rows[|rows| - 1] in rows;
    }
  }

  lemma {:induction false} HiddenPrefix(rows: Rows, m: nat, n: nat)
    requires n <= m <= |rows|
    ensures HiddenIn(rows[..m], n) == HiddenIn(rows, n)
  {
    if n > 0 {
      HiddenPrefix(rows, m, n - 1);
    }
  }

  lemma {:induction false} VisibleCount(rows: Rows)
    ensures |Visible(rows)| == |rows| - Hidden(rows)
    ensures Plain(rows) ==> Plain(Visible(rows))
    ensures forall r :: r in rows && !r.hide ==> r in Visible(rows)
  {
    if rows != [] {
      var n := |rows| - 1;
      VisibleCount(rows[..n]);
      HiddenPrefix(rows, n, n);
      assert rows == rows[..n] + [rows[n]];
      assert Plain(rows) ==> rows[n] in rows && Plain(rows[..n]);
    }
  }

  lemma OneEntry(r: AgentRow)
    ensures Entries([r]) == if r.header then 0 else 1
  {
    assert [r][..0] == [];
  }

  lemma TreeRows(vis: Rows)
    ensures |Tree(vis)| == |vis| && (Plain(vis) ==> Plain(Tree(vis)))
    ensures forall r :: r in vis ==> Shown(r, Tree(vis))
  {
    forall r | r in vis
      ensures Shown(r, Tree(vis))
    {
      var k :| 0 <= k < |vis| && vis[k] == r;
      assert Tree(vis)[k] == r.(conn := Tree(vis)[k].conn);
    }
    assert forall k :: 0 <= k < |vis| ==> vis[k] in vis;
  }

  lemma ShownAsIs(rows: Rows)
    ensures forall r :: r in rows ==> Shown(r, rows)
  {
    assert forall r: AgentRow :: r == r.(conn := r.conn);
  }

  lemma ShownBelow(head: Rows, out: Rows, r: AgentRow)
    requires Shown(r, out)
    ensures Shown(r, head + out)
  {
    var x :| x in out && x == r.(conn := x.conn);
    assert x in head + out;
  }

  lemma GroupSize(name: string, rows: Rows, grouped: bool)
    requires Plain(rows)
    ensures Entries(Group(name, rows, grouped)) == |rows| - Hidden(rows)
    ensures |Group(name, rows, grouped)| == |rows| - Hidden(rows) + if grouped && rows != [] then 1 else 0
  {
    VisibleCount(rows);
    var vis := Visible(rows);
    EntriesPlain(vis);
    if grouped && rows != [] {
      var head := Header(name, |rows|, false, true);
      TreeRows(vis);
      EntriesPlain(Tree(vis));
      OneEntry(head);
      EntriesJoined([head], Tree(vis));
    }
    hide Visible, Hidden, Entries, Tree, Plain;
  }

  lemma GroupShows(name: string, rows: Rows, grouped: bool)
    ensures forall r :: r in rows && !r.hide ==> Shown(r, Group(name, rows, grouped))
  {
    VisibleCount(rows);
    var vis := Visible(rows);
    TreeRows(vis);
    ShownAsIs(vis);
    hide Visible, Hidden, Tree, Shown;
    forall r | r in rows && !r.hide
      ensures Shown(r, Group(name, rows, grouped))
    {
      assert r in vis;
      ShownBelow([Header(name, |rows|, false, true)], Tree(vis), r);
    }
  }

  /** The row is drawn, perhaps with a connector. */
  ghost predicate Shown(row: AgentRow, out: Rows) { exists r :: r in out && r == row.(conn := r.conn) }

  lemma LayoutSize(agents: Rows, services: Rows, svcFold: bool, hidden: nat)
    requires Plain(agents) && Plain(services)
    requires Hidden(agents) + Hidden(if svcFold then [] else services) == hidden
    ensures var out, total := Layout(agents, services, svcFold, hidden), LaidOut(|agents|, |services|, svcFold);
      && Entries(out) == total - hidden
      && |out| == Headers(|agents|, |services|) + total - hidden + if hidden > 0 then 1 else 0
  {
    var grouped := services != [];
    GroupSize("agents", agents, grouped);
    GroupSize("services", services, grouped);
    var top := Group("agents", agents, grouped);
    var h := Header("services", |services|, true, Signal(services) == 0);
    var low := if grouped && svcFold then [h] else Group("services", services, grouped);
    var tail := if hidden > 0 then [Marker(hidden)] else [];
    OneEntry(h);
    OneEntry(Marker(hidden));
    hide Group, Entries, Marker, Hidden;
    EntriesJoined(top, low);
    EntriesJoined(top + low, tail);
    assert Entries([]) == 0 by { EntriesPlain([]); }
  }

  /** The block never outgrows its height, and every entry laid out is either
      drawn or counted as hidden. */
  lemma RosterAccounts(agents: Rows, services: Rows, avail: nat, svcFold: bool)
    requires Plain(agents) && Plain(services) && avail > 0
    requires Folds(agents, if svcFold then [] else services,
                   Folding(LaidOut(|agents|, |services|, svcFold), Headers(|agents|, |services|), avail))
    ensures var total := LaidOut(|agents|, |services|, svcFold);
      var n := Folding(total, Headers(|agents|, |services|), avail);
      var out := Cut(Layout(agents, services, svcFold, n), avail);
      |out| <= avail && Entries(out) + n == total
  {
    var total := LaidOut(|agents|, |services|, svcFold);
    var n := Folding(total, Headers(|agents|, |services|), avail);
    var all := Layout(agents, services, svcFold, n);
    FoldsCount(agents, if svcFold then [] else services, n);
    LayoutSize(agents, services, svcFold, n);
    FoldingFits(total, Headers(|agents|, |services|), avail);
    CutEntries(all, avail);
    hide Layout, Folds, Entries, Folding, LaidOut, Headers, Hidden, Plain, Cut;
  }

  lemma CutEntries(all: Rows, avail: nat)
    ensures |Cut(all, avail)| <= avail
    ensures |all| <= avail || Entries(all) == 0 ==> Entries(Cut(all, avail)) == Entries(all)
  {
    hide Entries;
    if |all| > avail {
      EntriesJoined(all[..avail], all[avail..]);
      assert all == all[..avail] + all[avail..];
    }
  }

  lemma FoldsCount(agents: Rows, services: Rows, n: nat)
    requires Folds(agents, services, n)
    ensures Hidden(agents) + Hidden(services) == n
  {
  }

  /** Either the rows left, their headers and the marker fit, or none is left. */
  lemma FoldingFits(total: nat, headers: nat, avail: nat)
    ensures var n := Folding(total, headers, avail);
      total - n + headers + (if n > 0 then 1 else 0) <= avail || n == total
  {
  }

  lemma {:induction false} DimHidden(rows: Rows, n: nat)
    requires n <= |rows| && forall i :: 0 <= i < n && rows[i].dim ==> rows[i].hide
    ensures HiddenIn(rows, n) >= n - SignalIn(rows, n)
    ensures (exists i :: 0 <= i < n && rows[i].hide && !rows[i].dim) ==> HiddenIn(rows, n) > n - SignalIn(rows, n)
  {
    if n > 0 {
      DimHidden(rows, n - 1);
    }
  }

  /** A fold of no more rows than are dim hides none that asks for attention. */
  lemma SignalsStay(agents: Rows, services: Rows, n: nat)
    requires Folds(agents, services, n) && n <= |agents| - Signal(agents) + |services| - Signal(services)
    ensures forall r :: (r in agents || r in services) && !r.dim ==> !r.hide
  {
    if r :| (r in agents || r in services) && !r.dim && r.hide {
      assert forall i :: 0 <= i < |agents| && agents[i].dim ==> agents[i] in agents && agents[i].hide;
      assert forall i :: 0 <= i < |services| && services[i].dim ==> services[i] in services && services[i].hide;
      DimHidden(agents, |agents|);
      DimHidden(services, |services|);
      assert false;
    }
  }

  /** At its signal cap a block draws every agent row that asks for attention, and
      every such service row too unless the services are folded, when their
      header is bright exactly if one was. */
  lemma SignalsShow(agents: Rows, services: Rows, svcFold: bool)
    requires Plain(agents) && Plain(services) && Cap(agents, services) > 0
    requires Folds(agents, if svcFold then [] else services,
                   Folding(LaidOut(|agents|, |services|, svcFold), Headers(|agents|, |services|), Cap(agents, services)))
    ensures var n := Folding(LaidOut(|agents|, |services|, svcFold), Headers(|agents|, |services|), Cap(agents, services));
      var out := Cut(Layout(agents, services, svcFold, n), Cap(agents, services));
      && (forall r :: r in agents && !r.dim ==> Shown(r, out))
      && (!svcFold ==> forall r :: r in services && !r.dim ==> Shown(r, out))
      && (svcFold && services != [] ==>
            Header("services", |services|, true, Signal(services) == 0) in out)
  {
    var cap, laid := Cap(agents, services), if svcFold then [] else services;
    var n := Folding(LaidOut(|agents|, |services|, svcFold), Headers(|agents|, |services|), cap);
    CapFolds(agents, services, svcFold);
    FoldsCount(agents, laid, n);
    SignalsStay(agents, laid, n);
    LayoutSize(agents, services, svcFold, n);
    LayoutShows(agents, services, svcFold, n);
    hide Folds, Layout, Folding, LaidOut, Headers, Hidden, Signal, Cap, Shown;
  }

  /** At the cap no more rows fold than are dim, and the rest fits. */
  lemma CapFolds(agents: Rows, services: Rows, svcFold: bool)
    requires Cap(agents, services) > 0
    ensures var laid, cap, total := if svcFold then [] else services, Cap(agents, services), LaidOut(|agents|, |services|, svcFold);
      var headers := Headers(|agents|, |services|);
      var n := Folding(total, headers, cap);
      && n <= |agents| - Signal(agents) + |laid| - Signal(laid)
      && headers + total - n + (if n > 0 then 1 else 0) <= cap
  {
    hide SignalIn;
    assert Signal([]) == 0;
  }

  /** A row that is not hidden is drawn, and so is the header of folded services. */
  lemma LayoutShows(agents: Rows, services: Rows, svcFold: bool, n: nat)
    requires Plain(agents) && Plain(services)
    ensures var out := Layout(agents, services, svcFold, n);
      && (forall r :: r in agents && !r.hide ==> Shown(r, out))
      && (!svcFold ==> forall r :: r in services && !r.hide ==> Shown(r, out))
      && (svcFold && services != [] ==> Header("services", |services|, true, Signal(services) == 0) in out)
  {
    var grouped := services != [];
    GroupShows("agents", agents, grouped);
    GroupShows("services", services, grouped);
    hide Signal, Group, Marker;
  }
}
