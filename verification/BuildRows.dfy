/** Announced rows and the steps credited to them: announceInstall of
    internal/app/candidates.go and internal/progressui/progressui.go. */
module BuildRows {

  import opened Containers
  import opened BuildStream
  import I = Install
  import T = Terminal

  /** One line of the bill of materials. */
  datatype Row = Row(title: string, steps: nat, done: nat, cached: nat, active: bool, failed: bool)

  /** A plan row as it is announced. */
  datatype Announcement = Announcement(title: string, total: nat)

  /** How often x occurs among the first n. */
  function Count(xs: seq<nat>, n: nat, x: nat): nat
    requires n <= |xs|
  {
    if n == 0 then 0 else Count(xs, n - 1, x) + if xs[n - 1] == x then 1 else 0
  }

  /** Each part is announced with the number of steps it owns. */
  method AnnounceInstall(plan: I.Plan) returns (announced: seq<Announcement>)
    requires forall s :: 0 <= s < |plan.stepPart| ==> plan.stepPart[s] < |plan.parts|
    ensures |announced| == |plan.parts|
    ensures forall i :: 0 <= i < |announced| ==>
      announced[i] == Announcement(plan.parts[i].title, Count(plan.stepPart, |plan.stepPart|, i))
  {
    var steps := seq(|plan.parts|, _ => 0);
    for s := 0 to |plan.stepPart|
      invariant |steps| == |plan.parts|
      invariant forall i :: 0 <= i < |steps| ==> steps[i] == Count(plan.stepPart, s, i)
    {
      var idx := plan.stepPart[s];
      steps := steps[idx := steps[idx] + 1];
    }
    announced := [];
    for i := 0 to |plan.parts|
      invariant |announced| == i
      invariant forall k :: 0 <= k < i ==> announced[k] == Announcement(plan.parts[k].title, Count(plan.stepPart, |plan.stepPart|, k))
    {
      announced := announced + [Announcement(plan.parts[i].title, steps[i])];
    }
  }

  /** A planned step gets the title of its part put on it. */
  function Stamped(plan: I.Plan, p: Progress): Progress
    requires forall s :: 0 <= s < |plan.stepPart| ==> plan.stepPart[s] < |plan.parts|
  {
    if p.StepStart? && 1 <= p.step <= |plan.stepPart| then p.(part := plan.parts[plan.stepPart[p.step - 1]].title) else p
  }

  /** The renderer's books: the rows, where each title is, and the step at work. */
  datatype Books = Books(rows: seq<Row>, index: map<string, nat>, cur: Option<nat>, curCached: bool, building: bool)

  /** Book the step that just ended onto its row. */
  function Credited(b: Books): Books
    requires b.cur.Some? ==> b.cur.value < |b.rows|
  {
    if b.cur.None? then b
    else
      var w := b.rows[b.cur.value];
      var v := w.(done := w.done + 1, cached := w.cached + if b.curCached then 1 else 0);
      b.(rows := b.rows[b.cur.value := v.(active := v.active && !(v.steps > 0 && v.done >= v.steps))])
  }

  /** The row of a step: its part's, or for a step no plan names a row of its
      own, which counts the steps it stands for. */
  function Entered(b: Books, part: string, message: string): (Books, nat) {
    var title := if part == "" then T.LineOf(message, 48) else part;
    if part in b.index then (b, b.index[part])
    else if title in b.index && b.index[title] < |b.rows| then
      var i := b.index[title];
      (b.(rows := b.rows[i := b.rows[i].(steps := b.rows[i].steps + 1)]), i)
    else (b.(rows := b.rows + [Row(title, 1, 0, 0, false, false)], index := b.index[title := |b.rows|]), |b.rows|)
  }

  function Inactive(rows: seq<Row>, i: nat): seq<Row>
    requires i < |rows|
  {
    rows[i := rows[i].(active := false)]
  }

  function AllInactive(rows: seq<Row>): (r: seq<Row>)
    ensures |r| == |rows|
  {
    seq(|rows|, i requires 0 <= i < |rows| => rows[i].(active := false))
  }

  /** Every title leads to a row. */
  predicate Filed(b: Books) {
    && (b.cur.Some? ==> b.cur.value < |b.rows|)
    && (forall t :: t in b.index ==> b.index[t] < |b.rows| && b.rows[b.index[t]].title == t)
    && (forall i :: 0 <= i < |b.rows| ==> b.rows[i].title in b.index)
  }

  function OnEvent(b: Books, p: Progress): Books
    requires Filed(b)
  {
    if !b.building && !p.Done? && !p.Failed? then b
    else
      match p
      case StepStart(_, _, message, part) =>
        var (e, w) := Entered(Credited(b), part, message);
        var quiet := if e.cur.Some? && e.cur.value != w && e.cur.value < |e.rows| then Inactive(e.rows, e.cur.value) else e.rows;
        var shown := if w < |quiet| then quiet[w := quiet[w].(active := true)] else quiet;
        e.(rows := shown, cur := Some(w), curCached := false)
      case Cached(_, _) => b.(curCached := true)
      case Output(_, _, _) => b
      case Failed(_, _, _) =>
        b.(rows := if b.cur.Some? then b.rows[b.cur.value := b.rows[b.cur.value].(failed := true, active := false)] else b.rows,
           building := false)
      case Done(_) =>
        var e := Credited(b);
        e.(rows := AllInactive(e.rows), building := false)
  }

  function NewRow(a: Announcement): Row { Row(a.title, a.total, 0, 0, false, false) }

  function Rows(announced: seq<Announcement>): seq<Row> {
    seq(|announced|, i requires 0 <= i < |announced| => NewRow(announced[i]))
  }

  /** The announced rows, indexed by title; of two with one title the later. */
  function Index(announced: seq<Announcement>, n: nat): map<string, nat>
    requires n <= |announced|
  {
    if n == 0 then map[] else Index(announced, n - 1)[announced[n - 1].title := n - 1]
  }

  function Begun(announced: seq<Announcement>): Books {
    Books(Rows(announced), Index(announced, |announced|), None, false, true)
  }

  lemma {:induction false} IndexFiled(announced: seq<Announcement>, n: nat)
    requires n <= |announced|
    ensures forall t :: t in Index(announced, n) ==> Index(announced, n)[t] < n && announced[Index(announced, n)[t]].title == t
    ensures forall i :: 0 <= i < n ==> announced[i].title in Index(announced, n)
  {
    if n > 0 {
      IndexFiled(announced, n - 1);
    }
  }

  lemma BegunFiled(announced: seq<Announcement>)
    ensures Filed(Begun(announced))
  {
    IndexFiled(announced, |announced|);
  }

  /** The renderer folds events into its rows. */
  class Renderer {
    var pending: seq<Announcement>
    var rows: seq<Row>
    var index: map<string, nat>
    var cur: Option<nat>
    var curCached: bool
    var building: bool

    function State(): Books
      reads this
    {
      Books(rows, index, cur, curCached, building)
    }

    constructor ()
      ensures pending == [] && Filed(State()) && !building && rows == []
    {
      pending, rows, index, cur, curCached, building := [], [], map[], None, false, false;
    }

    method Announce(title: string, total: nat)
      modifies `pending
      ensures pending == old(pending) + [Announcement(title, total)]
    {
      pending := pending + [Announcement(title, total)];
    }

    method BeginBuild()
      modifies this
      ensures State() == Begun(old(pending)) && pending == [] && Filed(State())
    {
      rows, index := [], map[];
      for i := 0 to |pending|
        invariant pending == old(pending) && |rows| == i && index == Index(pending, i)
        invariant forall k :: 0 <= k < i ==> rows[k] == NewRow(pending[k])
      {
        rows := rows + [NewRow(pending[i])];
        index := index[pending[i].title := i];
      }
      BegunFiled(pending);
      assert rows == Rows(pending);
      pending := [];
      cur, curCached, building := None, false, true;
    }

    method Credit()
      requires cur.Some? ==> cur.value < |rows|
      modifies `rows
      ensures State() == Credited(old(State()))
    {
      match cur {
        case None =>
        case Some(i) =>
          rows := rows[i := rows[i].(done := rows[i].done + 1)];
          if curCached {
            rows := rows[i := rows[i].(cached := rows[i].cached + 1)];
          }
          if rows[i].steps > 0 && rows[i].done >= rows[i].steps {
            rows := rows[i := rows[i].(active := false)];
          }
      }
    }

    method StartStep(part: string, message: string)
      requires Filed(State()) && building
      modifies this
      ensures forall step, steps :: State() == OnEvent(old(State()), StepStart(step, steps, message, part))
      ensures pending == old(pending)
    {
      Credit();
      assert Filed(State());
      var w := Enter(part, message);
      hide Credited, Entered, T.LineOf;
      if cur.Some? && cur.value != w {
        rows := rows[cur.value := rows[cur.value].(active := false)];
      }
      rows := rows[w := rows[w].(active := true)];
      cur := Some(w);
      curCached := false;
    }

    /** The row the step counts on, which may be new. */
    method Enter(part: string, message: string) returns (w: nat)
      requires Filed(State())
      modifies `rows, `index
      ensures (State(), w) == Entered(old(State()), part, message)
      ensures w < |rows| && |rows| >= |old(rows)|
    {
      hide T.LineOf;
      if part in index {
        w := index[part];
      } else {
        var title := if part == "" then T.LineOf(message, 48) else part;
        if title in index {
          w := index[title];
          rows := rows[w := rows[w].(steps := rows[w].steps + 1)];
        } else {
          w := |rows|;
          rows := rows + [Row(title, 1, 0, 0, false, false)];
          index := index[title := w];
        }
      }
    }

    method Finish()
      requires Filed(State())
      modifies this
      ensures forall message :: State() == OnEvent(old(State()), Done(message))
      ensures pending == old(pending)
      ensures !building && forall i :: 0 <= i < |rows| ==> !rows[i].active
    {
      Credit();
      ghost var credited := rows;
      for i := 0 to |rows|
        invariant |rows| == |credited| && unchanged(`index, `cur, `curCached, `building, `pending)
        invariant forall k :: 0 <= k < |rows| ==> rows[k] == if k < i then credited[k].(active := false) else credited[k]
      {
        rows := rows[i := rows[i].(active := false)];
      }
      assert rows == AllInactive(credited);
      building := false;
    }

    method Fail()
      requires Filed(State())
      modifies this
      ensures forall step, steps, message :: State() == OnEvent(old(State()), Failed(step, steps, message))
      ensures pending == old(pending)
      ensures !building && |rows| == |old(rows)|
      ensures forall i :: 0 <= i < |rows| ==>
        rows[i] == if cur == Some(i) then old(rows)[i].(failed := true, active := false) else old(rows)[i]
    {
      match cur {
        case None =>
        case Some(i) => rows := rows[i := rows[i].(failed := true, active := false)];
      }
      building := false;
    }

    method BuildEvent(p: Progress)
      requires Filed(State())
      modifies this
      ensures State() == OnEvent(old(State()), p) && pending == old(pending)
    {
      hide Filed;
      if !building && !p.Done? && !p.Failed? {
        return;
      }
      match p {
        case StepStart(_, _, message, part) => StartStep(part, message);
        case Cached(_, _) => curCached := true;
        case Failed(_, _, _) => Fail();
        case Done(_) => Finish();
        case Output(_, _, _) =>
      }
    }
  }
}
