/** Whole builds: every row that was announced, or found on the way, finishes. */
module BuildRuns {

  import opened Containers
  import opened BuildStream
  import opened BuildRows
  import I = Install
  import T = Terminal

  /** The steps of the events start one after another from m + 1 on, and nothing
      fails or ends on the way. */
  predicate Orderly(events: seq<Progress>, m: nat, n: nat)
    decreases |events|
  {
    if events == [] then m == n
    else if events[0].StepStart? then events[0].step == m + 1 && Orderly(events[1..], m + 1, n)
    else (events[0].Cached? || events[0].Output?) && Orderly(events[1..], m, n)
  }

  predicate Indexes(plan: I.Plan) { forall s :: 0 <= s < |plan.stepPart| ==> plan.stepPart[s] < |plan.parts| }

  predicate Distinct(plan: I.Plan) {
    forall i, j :: 0 <= i < j < |plan.parts| ==> plan.parts[i].title != plan.parts[j].title
  }

  /** What the plan announces. */
  function Announced(plan: I.Plan): seq<Announcement> {
    seq(|plan.parts|, i requires 0 <= i < |plan.parts| =>
      Announcement(plan.parts[i].title, Count(plan.stepPart, |plan.stepPart|, i)))
  }

  /** How many of the first n steps belong to x and were found in the cache. */
  function HitCount(xs: seq<nat>, hits: seq<bool>, n: nat, x: nat): nat
    requires n <= |xs| && n <= |hits|
  {
    if n == 0 then 0 else HitCount(xs, hits, n - 1, x) + if xs[n - 1] == x && hits[n - 1] then 1 else 0
  }

  lemma {:induction false} HitPrefix(xs: seq<nat>, hits: seq<bool>, more: seq<bool>, n: nat, x: nat)
    requires n <= |xs| && n <= |hits| && n <= |more| && hits[..n] == more[..n]
    ensures HitCount(xs, hits, n, x) == HitCount(xs, more, n, x)
  {
    if n > 0 {
      assert hits[..n][n - 1] == more[..n][n - 1];
      assert hits[..n - 1] == hits[..n][..n - 1] && more[..n - 1] == more[..n][..n - 1];
      HitPrefix(xs, hits, more, n - 1, x);
    }
  }

  /** Step by step, whether it was found in the cache. */
  function Hit(h: seq<bool>, e: Progress): seq<bool> {
    match e
    case StepStart(_, _, _, _) => h + [false]
    case Cached(_, _) => if h == [] then h else h[|h| - 1 := true]
    case _ => h
  }

  function Hits(h: seq<bool>, events: seq<Progress>): seq<bool>
    decreases |events|
  {
    if events == [] then h else Hits(Hit(h, events[0]), events[1..])
  }

  /** After the steps of the plan that hits tells of, the last of them at work. */
  ghost predicate Credit(b: Books, plan: I.Plan, hits: seq<bool>)
    requires Indexes(plan)
  {
    var m := |hits|;
    && b.building && m <= |plan.stepPart| && |b.rows| == |plan.parts|
    && (m > 0 ==> b.curCached == hits[m - 1])
    && b.index == Index(Announced(plan), |plan.parts|)
    && b.cur == (if m == 0 then None else Some(plan.stepPart[m - 1]))
    && forall i :: 0 <= i < |b.rows| ==>
         && b.rows[i].title == plan.parts[i].title
         && b.rows[i].steps == Count(plan.stepPart, |plan.stepPart|, i)
         && b.rows[i].done + (if b.cur == Some(i) then 1 else 0) == Count(plan.stepPart, m, i)
         && b.rows[i].cached + (if b.cur == Some(i) && b.curCached then 1 else 0) == HitCount(plan.stepPart, hits, m, i)
         && b.rows[i].cached <= b.rows[i].done
         && (b.rows[i].active <==> b.cur == Some(i)) && !b.rows[i].failed
  }

  lemma {:induction false} IndexOf(plan: I.Plan, i: nat)
    requires Distinct(plan) && i < |plan.parts|
    ensures plan.parts[i].title in Index(Announced(plan), |plan.parts|)
    ensures Index(Announced(plan), |plan.parts|)[plan.parts[i].title] == i
  {
    var announced := Announced(plan);
    assert forall k :: 0 <= k < |plan.parts| ==> announced[k].title == plan.parts[k].title;
    IndexFiled(announced, |plan.parts|);
    assert announced[i].title in Index(announced, |plan.parts|);
    hide Index, Announced;
  }

  lemma CreditBegun(plan: I.Plan)
    requires Indexes(plan)
    ensures Credit(Begun(Announced(plan)), plan, [])
  {
  }

  lemma CreditFiled(b: Books, plan: I.Plan, hits: seq<bool>)
    requires Indexes(plan) && Credit(b, plan, hits)
    ensures Filed(b)
  {
    var announced := Announced(plan);
    assert forall k :: 0 <= k < |plan.parts| ==> announced[k].title == plan.parts[k].title;
    IndexFiled(announced, |plan.parts|);
    forall i | 0 <= i < |b.rows|
      ensures b.rows[i].title in b.index
    {
      assert announced[i].title in Index(announced, |plan.parts|);
    }
    hide Index, Announced;
  }

  /** Row w was at work and another step begins on it or elsewhere: what was at
      work is credited, and nothing else is. */
  ghost predicate Onto(b: Books, c: Books, w: nat) {
    && c.building && c.index == b.index && c.cur == Some(w) && |c.rows| == |b.rows| && !c.curCached
    && forall i :: 0 <= i < |c.rows| ==>
         && c.rows[i].title == b.rows[i].title && c.rows[i].steps == b.rows[i].steps
         && c.rows[i].done == b.rows[i].done + (if b.cur == Some(i) then 1 else 0)
         && c.rows[i].cached == b.rows[i].cached + (if b.cur == Some(i) && b.curCached then 1 else 0)
         && c.rows[i].active == (i == w || (b.rows[i].active && b.cur != Some(i)))
         && c.rows[i].failed == b.rows[i].failed
  }

  lemma CreditedRows(b: Books)
    requires Filed(b)
    ensures var c := Credited(b);
      && c == b.(rows := c.rows) && |c.rows| == |b.rows|
      && forall i :: 0 <= i < |b.rows| ==>
           && c.rows[i].title == b.rows[i].title && c.rows[i].steps == b.rows[i].steps && c.rows[i].failed == b.rows[i].failed
           && c.rows[i].done == b.rows[i].done + (if b.cur == Some(i) then 1 else 0)
           && c.rows[i].cached == b.rows[i].cached + (if b.cur == Some(i) && b.curCached then 1 else 0)
           && (b.cur != Some(i) ==> c.rows[i].active == b.rows[i].active)
  {
  }

  /** A step starts on row w of the books it was entered in. */
  lemma StartRows(b: Books, e: Progress, x: Books, w: nat)
    requires Filed(b) && b.building && e.StepStart? && Entered(Credited(b), e.part, e.message) == (x, w) && w < |x.rows|
    requires x.cur == b.cur && |b.rows| <= |x.rows|
    ensures var c := OnEvent(b, e);
      && c == x.(rows := c.rows, cur := Some(w), curCached := false) && |c.rows| == |x.rows|
      && forall i :: 0 <= i < |c.rows| ==>
           c.rows[i] == x.rows[i].(active := i == w || (x.rows[i].active && x.cur != Some(i)))
  {
    hide Credited, Entered;
  }

  /** A row that is indexed is entered as it is. */
  lemma StepOnto(b: Books, e: Progress, w: nat)
    requires Filed(b) && b.building && e.StepStart? && e.part in b.index && b.index[e.part] == w
    ensures w < |b.rows| && Onto(b, OnEvent(b, e), w)
  {
    CreditedRows(b);
    StartRows(b, e, Credited(b), w);
    hide OnEvent, Credited, T.LineOf;
  }

  lemma CreditOnto(b: Books, c: Books, plan: I.Plan, hits: seq<bool>)
    requires Indexes(plan) && Credit(b, plan, hits) && |hits| < |plan.stepPart| && Onto(b, c, plan.stepPart[|hits|])
    ensures Credit(c, plan, hits + [false])
  {
    var m, more := |hits|, hits + [false];
    forall i | 0 <= i < |c.rows| ensures HitCount(plan.stepPart, more, m + 1, i) == HitCount(plan.stepPart, hits, m, i) {
      assert hits[..m] == more[..m];
      HitPrefix(plan.stepPart, hits, more, m, i);
    }
    hide Index, Announced, HitCount;
  }

  lemma CreditStep(b: Books, plan: I.Plan, hits: seq<bool>, e: Progress)
    requires Indexes(plan) && Distinct(plan) && Credit(b, plan, hits) && |hits| < |plan.stepPart|
    requires e.StepStart? && e.step == |hits| + 1
    ensures Filed(b) && Credit(OnEvent(b, Stamped(plan, e)), plan, Hit(hits, e))
  {
    var w, stamped := plan.stepPart[|hits|], Stamped(plan, e);
    CreditFiled(b, plan, hits);
    IndexOf(plan, w);
    hide Index, Announced, OnEvent, Filed, Onto;
    StepOnto(b, stamped, w);
    CreditOnto(b, OnEvent(b, stamped), plan, hits);
  }

  lemma CreditOther(b: Books, plan: I.Plan, hits: seq<bool>, e: Progress)
    requires Indexes(plan) && Credit(b, plan, hits) && (e.Cached? || e.Output?)
    ensures Filed(b) && Credit(OnEvent(b, Stamped(plan, e)), plan, Hit(hits, e)) && |Hit(hits, e)| == |hits|
  {
    CreditFiled(b, plan, hits);
    if e.Cached? && hits != [] {
      CreditHit(b, plan, hits);
    }
    hide Index, Announced, HitCount, Filed;
  }

  /** The step at work was found in the cache. */
  lemma CreditHit(b: Books, plan: I.Plan, hits: seq<bool>)
    requires Indexes(plan) && Credit(b, plan, hits) && hits != []
    ensures Credit(b.(curCached := true), plan, hits[|hits| - 1 := true])
  {
    var m, more := |hits|, hits[|hits| - 1 := true];
    forall i | 0 <= i < |b.rows|
      ensures HitCount(plan.stepPart, more, m, i) ==
              HitCount(plan.stepPart, hits, m, i) + if !hits[m - 1] && plan.stepPart[m - 1] == i then 1 else 0
    {
      assert hits[..m - 1] == more[..m - 1];
      HitPrefix(plan.stepPart, hits, more, m - 1, i);
    }
    hide Index, Announced, HitCount;
  }

  /** The events, each stamped by the plan. */
  function Stamps(plan: I.Plan, events: seq<Progress>): (r: seq<Progress>)
    requires Indexes(plan)
    ensures |r| == |events|
  {
    seq(|events|, k requires 0 <= k < |events| => Stamped(plan, events[k]))
  }

  /** The books after a run of events. */
  ghost predicate Leads(b: Books, events: seq<Progress>, c: Books)
    decreases |events|
  {
    if events == [] then c == b else Filed(b) && Leads(OnEvent(b, events[0]), events[1..], c)
  }

  lemma {:induction false} CreditRun(b: Books, plan: I.Plan, hits: seq<bool>, events: seq<Progress>, c: Books)
    requires Indexes(plan) && Distinct(plan) && Credit(b, plan, hits)
    requires Orderly(events, |hits|, |plan.stepPart|) && Leads(b, Stamps(plan, events), c)
    ensures Credit(c, plan, Hits(hits, events)) && |Hits(hits, events)| == |plan.stepPart|
    decreases |events|
  {
    var m := |hits|;
    hide Credit, OnEvent, Filed;
    if events != [] {
      var e := events[0];
      OrderlyBound(events, m, |plan.stepPart|);
      assert Stamps(plan, events)[0] == Stamped(plan, e) && Stamps(plan, events)[1..] == Stamps(plan, events[1..]);
      if e.StepStart? {
        CreditStep(b, plan, hits, e);
        CreditRun(OnEvent(b, Stamped(plan, e)), plan, Hit(hits, e), events[1..], c);
      } else {
        CreditOther(b, plan, hits, e);
        CreditRun(OnEvent(b, Stamped(plan, e)), plan, Hit(hits, e), events[1..], c);
      }
    }
  }

  lemma {:induction false} OrderlyBound(events: seq<Progress>, m: nat, n: nat)
    requires Orderly(events, m, n)
    ensures m <= n && (events != [] && events[0].StepStart? ==> m < n)
    decreases |events|
  {
    if events != [] {
      OrderlyBound(events[1..], if events[0].StepStart? then m + 1 else m, n);
    }
  }

  /** Every announced row finishes: in a build of the generated plan whose steps
      start in order and which ends well, each row is credited with exactly the
      steps it was announced with, and of these with the ones that were found in
      the cache; and none is active or failed any more. */
  lemma EveryRowFinishes(plan: I.Plan, chunks: seq<I.Chunk>, events: seq<Progress>, message: string, c: Books)
    requires I.Faithful(plan, chunks) && forall p :: p in plan.parts ==> p.title == p.id
    requires Indexes(plan) && Orderly(events, 0, I.Instructions(plan.dockerfile))
    requires Leads(Begun(Announced(plan)), Stamps(plan, events), c)
    ensures Filed(c)
    ensures var d, hits := OnEvent(c, Done(message)), Hits([], events);
      && |d.rows| == |plan.parts| && |hits| == |plan.stepPart| && Finished(d, plan, hits)
  {
    FaithfulTitles(plan, chunks);
    hide I.Faithful, I.Instructions, Indexes, Distinct, Credit, OnEvent, Begun, Announced, Filed, Orderly, Leads, Stamps;
    hide Finished, Hits;
    CreditBegun(plan);
    CreditRun(Begun(Announced(plan)), plan, [], events, c);
    CreditFiled(c, plan, Hits([], events));
    CreditDone(c, plan, Hits([], events), message);
  }

  lemma FaithfulTitles(plan: I.Plan, chunks: seq<I.Chunk>)
    requires I.Faithful(plan, chunks) && forall p :: p in plan.parts ==> p.title == p.id
    ensures Distinct(plan) && Indexes(plan) && |plan.stepPart| == I.Instructions(plan.dockerfile)
  {
    hide I.Instructions, I.Owners, I.Ids, I.Concat;
    assert forall i :: 0 <= i < |plan.parts| ==> plan.parts[i] in plan.parts;
  }

  /** Each part's row: all of its steps are done, and so many were in the cache. */
  ghost predicate Finished(d: Books, plan: I.Plan, hits: seq<bool>)
    requires |d.rows| == |plan.parts| && |hits| == |plan.stepPart|
  {
    && !d.building
    && forall i :: 0 <= i < |d.rows| ==>
         && d.rows[i].title == plan.parts[i].title
         && d.rows[i].done == d.rows[i].steps == Count(plan.stepPart, |plan.stepPart|, i)
         && d.rows[i].cached == HitCount(plan.stepPart, hits, |hits|, i) <= d.rows[i].done
         && !d.rows[i].active && !d.rows[i].failed
  }

  lemma CreditDone(b: Books, plan: I.Plan, hits: seq<bool>, message: string)
    requires Indexes(plan) && Credit(b, plan, hits) && Filed(b) && |hits| == |plan.stepPart|
    ensures |OnEvent(b, Done(message)).rows| == |plan.parts| && Finished(OnEvent(b, Done(message)), plan, hits)
  {
    hide Filed, Index, Announced, HitCount, Count, Credited;
    CreditedRows(b);
    FiledAt(b, "");
    forall i | 0 <= i < |b.rows| ensures HitCount(plan.stepPart, hits, |hits|, i) <= Count(plan.stepPart, |hits|, i) {
      HitBound(plan.stepPart, hits, |hits|, i);
    }
  }

  lemma {:induction false} HitBound(xs: seq<nat>, hits: seq<bool>, n: nat, x: nat)
    requires n <= |xs| && n <= |hits|
    ensures HitCount(xs, hits, n, x) <= Count(xs, n, x)
  {
    if n > 0 {
      HitBound(xs, hits, n - 1, x);
    }
  }

  /** The events of an extension's build: no plan names its steps, and nothing
      fails or ends on the way. */
  predicate Unplanned(events: seq<Progress>) {
    forall k :: 0 <= k < |events| ==> (events[k].StepStart? && events[k].part == "") || events[k].Cached? || events[k].Output?
  }

  function TitleOf(e: Progress): string
    requires e.StepStart?
  {
    T.LineOf(e.message, 48)
  }

  predicate Starts(events: seq<Progress>) { exists k :: 0 <= k < |events| && events[k].StepStart? }

  /** No step but the last has an instruction that renders as nothing. */
  predicate Titled(events: seq<Progress>)
    decreases |events|
  {
    events == [] || ((events[0].StepStart? && TitleOf(events[0]) == "" ==> !Starts(events[1..])) && Titled(events[1..]))
  }

  /** Each row counts the steps it stands for, the one at work not yet credited. */
  ghost predicate Tallied(b: Books) {
    && Filed(b) && b.building
    && forall i :: 0 <= i < |b.rows| ==>
         && b.rows[i].steps == b.rows[i].done + (if b.cur == Some(i) then 1 else 0)
         && b.rows[i].cached <= b.rows[i].done && b.rows[i].steps >= 1
  }

  /** The untitled row has taken steps it does not count. */
  ghost predicate Overrun(b: Books) {
    && Filed(b) && b.building && "" in b.index
    && var j := b.index[""];
       b.rows[j].steps < b.rows[j].done + if b.cur == Some(j) then 1 else 0
  }

  /** One step's effect on the rows there were, its own being w. */
  ghost predicate Worked(b: Books, c: Books, w: nat) {
    && c.building && c.cur == Some(w) && |b.rows| <= |c.rows| && !c.curCached
    && forall i :: 0 <= i < |b.rows| ==>
         && c.rows[i].title == b.rows[i].title && c.rows[i].steps == b.rows[i].steps + (if i == w then 1 else 0)
         && c.rows[i].done == b.rows[i].done + (if b.cur == Some(i) then 1 else 0)
         && c.rows[i].cached == b.rows[i].cached + (if b.cur == Some(i) && b.curCached then 1 else 0)
         && c.rows[i].active == (i == w || (b.rows[i].active && b.cur != Some(i)))
         && c.rows[i].failed == b.rows[i].failed
  }

  lemma FiledAt(b: Books, t: string)
    requires Filed(b)
    ensures b.cur.Some? ==> b.cur.value < |b.rows|
    ensures t in b.index ==> b.index[t] < |b.rows| && b.rows[b.index[t]].title == t
  {
  }

  lemma EnteredAgain(b: Books, e: Progress)
    requires e.StepStart? && e.part == "" && "" !in b.index && TitleOf(e) in b.index && b.index[TitleOf(e)] < |b.rows|
    ensures var (x, w) := Entered(b, e.part, e.message);
      && w == b.index[TitleOf(e)] && x == b.(rows := x.rows) && |x.rows| == |b.rows|
      && forall i :: 0 <= i < |b.rows| ==> x.rows[i] == b.rows[i].(steps := b.rows[i].steps + if i == w then 1 else 0)
  {
    hide T.LineOf;
  }

  /** A step no row is named for counts on the row of its instruction... */
  lemma StepAgain(b: Books, e: Progress)
    requires Filed(b) && b.building && e.StepStart? && e.part == "" && "" !in b.index && TitleOf(e) in b.index
    ensures var c, w := OnEvent(b, e), b.index[TitleOf(e)];
      Worked(b, c, w) && |c.rows| == |b.rows| && c.index == b.index
  {
    hide Filed, T.LineOf, OnEvent, Credited, Entered;
    var w := b.index[TitleOf(e)];
    FiledAt(b, TitleOf(e));
    CreditedRows(b);
    EnteredAgain(Credited(b), e);
    StartRows(b, e, Entered(Credited(b), e.part, e.message).0, w);
  }

  /** ...which may be new. */
  lemma StepNew(b: Books, e: Progress)
    requires Filed(b) && b.building && e.StepStart? && e.part == "" && "" !in b.index && TitleOf(e) !in b.index
    ensures var c, t, w := OnEvent(b, e), TitleOf(e), |b.rows|;
      && Worked(b, c, w) && |c.rows| == w + 1 && c.index == b.index[t := w]
      && c.rows[w] == Row(t, 1, 0, 0, true, false)
  {
    CreditedRows(b);
    hide T.LineOf, OnEvent, Credited;
    StartRows(b, e, Entered(Credited(b), e.part, e.message).0, |b.rows|);
  }

  lemma TalliedStep(b: Books, e: Progress)
    requires Tallied(b) && e.StepStart? && e.part == "" && "" !in b.index
    ensures Tallied(OnEvent(b, e)) && ("" in OnEvent(b, e).index <==> TitleOf(e) == "")
  {
    hide Filed, T.LineOf, OnEvent, TitleOf;
    StepFiled(b, e);
    if TitleOf(e) in b.index {
      StepAgain(b, e);
      TalliedAgain(b, OnEvent(b, e), b.index[TitleOf(e)]);
    } else {
      StepNew(b, e);
      TalliedNew(b, OnEvent(b, e));
    }
    hide Tallied;
  }

  lemma TalliedAgain(b: Books, c: Books, w: nat)
    requires Tallied(b) && Worked(b, c, w) && |c.rows| == |b.rows| && Filed(c)
    ensures Tallied(c)
  {
    hide Filed;
  }

  lemma TalliedNew(b: Books, c: Books)
    requires Tallied(b) && Worked(b, c, |b.rows|) && |c.rows| == |b.rows| + 1 && Filed(c)
    requires var r := c.rows[|b.rows|]; r.steps == 1 && r.done == 0 && r.cached == 0
    ensures Tallied(c)
  {
    assert b.cur != Some(|b.rows|);
    hide Filed;
  }

  lemma TalliedOverruns(b: Books, e: Progress)
    requires Tallied(b) && e.StepStart? && e.part == "" && "" in b.index
    ensures Overrun(OnEvent(b, e))
  {
    StepFiled(b, e);
    StepOnto(b, e, b.index[""]);
    hide T.LineOf, OnEvent, Filed;
  }

  lemma StepFiled(b: Books, e: Progress)
    requires Filed(b) && b.building && (e.StepStart? ==> e.part == "")
    requires e.StepStart? || e.Cached? || e.Output?
    ensures Filed(OnEvent(b, e))
  {
    if e.StepStart? {
      if "" in b.index {
        StepOnto(b, e, b.index[""]);
      } else if TitleOf(e) in b.index {
        StepAgain(b, e);
      } else {
        StepNew(b, e);
      }
      hide T.LineOf, OnEvent;
    }
  }

  lemma OverrunStep(b: Books, e: Progress)
    requires Overrun(b) && Unplanned([e])
    ensures Overrun(OnEvent(b, e))
  {
    assert [e][0] == e;
    StepFiled(b, e);
    if e.StepStart? {
      StepOnto(b, e, b.index[""]);
    }
    hide T.LineOf;
  }

  lemma TalliedOther(b: Books, e: Progress)
    requires Tallied(b) && (e.Cached? || e.Output?)
    ensures Tallied(OnEvent(b, e)) && OnEvent(b, e).index == b.index
  {
  }

  lemma {:induction false} OverrunRun(b: Books, events: seq<Progress>, c: Books)
    requires Overrun(b) && Unplanned(events) && Leads(b, events, c)
    ensures Overrun(c)
    decreases |events|
  {
    hide Overrun, OnEvent, Filed;
    if events != [] {
      assert [events[0]][0] == events[0];
      OverrunStep(b, events[0]);
      OverrunRun(OnEvent(b, events[0]), events[1..], c);
    }
  }

  /** Whether the books end up tallied or overrun is decided by the titles. */
  lemma {:induction false} ExtensionRun(b: Books, events: seq<Progress>, c: Books)
    requires Tallied(b) && Unplanned(events) && Leads(b, events, c)
    ensures Titled(events) && ("" in b.index ==> !Starts(events)) ==> Tallied(c)
    ensures !Titled(events) || ("" in b.index && Starts(events)) ==> Overrun(c)
    decreases |events|
  {
    hide Overrun, Tallied, OnEvent, Filed, TitleOf;
    if events != [] {
      var e, rest := events[0], events[1..];
      assert Starts(events) <==> e.StepStart? || Starts(rest) by { StartsSplit(events); }
      if !e.StepStart? {
        TalliedOther(b, e);
        ExtensionRun(OnEvent(b, e), rest, c);
      } else {
        if "" in b.index {
          TalliedOverruns(b, e);
          OverrunRun(OnEvent(b, e), rest, c);
        } else {
          TalliedStep(b, e);
          ExtensionRun(OnEvent(b, e), rest, c);
        }
      }
    }
  }

  lemma StartsSplit(events: seq<Progress>)
    requires events != []
    ensures Starts(events) <==> events[0].StepStart? || Starts(events[1..])
  {
    if k :| 0 <= k < |events| && events[k].StepStart? {
      assert k > 0 ==> events[1..][k - 1] == events[k];
    }
  }

  lemma OverrunDone(c: Books, message: string)
    requires Overrun(c)
    ensures var d, j := OnEvent(c, Done(message)), c.index[""]; j < |d.rows| && d.rows[j].done > d.rows[j].steps
  {
  }

  lemma TalliedDone(c: Books, message: string)
    requires Tallied(c)
    ensures var d := OnEvent(c, Done(message)); forall i :: 0 <= i < |d.rows| ==> d.rows[i].done == d.rows[i].steps
  {
  }

  /** An extension's rows all finish exactly when no step but the last has an
      instruction that renders as nothing: the row such a step opens swallows
      every step after it, and ends with more of them done than it counts. */
  lemma ExtensionRowsFinish(events: seq<Progress>, message: string, c: Books)
    requires Unplanned(events) && Leads(Begun([]), events, c)
    ensures Filed(c)
    ensures var d := OnEvent(c, Done(message));
      (forall i :: 0 <= i < |d.rows| ==> d.rows[i].done == d.rows[i].steps) <==> Titled(events)
    ensures var d := OnEvent(c, Done(message));
      !Titled(events) ==> exists i :: 0 <= i < |d.rows| && d.rows[i].done > d.rows[i].steps
  {
    BegunFiled([]);
    assert Tallied(Begun([]));
    hide Titled, Leads, Unplanned, OnEvent, Begun;
    ExtensionRun(Begun([]), events, c);
    if Titled(events) {
      TalliedDone(c, message);
    } else {
      OverrunDone(c, message);
    }
  }

  /** Such a build: an empty first instruction, and one more. */
  function Untitled(): seq<Progress> {
    [StepStart(1, 2, "", ""), StepStart(2, 2, "RUN make", "")]
  }

  lemma UntitledUnplanned()
    ensures Unplanned(Untitled()) && !Titled(Untitled())
  {
    T.LineClean("", 48);
    hide T.LineOf;
    assert Untitled()[1..][0].StepStart?;
  }

  /** Once it is done it has a row with more steps done than there were. */
  lemma UntitledOverruns(message: string)
    ensures exists c :: Leads(Begun([]), Untitled(), c) && Filed(c) &&
              var d := OnEvent(c, Done(message)); exists i :: 0 <= i < |d.rows| && d.rows[i].done > d.rows[i].steps
  {
    hide OnEvent, Begun, T.LineOf, Titled, Unplanned;
    var b0, e0, e1 := Begun([]), Untitled()[0], Untitled()[1];
    BegunFiled([]);
    BegunBuilding();
    StepFiled(b0, e0);
    var b1 := OnEvent(b0, e0);
    StepBuilding(b0, e0);
    StepFiled(b1, e1);
    var c := OnEvent(b1, e1);
    assert Untitled()[1..] == [e1] && [e1][1..] == [];
    assert Leads(c, [], c) && Leads(b1, [e1], c);
    UntitledUnplanned();
    ExtensionRowsFinish(Untitled(), message, c);
  }

  lemma BegunBuilding()
    ensures Begun([]).building
  {
  }

  lemma StepBuilding(b: Books, e: Progress)
    requires Filed(b) && b.building && e.StepStart?
    ensures OnEvent(b, e).building
  {
    hide T.LineOf;
  }
}
