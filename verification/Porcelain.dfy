/** The line protocols between the engine and its sidebar: Agents and Fleet of
    internal/tmuxui/views.go, and the parsers of internal/tmuxui/frame.go. */
module Porcelain {

  import opened Containers
  import N = Numerals
  import T = Terminal

  /** The unit separator, which no text that was made a line contains. */
  const US: char := '\U{1F}'

  const SERVICE: string := "svc"
  const SIDECAR: string := "sidecar"

  const MAX_INT: int := 0x7fff_ffff_ffff_ffff

  /** A container-side agent session, a workspace service or a sidecar. */
  datatype Agent = Agent(project: string, session: string, state: string, cli: string, model: string, epoch: int, kind: string)

  /** One project of the fleet. */
  datatype Fleet = Fleet(id: string, token: string, mode: string, pending: int, churn: string, name: string)

  predicate SessionChar(c: char) {
    'A' <= c <= 'Z' || 'a' <= c <= 'z' || '0' <= c <= '9' || c == '_' || c == '-'
  }

  predicate SessionName(s: string) { s != "" && forall k :: 0 <= k < |s| ==> SessionChar(s[k]) }

  predicate Addressable(e: Agent) { e.project != "" && SessionName(e.session) }

  function Width(width: int): nat { if width <= 0 then 80 else width }

  function Kind(kind: string): string { if kind == SERVICE || kind == SIDECAR then kind else "" }

  /** What of an entry survives being printed: its free text made one line each,
      and its kind and epoch where they mean something. */
  function Normal(e: Agent, width: int): Agent {
    Agent(e.project, e.session, T.LineOf(e.state, 24), T.LineOf(e.cli, Width(width)), T.LineOf(e.model, Width(width)),
          if e.epoch > 0 then e.epoch else 0, Kind(e.kind))
  }

  function Epoch(epoch: int): string { if epoch > 0 then N.Decimal(epoch) else "" }

  function AgentFields(e: Agent, width: int): seq<string> {
    ["3", e.project, e.session, T.LineOf(e.state, 24), T.LineOf(e.cli, Width(width)), T.LineOf(e.model, Width(width)), Epoch(e.epoch)]
    + if Kind(e.kind) != "" then [e.kind] else []
  }

  function AgentLines(entries: seq<Agent>, n: nat, width: int): seq<string>
    requires n <= |entries|
  {
    if n == 0 then []
    else AgentLines(entries, n - 1, width) + if Addressable(entries[n - 1]) then [T.Joined(AgentFields(entries[n - 1], width), US)] else []
  }

  method Agents(entries: seq<Agent>, width: int) returns (lines: seq<string>)
    ensures lines == AgentLines(entries, |entries|, width)
  {
    hide T.LineOf, T.Joined, N.Decimal, SessionName;
    lines := [];
    for i := 0 to |entries|
      invariant lines == AgentLines(entries, i, width)
    {
      var e := entries[i];
      if e.project == "" || !SessionName(e.session) {
        continue;
      }
      var epoch := if e.epoch > 0 then N.Decimal(e.epoch) else "";
      var fields := ["3", e.project, e.session, T.LineOf(e.state, 24), T.LineOf(e.cli, Width(width)), T.LineOf(e.model, Width(width)), epoch];
      if e.kind == SERVICE || e.kind == SIDECAR {
        fields := fields + [e.kind];
      }
      assert fields == AgentFields(e, width);
      lines := lines + [T.Joined(fields, US)];
    }
  }

  /** A decimal number with an optional sign, of whatever size. */
  function Written(s: string): Option<int> {
    var digits := if s != "" && (s[0] == '+' || s[0] == '-') then s[1..] else s;
    if digits == "" || N.Digits(digits) < |digits| then None
    else
      var n: int := N.Number(digits);
      Some(if s[0] == '-' then -n else n)
  }

  predicate Wide(n: int) { -MAX_INT - 1 <= n <= MAX_INT }

  /** A number that fits 64 bits. */
  function ParseInt(s: string): Option<int> {
    var n := Written(s);
    if n.Some? && Wide(n.value) then n else None
  }

  /** A line of this protocol version, or of the one before it. */
  function ParseAgent(line: string): Option<Agent> {
    ParseFields(T.Split(line, US))
  }

  function ParseFields(f: seq<string>): Option<Agent> {
    var v2, v3 := 8 <= |f| <= 9 && f[0] == "2", 7 <= |f| <= 8 && f[0] == "3";
    if (!v2 && !v3) || f[1] == "" || !SessionName(f[2]) then None
    else
      var parsed := ParseInt(f[6]);
      var epoch := if parsed.Some? && parsed.value > 0 then parsed.value else 0;
      var hasKind := (v3 && |f| == 8) || (v2 && |f| == 9);
      var kind := f[|f| - 1];
      if hasKind && kind != SERVICE && kind != SIDECAR then None
      else Some(Agent(f[1], f[2], f[3], f[4], f[5], epoch, if hasKind then kind else ""))
  }

  function Parsed(lines: seq<string>): seq<Agent> {
    if lines == [] then []
    else Parsed(lines[..|lines| - 1]) + match ParseAgent(lines[|lines| - 1]) case None => [] case Some(e) => [e]
  }

  lemma ParsedNext(lines: seq<string>, i: nat)
    requires i < |lines|
    ensures Parsed(lines[..i + 1]) == Parsed(lines[..i]) + match ParseAgent(lines[i]) case None => [] case Some(e) => [e]
  {
    hide ParseAgent;
    assert lines[..i + 1][..i] == lines[..i];
  }

  method ParseAgents(lines: seq<string>) returns (out: seq<Agent>)
    ensures out == Parsed(lines)
  {
    assert Parsed(lines[..0]) == [];
    hide Parsed, T.Split, ParseFields;
    out := [];
    for i := 0 to |lines|
      invariant out == Parsed(lines[..i])
    {
      ParsedNext(lines, i);
      var e := ReadFields(T.Split(lines[i], US));
      if e.None? {
        continue;
      }
      out := out + [e.value];
    }
    assert lines[..|lines|] == lines;
  }

  /** The entry of one line's fields, or none where the line is dropped. */
  method ReadFields(f: seq<string>) returns (r: Option<Agent>)
    ensures r == ParseFields(f)
  {
    hide SessionName, ParseInt;
    var v2, v3 := 8 <= |f| <= 9 && f[0] == "2", 7 <= |f| <= 8 && f[0] == "3";
    if (!v2 && !v3) || f[1] == "" || !SessionName(f[2]) {
      return None;
    }
    var e := Agent(f[1], f[2], f[3], f[4], f[5], 0, "");
    var parsed := ParseInt(f[6]);
    if parsed.Some? && parsed.value > 0 {
      e := e.(epoch := parsed.value);
    }
    if (v3 && |f| == 8) || (v2 && |f| == 9) {
      var kind := f[|f| - 1];
      if kind != SERVICE && kind != SIDECAR {
        return None;
      }
      e := e.(kind := kind);
    }
    r := Some(e);
  }

  lemma CleanFree(s: string, sep: char)
    requires T.Clean(s) && !T.Visible(sep)
    ensures T.OneLine(s, sep)
  {
    hide T.Visible;
  }

  lemma {:induction false} DecimalClean(n: nat)
    ensures T.Clean(N.Decimal(n))
  {
    assert T.Visible("0123456789"[n % 10]);
    hide T.Visible;
    if n >= 10 {
      DecimalClean(n / 10);
    }
  }

  lemma NameClean(s: string)
    requires SessionName(s)
    ensures T.Clean(s)
  {
    assert forall c: char :: SessionChar(c) ==> T.Visible(c);
    hide T.Visible, SessionChar;
  }

  /** But for the project every field is made of visible characters. */
  lemma FieldsOneLine(e: Agent, width: int, sep: char)
    requires Addressable(e) && !T.Visible(sep)
    ensures forall k :: 0 <= k < |AgentFields(e, width)| && k != 1 ==> T.OneLine(AgentFields(e, width)[k], sep)
  {
    NameClean(e.session);
    T.LineBounded(e.state, 24);
    T.LineBounded(e.cli, Width(width));
    T.LineBounded(e.model, Width(width));
    if e.epoch > 0 {
      DecimalClean(e.epoch);
    }
    hide T.Visible, T.LineOf, N.Decimal, SessionName, T.Clean, T.OneLine;
    ConstantsClean();
    var f := AgentFields(e, width);
    forall k | 0 <= k < |f| && k != 1
      ensures T.OneLine(f[k], sep)
    {
      CleanFree(f[k], sep);
    }
  }

  lemma ConstantsClean()
    ensures T.Clean("") && T.Clean("3") && T.Clean(SERVICE) && T.Clean(SIDECAR)
  {
    assert forall c: char :: 'a' <= c <= 'z' || c == '3' ==> T.Visible(c);
    hide T.Visible;
  }

  lemma ReadDigits(s: string)
    requires s != "" && N.Digits(s) == |s| && N.Number(s) <= MAX_INT
    ensures ParseInt(s) == Some(N.Number(s))
  {
    assert N.Digit(s[0]);
    hide N.Number, N.Digits;
  }

  lemma ReadNegative(s: string)
    requires s != "" && N.Digits(s) == |s| && N.Number(s) <= MAX_INT + 1
    ensures ParseInt("-" + s) == Some(-(N.Number(s) as int))
  {
    assert ("-" + s)[1..] == s;
    hide N.Number, N.Digits;
  }

  lemma EpochRead(e: Agent)
    requires e.epoch <= MAX_INT
    ensures var p := ParseInt(Epoch(e.epoch)); (if p.Some? && p.value > 0 then p.value else 0) == if e.epoch > 0 then e.epoch else 0
  {
    if e.epoch > 0 {
      N.DecimalNumeral(e.epoch);
      ReadDigits(N.Decimal(e.epoch));
      hide N.Number, N.Digits, N.Decimal, ParseInt;
    }
  }

  lemma FieldsRead(e: Agent, width: int)
    requires Addressable(e) && e.epoch <= MAX_INT
    ensures ParseFields(AgentFields(e, width)) == Some(Normal(e, width))
  {
    hide T.LineOf, N.Decimal, SessionName, ParseInt, Epoch;
    EpochRead(e);
  }

  lemma ProjectField(e: Agent, width: int)
    ensures |AgentFields(e, width)| >= 7 && AgentFields(e, width)[1] == e.project
  {
    hide T.LineOf, Epoch;
  }

  lemma ReadProject(f: seq<string>)
    ensures ParseFields(f).Some? ==> 1 < |f| && ParseFields(f).value.project == f[1]
  {
    hide SessionName, ParseInt;
  }

  lemma NormalProject(e: Agent, width: int)
    ensures Normal(e, width).project == e.project
  {
  }

  /** A printed entry is read back as itself, its text made lines, exactly when
      its project does not contain the separator. */
  lemma EntryRoundTrip(e: Agent, width: int)
    requires Addressable(e) && e.epoch <= MAX_INT
    ensures ParseAgent(T.Joined(AgentFields(e, width), US)) == Some(Normal(e, width)) <==> T.OneLine(e.project, US)
  {
    var fields := AgentFields(e, width);
    var line := T.Joined(fields, US);
    assert !T.Visible(US);
    hide T.Visible, T.LineOf, T.Joined, T.Split, T.OneLine, ParseFields, AgentFields, Normal, Addressable;
    if T.OneLine(e.project, US) {
      ProjectField(e, width);
      FieldsOneLine(e, width, US);
      T.JoinedSplit(fields, US);
      FieldsRead(e, width);
    } else {
      T.SplitJoined(line, US);
      ReadProject(T.Split(line, US));
      assert Normal(e, width).project == e.project by {
        NormalProject(e, width);
      }
    }
  }

  /** The entries that are printed, as they are read back. */
  function Normals(entries: seq<Agent>, n: nat, width: int): seq<Agent>
    requires n <= |entries|
  {
    if n == 0 then []
    else Normals(entries, n - 1, width) + if Addressable(entries[n - 1]) then [Normal(entries[n - 1], width)] else []
  }

  lemma {:induction false} ParsedSnoc(lines: seq<string>, line: string)
    ensures Parsed(lines + [line]) == Parsed(lines) + match ParseAgent(line) case None => [] case Some(e) => [e]
  {
    assert (lines + [line])[..|lines|] == lines;
  }

  /** Reading what was printed gives the addressable entries, in order, with their
      text made lines. */
  lemma {:induction false} AgentsRoundTrip(entries: seq<Agent>, n: nat, width: int)
    requires n <= |entries|
    requires forall i :: 0 <= i < n ==> T.OneLine(entries[i].project, US) && entries[i].epoch <= MAX_INT
    ensures Parsed(AgentLines(entries, n, width)) == Normals(entries, n, width)
  {
    hide ParseAgent, Normal, T.Joined, AgentFields, Addressable;
    if n > 0 {
      AgentsRoundTrip(entries, n - 1, width);
      if Addressable(entries[n - 1]) {
        EntryRoundTrip(entries[n - 1], width);
        ParsedSnoc(AgentLines(entries, n - 1, width), T.Joined(AgentFields(entries[n - 1], width), US));
      } else {
        assert AgentLines(entries, n, width) == AgentLines(entries, n - 1, width);
      }
    }
  }

  lemma NormalStable(e: Agent, width: int)
    ensures AgentFields(Normal(e, width), width) == AgentFields(e, width)
    ensures Addressable(e) ==> Addressable(Normal(e, width))
  {
    T.LineIdempotent(e.state, 24);
    T.LineIdempotent(e.cli, Width(width));
    T.LineIdempotent(e.model, Width(width));
    hide T.LineOf, N.Decimal;
  }

  lemma {:induction false} AgentLinesSnoc(entries: seq<Agent>, n: nat, e: Agent, width: int)
    requires n <= |entries|
    ensures AgentLines(entries + [e], n, width) == AgentLines(entries, n, width)
  {
    if n > 0 {
      AgentLinesSnoc(entries, n - 1, e, width);
    }
  }

  /** Printing again what was read prints the same lines. */
  lemma {:induction false} AgentsReprint(entries: seq<Agent>, n: nat, width: int)
    requires n <= |entries|
    ensures var read := Normals(entries, n, width); AgentLines(read, |read|, width) == AgentLines(entries, n, width)
  {
    hide Normal, AgentFields, Addressable, T.Joined;
    if n > 0 {
      AgentsReprint(entries, n - 1, width);
      var e, before := entries[n - 1], Normals(entries, n - 1, width);
      if Addressable(e) {
        NormalStable(e, width);
        AgentLinesSnoc(before, |before|, Normal(e, width), width);
      } else {
        assert Normals(entries, n, width) == before;
      }
    }
  }

  lemma {:induction false} JoinedOneLine(fields: seq<string>)
    requires forall k :: 0 <= k < |fields| ==> T.OneLine(fields[k])
    ensures T.OneLine(T.Joined(fields, US))
  {
    if |fields| > 1 {
      JoinedOneLine(fields[1..]);
    }
  }

  lemma AgentFieldsOneLine(e: Agent, width: int)
    requires Addressable(e) && T.OneLine(e.project)
    ensures forall k :: 0 <= k < |AgentFields(e, width)| ==> T.OneLine(AgentFields(e, width)[k])
  {
    assert !T.Visible('\n');
    hide T.Visible, Addressable, T.OneLine, T.LineOf, Epoch;
    FieldsOneLine(e, width, '\n');
    assert AgentFields(e, width)[1] == e.project;
  }

  lemma {:induction false} AgentLinesOneLine(entries: seq<Agent>, n: nat, width: int)
    requires n <= |entries| && forall i :: 0 <= i < n ==> T.OneLine(entries[i].project)
    ensures forall k :: 0 <= k < |AgentLines(entries, n, width)| ==> T.OneLine(AgentLines(entries, n, width)[k])
  {
    hide T.Joined, Addressable, AgentFields, T.OneLine, T.Visible;
    if n > 0 {
      AgentLinesOneLine(entries, n - 1, width);
      if Addressable(entries[n - 1]) {
        AgentFieldsOneLine(entries[n - 1], width);
        JoinedOneLine(AgentFields(entries[n - 1], width));
      }
    }
  }

  /** The same through one text, a line feed between any two lines. */
  lemma AgentsTransport(entries: seq<Agent>, width: int)
    requires forall i :: 0 <= i < |entries| ==>
      T.OneLine(entries[i].project, US) && T.OneLine(entries[i].project) && entries[i].epoch <= MAX_INT
    ensures Parsed(T.Split(T.Joined(AgentLines(entries, |entries|, width)))) == Normals(entries, |entries|, width)
  {
    var lines := AgentLines(entries, |entries|, width);
    AgentsRoundTrip(entries, |entries|, width);
    AgentLinesOneLine(entries, |entries|, width);
    hide AgentLines, Normals, ParseAgent;
    if lines == [] {
      NoLine();
      ParsedSnoc([], "");
      assert [] + [""] == [""];
    } else {
      T.JoinedSplit(lines);
    }
  }

  lemma NoLine()
    ensures T.Split("") == [""] && T.Joined([]) == "" && ParseAgent("").None?
  {
  }

  /** %d. */
  function Itoa(n: int): string { if n < 0 then "-" + N.Decimal(-n) else N.Decimal(n) }

  function FleetFields(v: Fleet, width: int): seq<string> {
    ["3", v.id, v.token, v.mode, Itoa(v.pending), T.LineOf(v.churn, 24), T.LineOf(v.name, Width(width))]
  }

  function FleetLines(views: seq<Fleet>, n: nat, width: int): seq<string>
    requires n <= |views|
  {
    if n == 0 then [] else FleetLines(views, n - 1, width) + [T.Joined(FleetFields(views[n - 1], width), US)]
  }

  method PrintFleet(views: seq<Fleet>, width: int) returns (lines: seq<string>)
    ensures lines == FleetLines(views, |views|, width)
  {
    hide T.Joined, FleetFields;
    lines := [];
    for i := 0 to |views|
      invariant lines == FleetLines(views, i, width)
    {
      lines := lines + [T.Joined(FleetFields(views[i], width), US)];
    }
  }

  /** The number, or the one nearest to it that fits 64 bits; what is not a
      number counts as none. */
  function Atoi(s: string): (n: int)
    ensures Wide(n)
    ensures ParseInt(s).Some? ==> n == ParseInt(s).value
  {
    var n := Written(s);
    if n.None? then 0 else if n.value > MAX_INT then MAX_INT else if n.value < -MAX_INT - 1 then -MAX_INT - 1 else n.value
  }

  function ParseProject(line: string): Option<Fleet> {
    var f := T.Split(line, US);
    var v2, v3 := |f| == 8 && f[0] == "2", |f| == 7 && f[0] == "3";
    if (!v2 && !v3) || f[1] == "" then None
    else if v3 then Some(Fleet(f[1], f[2], f[3], Atoi(f[4]), f[5], f[6]))
    else Some(Fleet(f[1], f[2], f[3], Atoi(f[5]), f[6], f[7]))
  }

  function ParsedFleet(lines: seq<string>): seq<Fleet> {
    if lines == [] then []
    else ParsedFleet(lines[..|lines| - 1]) + match ParseProject(lines[|lines| - 1]) case None => [] case Some(v) => [v]
  }

  method ParseFleet(lines: seq<string>) returns (out: seq<Fleet>)
    ensures out == ParsedFleet(lines)
  {
    out := [];
    for i := 0 to |lines|
      invariant out == ParsedFleet(lines[..i])
    {
      assert lines[..i + 1][..i] == lines[..i];
      var f := T.Split(lines[i], US);
      var v2, v3 := |f| == 8 && f[0] == "2", |f| == 7 && f[0] == "3";
      if (!v2 && !v3) || f[1] == "" {
        continue;
      }
      var v := Fleet(f[1], f[2], f[3], 0, "", f[|f| - 1]);
      if v3 {
        v := v.(pending := Atoi(f[4]), churn := f[5]);
      } else {
        v := v.(pending := Atoi(f[5]), churn := f[6]);
      }
      out := out + [v];
    }
    assert lines[..|lines|] == lines;
  }

  function NormalFleet(v: Fleet, width: int): Fleet {
    v.(churn := T.LineOf(v.churn, 24), name := T.LineOf(v.name, Width(width)))
  }

  lemma PendingRead(n: int)
    requires Wide(n)
    ensures Atoi(Itoa(n)) == n && T.Clean(Itoa(n))
  {
    var m: nat := if n < 0 then -n else n;
    N.DecimalNumeral(m);
    DecimalClean(m);
    assert T.Visible('-');
    hide N.Number, N.Digits, N.Decimal, T.Visible, ParseInt, Written;
    var s := N.Decimal(m);
    if n < 0 {
      ReadNegative(s);
    } else {
      ReadDigits(s);
    }
  }

  lemma FleetFieldsOneLine(v: Fleet, width: int, sep: char)
    requires Wide(v.pending) && !T.Visible(sep)
    requires T.OneLine(v.id, sep) && T.OneLine(v.token, sep) && T.OneLine(v.mode, sep)
    ensures forall k :: 0 <= k < |FleetFields(v, width)| ==> T.OneLine(FleetFields(v, width)[k], sep)
  {
    hide T.Visible, T.LineOf, Itoa, Atoi, T.Clean, T.OneLine;
    PendingRead(v.pending);
    T.LineBounded(v.churn, 24);
    T.LineBounded(v.name, Width(width));
    ConstantsClean();
    CleanFree("3", sep);
    CleanFree(Itoa(v.pending), sep);
    CleanFree(T.LineOf(v.churn, 24), sep);
    CleanFree(T.LineOf(v.name, Width(width)), sep);
  }

  function NormalFleets(views: seq<Fleet>, n: nat, width: int): seq<Fleet>
    requires n <= |views|
  {
    if n == 0 then []
    else NormalFleets(views, n - 1, width) + if views[n - 1].id != "" then [NormalFleet(views[n - 1], width)] else []
  }

  /** The projects with an id are read back as they are, their free text made
      lines... */
  lemma {:induction false} FleetRoundTrip(views: seq<Fleet>, n: nat, width: int)
    requires n <= |views|
    requires forall i :: 0 <= i < n ==>
      T.OneLine(views[i].id, US) && T.OneLine(views[i].token, US) && T.OneLine(views[i].mode, US) && Wide(views[i].pending)
    ensures ParsedFleet(FleetLines(views, n, width)) == NormalFleets(views, n, width)
  {
    hide T.Joined, FleetFields, ParseProject, NormalFleet;
    if n > 0 {
      FleetRoundTrip(views, n - 1, width);
      ProjectRoundTrip(views[n - 1], width);
      ParsedFleetSnoc(FleetLines(views, n - 1, width), T.Joined(FleetFields(views[n - 1], width), US));
    }
  }

  lemma ParsedFleetSnoc(lines: seq<string>, line: string)
    ensures ParsedFleet(lines + [line]) == ParsedFleet(lines) + match ParseProject(line) case None => [] case Some(v) => [v]
  {
    assert (lines + [line])[..|lines|] == lines;
  }

  lemma ProjectRoundTrip(v: Fleet, width: int)
    requires T.OneLine(v.id, US) && T.OneLine(v.token, US) && T.OneLine(v.mode, US) && Wide(v.pending)
    ensures ParseProject(T.Joined(FleetFields(v, width), US)) == if v.id == "" then None else Some(NormalFleet(v, width))
  {
    assert !T.Visible(US);
    hide T.Visible;
    FleetFieldsOneLine(v, width, US);
    T.JoinedSplit(FleetFields(v, width), US);
    PendingRead(v.pending);
    hide T.LineOf, T.Joined, T.Split, Itoa, Atoi;
  }

  /** ...and printed again as they were. */
  lemma ProjectReprint(v: Fleet, width: int)
    ensures FleetFields(NormalFleet(v, width), width) == FleetFields(v, width)
  {
    T.LineIdempotent(v.churn, 24);
    T.LineIdempotent(v.name, Width(width));
    hide T.LineOf, Itoa;
  }

  lemma {:induction false} FleetLinesSnoc(views: seq<Fleet>, n: nat, v: Fleet, width: int)
    requires n <= |views|
    ensures FleetLines(views + [v], n, width) == FleetLines(views, n, width)
  {
    hide FleetFields, NormalFleet, T.Joined;
    if n > 0 {
      FleetLinesSnoc(views, n - 1, v, width);
    }
  }

  lemma {:induction false} FleetLinesSize(views: seq<Fleet>, n: nat, width: int)
    requires n <= |views|
    ensures |FleetLines(views, n, width)| == n && |NormalFleets(views, n, width)| <= n
    ensures |NormalFleets(views, n, width)| == n <==> forall i :: 0 <= i < n ==> views[i].id != ""
  {
    hide FleetFields, NormalFleet, T.Joined;
    if n > 0 {
      FleetLinesSize(views, n - 1, width);
    }
  }

  /** Printing again what was read prints the same lines exactly when no project
      without an id was printed: such a line is not read back. */
  lemma {:induction false} FleetReprint(views: seq<Fleet>, n: nat, width: int)
    requires n <= |views|
    ensures var read := NormalFleets(views, n, width);
      FleetLines(read, |read|, width) == FleetLines(views, n, width) <==> forall i :: 0 <= i < n ==> views[i].id != ""
  {
    hide FleetFields, NormalFleet, T.Joined;
    var read := NormalFleets(views, n, width);
    FleetLinesSize(views, n, width);
    FleetLinesSize(read, |read|, width);
    if n > 0 && |read| == n {
      FleetReprint(views, n - 1, width);
      FleetLinesSize(views, n - 1, width);
      var before := NormalFleets(views, n - 1, width);
      ProjectReprint(views[n - 1], width);
      FleetLinesSnoc(before, |before|, NormalFleet(views[n - 1], width), width);
    }
  }

  // ----- the lines themselves ---------------------------------------------

  /** idx are those of the first n that are chosen, in order. */
  ghost predicate Picks(idx: seq<nat>, chosen: seq<bool>, n: nat)
    requires n <= |chosen|
  {
    && (forall j, k :: 0 <= j < k < |idx| ==> idx[j] < idx[k])
    && (forall k :: 0 <= k < |idx| ==> idx[k] < n && chosen[idx[k]])
    && (forall i :: 0 <= i < n && chosen[i] ==> i in idx)
  }

  function Printable(entries: seq<Agent>): (r: seq<bool>)
    ensures |r| == |entries| && forall i :: 0 <= i < |entries| ==> r[i] == Addressable(entries[i])
  {
    seq(|entries|, i requires 0 <= i < |entries| => Addressable(entries[i]))
  }

  lemma PicksMore(idx: seq<nat>, chosen: seq<bool>, n: nat)
    requires n < |chosen| && Picks(idx, chosen, n)
    ensures Picks(if chosen[n] then idx + [n] else idx, chosen, n + 1)
  {
    var more := if chosen[n] then idx + [n] else idx;
    forall i | 0 <= i < n + 1 && chosen[i] ensures i in more {
      if i == n {
        assert more[|idx|] == n;
      } else {
        var k :| 0 <= k < |idx| && idx[k] == i;
        assert more[k] == i;
      }
    }
  }

  /** The k-th line is that of entry idx[k], and it is read back as the k-th. */
  predicate PrintedAs(idx: seq<nat>, entries: seq<Agent>, lines: seq<string>, read: seq<Agent>, width: int) {
    && |lines| == |idx| == |read|
    && forall k :: 0 <= k < |idx| ==>
         && idx[k] < |entries|
         && lines[k] == T.Joined(AgentFields(entries[idx[k]], width), US)
         && read[k] == Normal(entries[idx[k]], width)
  }

  lemma PrintedMore(idx: seq<nat>, entries: seq<Agent>, lines: seq<string>, read: seq<Agent>, width: int, i: nat)
    requires PrintedAs(idx, entries, lines, read, width) && i < |entries|
    ensures PrintedAs(idx + [i], entries, lines + [T.Joined(AgentFields(entries[i], width), US)],
                      read + [Normal(entries[i], width)], width)
  {
    hide Normal, AgentFields, T.Joined;
  }

  /** The addressable entries, and no others, are printed in their order. */
  lemma {:induction false} PrintedInOrder(entries: seq<Agent>, n: nat, width: int) returns (idx: seq<nat>)
    requires n <= |entries|
    ensures Picks(idx, Printable(entries), n)
    ensures PrintedAs(idx, entries, AgentLines(entries, n, width), Normals(entries, n, width), width)
  {
    hide Picks, Printable, PrintedAs, Normal, AgentFields, Addressable, T.Joined, AgentLines, Normals;
    NothingPrinted(entries, width);
    idx := [];
    if n > 0 {
      idx := PrintedInOrder(entries, n - 1, width);
      PicksMore(idx, Printable(entries), n - 1);
      LastPrinted(entries, n, width);
      if Addressable(entries[n - 1]) {
        PrintedMore(idx, entries, AgentLines(entries, n - 1, width), Normals(entries, n - 1, width), width, n - 1);
        idx := idx + [n - 1];
      }
    }
  }

  lemma NothingPrinted(entries: seq<Agent>, width: int)
    ensures Picks([], Printable(entries), 0)
    ensures PrintedAs([], entries, AgentLines(entries, 0, width), Normals(entries, 0, width), width)
  {
    hide Normal, AgentFields, Addressable, T.Joined;
  }

  lemma LastPrinted(entries: seq<Agent>, n: nat, width: int)
    requires 0 < n <= |entries|
    ensures var e, lines, read := entries[n - 1], AgentLines(entries, n - 1, width), Normals(entries, n - 1, width);
      if Addressable(e) then
        AgentLines(entries, n, width) == lines + [T.Joined(AgentFields(e, width), US)] &&
        Normals(entries, n, width) == read + [Normal(e, width)]
      else AgentLines(entries, n, width) == lines && Normals(entries, n, width) == read
  {
    hide Normal, AgentFields, Addressable, T.Joined;
  }

  function Readable(lines: seq<string>): (r: seq<bool>)
    ensures |r| == |lines| && forall i :: 0 <= i < |lines| ==> r[i] == ParseAgent(lines[i]).Some?
  {
    seq(|lines|, i requires 0 <= i < |lines| => ParseAgent(lines[i]).Some?)
  }

  predicate ParsedAs(idx: seq<nat>, lines: seq<string>, read: seq<Agent>) {
    && |read| == |idx|
    && forall k :: 0 <= k < |idx| ==> idx[k] < |lines| && ParseAgent(lines[idx[k]]) == Some(read[k])
  }

  lemma ParsedMore(idx: seq<nat>, lines: seq<string>, read: seq<Agent>, i: nat, e: Agent)
    requires ParsedAs(idx, lines, read) && i < |lines| && ParseAgent(lines[i]) == Some(e)
    ensures ParsedAs(idx + [i], lines, read + [e])
  {
    hide ParseAgent;
  }

  /** The lines that can be read are, in their order. */
  lemma {:induction false} ParsedInOrder(lines: seq<string>, n: nat) returns (idx: seq<nat>)
    requires n <= |lines|
    ensures Picks(idx, Readable(lines), n) && ParsedAs(idx, lines, Parsed(lines[..n]))
  {
    hide Picks, Readable, ParsedAs, ParseAgent, Parsed;
    NothingParsed(lines);
    idx := [];
    if n > 0 {
      idx := ParsedInOrder(lines, n - 1);
      PicksMore(idx, Readable(lines), n - 1);
      ParsedLast(lines, n);
      if ParseAgent(lines[n - 1]).Some? {
        ParsedMore(idx, lines, Parsed(lines[..n - 1]), n - 1, ParseAgent(lines[n - 1]).value);
        idx := idx + [n - 1];
      }
    }
  }

  lemma NothingParsed(lines: seq<string>)
    ensures Picks([], Readable(lines), 0) && ParsedAs([], lines, Parsed(lines[..0]))
  {
    hide ParseAgent;
  }

  lemma ParsedLast(lines: seq<string>, n: nat)
    requires 0 < n <= |lines|
    ensures Parsed(lines[..n]) ==
            match ParseAgent(lines[n - 1])
            case None => Parsed(lines[..n - 1])
            case Some(e) => Parsed(lines[..n - 1]) + [e]
  {
    hide Parsed, ParseAgent;
    ParsedNext(lines, n - 1);
  }

  /** Text that is shown as it is within so many columns. */
  predicate Fits(s: string, width: int) { T.Clean(s) && |s| <= if width < 8 then 8 else width }

  /** The fields of a printed line: version, project, session, state, tool, model,
      epoch, and the kind of what is no agent session. */
  lemma LineFields(e: Agent, width: int)
    requires Addressable(e) && T.OneLine(e.project, US)
    requires Fits(e.state, 24) && Fits(e.cli, Width(width)) && Fits(e.model, Width(width))
    ensures var f := T.Split(T.Joined(AgentFields(e, width), US), US);
      && |f| == (if e.kind == "svc" || e.kind == "sidecar" then 8 else 7)
      && f[..6] == ["3", e.project, e.session, e.state, e.cli, e.model]
      && (if e.epoch > 0 then N.Numeral(f[6], e.epoch) else f[6] == "")
      && (|f| == 8 ==> f[7] == e.kind)
  {
    var f := AgentFields(e, width);
    T.LineClean(e.state, 24);
    T.LineClean(e.cli, Width(width));
    T.LineClean(e.model, Width(width));
    if e.epoch > 0 {
      N.DecimalNumeral(e.epoch);
    }
    assert !T.Visible(US);
    hide T.Visible, T.LineOf, T.Joined, T.Split, T.OneLine, T.Clean, N.Decimal, N.Numeral;
    FieldsOneLine(e, width, US);
    ProjectField(e, width);
    T.JoinedSplit(f, US);
  }

  /** An entry whose text fits comes back exactly as it was. */
  lemma ExactRoundTrip(e: Agent, width: int)
    requires Addressable(e) && T.OneLine(e.project, US) && 0 <= e.epoch <= MAX_INT
    requires Fits(e.state, 24) && Fits(e.cli, Width(width)) && Fits(e.model, Width(width))
    requires e.kind == "" || e.kind == "svc" || e.kind == "sidecar"
    ensures ParseAgent(T.Joined(AgentFields(e, width), US)) == Some(e)
  {
    EntryRoundTrip(e, width);
    T.LineClean(e.state, 24);
    T.LineClean(e.cli, Width(width));
    T.LineClean(e.model, Width(width));
    hide T.LineOf, T.Joined, T.Split, ParseAgent, AgentFields, T.OneLine, T.Clean, Addressable;
  }

  /** What a line must look like to be read as entry e: of this version with seven
      fields, and the kind if it is no agent session; of the one before with one
      more, which is not looked at. */
  ghost predicate ReadsAs(f: seq<string>, e: Agent) {
    && (if |f| > 0 && f[0] == "3" then 7 <= |f| <= 8 else 8 <= |f| <= 9 && f[0] == "2")
    && f[1] == e.project != "" && f[2] == e.session && SessionName(e.session)
    && f[3] == e.state && f[4] == e.cli && f[5] == e.model
    && (match ParseInt(f[6])
        case Some(n) => e.epoch == if n > 0 then n else 0
        case None => e.epoch == 0)
    && (if |f| == (if f[0] == "3" then 8 else 9) then e.kind == f[|f| - 1] && (e.kind == "svc" || e.kind == "sidecar")
        else e.kind == "")
  }

  lemma ParsedExactly(line: string, e: Agent)
    ensures ParseAgent(line) == Some(e) <==> ReadsAs(T.Split(line, US), e)
  {
    hide T.Split, SessionName, ParseInt;
  }

  /** A project's line, of this version and of the one before. */
  ghost predicate FleetReadsAs(f: seq<string>, v: Fleet) {
    if |f| == 7 then f[0] == "3" && f[1] != "" && v == Fleet(f[1], f[2], f[3], Atoi(f[4]), f[5], f[6])
    else |f| == 8 && f[0] == "2" && f[1] != "" && v == Fleet(f[1], f[2], f[3], Atoi(f[5]), f[6], f[7])
  }

  lemma FleetParsedExactly(line: string, v: Fleet)
    ensures ParseProject(line) == Some(v) <==> FleetReadsAs(T.Split(line, US), v)
  {
    hide T.Split, Atoi;
  }

  /** A project whose text fits comes back exactly as it was. */
  lemma ExactFleetRoundTrip(v: Fleet, width: int)
    requires T.OneLine(v.id, US) && T.OneLine(v.token, US) && T.OneLine(v.mode, US) && Wide(v.pending) && v.id != ""
    requires Fits(v.churn, 24) && Fits(v.name, Width(width))
    ensures ParseProject(T.Joined(FleetFields(v, width), US)) == Some(v)
    ensures T.Split(T.Joined(FleetFields(v, width), US), US) == ["3", v.id, v.token, v.mode, Itoa(v.pending), v.churn, v.name]
  {
    ProjectRoundTrip(v, width);
    T.LineClean(v.churn, 24);
    T.LineClean(v.name, Width(width));
    assert !T.Visible(US);
    hide T.Visible, T.LineOf, T.Joined, T.Split, ParseProject, T.OneLine, T.Clean, Itoa;
    FleetFieldsOneLine(v, width, US);
    T.JoinedSplit(FleetFields(v, width), US);
  }

  lemma {:induction false} FleetInOrder(views: seq<Fleet>, n: nat, width: int, k: nat)
    requires k < n <= |views|
    ensures |FleetLines(views, n, width)| == n
    ensures FleetLines(views, n, width)[k] == T.Joined(FleetFields(views[k], width), US)
  {
    hide FleetFields, T.Joined;
    FleetLinesSize(views, n - 1, width);
    if k < n - 1 {
      FleetInOrder(views, n - 1, width, k);
    }
  }

  /** A count too large in either direction is cut to what fits; what is no number
      counts as none. */
  lemma AtoiSaturates(digits: string)
    requires digits != "" && N.Digits(digits) == |digits|
    ensures Atoi(digits) == Atoi("+" + digits) == if N.Number(digits) > MAX_INT then MAX_INT else N.Number(digits)
    ensures Atoi("-" + digits) == if N.Number(digits) > MAX_INT + 1 then -MAX_INT - 1 else -(N.Number(digits) as int)
    ensures forall s :: Written(s).None? ==> Atoi(s) == 0
  {
    WrittenDigits(digits);
    hide N.Number, N.Digits, Written;
  }

  lemma WrittenDigits(digits: string)
    requires digits != "" && N.Digits(digits) == |digits|
    ensures Written(digits) == Written("+" + digits) == Some(N.Number(digits))
    ensures Written("-" + digits) == Some(-(N.Number(digits) as int))
  {
    hide N.Number, N.Digits;
    assert N.Digit(digits[0]);
    var plus, minus := "+" + digits, "-" + digits;
    assert plus[0] == '+' && plus[1..] == digits;
    assert minus[0] == '-' && minus[1..] == digits;
  }
}
