/** The daemon's build stream, classified line by line:
    forwardBuildProgress of internal/dockerapi/build.go. */
module BuildStream {

  import opened Containers
  import opened Numerals
  import T = Terminal

  /** One build event; part is filled in by whoever knows the plan. */
  datatype Progress =
    | StepStart(step: nat, steps: nat, message: string, part: string)
    | Cached(step: nat, steps: nat)
    | Output(step: nat, steps: nat, message: string)
    | Failed(step: nat, steps: nat, message: string)
    | Done(message: string)

  /** A decoded message of the stream: a payload, or the daemon's error. */
  datatype Message = Payload(text: string) | Problem(error: string)

  /** What has been emitted, and the last step announced. */
  datatype Seen = Seen(events: seq<Progress>, step: nat, steps: nat)

  const START: Seen := Seen([], 0, 0)

  const MAX_INT: nat := 0x7fff_ffff_ffff_ffff

  /** The number written, or the largest one where it does not fit. */
  function Atoi(digits: string): (n: nat)
    requires forall k :: 0 <= k < |digits| ==> Digit(digits[k])
    ensures n <= MAX_INT
  {
    T.Min(Number(digits), MAX_INT)
  }

  predicate HasPrefix(s: string, prefix: string) { prefix <= s }

  /** A number and what comes after the mark that ends it. */
  function Counted(s: string, mark: string): Option<(nat, string)> {
    var n := Digits(s);
    if n == 0 || !HasPrefix(s[n..], mark) then None else Some((Atoi(s[..n]), s[n..][|mark|..]))
  }

  /** "Step N/M : text", the whole line. */
  function StepLine(line: string): Option<(nat, nat, string)> {
    if !HasPrefix(line, "Step ") then None
    else
      var n := Counted(line[5..], "/");
      if n.None? then None
      else
        var m := Counted(n.value.1, " : ");
        if m.None? then None else Some((n.value.0, m.value.0, m.value.1))
  }

  function WithoutReturns(line: string): string {
    if line != "" && line[|line| - 1] == '\r' then WithoutReturns(line[..|line| - 1]) else line
  }

  /** What one whole line says. */
  function OnLine(s: Seen, raw: string): Seen {
    var line := WithoutReturns(raw);
    var started := StepLine(line);
    if line == "" then s
    else if started.Some? then
      var (n, m, text) := started.value;
      Seen(s.events + [StepStart(n, m, text, "")], n, m)
    else if HasPrefix(line, " ---> Using cache") then s.(events := s.events + [Cached(s.step, s.steps)])
    else if HasPrefix(line, " ---> ") || HasPrefix(line, "Removing intermediate container")
      || HasPrefix(line, "Successfully built ") || HasPrefix(line, "Successfully tagged ") then s
    else s.(events := s.events + [Output(s.step, s.steps, line)])
  }

  // ----- what a line says, read off the line ------------------------------

  predicate Numeric(x: string) { x != "" && Digits(x) == |x| }

  /** The line announces step n of m. */
  ghost predicate Announces(line: string, n: nat, m: nat, text: string) {
    exists x, y :: Numeric(x) && Numeric(y) && line == "Step " + (x + ("/" + (y + (" : " + text)))) &&
                   n == T.Min(Number(x), MAX_INT) && m == T.Min(Number(y), MAX_INT)
  }

  lemma {:induction false} DigitsStop(x: string, rest: string)
    requires Digits(x) == |x| && (rest == "" || !Digit(rest[0]))
    ensures Digits(x + rest) == |x|
  {
    if x != "" {
      assert (x + rest)[1..] == x[1..] + rest;
      DigitsStop(x[1..], rest);
    } else {
      assert x + rest == rest;
    }
  }

  lemma {:induction false} DigitsOnly(s: string)
    ensures Digits(s[..Digits(s)]) == Digits(s)
  {
    if s != "" && Digit(s[0]) {
      DigitsOnly(s[1..]);
      assert s[..Digits(s)][1..] == s[1..][..Digits(s[1..])];
    }
  }

  lemma After(p: string, s: string)
    ensures p <= p + s && (p + s)[|p|..] == s && (p + s)[..|p|] == p
    ensures p <= s ==> s == p + s[|p|..]
  {
  }

  /** The numeral x, the mark, and then the rest. */
  ghost predicate Counts(s: string, mark: string, x: string, n: nat, rest: string) {
    Numeric(x) && s == x + (mark + rest) && n == T.Min(Number(x), MAX_INT)
  }

  lemma CountsRead(s: string, mark: string, x: string, n: nat, rest: string)
    requires Counts(s, mark, x, n, rest) && mark != "" && !Digit(mark[0])
    ensures Counted(s, mark) == Some((n, rest))
  {
    hide Number, Digits;
    DigitsStop(x, mark + rest);
    After(x, mark + rest);
    After(mark, rest);
  }

  lemma ReadCounts(s: string, mark: string)
    requires Counted(s, mark).Some?
    ensures Counts(s, mark, s[..Digits(s)], Counted(s, mark).value.0, Counted(s, mark).value.1)
  {
    hide Number, Digits;
    DigitsOnly(s);
    After(s[..Digits(s)], s);
    After(mark, s[Digits(s)..]);
    assert s[..Digits(s)] <= s;
  }

  lemma StepLineCounts(line: string, x: string, y: string, n: nat, m: nat, rest: string, text: string)
    requires "Step " <= line && Counts(line[5..], "/", x, n, rest) && Counts(rest, " : ", y, m, text)
    ensures StepLine(line) == Some((n, m, text))
  {
    CountsRead(line[5..], "/", x, n, rest);
    CountsRead(rest, " : ", y, m, text);
    hide Counts, Counted;
  }

  lemma Assembled(line: string, x: string, y: string, rest: string, text: string)
    ensures "Step " <= line && line[5..] == x + ("/" + rest) && rest == y + (" : " + text) <==>
            line == "Step " + (x + ("/" + (y + (" : " + text)))) && rest == y + (" : " + text)
  {
    After("Step ", x + ("/" + rest));
    After("Step ", line);
  }

  /** A line is read as the announcement of a step exactly when it is one. */
  lemma StepLineReads(line: string, n: nat, m: nat, text: string)
    ensures StepLine(line) == Some((n, m, text)) <==> Announces(line, n, m, text)
  {
    if StepLine(line) == Some((n, m, text)) {
      var r := Counted(line[5..], "/").value.1;
      ReadCounts(line[5..], "/");
      ReadCounts(r, " : ");
      Assembled(line, line[5..][..Digits(line[5..])], r[..Digits(r)], r, text);
      hide StepLine, Counted, Digits, Number, Numeric;
    }
    if Announces(line, n, m, text) {
      AnnouncedRead(line, n, m, text);
    }
  }

  lemma AnnouncedRead(line: string, n: nat, m: nat, text: string)
    requires Announces(line, n, m, text)
    ensures StepLine(line) == Some((n, m, text))
  {
    hide StepLine, Counted, Number;
    var x, y :| Numeric(x) && Numeric(y) && line == "Step " + (x + ("/" + (y + (" : " + text)))) &&
                n == T.Min(Number(x), MAX_INT) && m == T.Min(Number(y), MAX_INT);
    var rest := y + (" : " + text);
    Assembled(line, x, y, rest, text);
    StepLineCounts(line, x, y, n, m, rest, text);
  }

  function Returns(n: nat): string { seq(n, _ => '\r') }

  lemma {:induction false} ReturnsDropped(line: string, n: nat)
    requires line == "" || line[|line| - 1] != '\r'
    ensures WithoutReturns(line + Returns(n)) == line
  {
    if n > 0 {
      var raw := line + Returns(n);
      assert raw[..|raw| - 1] == line + Returns(n - 1);
      ReturnsDropped(line, n - 1);
    } else {
      assert line + Returns(0) == line;
    }
  }

  /** Lines that say nothing of how far the build has come. */
  predicate Bookkeeping(line: string) {
    || " ---> " <= line || "Removing intermediate container" <= line
    || "Successfully built " <= line || "Successfully tagged " <= line
  }

  /** From s to t a line was classified: a step begins, or was found in the cache,
      or the line is dropped, or it is output of the step that began last. */
  ghost predicate Classified(s: Seen, line: string, t: Seen) {
    && (line == "" ==> t == s)
    && (forall n, m, text :: Announces(line, n, m, text) ==> t == Seen(s.events + [StepStart(n, m, text, "")], n, m))
    && (" ---> Using cache" <= line ==> t == Seen(s.events + [Cached(s.step, s.steps)], s.step, s.steps))
    && (Bookkeeping(line) && !(" ---> Using cache" <= line) ==> t == s)
    && (line != "" && !Bookkeeping(line) && (forall n, m, text :: !Announces(line, n, m, text)) ==>
          t == Seen(s.events + [Output(s.step, s.steps, line)], s.step, s.steps))
  }

  predicate Trimmed(raw: string, line: string, n: nat) {
    raw == line + Returns(n) && (line == "" || line[|line| - 1] != '\r')
  }

  lemma {:induction false} Trim(raw: string) returns (line: string, n: nat)
    ensures Trimmed(raw, line, n)
  {
    if raw != "" && raw[|raw| - 1] == '\r' {
      line, n := Trim(raw[..|raw| - 1]);
      n := n + 1;
      assert Returns(n) == Returns(n - 1) + "\r" && raw == raw[..|raw| - 1] + "\r";
    } else {
      line, n := raw, 0;
    }
  }

  /** Every line is classified so, the returns at its end taken off. */
  lemma LineClassified(s: Seen, line: string, n: nat)
    requires line == "" || line[|line| - 1] != '\r'
    ensures Classified(s, line, OnLine(s, line + Returns(n)))
  {
    ReturnsDropped(line, n);
    forall i: nat, m: nat, text: string ensures StepLine(line) == Some((i, m, text)) <==> Announces(line, i, m, text) {
      StepLineReads(line, i, m, text);
    }
    if StepLine(line).Some? {
      var (i, m, text) := StepLine(line).value;
      assert Announces(line, i, m, text);
    }
    Prefixes(line);
    OnLineCases(s, line + Returns(n));
    hide StepLine, Announces, WithoutReturns, OnLine, Returns;
  }

  lemma Prefixes(line: string)
    ensures " ---> Using cache" <= line ==> " ---> " <= line
    ensures Bookkeeping(line) ==> line != "" && !("Step " <= line)
  {
    assert " ---> Using cache"[..6] == " ---> ";
    if Bookkeeping(line) {
      assert line[0] == ' ' || line[0] == 'R' || (line[0] == 'S' && line[1] == 'u');
    }
  }

  lemma OnLineCases(s: Seen, raw: string)
    ensures var line, t := WithoutReturns(raw), OnLine(s, raw);
      && (line == "" ==> t == s)
      && (line != "" && StepLine(line).Some? ==>
            var (n, m, text) := StepLine(line).value; t == Seen(s.events + [StepStart(n, m, text, "")], n, m))
      && (line != "" && StepLine(line).None? && " ---> Using cache" <= line ==>
            t == Seen(s.events + [Cached(s.step, s.steps)], s.step, s.steps))
      && (line != "" && StepLine(line).None? && Bookkeeping(line) && !(" ---> Using cache" <= line) ==> t == s)
      && (line != "" && StepLine(line).None? && !Bookkeeping(line) && !(" ---> Using cache" <= line) ==>
            t == Seen(s.events + [Output(s.step, s.steps, line)], s.step, s.steps))
    ensures StepLine("").None?
    ensures StepLine(WithoutReturns(raw)).Some? ==> "Step " <= WithoutReturns(raw)
  {
    hide WithoutReturns;
  }

  /** The step that began last before the n-th event. */
  function Latest(events: seq<Progress>, n: nat): (nat, nat)
    requires n <= |events|
  {
    if n == 0 then (0, 0)
    else if events[n - 1].StepStart? then (events[n - 1].step, events[n - 1].steps)
    else Latest(events, n - 1)
  }

  /** Whatever is said of a step is said of the one that began last. */
  ghost predicate Numbered(events: seq<Progress>) {
    forall k :: 0 <= k < |events| && !events[k].StepStart? ==>
      && !events[k].Done?
      && (events[k].step, events[k].steps) == Latest(events, k)
  }

  lemma {:induction false} LatestPrefix(events: seq<Progress>, e: Progress, n: nat)
    requires n <= |events|
    ensures Latest(events + [e], n) == Latest(events, n)
  {
    if n > 0 {
      LatestPrefix(events, e, n - 1);
    }
  }

  ghost predicate InStep(s: Seen) { Numbered(s.events) && (s.step, s.steps) == Latest(s.events, |s.events|) }

  lemma InStepMore(s: Seen, e: Progress)
    requires InStep(s) && !e.Done? && (!e.StepStart? ==> e.step == s.step && e.steps == s.steps)
    ensures InStep(Seen(s.events + [e], if e.StepStart? then e.step else s.step, if e.StepStart? then e.steps else s.steps))
  {
    forall k | 0 <= k <= |s.events| ensures Latest(s.events + [e], k) == Latest(s.events, k) {
      LatestPrefix(s.events, e, k);
    }
  }

  lemma InStepLine(s: Seen, raw: string)
    requires InStep(s)
    ensures InStep(OnLine(s, raw))
  {
    hide InStep, StepLine, WithoutReturns;
    var line := WithoutReturns(raw);
    var t := OnLine(s, raw);
    if t != s {
      InStepMore(s, t.events[|s.events|]);
    }
  }

  lemma {:induction false} InStepLines(s: Seen, lines: seq<string>)
    requires InStep(s)
    ensures InStep(OnLines(s, lines))
    decreases |lines|
  {
    hide InStep, OnLine;
    if lines != [] {
      InStepLine(s, lines[0]);
      InStepLines(OnLine(s, lines[0]), lines[1..]);
    }
  }

  function OnLines(s: Seen, lines: seq<string>): Seen
    decreases |lines|
  {
    if lines == [] then s else OnLines(OnLine(s, lines[0]), lines[1..])
  }

  /** All the text of a stream, and its first error, if it has one. */
  function Text(messages: seq<Message>): string {
    if messages == [] || messages[0].Problem? then "" else messages[0].text + Text(messages[1..])
  }

  function Error(messages: seq<Message>): Option<string> {
    if messages == [] then None
    else if messages[0].Problem? then Some(messages[0].error)
    else Error(messages[1..])
  }

  function Last(lines: seq<string>): string
    requires lines != []
  {
    lines[|lines| - 1]
  }

  function Whole(lines: seq<string>): seq<string>
    requires lines != []
  {
    lines[..|lines| - 1]
  }

  /** What a stream says: its text, split at line feeds, each line classified, and
      an unterminated tail too; but after an error the tail is dropped and the
      error said instead. How the text was cut into messages plays no part. */
  function Said(text: string, error: Option<string>): seq<Progress> {
    var lines := T.Split(text);
    match error
    case None => OnLines(START, lines).events
    case Some(e) =>
      var s := OnLines(START, Whole(lines));
      s.events + [Failed(s.step, s.steps, e)]
  }

  /** Line by line, from s on. */
  ghost predicate LineByLine(ss: seq<Seen>, s: Seen, lines: seq<string>) {
    && |ss| == |lines| + 1 && ss[0] == s
    && forall k :: 0 <= k < |lines| ==> ClassifiedRaw(ss[k], lines[k], ss[k + 1])
  }

  ghost predicate ClassifiedRaw(s: Seen, raw: string, t: Seen) {
    exists line, n :: Trimmed(raw, line, n) && Classified(s, line, t)
  }

  lemma FirstLine(s: Seen, t: Seen, rest: seq<Seen>, lines: seq<string>)
    requires lines != [] && ClassifiedRaw(s, lines[0], t) && LineByLine(rest, t, lines[1..])
    ensures LineByLine([s] + rest, s, lines) && ([s] + rest)[|lines|] == rest[|lines[1..]|]
  {
    hide ClassifiedRaw;
    var ss := [s] + rest;
    forall k | 0 <= k < |lines| ensures ClassifiedRaw(ss[k], lines[k], ss[k + 1]) {
      if k > 0 {
        assert ClassifiedRaw(rest[k - 1], lines[1..][k - 1], rest[k]);
      }
    }
  }

  lemma {:induction false} OnLinesClassified(s: Seen, lines: seq<string>) returns (ss: seq<Seen>)
    ensures LineByLine(ss, s, lines) && ss[|lines|] == OnLines(s, lines)
    decreases |lines|
  {
    hide ClassifiedRaw, OnLine;
    if lines == [] {
      ss := [s];
    } else {
      var rest := OnLinesClassified(OnLine(s, lines[0]), lines[1..]);
      ss := [s] + rest;
      FirstClassified(s, lines[0]);
      FirstLine(s, OnLine(s, lines[0]), rest, lines);
    }
  }

  lemma FirstClassified(s: Seen, raw: string)
    ensures ClassifiedRaw(s, raw, OnLine(s, raw))
  {
    var line, n := Trim(raw);
    LineClassified(s, line, n);
    hide Classified, OnLine;
  }

  /** What a stream says is said line by line, the unterminated tail included; an
      error takes the place of the tail. */
  lemma SaidLines(text: string, error: Option<string>) returns (ss: seq<Seen>)
    ensures var lines := T.Split(text);
      match error
      case None => LineByLine(ss, Seen([], 0, 0), lines) && Said(text, error) == ss[|lines|].events
      case Some(e) =>
        && LineByLine(ss, Seen([], 0, 0), lines[..|lines| - 1])
        && var last := ss[|lines| - 1]; Said(text, error) == last.events + [Failed(last.step, last.steps, e)]
  {
    var lines := T.Split(text);
    hide T.Split, OnLines, Classified, LineByLine;
    ss := OnLinesClassified(START, if error.None? then lines else Whole(lines));
    LineByLineSize(ss, START, if error.None? then lines else Whole(lines));
  }

  lemma LineByLineSize(ss: seq<Seen>, s: Seen, lines: seq<string>)
    requires LineByLine(ss, s, lines)
    ensures |ss| == |lines| + 1
  {
  }

  /** Over a whole stream: each event bears the numbers of the step it belongs to. */
  lemma SaidNumbered(text: string, error: Option<string>)
    ensures Numbered(Said(text, error))
  {
    var lines := T.Split(text);
    InStepLines(START, lines);
    InStepLines(START, Whole(lines));
    hide T.Split, OnLines;
    if error.Some? {
      var s := OnLines(START, Whole(lines));
      InStepMore(s, Failed(s.step, s.steps, error.value));
    }
  }

  lemma {:induction false} OnLinesSnoc(s: Seen, lines: seq<string>, line: string)
    ensures OnLines(s, lines + [line]) == OnLine(OnLines(s, lines), line)
    decreases |lines|
  {
    hide OnLine;
    if lines != [] {
      assert (lines + [line])[1..] == lines[1..] + [line];
      OnLinesSnoc(OnLine(s, lines[0]), lines[1..], line);
    }
  }

  /** Text that arrives in two parts splits like text that arrives in one: the last
      piece of the first part goes on in the second. */
  lemma {:induction false} SplitAcross(s: string, t: string)
    ensures T.Split(s + t) == Whole(T.Split(s)) + [Last(T.Split(s)) + T.Split(t)[0]] + T.Split(t)[1..]
  {
    var q := T.Split(t);
    if s == "" {
      assert s + t == t && q == [q[0]] + q[1..];
      assert T.Split(s) == [""] && Whole([""]) == [] && "" + q[0] == q[0];
    } else {
      var rest, whole := T.Split(s[1..]), T.Split(s[1..] + t);
      SplitAcross(s[1..], t);
      assert (s + t)[1..] == s[1..] + t;
      assert T.Split(s + t) == if s[0] == '\n' then [""] + whole else [[s[0]] + whole[0]] + whole[1..];
      assert T.Split(s) == if s[0] == '\n' then [""] + rest else [[s[0]] + rest[0]] + rest[1..];
      hide T.Split;
      Grafted(rest, q, s[0]);
    }
  }

  lemma Grafted(rest: seq<string>, q: seq<string>, c: char)
    requires rest != [] && q != []
    ensures var whole := Whole(rest) + [Last(rest) + q[0]] + q[1..];
      && [""] + whole == Whole([""] + rest) + [Last([""] + rest) + q[0]] + q[1..]
      && var p := [[c] + rest[0]] + rest[1..];
         [[c] + whole[0]] + whole[1..] == Whole(p) + [Last(p) + q[0]] + q[1..]
  {
    var whole := Whole(rest) + [Last(rest) + q[0]] + q[1..];
    var p := [[c] + rest[0]] + rest[1..];
    if |rest| == 1 {
      assert [c] + (rest[0] + q[0]) == ([c] + rest[0]) + q[0];
      assert whole == [rest[0] + q[0]] + q[1..] && Whole(p) == [] && Last(p) == [c] + rest[0];
    } else {
      assert Whole(p) == [[c] + rest[0]] + Whole(rest)[1..] && Last(p) == Last(rest);
      assert whole[1..] == Whole(rest)[1..] + [Last(rest) + q[0]] + q[1..];
    }
    assert Whole([""] + rest) == [""] + Whole(rest);
  }

  /** Up to the first line feed, and what follows it. */
  function Cut(s: string): (r: (string, string, bool))
    ensures T.OneLine(r.0)
    ensures s == r.0 + if r.2 then "\n" + r.1 else ""
  {
    if s == "" then ("", "", false)
    else if s[0] == '\n' then ("", s[1..], true)
    else
      var (line, rest, found) := Cut(s[1..]);
      ([s[0]] + line, rest, found)
  }

  /** The text so far is classified but for its last piece, which is buffered. */
  ghost predicate Buffered(text: string, buf: string, s: Seen) {
    var lines := T.Split(text);
    buf == Last(lines) && s == OnLines(START, Whole(lines))
  }

  lemma BufferTail(text: string, buf: string, s: Seen, line: string)
    requires Buffered(text, buf, s) && T.OneLine(line)
    ensures Buffered(text + line, buf + line, s)
  {
    SplitAcross(text, line);
    T.SplitOneLine(line);
    var lines := T.Split(text);
    assert T.Split(text + line) == Whole(lines) + [Last(lines) + line];
    assert Whole(T.Split(text + line)) == Whole(lines);
  }

  lemma BufferLine(text: string, buf: string, s: Seen, line: string)
    requires Buffered(text, buf, s) && T.OneLine(line)
    ensures Buffered(text + line + "\n", "", OnLine(s, buf + line))
  {
    SplitAcross(text, line + "\n");
    T.SplitAfter(line, "");
    assert line + "\n" + "" == line + "\n" && text + (line + "\n") == text + line + "\n";
    var lines := T.Split(text);
    assert T.Split(text + line + "\n") == Whole(lines) + [Last(lines) + line] + [""];
    assert Whole(T.Split(text + line + "\n")) == Whole(lines) + [Last(lines) + line];
    OnLinesSnoc(START, Whole(lines), Last(lines) + line);
  }

  /** One payload, cut at its line feeds into the buffer. */
  method Feed(text: string, ghost before: string, buf0: string, s0: Seen) returns (buf: string, s: Seen)
    requires Buffered(before, buf0, s0)
    ensures Buffered(before + text, buf, s)
  {
    hide Buffered, OnLine, T.Split;
    buf, s := buf0, s0;
    var chunk := text;
    ghost var fed := "";
    assert before + "" == before;
    while chunk != ""
      invariant fed + chunk == text && Buffered(before + fed, buf, s)
      decreases |chunk|
    {
      var (line, rest, found) := Cut(chunk);
      if !found {
        BufferTail(before + fed, buf, s, line);
        buf := buf + line;
        assert before + fed + line == before + text;
        return;
      }
      BufferLine(before + fed, buf, s, line);
      s := OnLine(s, buf + line);
      buf := "";
      assert before + fed + line + "\n" == before + (fed + line + "\n");
      fed := fed + line + "\n";
      chunk := rest;
    }
    assert before + fed == before + text;
  }

  /** The whole stream. */
  method ForwardBuildProgress(messages: seq<Message>) returns (events: seq<Progress>)
    ensures events == Said(Text(messages), Error(messages))
  {
    hide Buffered, OnLine, T.Split, Text;
    var buf, s := "", START;
    ghost var text := "";
    NothingYet(messages);
    for k := 0 to |messages|
      invariant Buffered(text, buf, s)
      invariant text + Text(messages[k..]) == Text(messages) && Error(messages[k..]) == Error(messages)
    {
      TextFrom(messages, k);
      match messages[k] {
        case Problem(e) =>
          assert text + "" == text;
          Ended(text, buf, s);
          return s.events + [Failed(s.step, s.steps, e)];
        case Payload(t) =>
          buf, s := Feed(t, text, buf, s);
          text := text + t;
      }
    }
    NothingYet([]);
    assert messages[|messages|..] == [] && text + "" == text;
    Ended(text, buf, s);
    if buf != "" {
      s := OnLine(s, buf);
    }
    return s.events;
  }

  lemma NothingYet(messages: seq<Message>)
    ensures Buffered("", "", START) && messages[0..] == messages && "" + Text(messages) == Text(messages) && Text([]) == ""
  {
  }

  lemma TextFrom(messages: seq<Message>, k: nat)
    requires k < |messages|
    ensures Text(messages[k..]) == if messages[k].Problem? then "" else messages[k].text + Text(messages[k + 1..])
    ensures Error(messages[k..]) == if messages[k].Problem? then Some(messages[k].error) else Error(messages[k + 1..])
  {
    assert messages[k..][1..] == messages[k + 1..];
  }

  lemma Ended(text: string, buf: string, s: Seen)
    requires Buffered(text, buf, s)
    ensures Said(text, None) == (if buf == "" then s else OnLine(s, buf)).events
    ensures forall e :: Said(text, Some(e)) == s.events + [Failed(s.step, s.steps, e)]
  {
    var lines := T.Split(text);
    assert lines == Whole(lines) + [Last(lines)];
    OnLinesSnoc(START, Whole(lines), buf);
  }

  /** Two streams that carry the same text say the same, however the daemon
      batches or splits it. */
  lemma ChunkInvariance(p: seq<Message>, q: seq<Message>, r: seq<Message>, a: string, b: string)
    requires p == q + [Payload(a + b)] + r
    ensures Said(Text(p), Error(p)) == Said(Text(q + [Payload(a), Payload(b)] + r), Error(q + [Payload(a), Payload(b)] + r))
  {
    SplitPayload(q, r, a, b);
  }

  lemma {:induction false} SplitPayload(q: seq<Message>, r: seq<Message>, a: string, b: string)
    ensures Text(q + [Payload(a + b)] + r) == Text(q + [Payload(a), Payload(b)] + r)
    ensures Error(q + [Payload(a + b)] + r) == Error(q + [Payload(a), Payload(b)] + r)
  {
    var one, two := q + [Payload(a + b)] + r, q + [Payload(a), Payload(b)] + r;
    if q == [] {
      assert one[1..] == r && two[1..] == [Payload(b)] + r && two[1..][1..] == r;
    } else {
      assert one[1..] == q[1..] + [Payload(a + b)] + r && two[1..] == q[1..] + [Payload(a), Payload(b)] + r;
      SplitPayload(q[1..], r, a, b);
    }
  }
}
