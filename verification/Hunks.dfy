/** The framed hunks of a diff: renderHunks of internal/terminal/diff.go. */
module Hunks {

  import opened Edits
  import opened Numerals
  import T = Terminal

  /** Lines shown for orientation on either side of a change. */
  const CONTEXT: nat := 2

  predicate Changed(ops: Ops, k: int) { 0 <= k < |ops| && ops[k].kind != Keep }

  /** Close enough to a change to be shown. */
  predicate Near(ops: Ops, k: int) {
    exists c :: k - CONTEXT <= c <= k + CONTEXT && Changed(ops, c)
  }

  /** What one rendered row stands for. */
  datatype Row = Shown(index: nat) | Unchanged(count: nat)

  function HiddenRun(ops: Ops, k: nat): (n: nat)
    requires k <= |ops|
    ensures k + n <= |ops|
    ensures forall i :: k <= i < k + n ==> !Near(ops, i)
    ensures k + n < |ops| ==> Near(ops, k + n)
    decreases |ops| - k
  {
    if k == |ops| || Near(ops, k) then 0 else 1 + HiddenRun(ops, k + 1)
  }

  /** The reference layout from op k on: an op near a change is shown, and each
      longest run of the others becomes one count. */
  function Layout(ops: Ops, k: nat): seq<Row>
    requires k <= |ops|
    decreases |ops| - k
  {
    if k == |ops| then []
    else if Near(ops, k) then [Shown(k)] + Layout(ops, k + 1)
    else [Unchanged(HiddenRun(ops, k))] + Layout(ops, k + HiddenRun(ops, k))
  }

  /** The rows account for every op from k on, once and in order: a shown row
      is near a change, a count is of one or more ops none of which is, and no
      two counts are neighbours. */
  predicate Accounts(rows: seq<Row>, ops: Ops, k: nat)
    requires k <= |ops|
    decreases |rows|
  {
    if rows == [] then k == |ops|
    else
      match rows[0]
      case Shown(i) => i == k < |ops| && Near(ops, k) && Accounts(rows[1..], ops, k + 1)
      case Unchanged(n) =>
        && n >= 1 && k + n <= |ops|
        && (forall i :: k <= i < k + n ==> !Near(ops, i))
        && (|rows| > 1 ==> rows[1].Shown?)
        && Accounts(rows[1..], ops, k + n)
  }

  /** The layout is the one list of rows that accounts for the ops. */
  lemma {:induction false} LayoutAccounts(rows: seq<Row>, ops: Ops, k: nat)
    requires k <= |ops|
    ensures Accounts(rows, ops, k) <==> rows == Layout(ops, k)
    decreases |ops| - k, |rows|
  {
    hide Near;
    if k < |ops| {
      var n := HiddenRun(ops, k);
      if rows != [] {
        if Accounts(rows, ops, k) && rows[0].Unchanged? {
          var m := rows[0].count;
          assert !Near(ops, k + 0);
          assert m < n ==> !Near(ops, k + m);
          assert n < m ==> !Near(ops, k + n);
          assert |rows| > 1 ==> rows[1..][0] == rows[1];
        }
        assert rows == [rows[0]] + rows[1..];
        LayoutAccounts(rows[1..], ops, if Near(ops, k) then k + 1 else k + n);
      }
    }
  }

  function Weight(rows: seq<Row>): nat {
    if rows == [] then 0
    else (match rows[0] case Shown(_) => 1 case Unchanged(n) => n) + Weight(rows[1..])
  }

  /** Every op is counted once... */
  lemma {:induction false} LayoutConserves(ops: Ops, k: nat)
    requires k <= |ops|
    ensures Weight(Layout(ops, k)) == |ops| - k
    decreases |ops| - k
  {
    hide Near;
    if k < |ops| {
      LayoutConserves(ops, if Near(ops, k) then k + 1 else k + HiddenRun(ops, k));
    }
  }

  /** ...and what is shown is what is near a change, every change included. */
  lemma {:induction false} LayoutShows(ops: Ops, k: nat, i: nat)
    requires k <= i < |ops|
    ensures Shown(i) in Layout(ops, k) <==> Near(ops, i)
    decreases |ops| - k
  {
    hide Near, Changed;
    var next := if Near(ops, k) then k + 1 else k + HiddenRun(ops, k);
    var head := Layout(ops, k)[0];
    assert Layout(ops, k) == [head] + Layout(ops, next);
    if next <= i {
      LayoutShows(ops, next, i);
    } else {
      LayoutAhead(ops, next, i);
    }
  }

  lemma {:induction false} LayoutAhead(ops: Ops, k: nat, i: nat)
    requires i < k <= |ops|
    ensures Shown(i) !in Layout(ops, k)
    decreases |ops| - k
  {
    hide Near, Changed;
    if k < |ops| {
      LayoutAhead(ops, if Near(ops, k) then k + 1 else k + HiddenRun(ops, k), i);
    }
  }

  function Marker(gap: nat): string {
    "\U{00B7}\U{00B7}\U{00B7} " + Decimal(gap) + " unchanged line(s)"
  }

  function Prefix(kind: Kind): string {
    match kind
    case Keep => "  "
    case Delete => "- "
    case Insert => "+ "
  }

  /** One op, sanitized and clipped to its width. */
  function OpText(o: Op, maxWidth: nat): string
    requires maxWidth >= 8
  {
    var content := T.Sanitized(o.line);
    Prefix(o.kind) +
    if |content| > maxWidth - 2 then T.Truncated(content, maxWidth - 3) + "\U{2026}" else content
  }

  /** A rendered op fits, holds nothing that acts on the terminal, and says by
      its first character which side it is from; a marker cannot be mistaken
      for one. */
  lemma OpTextSafe(o: Op, maxWidth: nat, gap: nat)
    requires maxWidth >= 8
    ensures |OpText(o, maxWidth)| <= maxWidth && T.Clean(OpText(o, maxWidth))
    ensures OpText(o, maxWidth)[0] == '-' <==> o.kind == Delete
    ensures OpText(o, maxWidth)[0] == '+' <==> o.kind == Insert
    ensures OpText(o, maxWidth)[0] != Marker(gap)[0]
  {
    T.SanitizedClean(o.line);
    assert T.Clean("\U{2026}");
    assert T.Clean(Prefix(o.kind));
  }

  /** What a row for op o reads: two characters say whether the line is common,
      gone or new, and then comes the line, sanitized; of one that is too long
      as much as leaves room for an ellipsis. */
  predicate ShowsOp(text: string, o: Op, maxWidth: nat)
    requires maxWidth >= 8
  {
    && |text| >= 2 && text[0] == (if o.kind.Keep? then ' ' else if o.kind.Delete? then '-' else '+') && text[1] == ' '
    && var content := T.Sanitized(o.line);
       if |content| <= maxWidth - 2 then text[2..] == content
       else |text| == maxWidth && text[2..maxWidth - 1] == content[..maxWidth - 3] && text[maxWidth - 1] == '\U{2026}'
  }

  lemma OpShows(o: Op, maxWidth: nat)
    requires maxWidth >= 8
    ensures ShowsOp(OpText(o, maxWidth), o, maxWidth)
    ensures T.Clean(o.line) && |o.line| <= maxWidth - 2 ==> OpText(o, maxWidth)[2..] == o.line
  {
    T.SanitizedClean(o.line);
    hide T.Sanitized, T.Clean;
  }

  /** What a row for n ops that are not shown reads. */
  ghost predicate ShowsCount(text: string, n: nat) {
    exists digits :: text == "\U{00B7}\U{00B7}\U{00B7} " + digits + " unchanged line(s)" && Numeral(digits, n)
  }

  lemma MarkerShows(n: nat)
    ensures ShowsCount(Marker(n), n)
  {
    DecimalNumeral(n);
    hide Numeral, Decimal;
    assert Marker(n) == "\U{00B7}\U{00B7}\U{00B7} " + Decimal(n) + " unchanged line(s)";
  }

  ghost predicate ShowsRow(text: string, row: Row, ops: Ops, maxWidth: nat)
    requires maxWidth >= 8
  {
    match row
    case Shown(i) => i < |ops| && ShowsOp(text, ops[i], maxWidth)
    case Unchanged(n) => ShowsCount(text, n)
  }

  /** The rows a rendering shows, in order and cut at the limit; where nothing
      changed, none. */
  ghost predicate Renders(out: T.Encoded, rows: seq<Row>, ops: Ops, maxLines: nat, maxWidth: nat)
    requires maxWidth >= 8
  {
    && (if exists k :: Changed(ops, k) then Accounts(rows, ops, 0) else rows == [])
    && |out.lines| == T.Min(|rows|, maxLines) && (out.truncated <==> |rows| > maxLines)
    && forall k :: 0 <= k < |out.lines| ==> ShowsRow(out.lines[k], rows[k], ops, maxWidth)
  }

  /** Every row of a rendering says what it should. */
  lemma RenderingShows(ops: Ops, maxLines: nat, maxWidth: nat) returns (rows: seq<Row>)
    requires maxWidth >= 8
    ensures Renders(Rendering(ops, maxLines, maxWidth), rows, ops, maxLines, maxWidth)
  {
    hide Near, OpText, Marker, ShowsOp, ShowsCount, Accounts;
    rows := [];
    if k :| Changed(ops, k) {
      rows := Layout(ops, 0);
      LayoutAccounts(rows, ops, 0);
      LayoutOf(ops, 0);
      assert !(forall k :: 0 <= k < |ops| ==> !Changed(ops, k));
      forall k | 0 <= k < |rows| ensures ShowsRow(Texts(ops, rows, maxWidth)[k], rows[k], ops, maxWidth) {
        assert rows[k] in rows;
        match rows[k]
        case Shown(i) => OpShows(ops[i], maxWidth);
        case Unchanged(n) => MarkerShows(n);
      }
    }
  }

  function RowText(ops: Ops, row: Row, maxWidth: nat): string
    requires row.Shown? ==> row.index < |ops|
    requires maxWidth >= 8
  {
    match row
    case Shown(i) => OpText(ops[i], maxWidth)
    case Unchanged(n) => Marker(n)
  }

  predicate Of(rows: seq<Row>, ops: Ops) {
    forall r :: r in rows && r.Shown? ==> r.index < |ops|
  }

  function Texts(ops: Ops, rows: seq<Row>, maxWidth: nat): seq<string>
    requires Of(rows, ops) && maxWidth >= 8
  {
    seq(|rows|, i requires 0 <= i < |rows| => assert rows[i] in rows; RowText(ops, rows[i], maxWidth))
  }

  lemma {:induction false} LayoutOf(ops: Ops, k: nat)
    requires k <= |ops|
    ensures Of(Layout(ops, k), ops)
    decreases |ops| - k
  {
    if k < |ops| {
      LayoutOf(ops, if Near(ops, k) then k + 1 else k + HiddenRun(ops, k));
    }
  }

  /** The ops' own rendering: nothing where nothing changed, and otherwise the
      layout, cut at the row limit. */
  function Rendering(ops: Ops, maxLines: nat, maxWidth: nat): T.Encoded
    requires maxWidth >= 8
  {
    if forall k :: 0 <= k < |ops| ==> !Changed(ops, k) then T.Encoded([], false)
    else LayoutOf(ops, 0); T.Cut(Texts(ops, Layout(ops, 0), maxWidth), maxLines)
  }

  /** Everything before op k has been emitted, and nothing was dropped. */
  ghost predicate Emitted(out: T.Encoded, ops: Ops, rows: seq<Row>, k: nat, maxLines: nat, maxWidth: nat)
    requires maxWidth >= 8
  {
    && k <= |ops| && Of(rows, ops)
    && rows + Layout(ops, k) == Layout(ops, 0)
    && out == T.Encoded(Texts(ops, rows, maxWidth), false) && |rows| <= maxLines
  }

  lemma EmitShown(out: T.Encoded, ops: Ops, rows: seq<Row>, k: nat, maxLines: nat, maxWidth: nat)
    requires maxWidth >= 8 && Emitted(out, ops, rows, k, maxLines, maxWidth)
    requires k < |ops| && Near(ops, k) && |rows| < maxLines
    ensures Emitted(out.(lines := out.lines + [OpText(ops[k], maxWidth)]), ops, rows + [Shown(k)], k + 1, maxLines, maxWidth)
  {
    hide Near, OpText;
    assert rows + Layout(ops, k) == rows + [Shown(k)] + Layout(ops, k + 1);
    assert Texts(ops, rows + [Shown(k)], maxWidth) == Texts(ops, rows, maxWidth) + [OpText(ops[k], maxWidth)];
  }

  lemma EmitMarker(out: T.Encoded, ops: Ops, rows: seq<Row>, k: nat, gap: nat, maxLines: nat, maxWidth: nat)
    requires maxWidth >= 8 && Emitted(out, ops, rows, k, maxLines, maxWidth)
    requires 0 < gap && k + gap <= |ops| && |rows| < maxLines
    requires forall i :: k <= i < k + gap ==> !Near(ops, i)
    requires k + gap < |ops| ==> Near(ops, k + gap)
    ensures Emitted(out.(lines := out.lines + [Marker(gap)]), ops, rows + [Unchanged(gap)], k + gap, maxLines, maxWidth)
  {
    hide Near, Marker;
    assert !Near(ops, k + 0);
    var n := HiddenRun(ops, k);
    assert n < gap ==> !Near(ops, k + n);
    assert gap == n;
    assert rows + Layout(ops, k) == rows + [Unchanged(gap)] + Layout(ops, k + gap);
    assert Texts(ops, rows + [Unchanged(gap)], maxWidth) == Texts(ops, rows, maxWidth) + [Marker(gap)];
  }

  lemma Full(out: T.Encoded, ops: Ops, rows: seq<Row>, k: nat, maxLines: nat, maxWidth: nat)
    requires maxWidth >= 8 && Emitted(out, ops, rows, k, maxLines, maxWidth)
    requires k < |ops| && |out.lines| >= maxLines && exists i :: Changed(ops, i)
    ensures T.Encoded(out.lines, true) == Rendering(ops, maxLines, maxWidth)
  {
    hide Near;
    LayoutOf(ops, 0);
    assert Texts(ops, Layout(ops, 0), maxWidth)[..|rows|] == Texts(ops, rows, maxWidth);
  }

  lemma Finished(out: T.Encoded, ops: Ops, rows: seq<Row>, maxLines: nat, maxWidth: nat)
    requires maxWidth >= 8 && Emitted(out, ops, rows, |ops|, maxLines, maxWidth)
    requires exists i :: Changed(ops, i)
    ensures out == Rendering(ops, maxLines, maxWidth)
  {
    hide Near;
    LayoutOf(ops, 0);
    assert rows == Layout(ops, 0);
  }

  /** The indexes of the changed ops among the first n, in order. */
  ghost predicate Listing(changed: seq<nat>, ops: Ops, n: nat) {
    && (forall c :: 0 <= c < |changed| ==> changed[c] < n && Changed(ops, changed[c]))
    && (forall c, d :: 0 <= c < d < |changed| ==> changed[c] < changed[d])
    && (forall k :: 0 <= k < n && Changed(ops, k) ==> k in changed)
  }

  method ChangedIndexes(ops: Ops) returns (changed: seq<nat>)
    ensures Listing(changed, ops, |ops|)
  {
    changed := [];
    for i := 0 to |ops|
      invariant Listing(changed, ops, i)
    {
      if ops[i].kind != Keep {
        changed := changed + [i];
      }
    }
  }

  /** Between the last emitted op and the next hunk nothing is near a change. */
  lemma QuietGap(changed: seq<nat>, ops: Ops, c: nat, last: int)
    requires Listing(changed, ops, |ops|) && c <= |changed| && -1 <= last < |ops|
    requires |ops| > 0
    requires c > 0 ==> last == T.Min(changed[c - 1] + CONTEXT, |ops| - 1)
    ensures forall i :: last < i < (if c < |changed| then changed[c] - CONTEXT else |ops|) ==> !Near(ops, i)
  {
    assert forall d :: 0 <= d < c ==> changed[d] <= changed[c - 1];
    assert forall d :: c <= d < |changed| ==> changed[c] <= changed[d];
  }

  lemma InOrder(changed: seq<nat>, ops: Ops, c: nat)
    requires Listing(changed, ops, |ops|) && c < |changed|
    ensures changed[c] < |ops| && (c > 0 ==> changed[c - 1] < changed[c])
  {
  }

  method Emit(out: T.Encoded, line: string, maxLines: nat) returns (next: T.Encoded, ok: bool)
    ensures ok == (|out.lines| < maxLines)
    ensures next == if ok then out.(lines := out.lines + [line]) else out.(truncated := true)
  {
    if |out.lines| >= maxLines {
      return out.(truncated := true), false;
    }
    return out.(lines := out.lines + [line]), true;
  }

  method RenderOp(o: Op, maxWidth: nat) returns (text: string)
    requires maxWidth >= 8
    ensures text == OpText(o, maxWidth) && ShowsOp(text, o, maxWidth)
    ensures T.Clean(o.line) && |o.line| <= maxWidth - 2 ==> text[2..] == o.line
  {
    OpShows(o, maxWidth);
    var prefix := "  ";
    match o.kind {
      case Delete => prefix := "- ";
      case Insert => prefix := "+ ";
      case Keep =>
    }
    var content := T.SanitizeLine(o.line);
    var width := maxWidth - 2;
    if |content| > width {
      content := T.Truncated(content, width - 1) + "\U{2026}";
    }
    return prefix + content;
  }

  /** The hunk that opens at changed[c]: where it ends and which change is next. */
  method Merge(changed: seq<nat>, ops: Ops, c0: nat) returns (end: nat, c: nat)
    requires Listing(changed, ops, |ops|) && c0 < |changed|
    ensures c0 < c <= |changed| && end == changed[c - 1] >= changed[c0]
    ensures forall k :: changed[c0] - CONTEXT <= k <= end + CONTEXT ==> Near(ops, k)
  {
    end, c := changed[c0], c0 + 1;
    assert forall k :: end - CONTEXT <= k <= end + CONTEXT ==> Near(ops, k);
    while c < |changed| && changed[c] - end <= 2 * CONTEXT + 1
      invariant c0 < c <= |changed| && end == changed[c - 1] >= changed[c0]
      invariant forall k :: changed[c0] - CONTEXT <= k <= end + CONTEXT ==> Near(ops, k)
    {
      assert forall k :: changed[c] - CONTEXT <= k <= changed[c] + CONTEXT ==> Near(ops, k);
      end := changed[c];
      c := c + 1;
    }
  }

  /** A count line for the gap ops from k on, where there are any. */
  method EmitGap(out: T.Encoded, ops: Ops, ghost rows: seq<Row>, k: nat, gap: nat, maxLines: nat, ghost maxWidth: nat)
    returns (next: T.Encoded, ok: bool, ghost grown: seq<Row>)
    requires maxWidth >= 8 && Emitted(out, ops, rows, k, maxLines, maxWidth)
    requires k + gap <= |ops| && exists i :: Changed(ops, i)
    requires forall i :: k <= i < k + gap ==> !Near(ops, i)
    requires k + gap < |ops| ==> Near(ops, k + gap)
    ensures ok ==> Emitted(next, ops, grown, k + gap, maxLines, maxWidth)
    ensures !ok ==> next == Rendering(ops, maxLines, maxWidth)
  {
    hide Near, Rendering, Changed, Marker;
    next, ok, grown := out, true, rows;
    if gap > 0 {
      next, ok := Emit(out, Marker(gap), maxLines);
      if ok {
        EmitMarker(out, ops, rows, k, gap, maxLines, maxWidth);
        grown := rows + [Unchanged(gap)];
      } else {
        Full(out, ops, rows, k, maxLines, maxWidth);
      }
    }
  }

  /** The ops from start to end, each near a change. */
  method EmitHunk(out: T.Encoded, ops: Ops, ghost rows: seq<Row>, start: nat, end: nat, maxLines: nat, maxWidth: nat)
    returns (next: T.Encoded, ok: bool, ghost grown: seq<Row>)
    requires maxWidth >= 8 && Emitted(out, ops, rows, start, maxLines, maxWidth)
    requires start <= end <= |ops| && exists i :: Changed(ops, i)
    requires forall i :: start <= i < end ==> Near(ops, i)
    ensures ok ==> Emitted(next, ops, grown, end, maxLines, maxWidth)
    ensures !ok ==> next == Rendering(ops, maxLines, maxWidth)
  {
    hide Near, Rendering, Changed, OpText, ShowsOp, T.Clean;
    next, ok, grown := out, true, rows;
    for i := start to end
      invariant ok && Emitted(next, ops, grown, i, maxLines, maxWidth)
    {
      ghost var was := next;
      var line := RenderOp(ops[i], maxWidth);
      next, ok := Emit(next, line, maxLines);
      if !ok {
        Full(was, ops, grown, i, maxLines, maxWidth);
        return;
      }
      EmitShown(was, ops, grown, i, maxLines, maxWidth);
      grown := grown + [Shown(i)];
    }
  }

  lemma Unstarted(changed: seq<nat>, ops: Ops, maxLines: nat, maxWidth: nat)
    requires Listing(changed, ops, |ops|) && maxWidth >= 8
    ensures |changed| == 0 ==> Rendering(ops, maxLines, maxWidth) == T.Encoded([], false)
    ensures |changed| > 0 ==> exists i :: Changed(ops, i)
    ensures Emitted(T.Encoded([], false), ops, [], 0, maxLines, maxWidth)
  {
    hide Near;
    if |changed| > 0 {
      assert Changed(ops, changed[0]);
    }
  }

  method RenderHunks(ops: Ops, maxLines: nat, maxWidth: nat) returns (out: T.Encoded)
    requires maxWidth >= 8
    ensures out == Rendering(ops, maxLines, maxWidth)
  {
    hide Near, Rendering, Changed, Listing, Emitted, Layout, Of;
    var changed := ChangedIndexes(ops);
    out := T.Encoded([], false);
    Unstarted(changed, ops, maxLines, maxWidth);
    if |changed| == 0 {
      return;
    }
    ghost var rows: seq<Row> := [];
    var last, c, ok := -1, 0, true;
    while c < |changed|
      invariant c <= |changed| && -1 <= last < |ops|
      invariant if c == 0 then last == -1 else last == T.Min(changed[c - 1] + CONTEXT, |ops| - 1)
      invariant Emitted(out, ops, rows, last + 1, maxLines, maxWidth)
    {
      QuietGap(changed, ops, c, last);
      InOrder(changed, ops, c);
      var hunkStart := if changed[c] - CONTEXT < last + 1 then last + 1 else changed[c] - CONTEXT;
      var end;
      end, c := Merge(changed, ops, c);
      var hunkEnd := T.Min(end + CONTEXT, |ops| - 1);
      out, ok, rows := EmitGap(out, ops, rows, last + 1, hunkStart - (last + 1), maxLines, maxWidth);
      if !ok {
        return;
      }
      out, ok, rows := EmitHunk(out, ops, rows, hunkStart, hunkEnd + 1, maxLines, maxWidth);
      if !ok {
        return;
      }
      last := hunkEnd;
    }
    QuietGap(changed, ops, c, last);
    out, ok, rows := EmitGap(out, ops, rows, last + 1, |ops| - (last + 1), maxLines, maxWidth);
    if !ok {
      return;
    }
    Finished(out, ops, rows, maxLines, maxWidth);
  }
}
