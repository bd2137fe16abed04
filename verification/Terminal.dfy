/** Untrusted text made safe to show: internal/terminal/sanitize.go.

    A string is the sequence of code points of a text; undecodable bytes have
    already become U+FFFD, as they do when the program ranges over a string. */
module Terminal {

  import opened Containers

  /** Rows that may be shown, and whether there were more. */
  datatype Encoded = Encoded(lines: seq<string>, truncated: bool)

  function Min(x: nat, y: nat): nat { if x < y then x else y }

  /** What is left of rows where at most limit of them fit. */
  function Cut(rows: seq<string>, limit: nat): Encoded {
    Encoded(rows[..Min(|rows|, limit)], |rows| > limit)
  }

  /** The first of the rows, as many as the limit lets in, and a note if that is
      not all. */
  predicate Fills(out: Encoded, rows: seq<string>, limit: nat) {
    && out.lines <= rows && |out.lines| <= limit && (out.truncated <==> |rows| > limit)
    && (|out.lines| < limit ==> out.lines == rows)
  }

  lemma CutFills(rows: seq<string>, limit: nat)
    ensures Fills(Cut(rows, limit), rows, limit)
  {
  }

  predicate Control(c: char) {
    var r := c as int;
    r < 0x20 || r == 0x7f || 0x80 <= r <= 0x9f
  }

  /** General category Cf: the format characters of the Unicode Standard. */
  predicate Format(c: char) {
    var r := c as int;
    || r == 0xAD || 0x600 <= r <= 0x605 || r == 0x61C || r == 0x6DD || r == 0x70F
    || 0x890 <= r <= 0x891 || r == 0x8E2 || r == 0x180E || 0x200B <= r <= 0x200F
    || 0x202A <= r <= 0x202E || 0x2060 <= r <= 0x2064 || 0x2066 <= r <= 0x206F
    || r == 0xFEFF || 0xFFF9 <= r <= 0xFFFB || r == 0x110BD || r == 0x110CD
    || 0x13430 <= r <= 0x1343F || 0x1BCA0 <= r <= 0x1BCA3 || 0x1D173 <= r <= 0x1D17A
    || r == 0xE0001 || 0xE0020 <= r <= 0xE007F
  }

  /** Shown as itself, and moving nothing but the cursor. */
  predicate Visible(c: char) { !Control(c) && !Format(c) }

  predicate Clean(s: string) { forall k :: 0 <= k < |s| ==> Visible(s[k]) }

  function HexDigit(d: nat): char
    requires d < 16
  {
    "0123456789ABCDEF"[d]
  }

  /** At least width upper-case hexadecimal digits. */
  function Hex(n: nat, width: nat): string
    decreases n, width
  {
    if n == 0 && width == 0 then ""
    else Hex(n / 16, if width == 0 then 0 else width - 1) + [HexDigit(n % 16)]
  }

  lemma {:induction false} HexClean(n: nat, width: nat)
    ensures Clean(Hex(n, width))
    decreases n, width
  {
    if n != 0 || width != 0 {
      HexClean(n / 16, if width == 0 then 0 else width - 1);
      assert forall d: nat :: d < 16 ==> Visible(HexDigit(d)) by {
        assert forall k :: 0 <= k < 16 ==> Visible("0123456789ABCDEF"[k]);
      }
    }
  }

  /** The number that upper-case hexadecimal digits write. */
  function FromHex(s: string): Option<nat> {
    if s == "" then Some(0)
    else
      var front, d := FromHex(s[..|s| - 1]), s[|s| - 1];
      if front.None? then None
      else if '0' <= d <= '9' then Some(16 * front.value + (d as nat - '0' as nat))
      else if 'A' <= d <= 'F' then Some(16 * front.value + (d as nat - 'A' as nat) + 10)
      else None
  }

  lemma DigitReads(d: nat)
    requires d < 16
    ensures '0' <= HexDigit(d) <= '9' ==> HexDigit(d) as nat - '0' as nat == d
    ensures !('0' <= HexDigit(d) <= '9') ==> 'A' <= HexDigit(d) <= 'F' && HexDigit(d) as nat - 'A' as nat + 10 == d
  {
  }

  lemma {:induction false} HexReads(n: nat, width: nat)
    ensures |Hex(n, width)| >= width && FromHex(Hex(n, width)) == Some(n)
    decreases n, width
  {
    hide HexDigit;
    if n != 0 || width != 0 {
      var rest := Hex(n / 16, if width == 0 then 0 else width - 1);
      HexReads(n / 16, if width == 0 then 0 else width - 1);
      DigitReads(n % 16);
      assert Hex(n, width)[..|Hex(n, width)| - 1] == rest;
    }
  }

  /** A tab as four spaces, a hazard as its visible notation. */
  function Escape(c: char): string {
    if c == '\t' then "    "
    else if Visible(c) then [c]
    else "\U{27E8}U+" + Hex(c as int, 4) + "\U{27E9}"
  }

  function Sanitized(s: string): string {
    if s == "" then "" else Escape(s[0]) + Sanitized(s[1..])
  }

  lemma {:induction false} SanitizedClean(s: string)
    ensures Clean(Sanitized(s))
    ensures Clean(s) ==> Sanitized(s) == s
  {
    if s != "" {
      SanitizedClean(s[1..]);
      HexClean(s[0] as int, 4);
      assert s == [s[0]] + s[1..];
    }
  }

  /** How a character is shown: as itself; a tab by four spaces; and what could
      act on the terminal by its number, in brackets. */
  predicate Displays(c: char, piece: string) {
    if c == '\t' then piece == "    "
    else if Visible(c) then piece == [c]
    else
      && |piece| >= 8 && piece[..3] == "\U{27E8}U+" && piece[|piece| - 1] == '\U{27E9}'
      && FromHex(piece[3..|piece| - 1]) == Some(c as nat)
  }

  lemma EscapeDisplays(c: char)
    ensures Displays(c, Escape(c))
  {
    if c != '\t' && !Visible(c) {
      HexReads(c as nat, 4);
      hide Hex, FromHex, Visible;
      var piece := Escape(c);
      assert piece[3..|piece| - 1] == Hex(c as nat, 4);
    }
  }

  /** The sanitized text shows every character of the text, in order. */
  lemma {:induction false} SanitizedDisplays(s: string) returns (pieces: seq<string>)
    ensures |pieces| == |s| && forall k :: 0 <= k < |s| ==> Displays(s[k], pieces[k])
    ensures Flat(pieces) == Sanitized(s)
  {
    hide Displays, Escape;
    if s == "" {
      pieces := [];
    } else {
      var rest := SanitizedDisplays(s[1..]);
      EscapeDisplays(s[0]);
      pieces := [Escape(s[0])] + rest;
      assert pieces[1..] == rest;
    }
  }

  lemma {:induction false} SanitizedSnoc(s: string, c: char)
    ensures Sanitized(s + [c]) == Sanitized(s) + Escape(c)
  {
    if s == "" {
      assert (s + [c])[1..] == "";
    } else {
      assert (s + [c])[1..] == s[1..] + [c];
      SanitizedSnoc(s[1..], c);
    }
  }

  lemma EscapeCases(c: char)
    ensures c == '\t' ==> Escape(c) == "    "
    ensures c == '\U{FFFD}' ==> Escape(c) == "\U{FFFD}"
    ensures c != '\t' && (Control(c) || Format(c)) ==> Escape(c) == "\U{27E8}U+" + Hex(c as int, 4) + "\U{27E9}"
    ensures !Control(c) && !Format(c) ==> Escape(c) == [c]
  {
  }

  method SanitizeLine(s: string) returns (b: string)
    ensures b == Sanitized(s)
    ensures Clean(b)
  {
    assert Visible('\U{FFFD}');
    assert Sanitized("") == "";
    hide Control, Format, Hex, Sanitized, Visible, Clean, Escape;
    b := "";
    for k := 0 to |s|
      invariant b == Sanitized(s[..k])
    {
      SanitizedSnoc(s[..k], s[k]);
      assert s[..k + 1] == s[..k] + [s[k]];
      EscapeCases(s[k]);
      if s[k] == '\t' {
        b := b + "    ";
      } else if s[k] == '\U{FFFD}' {
        b := b + "\U{FFFD}";
      } else if Control(s[k]) {
        b := b + ("\U{27E8}U+" + Hex(s[k] as int, 4) + "\U{27E9}");
      } else if Format(s[k]) {
        b := b + ("\U{27E8}U+" + Hex(s[k] as int, 4) + "\U{27E9}");
      } else {
        b := b + [s[k]];
      }
    }
    assert s[..|s|] == s;
    SanitizedClean(s);
  }

  /** CRLF becomes LF. */
  function UnixLines(s: string): string {
    if s == "" then ""
    else if s[0] == '\r' && |s| >= 2 && s[1] == '\n' then "\n" + UnixLines(s[2..])
    else [s[0]] + UnixLines(s[1..])
  }

  predicate Pair(s: string) { |s| >= 2 && s[0] == '\r' && s[1] == '\n' }

  lemma UnixHead(s: string)
    requires s != ""
    ensures UnixLines(s) == if Pair(s) then "\n" + UnixLines(s[2..]) else [s[0]] + UnixLines(s[1..])
  {
  }

  lemma PairFront(s: string, t: string)
    requires s != "" && (t == "" || s[|s| - 1] != '\r' || t[0] != '\n')
    ensures Pair(s + t) <==> Pair(s)
    ensures if Pair(s) then |s| >= 2 && (s + t)[2..] == s[2..] + t else (s + t)[0] == s[0] && (s + t)[1..] == s[1..] + t
  {
  }

  lemma {:induction false} UnixJoined(s: string, t: string)
    requires s == "" || t == "" || s[|s| - 1] != '\r' || t[0] != '\n'
    ensures UnixLines(s + t) == UnixLines(s) + UnixLines(t)
  {
    if s == "" {
      assert s + t == t;
    } else {
      hide UnixLines, Pair;
      UnixHead(s + t);
      UnixHead(s);
      PairFront(s, t);
      if Pair(s) {
        UnixJoined(s[2..], t);
        Associative("\n", UnixLines(s[2..]), UnixLines(t));
      } else {
        UnixJoined(s[1..], t);
        Associative([s[0]], UnixLines(s[1..]), UnixLines(t));
      }
    }
  }

  /** Each CRLF, and nothing else, becomes LF. */
  lemma UnixPairs(s: string, t: string)
    ensures UnixLines(s + "\r\n" + t) == UnixLines(s) + "\n" + UnixLines(t)
  {
    UnixJoined(s + "\r\n", t);
    UnixJoined(s, "\r\n");
    assert "\r\n"[2..] == "";
  }

  lemma {:induction false} UnixAlready(s: string)
    requires forall k :: 0 <= k < |s| - 1 ==> !(s[k] == '\r' && s[k + 1] == '\n')
    ensures UnixLines(s) == s
  {
    if s != "" {
      forall k | 0 <= k < |s[1..]| - 1 ensures !(s[1..][k] == '\r' && s[1..][k + 1] == '\n') {
        assert s[1..][k] == s[k + 1] && s[1..][k + 1] == s[(k + 1) + 1];
      }
      UnixAlready(s[1..]);
      assert s == [s[0]] + s[1..];
    }
  }

  /** A lone CR becomes LF. */
  function LoneReturns(s: string): string {
    if s == "" then ""
    else [if s[0] == '\r' then '\n' else s[0]] + LoneReturns(s[1..])
  }

  lemma {:induction false} ReturnsFed(s: string)
    ensures |LoneReturns(s)| == |s|
    ensures forall k :: 0 <= k < |s| ==> LoneReturns(s)[k] == if s[k] == '\r' then '\n' else s[k]
  {
    if s != "" {
      ReturnsFed(s[1..]);
    }
  }

  /** The stretches between separators, which are line feeds unless said
      otherwise. */
  function Split(s: string, sep: char := '\n'): (pieces: seq<string>)
    ensures pieces != []
  {
    if s == "" then [""]
    else
      var rest := Split(s[1..], sep);
      if s[0] == sep then [""] + rest else [[s[0]] + rest[0]] + rest[1..]
  }

  function Joined(pieces: seq<string>, sep: char := '\n'): string {
    if pieces == [] then ""
    else if |pieces| == 1 then pieces[0]
    else pieces[0] + [sep] + Joined(pieces[1..], sep)
  }

  predicate OneLine(s: string, sep: char := '\n') { sep !in s }

  /** Splitting loses nothing and leaves no separator behind. */
  lemma {:induction false} SplitJoined(s: string, sep: char := '\n')
    ensures Joined(Split(s, sep), sep) == s
    ensures forall k :: 0 <= k < |Split(s, sep)| ==> OneLine(Split(s, sep)[k], sep)
  {
    if s != "" {
      var rest := Split(s[1..], sep);
      SplitJoined(s[1..], sep);
      if s[0] == sep {
        assert Split(s, sep)[1..] == rest;
      } else {
        assert Split(s, sep)[1..] == rest[1..];
        assert |rest| > 1 ==> Joined(rest, sep) == rest[0] + [sep] + Joined(rest[1..], sep);
      }
    }
  }

  lemma {:induction false} SplitOneLine(s: string, sep: char := '\n')
    requires OneLine(s, sep)
    ensures Split(s, sep) == [s]
  {
    if s != "" {
      SplitOneLine(s[1..], sep);
      assert s == [s[0]] + s[1..];
    }
  }

  lemma {:induction false} SplitAfter(s: string, t: string, sep: char := '\n')
    requires OneLine(s, sep)
    ensures Split(s + [sep] + t, sep) == [s] + Split(t, sep)
  {
    var u := s + [sep] + t;
    if s == "" {
      assert u[1..] == t;
    } else {
      assert u[1..] == s[1..] + [sep] + t;
      SplitAfter(s[1..], t, sep);
      assert s == [s[0]] + s[1..];
    }
  }

  lemma {:induction false} JoinedSplit(pieces: seq<string>, sep: char := '\n')
    requires pieces != [] && forall k :: 0 <= k < |pieces| ==> OneLine(pieces[k], sep)
    ensures Split(Joined(pieces, sep), sep) == pieces
  {
    if |pieces| == 1 {
      SplitOneLine(pieces[0], sep);
    } else {
      JoinedSplit(pieces[1..], sep);
      SplitAfter(pieces[0], Joined(pieces[1..], sep), sep);
    }
  }

  /** A line cut hard every width code points. */
  function Wrapped(s: string, width: nat): (pieces: seq<string>)
    requires width > 0
    ensures pieces != [] && forall k :: 0 <= k < |pieces| ==> |pieces[k]| <= width
  {
    if |s| <= width then [s] else [s[..width]] + Wrapped(s[width..], width)
  }

  /** The pieces end to end. */
  function Flat(pieces: seq<string>): string {
    if pieces == [] then "" else pieces[0] + Flat(pieces[1..])
  }

  /** Cutting loses nothing, and every piece but the last is full. */
  lemma {:induction false} WrappedWhole(s: string, width: nat)
    requires width > 0
    ensures Flat(Wrapped(s, width)) == s
    ensures forall k :: 0 <= k < |Wrapped(s, width)| - 1 ==> |Wrapped(s, width)[k]| == width
  {
    if |s| > width {
      WrappedWhole(s[width..], width);
      assert Wrapped(s, width)[1..] == Wrapped(s[width..], width);
      assert s == s[..width] + s[width..];
    } else {
      assert Wrapped(s, width)[1..] == [];
    }
  }

  lemma Associated(a: seq<string>, b: seq<string>, c: seq<string>)
    ensures a + b + c == a + (b + c)
  {
  }

  method Wrap(s: string, width: nat) returns (lines: seq<string>)
    requires width > 0
    ensures lines == Wrapped(s, width)
    ensures Flat(lines) == s && forall k :: 0 <= k < |lines| ==> |lines[k]| <= width
  {
    WrappedWhole(s, width);
    hide Flat;
    if s == "" {
      return [""];
    }
    lines := [];
    var runes := s;
    while |runes| > width
      invariant lines + Wrapped(runes, width) == Wrapped(s, width)
      decreases |runes|
    {
      Associated(lines, [runes[..width]], Wrapped(runes[width..], width));
      lines, runes := lines + [runes[..width]], runes[width..];
    }
    lines := lines + [runes];
  }

  function Rows(lines: seq<string>, width: nat): seq<string>
    requires width > 0
  {
    if lines == [] then [] else Wrapped(Sanitized(lines[0]), width) + Rows(lines[1..], width)
  }

  lemma {:induction false} RowsSplit(lines: seq<string>, k: nat, width: nat)
    requires k < |lines| && width > 0
    ensures Rows(lines, width) == Rows(lines[..k], width) + Wrapped(Sanitized(lines[k]), width) + Rows(lines[k + 1..], width)
    ensures Rows(lines[..k + 1], width) == Rows(lines[..k], width) + Wrapped(Sanitized(lines[k]), width)
  {
    hide Sanitized, Wrapped;
    if k == 0 {
      assert lines[..1][1..] == [];
    } else {
      RowsSplit(lines[1..], k - 1, width);
      assert lines[..k][1..] == lines[1..][..k - 1] && lines[..k + 1][1..] == lines[1..][..k];
      assert lines[1..][k..] == lines[k + 1..];
    }
  }

  /** Everything an encoded block would hold had it no row limit. */
  function Block(s: string, width: nat): seq<string>
    requires width > 0
  {
    Rows(Split(LoneReturns(UnixLines(s))), width)
  }

  lemma {:induction false} WrappedClean(s: string, width: nat)
    requires width > 0 && Clean(s)
    ensures forall k :: 0 <= k < |Wrapped(s, width)| ==> Clean(Wrapped(s, width)[k])
  {
    if |s| > width {
      WrappedClean(s[width..], width);
    }
  }

  /** A row that fits and can do no harm. */
  predicate Safe(row: string, width: nat) {
    |row| <= width && Clean(row)
  }

  lemma {:induction false} RowsSafe(lines: seq<string>, width: nat)
    requires width > 0
    ensures forall k :: 0 <= k < |Rows(lines, width)| ==> Safe(Rows(lines, width)[k], width)
  {
    if lines != [] {
      RowsSafe(lines[1..], width);
      SanitizedClean(lines[0]);
      WrappedClean(Sanitized(lines[0]), width);
    }
  }

  /** Every row of a block fits, and holds no control or format character. */
  lemma BlockSafe(s: string, width: nat)
    requires width > 0
    ensures forall k :: 0 <= k < |Block(s, width)| ==> Safe(Block(s, width)[k], width)
  {
    RowsSafe(Split(LoneReturns(UnixLines(s))), width);
  }

  /** The rows of a block are, line by line, all of the sanitized text. */
  lemma {:induction false} RowsWhole(lines: seq<string>, width: nat)
    requires width > 0
    ensures Flat(Rows(lines, width)) == Sanitized(Flat(lines))
  {
    if lines != [] {
      RowsWhole(lines[1..], width);
      WrappedWhole(Sanitized(lines[0]), width);
      FlatJoined(Wrapped(Sanitized(lines[0]), width), Rows(lines[1..], width));
      SanitizedJoined(lines[0], Flat(lines[1..]));
    }
  }

  /** The rows come line by line: those of a line are full but for the last, and
      hold all of it. */
  lemma {:induction false} RowsGrouped(lines: seq<string>, width: nat) returns (groups: seq<seq<string>>)
    requires width > 0
    ensures |groups| == |lines| && Rows(lines, width) == Ungrouped(groups)
    ensures forall k :: 0 <= k < |lines| ==> groups[k] != [] && Flat(groups[k]) == Sanitized(lines[k])
    ensures forall k, i :: 0 <= k < |lines| && 0 <= i < |groups[k]| ==> |groups[k][i]| <= width
    ensures forall k, i :: 0 <= k < |lines| && 0 <= i < |groups[k]| - 1 ==> |groups[k][i]| == width
  {
    hide Sanitized, Wrapped, Flat;
    groups := [];
    if lines != [] {
      var rest := RowsGrouped(lines[1..], width);
      WrappedWhole(Sanitized(lines[0]), width);
      groups := [Wrapped(Sanitized(lines[0]), width)] + rest;
      assert groups[1..] == rest;
    }
  }

  function Ungrouped(groups: seq<seq<string>>): seq<string> {
    if groups == [] then [] else groups[0] + Ungrouped(groups[1..])
  }

  lemma Associative(a: string, b: string, c: string)
    ensures a + b + c == a + (b + c)
  {
  }

  lemma {:induction false} FlatJoined(a: seq<string>, b: seq<string>)
    ensures Flat(a + b) == Flat(a) + Flat(b)
  {
    if a == [] {
      assert a + b == b;
    } else {
      FlatJoined(a[1..], b);
      assert (a + b)[0] == a[0] && (a + b)[1..] == a[1..] + b;
      Associative(a[0], Flat(a[1..]), Flat(b));
    }
  }

  lemma {:induction false} SanitizedJoined(s: string, t: string)
    ensures Sanitized(s + t) == Sanitized(s) + Sanitized(t)
  {
    hide Escape;
    if s == "" {
      assert s + t == t;
    } else {
      SanitizedJoined(s[1..], t);
      assert (s + t)[0] == s[0] && (s + t)[1..] == s[1..] + t;
      Associative(Escape(s[0]), Sanitized(s[1..]), Sanitized(t));
    }
  }

  lemma NoRows(lines: seq<string>, width: nat)
    requires width > 0
    ensures Rows(lines[..0], width) == []
  {
  }

  lemma RowsAppended(lines: seq<string>, k: nat, width: nat, limit: nat, was: Encoded, out: Encoded)
    requires k < |lines| && width > 0 && was.lines == Rows(lines[..k], width) && |was.lines| <= limit
    requires out == Cut(was.lines + Wrapped(Sanitized(lines[k]), width), limit)
    ensures if out.truncated then out == Cut(Rows(lines, width), limit)
            else out.lines == Rows(lines[..k + 1], width) && |out.lines| <= limit
  {
    hide Rows, Sanitized, Wrapped;
    RowsSplit(lines, k, width);
    var p := was.lines + Wrapped(Sanitized(lines[k]), width);
    assert p <= Rows(lines, width);
  }

  lemma AllRows(lines: seq<string>, width: nat, limit: nat, out: Encoded)
    requires width > 0 && !out.truncated && out.lines == Rows(lines[..|lines|], width) && |out.lines| <= limit
    ensures out == Cut(Rows(lines, width), limit)
  {
    assert lines[..|lines|] == lines;
  }

  /** The block of s, cut at the row limit; a limit of zero or less takes the
      default. */
  method Encode(s: string, maxWidth: int, maxLines: int) returns (out: Encoded)
    ensures out == Cut(Block(s, if maxWidth <= 0 then 120 else maxWidth), if maxLines <= 0 then 40 else maxLines)
    ensures forall k :: 0 <= k < |out.lines| ==> Safe(out.lines[k], if maxWidth <= 0 then 120 else maxWidth)
    ensures Fills(out, Block(s, if maxWidth <= 0 then 120 else maxWidth), if maxLines <= 0 then 40 else maxLines)
  {
    var width := if maxWidth <= 0 then 120 else maxWidth;
    var limit := if maxLines <= 0 then 40 else maxLines;
    BlockSafe(s, width);
    CutFills(Block(s, width), limit);
    hide Fills, Cut, Rows, Sanitized, Wrapped, Split, LoneReturns, UnixLines, Safe, Flat;
    var lines := Split(LoneReturns(UnixLines(s)));
    out := Encoded([], false);
    NoRows(lines, width);
    for k := 0 to |lines|
      invariant !out.truncated && out.lines == Rows(lines[..k], width) && |out.lines| <= limit
    {
      var clean := SanitizeLine(lines[k]);
      var wrapped := Wrap(clean, width);
      ghost var was := out;
      out := Append(out, wrapped, limit);
      RowsAppended(lines, k, width, limit, was, out);
      if out.truncated {
        return;
      }
    }
    AllRows(lines, width, limit, out);
  }

  /** The rows go on the block until it is full. */
  method Append(out0: Encoded, rows: seq<string>, limit: nat) returns (out: Encoded)
    requires !out0.truncated && |out0.lines| <= limit
    ensures out == Cut(out0.lines + rows, limit)
  {
    out := out0;
    for i := 0 to |rows|
      invariant !out.truncated && out.lines == out0.lines + rows[..i] && |out.lines| <= limit
    {
      if |out.lines| >= limit {
        return Encoded(out.lines, true);
      }
      out := out.(lines := out.lines + [rows[i]]);
    }
  }

  /** At most n code points of s. */
  function Truncated(s: string, n: nat): string {
    if |s| <= n then s else s[..n]
  }

  /** The first row of the block of s, and an ellipsis where there was more. */
  function LineOf(s: string, maxWidth: int): string {
    var width := if maxWidth < 8 then 8 else maxWidth;
    var shown := Cut(Block(s, width), 1);
    if shown.lines == [] then ""
    else if shown.truncated then Truncated(shown.lines[0], width - 1) + "\U{2026}"
    else shown.lines[0]
  }

  /** The first line of s, if that is all there is and it fits, and otherwise as
      much of it as leaves room for an ellipsis. */
  lemma LineShows(s: string, maxWidth: int)
    ensures var width, lines := if maxWidth < 8 then 8 else maxWidth, Split(LoneReturns(UnixLines(s)));
            var first := Sanitized(lines[0]);
            LineOf(s, maxWidth) ==
              if |lines| == 1 && |first| <= width then first
              else (if |first| <= width - 1 then first else first[..width - 1]) + "\U{2026}"
  {
    var width, lines := if maxWidth < 8 then 8 else maxWidth, Split(LoneReturns(UnixLines(s)));
    var first := Sanitized(lines[0]);
    var rest := Rows(lines[1..], width);
    hide Split, LoneReturns, UnixLines, Sanitized;
    assert Block(s, width) == Wrapped(first, width) + rest;
    assert rest == [] <==> |lines| == 1;
    assert |first| > width ==> Wrapped(first, width)[0] == first[..width] && |Wrapped(first, width)| > 1;
  }

  method Line(s: string, maxWidth: int) returns (row: string)
    ensures row == LineOf(s, maxWidth)
  {
    var width := if maxWidth < 8 then 8 else maxWidth;
    var enc := Encode(s, width, 1);
    if |enc.lines| == 0 {
      return "";
    }
    if enc.truncated {
      return Truncated(enc.lines[0], width - 1) + "\U{2026}";
    }
    return enc.lines[0];
  }

  /** A line is one row: within its width and free of every character that
      could move, hide or reorder what stands beside it. */
  lemma LineBounded(s: string, maxWidth: int)
    ensures Clean(LineOf(s, maxWidth))
    ensures |LineOf(s, maxWidth)| <= if maxWidth < 8 then 8 else maxWidth
  {
    var width := if maxWidth < 8 then 8 else maxWidth;
    var lines := Split(LoneReturns(UnixLines(s)));
    SanitizedClean(lines[0]);
    WrappedClean(Sanitized(lines[0]), width);
    assert Block(s, width)[0] == Wrapped(Sanitized(lines[0]), width)[0];
  }

  lemma {:induction false} CleanLines(s: string)
    requires Clean(s)
    ensures UnixLines(s) == s && LoneReturns(s) == s && OneLine(s)
  {
    if s != "" {
      assert Visible(s[0]);
      CleanLines(s[1..]);
      assert s == [s[0]] + s[1..];
    }
  }

  /** Short clean text is shown as it is... */
  lemma LineClean(s: string, maxWidth: int)
    requires Clean(s) && |s| <= if maxWidth < 8 then 8 else maxWidth
    ensures LineOf(s, maxWidth) == s
  {
    var width := if maxWidth < 8 then 8 else maxWidth;
    CleanLines(s);
    SplitOneLine(s);
    SanitizedClean(s);
    assert Rows([s], width) == Wrapped(s, width) + Rows([], width);
  }

  /** ...so that encoding a line twice is encoding it once. */
  lemma LineIdempotent(s: string, maxWidth: int)
    ensures LineOf(LineOf(s, maxWidth), maxWidth) == LineOf(s, maxWidth)
  {
    LineBounded(s, maxWidth);
    LineClean(LineOf(s, maxWidth), maxWidth);
  }
}
