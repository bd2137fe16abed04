/** Diffing two texts by lines, within limits: Diff of internal/terminal/diff.go. */
module Diff {

  import opened Lcs
  import opened Edits
  import opened Hunks
  import opened Numerals
  import T = Terminal

  datatype Limits = Limits(maxLines: int, maxWidth: int, maxInputLines: int) {
    function WithDefaults(): (l: Limits)
      ensures l.maxLines >= 1 && l.maxWidth >= 8 && l.maxInputLines >= 1
      ensures maxLines >= 1 ==> l.maxLines == maxLines
      ensures maxWidth >= 8 ==> l.maxWidth == maxWidth
      ensures maxInputLines >= 1 ==> l.maxInputLines == maxInputLines
      ensures maxLines < 1 ==> l.maxLines == 80
      ensures maxWidth < 8 ==> l.maxWidth == if maxWidth < 1 then 120 else 8
      ensures maxInputLines < 1 ==> l.maxInputLines == 4000
    {
      var width := if maxWidth <= 0 then 120 else maxWidth;
      Limits(if maxLines <= 0 then 80 else maxLines,
             if width < 8 then 8 else width,
             if maxInputLines <= 0 then 4000 else maxInputLines)
    }
  }

  function WithoutFinalFeed(s: string): string {
    if s != "" && s[|s| - 1] == '\n' then s[..|s| - 1] else s
  }

  /** The lines of a text, with no phantom line after a final line feed. */
  function SplitLines(s: string): Lines {
    if s == "" then [] else T.Split(WithoutFinalFeed(T.UnixLines(s)))
  }

  /** What the lines keep of the text: all of it but for the returns that end
      them, and for one final line feed. */
  lemma LinesKeep(s: string)
    ensures s == "" ==> SplitLines(s) == []
    ensures s != "" ==> SplitLines(s) != [] && forall k :: 0 <= k < |SplitLines(s)| ==> '\n' !in SplitLines(s)[k]
    ensures s != "" ==>
              T.UnixLines(s) != "" &&
              T.UnixLines(s) == T.Joined(SplitLines(s)) + if T.UnixLines(s)[|T.UnixLines(s)| - 1] == '\n' then "\n" else ""
  {
    if s != "" {
      var u := T.UnixLines(s);
      T.SplitJoined(WithoutFinalFeed(u));
      hide T.UnixLines, T.Split, T.Joined;
      assert forall k :: 0 <= k < |SplitLines(s)| ==> T.OneLine(SplitLines(s)[k]);
      UnixSome(s);
      assert u[|u| - 1] == '\n' ==> u == u[..|u| - 1] + "\n";
      assert u[|u| - 1] != '\n' ==> u + "" == u;
    }
  }

  lemma UnixSome(s: string)
    requires s != ""
    ensures T.UnixLines(s) != ""
  {
  }

  /** The frame both sides share: as long a prefix as there is, and then as long
      a suffix of what that leaves. */
  ghost predicate Framed(a: Lines, b: Lines, prefix: nat, suffix: nat) {
    && prefix + suffix <= |a| && prefix + suffix <= |b|
    && a[..prefix] == b[..prefix]
    && (prefix < |a| && prefix < |b| ==> a[prefix] != b[prefix])
    && a[|a| - suffix..] == b[|b| - suffix..]
    && (prefix + suffix < |a| && prefix + suffix < |b| ==> a[|a| - 1 - suffix] != b[|b| - 1 - suffix])
  }

  /** What is left of a side without the common frame. */
  function Middle(side: Lines, prefix: nat, suffix: nat): Lines
    requires prefix + suffix <= |side|
  {
    side[prefix..|side| - suffix]
  }

  lemma AgreeFront(a: Lines, b: Lines, n: nat)
    requires n <= |a| && n <= |b| && a[..n] == b[..n]
    ensures forall k :: 0 <= k < n ==> a[k] == b[k]
  {
    assert forall k :: 0 <= k < n ==> a[k] == a[..n][k] && b[k] == b[..n][k];
  }

  lemma AgreeBack(a: Lines, b: Lines, n: nat, k: nat)
    requires k < n <= |a| && n <= |b| && a[|a| - n..] == b[|b| - n..]
    ensures a[|a| - 1 - k] == b[|b| - 1 - k]
  {
    assert a[|a| - 1 - k] == a[|a| - n..][n - 1 - k];
  }

  /** There is one such frame. */
  lemma FrameUnique(a: Lines, b: Lines, p: nat, s: nat, q: nat, u: nat)
    requires Framed(a, b, p, s) && Framed(a, b, q, u)
    ensures p == q && s == u
  {
    AgreeFront(a, b, p);
    AgreeFront(a, b, q);
    assert p == q;
    if s < u {
      AgreeBack(a, b, u, s);
    } else if u < s {
      AgreeBack(a, b, s, u);
    }
  }

  lemma SuffixGrows(a: Lines, b: Lines, n: nat)
    requires n < |a| && n < |b| && a[|a| - n..] == b[|b| - n..] && a[|a| - 1 - n] == b[|b| - 1 - n]
    ensures a[|a| - (n + 1)..] == b[|b| - (n + 1)..]
  {
    assert a[|a| - (n + 1)..] == [a[|a| - 1 - n]] + a[|a| - n..];
    assert b[|b| - (n + 1)..] == [b[|b| - 1 - n]] + b[|b| - n..];
  }

  lemma PrefixGrows(a: Lines, b: Lines, n: nat)
    requires n < |a| && n < |b| && a[..n] == b[..n] && a[n] == b[n]
    ensures a[..n + 1] == b[..n + 1]
  {
    assert a[..n + 1] == a[..n] + [a[n]] && b[..n + 1] == b[..n] + [b[n]];
  }

  method TrimFront(a: Lines, b: Lines) returns (n: nat)
    ensures n <= |a| && n <= |b| && a[..n] == b[..n]
    ensures n < |a| && n < |b| ==> a[n] != b[n]
  {
    n := 0;
    while n < |a| && n < |b| && a[n] == b[n]
      invariant n <= |a| && n <= |b| && a[..n] == b[..n]
    {
      PrefixGrows(a, b, n);
      n := n + 1;
    }
  }

  method Trim(a: Lines, b: Lines) returns (prefix: nat, suffix: nat)
    ensures Framed(a, b, prefix, suffix)
  {
    prefix := TrimFront(a, b);
    suffix := 0;
    while suffix < |a| - prefix && suffix < |b| - prefix && a[|a| - 1 - suffix] == b[|b| - 1 - suffix]
      invariant prefix + suffix <= |a| && prefix + suffix <= |b|
      invariant a[|a| - suffix..] == b[|b| - suffix..]
    {
      SuffixGrows(a, b, suffix);
      suffix := suffix + 1;
    }
  }

  /** The changed middle is within reach of the table. */
  ghost predicate Affordable(a: Lines, b: Lines) {
    exists p, s :: Framed(a, b, p, s) && |Middle(a, p, s)| * |Middle(b, p, s)| <= MAX_CELLS
  }

  /** The ops turn a into b, and by a shortest script where the middle is
      affordable. */
  ghost predicate Aligned(ops: Ops, a: Lines, b: Lines) {
    && Before(ops) == a && After(ops) == b
    && (Affordable(a, b) ==> Kept(ops) == Length(a, b))
  }

  lemma Rewrapped(front: Lines, middle: Ops, back: Lines)
    ensures Before(All(Keep, front) + middle + All(Keep, back)) == front + Before(middle) + back
    ensures After(All(Keep, front) + middle + All(Keep, back)) == front + After(middle) + back
    ensures Kept(All(Keep, front) + middle + All(Keep, back)) == |front| + Kept(middle) + |back|
  {
    hide All, Before, After, Kept;
    AllSides(Keep, front);
    AllSides(Keep, back);
    Joined(All(Keep, front), middle);
    Joined(All(Keep, front) + middle, All(Keep, back));
  }

  lemma FrameParts(a: Lines, b: Lines, p: nat, s: nat)
    requires Framed(a, b, p, s)
    ensures a == a[..p] + Middle(a, p, s) + a[|a| - s..]
    ensures b == a[..p] + Middle(b, p, s) + a[|a| - s..]
  {
    InParts(a, p, s);
    InParts(b, p, s);
  }

  lemma InParts(side: Lines, p: nat, s: nat)
    requires p + s <= |side|
    ensures side == side[..p] + Middle(side, p, s) + side[|side| - s..]
  {
  }

  /** Putting the frame back around the middle's ops keeps them aligned: the
      trimmed lines were worth keeping. */
  lemma Reframed(a: Lines, b: Lines, p: nat, s: nat, middle: Ops)
    requires Framed(a, b, p, s)
    requires Before(middle) == Middle(a, p, s) && After(middle) == Middle(b, p, s)
    requires |Middle(a, p, s)| * |Middle(b, p, s)| <= MAX_CELLS ==> Kept(middle) == Length(Middle(a, p, s), Middle(b, p, s))
    ensures Aligned(All(Keep, a[..p]) + middle + All(Keep, a[|a| - s..]), a, b)
  {
    if q: nat, u: nat :| Framed(a, b, q, u) && |Middle(a, q, u)| * |Middle(b, q, u)| <= MAX_CELLS {
      FrameUnique(a, b, p, s, q, u);
    }
    assert Affordable(a, b) ==> Kept(middle) == Length(Middle(a, p, s), Middle(b, p, s));
    FrameParts(a, b, p, s);
    hide Length, Before, After, Kept, Framed, Middle, Affordable;
    Rewrapped(a[..p], middle, a[|a| - s..]);
    LengthFramed(a[..p], Middle(a, p, s), Middle(b, p, s), a[|a| - s..]);
  }

  /** The whole diff: a size note past the input limit, nothing for equal
      inputs, and otherwise the rendering of ops aligned with both inputs, each
      row saying what it stands for. */
  method Diff(before: string, after: string, limits0: Limits)
    returns (out: T.Encoded, ghost ops: Ops, ghost rows: seq<Row>)
    ensures TooLarge(before, after, limits0) ==>
      |out.lines| == 1 && out.truncated && ShowsSizes(out.lines[0], |SplitLines(before)|, |SplitLines(after)|)
    ensures !TooLarge(before, after, limits0) ==>
      && Aligned(ops, SplitLines(before), SplitLines(after))
      && out == Rendering(ops, limits0.WithDefaults().maxLines, limits0.WithDefaults().maxWidth)
      && Renders(out, rows, ops, limits0.WithDefaults().maxLines, limits0.WithDefaults().maxWidth)
  {
    hide Aligned, Rendering, Framed, T.Split, T.UnixLines, Renders;
    var limits := limits0.WithDefaults();
    var a, b := SplitLines(before), SplitLines(after);
    ops, rows := [], [];
    SizesShown(before, after);
    if |a| > limits.maxInputLines || |b| > limits.maxInputLines {
      out := T.Encoded([SizeNote(before, after)], true);
      return;
    }
    var prefix, suffix := Trim(a, b);
    FrameFits(a, b, prefix, suffix);
    var middle := DiffOps(Middle(a, prefix, suffix), Middle(b, prefix, suffix));
    Reframed(a, b, prefix, suffix, middle);
    ops := All(Keep, a[..prefix]) + middle + All(Keep, a[|a| - suffix..]);
    rows := RenderingShows(ops, limits.maxLines, limits.maxWidth);
    if |middle| == 0 {
      out := T.Encoded([], false);
      Unmoved(a[..prefix], a[|a| - suffix..], limits.maxLines, limits.maxWidth);
      return;
    }
    out := RenderHunks(All(Keep, a[..prefix]) + middle + All(Keep, a[|a| - suffix..]), limits.maxLines, limits.maxWidth);
  }

  predicate TooLarge(before: string, after: string, limits: Limits) {
    var limit := limits.WithDefaults().maxInputLines;
    |SplitLines(before)| > limit || |SplitLines(after)| > limit
  }

  function SizeNote(before: string, after: string): string {
    "(too large to diff: " + Decimal(|SplitLines(before)|) + " \U{2192} " + Decimal(|SplitLines(after)|) + " lines)"
  }

  ghost predicate ShowsSizes(text: string, m: nat, n: nat) {
    exists x, y :: text == "(too large to diff: " + x + " \U{2192} " + y + " lines)" && Numeral(x, m) && Numeral(y, n)
  }

  lemma SizesShown(before: string, after: string)
    ensures ShowsSizes(SizeNote(before, after), |SplitLines(before)|, |SplitLines(after)|)
  {
    DecimalNumeral(|SplitLines(before)|);
    DecimalNumeral(|SplitLines(after)|);
    hide Numeral, Decimal, SplitLines;
  }

  lemma FrameFits(a: Lines, b: Lines, p: nat, s: nat)
    requires Framed(a, b, p, s)
    ensures p + s <= |a| && p + s <= |b|
  {
  }

  lemma Unmoved(p: Lines, s: Lines, maxLines: nat, maxWidth: nat)
    requires maxWidth >= 8
    ensures Rendering(All(Keep, p) + [] + All(Keep, s), maxLines, maxWidth) == T.Encoded([], false)
  {
  }

  lemma SelfDiff(ops: Ops, a: Lines)
    requires Aligned(ops, a, a)
    ensures forall k :: 0 <= k < |ops| ==> ops[k].kind == Keep
  {
    assert Framed(a, a, |a|, 0) && |Middle(a, |a|, 0)| * |Middle(a, |a|, 0)| <= MAX_CELLS;
    LengthFramed(a, [], [], []);
    assert a + [] + [] == a;
    NothingChanged(ops);
  }

  /** The rendering of aligned ops is empty exactly when the inputs are equal,
      and says so when it leaves something out. */
  lemma EmptyIffEqual(ops: Ops, a: Lines, b: Lines, maxLines: nat, maxWidth: nat)
    requires Aligned(ops, a, b) && maxLines >= 1 && maxWidth >= 8
    ensures Rendering(ops, maxLines, maxWidth).lines == [] <==> a == b
    ensures |Rendering(ops, maxLines, maxWidth).lines| <= maxLines
    ensures Rendering(ops, maxLines, maxWidth).truncated <==> a != b && |Layout(ops, 0)| > maxLines
  {
    hide Near;
    NothingChanged(ops);
    if a == b {
      SelfDiff(ops, a);
    } else {
      assert exists k :: Changed(ops, k) by {
        var k :| 0 <= k < |ops| && ops[k].kind != Keep;
        assert Changed(ops, k);
      }
    }
  }
}
