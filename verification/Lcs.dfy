/** Longest common subsequences, the reference the plan diff is held to. */
module Lcs {

  type Lines = seq<string>

  function Max(x: nat, y: nat): nat { if x < y then y else x }

  /** The length of a longest common subsequence. */
  function Length(a: Lines, b: Lines): nat
    decreases |a| + |b|
  {
    if a == [] || b == [] then 0
    else if a[0] == b[0] then 1 + Length(a[1..], b[1..])
    else Max(Length(a[1..], b), Length(a, b[1..]))
  }

  /** c can be had from a by dropping lines: it is empty, or a's first line is
      dropped, or it is c's first line. */
  ghost predicate Within(c: Lines, a: Lines) {
    c == [] || (a != [] && (Within(c, a[1..]) || (c[0] == a[0] && Within(c[1..], a[1..]))))
  }

  lemma {:induction false} WithinTail(c: Lines, a: Lines)
    requires Within(c, a) && c != []
    ensures Within(c[1..], a)
  {
    if Within(c, a[1..]) {
      WithinTail(c, a[1..]);
    }
  }

  lemma {:induction false} WithinShort(c: Lines, a: Lines)
    requires Within(c, a)
    ensures |c| <= |a|
  {
    if c != [] {
      if Within(c, a[1..]) {
        WithinShort(c, a[1..]);
      } else {
        WithinShort(c[1..], a[1..]);
      }
    }
  }

  /** Length counts a common subsequence... */
  lemma {:induction false} LengthAttained(a: Lines, b: Lines) returns (c: Lines)
    ensures Within(c, a) && Within(c, b) && |c| == Length(a, b)
    decreases |a| + |b|
  {
    if a == [] || b == [] {
      c := [];
    } else if a[0] == b[0] {
      c := LengthAttained(a[1..], b[1..]);
      c := [a[0]] + c;
    } else if Length(a[1..], b) < Length(a, b[1..]) {
      c := LengthAttained(a, b[1..]);
    } else {
      c := LengthAttained(a[1..], b);
    }
  }

  /** ...and no common subsequence is longer. */
  lemma {:induction false} LengthMaximal(c: Lines, a: Lines, b: Lines)
    requires Within(c, a) && Within(c, b)
    ensures |c| <= Length(a, b)
    decreases |a| + |b|
  {
    if c == [] {
    } else if a[0] == b[0] {
      if Within(c, a[1..]) {
        WithinTail(c, a[1..]);
      }
      if Within(c, b[1..]) {
        WithinTail(c, b[1..]);
      }
      LengthMaximal(c[1..], a[1..], b[1..]);
    } else if Within(c, a[1..]) {
      LengthMaximal(c, a[1..], b);
    } else {
      LengthMaximal(c, a, b[1..]);
    }
  }

  /** A common last line always belongs to some longest common subsequence. */
  lemma {:induction false} LengthSnoc(a: Lines, b: Lines, x: string)
    ensures Length(a + [x], b + [x]) == Length(a, b) + 1
    decreases |a| + |b|
  {
    var a', b' := a + [x], b + [x];
    if a == [] && b == [] {
    } else if a == [] {
      assert b'[1..] == b[1..] + [x];
      LengthSnoc(a, b[1..], x);
    } else if b == [] {
      assert a'[1..] == a[1..] + [x];
      LengthSnoc(a[1..], b, x);
    } else {
      assert a'[1..] == a[1..] + [x] && b'[1..] == b[1..] + [x];
      if a[0] == b[0] {
        LengthSnoc(a[1..], b[1..], x);
      } else {
        LengthSnoc(a[1..], b, x);
        LengthSnoc(a, b[1..], x);
      }
    }
  }

  /** Trimming a common frame loses nothing. */
  lemma {:induction false} LengthFramed(p: Lines, a: Lines, b: Lines, s: Lines)
    ensures Length(p + a + s, p + b + s) == |p| + Length(a, b) + |s|
    decreases |p| + |s|
  {
    if p != [] {
      LengthFramed(p[1..], a, b, s);
      assert (p + a + s)[1..] == p[1..] + a + s && (p + b + s)[1..] == p[1..] + b + s;
    } else if s != [] {
      var s0, x := s[..|s| - 1], s[|s| - 1];
      assert s == s0 + [x];
      assert p + a + s == (p + a + s0) + [x] && p + b + s == (p + b + s0) + [x];
      LengthSnoc(p + a + s0, p + b + s0, x);
      LengthFramed(p, a, b, s0);
    } else {
      assert p + a + s == a && p + b + s == b;
    }
  }

  lemma {:induction false} LengthBounded(a: Lines, b: Lines)
    ensures Length(a, b) <= |a| && Length(a, b) <= |b|
    decreases |a| + |b|
  {
    var c := LengthAttained(a, b);
    WithinShort(c, a);
    WithinShort(c, b);
  }
}
