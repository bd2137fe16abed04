/** Project ids: internal/domain/ids.go. */
module Ids {

  import opened Containers

  type Byte = b: nat | b < 256

  type Bits = seq<bool>

  /** RFC 4648 section 6, lower case. */
  const ALPHABET: string := "abcdefghijklmnopqrstuvwxyz234567"

  const PROJECT_ID_LENGTH: nat := 26

  predicate InAlphabet(c: char) { 'a' <= c <= 'z' || '2' <= c <= '7' }

  function Pow2(n: nat): (p: nat)
    ensures p >= 1
  {
    if n == 0 then 1 else 2 * Pow2(n - 1)
  }

  function Value(bits: Bits): nat {
    if bits == [] then 0 else 2 * Value(bits[..|bits| - 1]) + if bits[|bits| - 1] then 1 else 0
  }

  /** The n low bits of v, the most significant first. */
  function Low(v: nat, n: nat): (bits: Bits)
    ensures |bits| == n
  {
    if n == 0 then [] else Low(v / 2, n - 1) + [v % 2 == 1]
  }

  /** The bit stream of a byte string: the bytes in order, each from its most
      significant bit. */
  function Stream(raw: seq<Byte>): (bits: Bits)
    ensures |bits| == 8 * |raw|
  {
    if raw == [] then [] else Stream(raw[..|raw| - 1]) + Low(raw[|raw| - 1], 8)
  }

  function Zeros(n: nat): (bits: Bits)
    ensures |bits| == n
  {
    if n == 0 then [] else Zeros(n - 1) + [false]
  }

  function Symbol(group: Bits): (c: char)
    requires |group| == 5
    ensures InAlphabet(c)
  {
    ValueBound(group);
    SymbolAlphabet(Value(group));
    ALPHABET[Value(group)]
  }

  /** Section 6 without padding: each 5 bits are a symbol, the last group filled up
      with zero bits. */
  function Base32(bits: Bits): string {
    if bits == [] then ""
    else if |bits| < 5 then [Symbol(bits + Zeros(5 - |bits|))]
    else [Symbol(bits[..5])] + Base32(bits[5..])
  }

  /** The alphabet runs through the letters and then through 2 to 7. */
  lemma AlphabetAt(v: nat)
    requires v < 32
    ensures ALPHABET[v] as int == if v < 26 then 'a' as int + v else '2' as int + v - 26
  {
    assert ALPHABET[0..26] == "abcdefghijklmnopqrstuvwxyz";
    assert ALPHABET[26..32] == "234567";
  }

  lemma SymbolAlphabet(v: nat)
    requires v < 32
    ensures InAlphabet(ALPHABET[v])
    ensures forall w :: 0 <= w < 32 && ALPHABET[w] == ALPHABET[v] ==> w == v
  {
    assert |ALPHABET| == 32;
    hide ALPHABET;
    AlphabetAt(v);
    forall w | 0 <= w < 32 && ALPHABET[w] == ALPHABET[v]
      ensures w == v
    {
      AlphabetAt(w);
    }
  }

  lemma {:induction false} ValueBound(bits: Bits)
    ensures Value(bits) < Pow2(|bits|)
    ensures |bits| == 5 ==> Value(bits) < 32
  {
    assert Pow2(5) == 32;
    if bits != [] {
      ValueBound(bits[..|bits| - 1]);
    }
  }

  lemma ValueSnoc(bits: Bits, x: bool)
    ensures Value(bits + [x]) == 2 * Value(bits) + if x then 1 else 0
  {
    assert (bits + [x])[..|bits|] == bits;
  }

  lemma {:induction false} ValueJoined(p: Bits, q: Bits)
    ensures Value(p + q) == Value(p) * Pow2(|q|) + Value(q)
  {
    if q == [] {
      assert p + q == p;
    } else {
      var q0, x := q[..|q| - 1], q[|q| - 1];
      assert q == q0 + [x] && p + q == (p + q0) + [x];
      ValueSnoc(q0, x);
      ValueSnoc(p + q0, x);
      ValueJoined(p, q0);
      Doubled(Value(p), Pow2(|q0|));
      hide Value;
    }
  }

  lemma Doubled(high: nat, power: nat)
    ensures high * (2 * power) == 2 * (high * power)
  {
  }

  lemma {:induction false} ValueLow(v: nat, n: nat)
    ensures Value(Low(v, n)) == v % Pow2(n)
  {
    if n > 0 {
      ValueLow(v / 2, n - 1);
      assert Low(v, n)[..n - 1] == Low(v / 2, n - 1);
      Halved(v, Pow2(n - 1));
    }
  }

  lemma Halved(v: nat, p: nat)
    requires p >= 1
    ensures v % (2 * p) == 2 * ((v / 2) % p) + v % 2
  {
    var q := (v / 2) / p;
    assert v / 2 == q * p + (v / 2) % p;
    assert v == q * (2 * p) + (2 * ((v / 2) % p) + v % 2);
    Remainder(v, 2 * p, q, 2 * ((v / 2) % p) + v % 2);
  }

  lemma Remainder(v: nat, p: nat, q: nat, r: nat)
    requires p >= 1 && v == q * p + r && r < p
    ensures v % p == r && v / p == q
  {
    var d := v / p - q;
    assert d * p == r - v % p;
    assert d >= 1 ==> d * p >= p;
    assert d <= -1 ==> d * p + p <= 0;
  }

  /** A remainder by a multiple of d does not disturb the remainder by d. */
  lemma RemainderTwice(x: nat, k: nat, d: nat)
    requires k >= 1 && d >= 1 && k * d >= 1
    ensures x % (k * d) % d == x % d
  {
    var m := k * d;
    var q, e, r := x / m, x % m / d, x % m % d;
    Distributed(q, k, e, d);
    assert x == q * m + (e * d + r);
    Remainder(x, d, q * k + e, r);
  }

  lemma Distributed(q: nat, k: nat, e: nat, d: nat)
    ensures (q * k + e) * d == q * (k * d) + e * d
  {
  }

  lemma {:induction false} ValueInjective(a: Bits, b: Bits)
    requires |a| == |b| && Value(a) == Value(b)
    ensures a == b
  {
    if a != [] {
      ValueInjective(a[..|a| - 1], b[..|b| - 1]);
      assert a == a[..|a| - 1] + [a[|a| - 1]] && b == b[..|b| - 1] + [b[|b| - 1]];
    }
  }

  /** Full groups are encoded on their own. */
  lemma Base32Step(group: Bits, rest: Bits)
    requires |group| == 5
    ensures Base32(group + rest) == [Symbol(group)] + Base32(rest)
  {
    assert (group + rest)[..5] == group && (group + rest)[5..] == rest;
  }

  lemma {:induction false} Base32Split(done: Bits, rest: Bits, n: nat)
    requires |done| == 5 * n
    ensures Base32(done + rest) == Base32(done) + Base32(rest)
    decreases n
  {
    hide Base32, Symbol;
    if n == 0 {
      Base32Empty();
      assert done == [] && done + rest == rest;
      assert Base32(rest) == "" + Base32(rest);
    } else {
      var g, left := done[..5], done[5..];
      Base32Split(left, rest, n - 1);
      Base32Step(g, left + rest);
      Base32Step(g, left);
      assert done == g + left;
      assert done + rest == g + (left + rest);
      var head, x, y := [Symbol(g)], Base32(left), Base32(rest);
      assert head + (x + y) == (head + x) + y;
    }
  }

  lemma Base32Empty()
    ensures Base32([]) == ""
  {
  }

  lemma Powers()
    ensures Pow2(0) == 1 && Pow2(1) == 2 && Pow2(2) == 4 && Pow2(3) == 8 && Pow2(4) == 16 && Pow2(5) == 32
    ensures Pow2(6) == 64 && Pow2(7) == 128 && Pow2(8) == 256 && Pow2(9) == 512 && Pow2(10) == 1024
    ensures Pow2(11) == 2048 && Pow2(12) == 4096
  {
  }

  /** The width of the machine's unsigned word. */
  predicate Word(modulus: nat) { modulus == 0x1_0000_0000 || modulus == 0x1_0000_0000_0000_0000 }

  /** A byte shifted into a wrapping accumulator keeps the bits still to be
      emitted exact, whatever has been shifted out at the top. */
  lemma ShiftedIn(acc: nat, b: Byte, n: nat, modulus: nat)
    requires Word(modulus) && n < 5
    ensures (acc * 256 + b) % modulus % Pow2(n + 8) == (acc % Pow2(n)) * 256 + b
  {
    Powers();
    var p := Pow2(n);
    assert p == 1 || p == 2 || p == 4 || p == 8 || p == 16;
    assert Pow2(n + 8) == 256 * p;
    Shifted(acc, b, p, modulus / (256 * p));
    assert modulus / (256 * p) * (256 * p) == modulus;
  }

  lemma Shifted(acc: nat, b: Byte, p: nat, k: nat)
    requires p >= 1 && k >= 1 && k * (256 * p) >= 1
    ensures (acc * 256 + b) % (k * (256 * p)) % (256 * p) == (acc % p) * 256 + b
  {
    var q, r := acc / p, acc % p;
    RemainderTwice(acc * 256 + b, k, 256 * p);
    Distributed(q, 1, 0, p);
    assert acc == q * p + r;
    assert q * (256 * p) == 256 * (q * p);
    Remainder(acc * 256 + b, 256 * p, q, r * 256 + b);
  }

  lemma ShiftedOut(acc: nat, n: nat, group: nat, rest: nat)
    requires n < 8 && group < 32 && rest < Pow2(n) && acc % Pow2(n + 5) == group * Pow2(n) + rest
    ensures acc / Pow2(n) % 32 == group && acc % Pow2(n) == rest
  {
    Powers();
    var p := Pow2(n);
    var q := acc / (32 * p);
    assert Pow2(n + 5) == 32 * p;
    hide Pow2;
    assert acc == q * (32 * p) + (group * p + rest);
    assert q * (32 * p) + group * p == (32 * q + group) * p;
    Remainder(acc, p, 32 * q + group, rest);
  }

  lemma FilledUp(acc: nat, n: nat, left: nat, modulus: nat)
    requires Word(modulus) && 0 < n < 5 && acc % Pow2(n) == left
    ensures acc * Pow2(5 - n) % modulus % 32 == left * Pow2(5 - n)
  {
    Powers();
    var p, f := Pow2(n), Pow2(5 - n);
    var q := acc / p;
    assert p * f == 32;
    assert acc == q * p + left;
    assert acc * f == q * 32 + left * f by {
      assert q * p * f == q * (p * f);
    }
    assert left * f < 32;
    RemainderTwice(acc * f, modulus / 32, 32);
    Remainder(acc * f, 32, q, left * f);
  }

  /** The bits still to be emitted are in the accumulator, the emitted ones in out. */
  ghost predicate Emitting(out: string, acc: nat, left: Bits, seen: Bits) {
    && |left| <= |seen| && left == seen[|seen| - |left|..]
    && |seen| - |left| == 5 * |out| && out == Base32(seen[..|seen| - |left|])
    && acc % Pow2(|left|) == Value(left)
  }

  lemma ByteIn(out: string, acc: nat, left: Bits, seen: Bits, b: Byte, modulus: nat)
    requires Emitting(out, acc, left, seen) && |left| < 5 && Word(modulus)
    ensures Emitting(out, (acc * 256 + b) % modulus, left + Low(b, 8), seen + Low(b, 8))
  {
    hide Low, Value, Pow2, Base32;
    var low := Low(b, 8);
    ShiftedIn(acc, b, |left|, modulus);
    ValueJoined(left, low);
    ValueLow(b, 8);
    Powers();
    assert (seen + low)[..|seen| - |left|] == seen[..|seen| - |left|];
    assert (seen + low)[|seen| - |left|..] == left + low;
  }

  lemma TopFive(acc: nat, left: Bits)
    requires 5 <= |left| <= 12 && acc % Pow2(|left|) == Value(left)
    ensures acc / Pow2(|left| - 5) % 32 == Value(left[..5]) && acc % Pow2(|left| - 5) == Value(left[5..])
  {
    hide Value, Pow2;
    var g, r := left[..5], left[5..];
    assert left == g + r;
    ValueJoined(g, r);
    ValueBound(g);
    ValueBound(r);
    ShiftedOut(acc, |r|, Value(g), Value(r));
  }

  lemma OneGroup(g: Bits)
    requires 0 < |g| <= 5
    ensures |ALPHABET| == 32 && Value(g + Zeros(5 - |g|)) < 32
    ensures Base32(g) == [ALPHABET[Value(g + Zeros(5 - |g|))]]
  {
    var full := g + Zeros(5 - |g|);
    ValueBound(full);
    if |g| == 5 {
      assert full == g && g[..5] == g && Base32(g[5..]) == "";
    }
  }

  lemma GroupOut(seen: Bits, m: nat, n: nat, g: Bits)
    requires n == 5 * m && 0 < |g| <= 5 && n + |g| <= |seen| && g == seen[n..n + |g|]
    ensures |ALPHABET| == 32 && Value(g + Zeros(5 - |g|)) < 32
    ensures Base32(seen[..n + |g|]) == Base32(seen[..n]) + [ALPHABET[Value(g + Zeros(5 - |g|))]]
  {
    hide Value, Base32, ALPHABET, Zeros;
    OneGroup(g);
    Base32Split(seen[..n], g, m);
    assert seen[..n + |g|] == seen[..n] + g;
  }

  lemma SymbolOut(out: string, acc: nat, left: Bits, seen: Bits)
    requires Emitting(out, acc, left, seen) && 5 <= |left| <= 12
    ensures |ALPHABET| == 32 && Emitting(out + [ALPHABET[acc / Pow2(|left| - 5) % 32]], acc, left[5..], seen)
  {
    hide Value, Pow2, Base32, ALPHABET;
    TopFive(acc, left);
    FullGroupOut(seen, left, |out|);
  }

  lemma FullGroupOut(seen: Bits, left: Bits, m: nat)
    requires 5 <= |left| <= |seen| && left == seen[|seen| - |left|..] && |seen| - |left| == 5 * m
    ensures |ALPHABET| == 32 && Value(left[..5]) < 32
    ensures var n := |seen| - |left|;
      Base32(seen[..n + 5]) == Base32(seen[..n]) + [ALPHABET[Value(left[..5])]] && left[5..] == seen[n + 5..]
  {
    hide Value, Base32, ALPHABET;
    var n, g := |seen| - |left|, left[..5];
    assert g == seen[n..n + 5];
    GroupOut(seen, m, n, g);
    assert g + Zeros(0) == g;
  }

  lemma LastSymbol(out: string, acc: nat, left: Bits, seen: Bits, modulus: nat)
    requires Emitting(out, acc, left, seen) && |left| < 5 && Word(modulus)
    ensures |left| > 0 ==> |ALPHABET| == 32 && out + [ALPHABET[acc * Pow2(5 - |left|) % modulus % 32]] == Base32(seen)
    ensures |left| == 0 ==> out == Base32(seen)
  {
    hide Value, Pow2, Base32, ALPHABET, Zeros;
    var n := |seen| - |left|;
    if |left| > 0 {
      Filled(left);
      FilledUp(acc, |left|, Value(left), modulus);
      GroupOut(seen, |out|, n, left);
      assert seen[..n + |left|] == seen;
    } else {
      assert seen[..n] == seen;
    }
  }

  lemma Filled(left: Bits)
    requires |left| <= 5
    ensures Value(left + Zeros(5 - |left|)) == Value(left) * Pow2(5 - |left|)
  {
    hide Value, Pow2, Zeros;
    ValueJoined(left, Zeros(5 - |left|));
    ZerosValue(5 - |left|);
  }

  lemma {:induction false} ZerosValue(n: nat)
    ensures Value(Zeros(n)) == 0
  {
    if n > 0 {
      ZerosValue(n - 1);
      ValueSnoc(Zeros(n - 1), false);
    }
  }

  /** The id of 16 random bytes: their exact encoding, although the accumulator
      wraps around at the word's width. */
  method NewProjectID(raw: seq<Byte>, modulus: nat) returns (out: string)
    requires |raw| == 16 && Word(modulus)
    ensures out == Base32(Stream(raw)) && |out| == PROJECT_ID_LENGTH
  {
    hide Emitting, Value, Base32, Pow2, Low, ALPHABET;
    out := "";
    var acc: nat, bits: nat := 0, 0;
    ghost var left: Bits := [];
    Unstarted();
    for i := 0 to |raw|
      invariant Emitting(out, acc, left, Stream(raw[..i])) && bits == |left| < 5
    {
      ByteIn(out, acc, left, Stream(raw[..i]), raw[i], modulus);
      assert raw[..i + 1][..i] == raw[..i];
      acc := (acc * 256 + raw[i]) % modulus;
      bits := bits + 8;
      left := left + Low(raw[i], 8);
      while bits >= 5
        invariant Emitting(out, acc, left, Stream(raw[..i + 1])) && bits == |left| <= 12
      {
        SymbolOut(out, acc, left, Stream(raw[..i + 1]));
        bits := bits - 5;
        out := out + [ALPHABET[acc / Pow2(bits) % 32]];
        left := left[5..];
      }
    }
    assert raw[..16] == raw;
    LastSymbol(out, acc, left, Stream(raw), modulus);
    if bits > 0 {
      out := out + [ALPHABET[acc * Pow2(5 - bits) % modulus % 32]];
    }
    Base32Shape(Stream(raw));
  }

  lemma Unstarted()
    ensures Emitting("", 0, [], Stream([]))
  {
    assert Stream([]) == [] && Base32([]) == "" && Pow2(0) == 1 && Value([]) == 0;
    hide Stream, Base32, Pow2, Value;
  }

  predicate IsProjectID(s: string) { |s| == PROJECT_ID_LENGTH && forall c :: c in s ==> InAlphabet(c) }

  method ParseProjectID(s: string) returns (id: Option<string>)
    ensures id == if IsProjectID(s) then Some(s) else None
    ensures id.Some? <==> |s| == 26 && forall k :: 0 <= k < |s| ==> 'a' <= s[k] <= 'z' || '2' <= s[k] <= '7'
  {
    if |s| != PROJECT_ID_LENGTH {
      return None;
    }
    for k := 0 to |s|
      invariant forall j :: 0 <= j < k ==> InAlphabet(s[j])
    {
      if (s[k] < 'a' || s[k] > 'z') && (s[k] < '2' || s[k] > '7') {
        assert s[k] in s;
        return None;
      }
    }
    return Some(s);
  }

  lemma {:induction false} Base32Shape(bits: Bits)
    ensures |Base32(bits)| == (|bits| + 4) / 5
    ensures forall c :: c in Base32(bits) ==> InAlphabet(c)
  {
    hide Symbol;
    if |bits| >= 5 {
      Base32Shape(bits[5..]);
    }
  }

  /** Every id parses. */
  lemma IdsParse(raw: seq<Byte>)
    requires |raw| == 16
    ensures IsProjectID(Base32(Stream(raw)))
  {
    Base32Shape(Stream(raw));
    hide Base32, Stream;
  }

  /** The number the bytes write, the first the most significant. */
  function Big(raw: seq<Byte>): nat {
    if raw == [] then 0 else 256 * Big(raw[..|raw| - 1]) + raw[|raw| - 1]
  }

  /** The number the characters write in base 32: a to z are 0 to 25, and 2 to 7
      are 26 to 31. */
  function Read32(s: string): nat
    requires forall k :: 0 <= k < |s| ==> InAlphabet(s[k])
  {
    if s == "" then 0
    else
      var c := s[|s| - 1];
      assert InAlphabet(c);
      32 * Read32(s[..|s| - 1]) + if 'a' <= c then c as nat - 'a' as nat else c as nat - '2' as nat + 26
  }

  lemma {:induction false} StreamValue(raw: seq<Byte>)
    ensures Value(Stream(raw)) == Big(raw)
  {
    assert Value([]) == 0;
    if raw != [] {
      hide Value, Low, Pow2;
      var n := |raw| - 1;
      StreamValue(raw[..n]);
      ByteValue(Stream(raw[..n]), raw[n]);
    }
  }

  lemma ByteValue(bits: Bits, b: Byte)
    ensures Value(bits + Low(b, 8)) == 256 * Value(bits) + b
  {
    hide Value, Low, Pow2;
    ValueJoined(bits, Low(b, 8));
    ValueLow(b, 8);
    Powers();
    SmallRemainder(b, 256);
  }

  lemma SymbolRead(g: Bits, s: string)
    requires |g| == 5 && forall k :: 0 <= k < |s| ==> InAlphabet(s[k])
    ensures Read32(s + [Symbol(g)]) == 32 * Read32(s) + Value(g)
  {
    ValueBound(g);
    AlphabetAt(Value(g));
    assert (s + [Symbol(g)])[..|s|] == s;
    hide Value, ALPHABET;
  }

  lemma GroupSnoc(p: Bits, g: Bits, n: nat)
    requires |p| == 5 * n && |g| == 5
    ensures Base32(p + g) == Base32(p) + [Symbol(g)] && Value(p + g) == 32 * Value(p) + Value(g)
  {
    hide Base32, Value, Pow2, Symbol;
    Base32Split(p, g, n);
    Base32Step(g, []);
    Base32Empty();
    assert g + [] == g && [Symbol(g)] + "" == [Symbol(g)];
    ValueJoined(p, g);
    Powers();
  }

  lemma Alphabetic(bits: Bits)
    ensures forall k :: 0 <= k < |Base32(bits)| ==> InAlphabet(Base32(bits)[k])
  {
    hide Base32;
    Base32Shape(bits);
    assert forall k :: 0 <= k < |Base32(bits)| ==> Base32(bits)[k] in Base32(bits);
  }

  lemma {:induction false} GroupsRead(bits: Bits, n: nat)
    requires |bits| == 5 * n
    ensures forall k :: 0 <= k < |Base32(bits)| ==> InAlphabet(Base32(bits)[k])
    ensures Read32(Base32(bits)) == Value(bits)
    decreases n
  {
    hide Base32, Value, Symbol, Read32, InAlphabet;
    Alphabetic(bits);
    if n == 0 {
      Base32Empty();
      assert bits == [];
      NothingRead();
    } else {
      var m: nat := 5 * (n - 1);
      var p, g := bits[..m], bits[m..];
      assert bits == p + g;
      GroupsRead(p, n - 1);
      GroupSnoc(p, g, n - 1);
      SymbolRead(g, Base32(p));
    }
  }

  lemma NothingRead()
    ensures Read32("") == 0 == Value([])
  {
  }

  /** An id reads back: in base 32 it writes the number its bytes write, two zero
      bits further left. */
  lemma IdReadsBack(raw: seq<Byte>)
    requires |raw| == 16
    ensures forall k :: 0 <= k < |Base32(Stream(raw))| ==> InAlphabet(Base32(Stream(raw))[k])
    ensures Read32(Base32(Stream(raw))) == 4 * Big(raw)
  {
    hide Base32, Stream, Value, Pow2, Zeros, Read32, Big, InAlphabet, Symbol;
    var bits := Stream(raw);
    var p, g := bits[..125], bits[125..];
    Alphabetic(bits);
    Spilled(bits);
    Base32Split(p, g, 25);
    Base32Split(p, g + Zeros(2), 25);
    LastGroup(g);
    StreamValue(raw);
    GroupsRead(bits + Zeros(2), 26);
    ValueJoined(bits, Zeros(2));
    ZerosValue(2);
    Powers();
  }

  lemma Spilled(bits: Bits)
    requires |bits| == 128
    ensures bits == bits[..125] + bits[125..]
    ensures bits + Zeros(2) == bits[..125] + (bits[125..] + Zeros(2))
  {
  }

  lemma LastGroup(g: Bits)
    requires |g| == 3
    ensures Base32(g) == Base32(g + Zeros(2))
  {
    Base32Step(g + Zeros(2), []);
    Base32Empty();
    assert g + Zeros(2) + [] == g + Zeros(2);
  }

  lemma {:induction false} LowInjective(v: nat, w: nat, n: nat)
    requires v < Pow2(n) && w < Pow2(n) && Low(v, n) == Low(w, n)
    ensures v == w
  {
    hide Low, Value, Pow2;
    ValueLow(v, n);
    ValueLow(w, n);
    SmallRemainder(v, Pow2(n));
    SmallRemainder(w, Pow2(n));
  }

  lemma SmallRemainder(v: nat, p: nat)
    requires v < p
    ensures v % p == v
  {
  }

  lemma {:induction false} StreamInjective(a: seq<Byte>, b: seq<Byte>)
    requires |a| == |b| && Stream(a) == Stream(b)
    ensures a == b
  {
    if a != [] {
      var n := |a| - 1;
      assert Stream(a)[..8 * n] == Stream(a[..n]) && Stream(b)[..8 * n] == Stream(b[..n]);
      assert Stream(a)[8 * n..] == Low(a[n], 8) && Stream(b)[8 * n..] == Low(b[n], 8);
      StreamInjective(a[..n], b[..n]);
      Powers();
      LowInjective(a[n], b[n], 8);
      assert a == a[..n] + [a[n]] && b == b[..n] + [b[n]];
    }
  }

  lemma SymbolInjective(a: Bits, b: Bits)
    requires |a| == 5 && |b| == 5 && Symbol(a) == Symbol(b)
    ensures a == b
  {
    ValueBound(a);
    ValueBound(b);
    SymbolAlphabet(Value(a));
    ValueInjective(a, b);
  }

  lemma {:induction false} Base32Injective(a: Bits, b: Bits)
    requires |a| == |b| && Base32(a) == Base32(b)
    ensures a == b
  {
    hide Symbol;
    if a == [] {
    } else if |a| < 5 {
      var z := Zeros(5 - |a|);
      assert Base32(a)[0] == Symbol(a + z) && Base32(b)[0] == Symbol(b + z);
      SymbolInjective(a + z, b + z);
      assert a == (a + z)[..|a|] && b == (b + z)[..|a|];
    } else {
      assert Base32(a)[0] == Symbol(a[..5]) && Base32(b)[0] == Symbol(b[..5]);
      SymbolInjective(a[..5], b[..5]);
      assert Base32(a)[1..] == Base32(a[5..]) && Base32(b)[1..] == Base32(b[5..]);
      Base32Injective(a[5..], b[5..]);
      assert a == a[..5] + a[5..] && b == b[..5] + b[5..];
    }
  }

  /** Different bytes give different ids. */
  lemma IdsDiffer(a: seq<Byte>, b: seq<Byte>)
    requires |a| == |b| && a != b
    ensures Base32(Stream(a)) != Base32(Stream(b))
  {
    if Base32(Stream(a)) == Base32(Stream(b)) {
      Base32Injective(Stream(a), Stream(b));
      StreamInjective(a, b);
    }
  }
}
