/** The audit log's string printer, against the string grammar of section 7 of RFC 8259. */
module JsonString {
  import opened Wrappers

  type Byte = b: int | 0 <= b < 256

  const QUOTE: Byte := 0x22

  /** A lower-case hexadecimal digit. */
  function Hex(d: nat): Byte
    requires d < 16
  {
    if d < 10 then 0x30 + d else 0x61 + (d - 10)
  }

  /** The text of one byte inside a literal. */
  function Escape(c: Byte): (e: seq<Byte>)
    ensures e != []
  {
    if c == 0x22 || c == 0x5C then [0x5C, c]
    else if c == 0x0A then [0x5C, 0x6E]
    else if c == 0x0D then [0x5C, 0x72]
    else if c == 0x09 then [0x5C, 0x74]
    else if c < 0x20 then [0x5C, 0x75, 0x30, 0x30, Hex(c / 16), Hex(c % 16)]
    else [c]
  }

  function Body(s: seq<Byte>): seq<Byte> {
    if s == [] then [] else Escape(s[0]) + Body(s[1..])
  }

  function Literal(s: seq<Byte>): seq<Byte> { [QUOTE] + Body(s) + [QUOTE] }

  lemma NextByte(out: seq<Byte>, s: seq<Byte>, i: nat)
    requires i < |s|
    ensures out + Body(s[i..]) == out + Escape(s[i]) + Body(s[i + 1..])
  {
    assert s[i..][1..] == s[i + 1..];
  }

  /** jsonString: append the text of each byte between two quotes. */
  method Print(s: seq<Byte>) returns (out: seq<Byte>)
    ensures out == Literal(s)
  {
    out := [0x22];
    var i := 0;
    while i < |s|
      invariant i <= |s|
      invariant out + Body(s[i..]) == [0x22] + Body(s)
    {
      var c := s[i];
      ghost var before := out;
      if c == 0x22 || c == 0x5C {
        out := out + [0x5C, c];
      } else if c == 0x0A {
        out := out + [0x5C, 0x6E];
      } else if c == 0x0D {
        out := out + [0x5C, 0x72];
      } else if c == 0x09 {
        out := out + [0x5C, 0x74];
      } else if c < 0x20 {
        out := out + [0x5C, 0x75, 0x30, 0x30, Hex(c / 16), Hex(c % 16)];
      } else {
        out := out + [c];
      }
      assert out == before + Escape(c);
      NextByte(before, s, i);
      i := i + 1;
    }
    out := out + [0x22];
  }

  // ----- the grammar -------------------------------------------------------------------

  function HexValue(b: Byte): (d: Option<nat>)
    ensures d.Some? ==> d.value < 16
  {
    if 0x30 <= b <= 0x39 then Some(b - 0x30)
    else if 0x61 <= b <= 0x66 then Some(b - 0x61 + 10)
    else if 0x41 <= b <= 0x46 then Some(b - 0x41 + 10)
    else None
  }

  function Hex2(a: Byte, b: Byte): (u: Option<nat>)
    ensures u.Some? ==> u.value < 256
  {
    if HexValue(a).None? || HexValue(b).None? then None
    else Some(HexValue(a).value * 16 + HexValue(b).value)
  }

  /** Four hexadecimal digits of either case. */
  function Hex4(t: seq<Byte>): (u: Option<nat>)
    requires |t| == 4
    ensures u.Some? ==> u.value < 0x1_0000
  {
    var hi, lo := Hex2(t[0], t[1]), Hex2(t[2], t[3]);
    if hi.None? || lo.None? then None else Some(hi.value * 256 + lo.value)
  }

  /** The two-character escapes. */
  function Short(b: Byte): Option<Byte> {
    if b in {0x22, 0x5C, 0x2F} then Some(b)
    else if b == 0x62 then Some(0x08)
    else if b == 0x66 then Some(0x0C)
    else if b == 0x6E then Some(0x0A)
    else if b == 0x72 then Some(0x0D)
    else if b == 0x74 then Some(0x09)
    else None
  }

  function Utf8(u: nat): seq<Byte>
    requires u < 0x11_0000
  {
    if u < 0x80 then [u]
    else if u < 0x800 then [0xC0 + u / 64, 0x80 + u % 64]
    else if u < 0x1_0000 then [0xE0 + u / 4096, 0x80 + u / 64 % 64, 0x80 + u % 64]
    else [0xF0 + u / 262144, 0x80 + u / 4096 % 64, 0x80 + u / 64 % 64, 0x80 + u % 64]
  }

  /** The UTF-8 bytes of a \u escape at the front of t, with the pair that follows a high surrogate, and what is
      left; a lone surrogate denotes no character. */
  function Unicode(t: seq<Byte>): (r: Option<(seq<Byte>, seq<Byte>)>)
    requires |t| >= 2 && t[0] == 0x5C && t[1] == 0x75
    ensures r.Some? ==> |r.value.1| < |t|
  {
    if |t| < 6 || Hex4(t[2..6]).None? then None
    else
      var u := Hex4(t[2..6]).value;
      if u < 0xD800 || 0xE000 <= u then Some((Utf8(u), t[6..]))
      else if u < 0xDC00 && |t| >= 12 && t[6] == 0x5C && t[7] == 0x75 && Hex4(t[8..12]).Some?
              && 0xDC00 <= Hex4(t[8..12]).value < 0xE000
      then Some((Utf8(0x1_0000 + (u - 0xD800) * 1024 + (Hex4(t[8..12]).value - 0xDC00)), t[12..]))
      else None
  }

  /** The bytes denoted by characters up to and including the closing quote, which must be the last byte. */
  function Rest(t: seq<Byte>): Option<seq<Byte>>
    decreases |t|
  {
    if t == [] then None
    else if t[0] == 0x22 then if |t| == 1 then Some([]) else None
    else if t[0] < 0x20 then None
    else if t[0] != 0x5C then Prepend([t[0]], Rest(t[1..]))
    else if |t| == 1 then None
    else if t[1] == 0x75 then
      match Unicode(t) case None => None case Some(p) => Prepend(p.0, Rest(p.1))
    else
      match Short(t[1]) case None => None case Some(b) => Prepend([b], Rest(t[2..]))
  }

  function Prepend(p: seq<Byte>, r: Option<seq<Byte>>): Option<seq<Byte>> {
    if r.None? then None else Some(p + r.value)
  }

  function Decode(t: seq<Byte>): Option<seq<Byte>> {
    if t != [] && t[0] == 0x22 then Rest(t[1..]) else None
  }

  // ----- round trip -----------------------------------------------------------------------

  lemma HexRoundTrip(d: nat)
    requires d < 16
    ensures HexValue(Hex(d)) == Some(d)
  {
  }

  lemma ControlEscape(c: Byte, rest: seq<Byte>)
    requires c < 0x20
    ensures Rest([0x5C, 0x75, 0x30, 0x30, Hex(c / 16), Hex(c % 16)] + rest) == Prepend([c], Rest(rest))
  {
    var e := [0x5C, 0x75, 0x30, 0x30, Hex(c / 16), Hex(c % 16)];
    var t := e + rest;
    HexRoundTrip(c / 16);
    HexRoundTrip(c % 16);
    assert t[2..6] == [0x30, 0x30, Hex(c / 16), Hex(c % 16)];
    assert Hex4(t[2..6]) == Some(c);
    assert t[6..] == rest;
    assert Unicode(t) == Some(([c], rest));
  }

  /** The reader takes back one printed byte. */
  lemma EscapeRoundTrip(c: Byte, rest: seq<Byte>)
    ensures Rest(Escape(c) + rest) == Prepend([c], Rest(rest))
  {
    var t := Escape(c) + rest;
    if c < 0x20 && c !in {0x0A, 0x0D, 0x09} {
      ControlEscape(c, rest);
    } else if |Escape(c)| == 2 {
      assert t[2..] == rest;
    } else {
      assert t[1..] == rest;
    }
  }

  lemma {:induction false} BodyRoundTrip(s: seq<Byte>)
    ensures Rest(Body(s) + [QUOTE]) == Some(s)
  {
    if s == [] {
      assert Body(s) + [QUOTE] == [QUOTE];
    } else {
      BodyRoundTrip(s[1..]);
      EscapeRoundTrip(s[0], Body(s[1..]) + [QUOTE]);
      assert Body(s) + [QUOTE] == Escape(s[0]) + (Body(s[1..]) + [QUOTE]);
      assert [s[0]] + s[1..] == s;
    }
  }

  /** For every byte string, decoding its literal gives it back. */
  lemma RoundTrip(s: seq<Byte>)
    ensures Decode(Literal(s)) == Some(s)
  {
    BodyRoundTrip(s);
    assert Literal(s)[1..] == Body(s) + [QUOTE];
  }

  // ----- shape of the output -------------------------------------------------------------

  /** The literal holds no raw control byte. */
  lemma {:induction false} NoControlBytes(s: seq<Byte>)
    ensures forall b :: b in Literal(s) ==> b >= 0x20
  {
    if s != [] {
      NoControlBytes(s[1..]);
      forall b | b in Body(s) ensures b >= 0x20 {
        if b in Body(s[1..]) {
          assert b in Literal(s[1..]);
        } else {
          assert b in Escape(s[0]);
        }
      }
    }
  }

  /** Position i is escaped: the byte before it is a backslash that is not escaped itself. */
  predicate EscapedAt(t: seq<Byte>, i: nat)
    requires i <= |t|
  {
    i > 0 && t[i - 1] == 0x5C && !EscapedAt(t, i - 1)
  }

  lemma {:induction false} EscapedByPrefix(t: seq<Byte>, u: seq<Byte>, i: nat)
    requires i <= |t| && t <= u
    ensures EscapedAt(t, i) == EscapedAt(u, i)
  {
    if i > 0 {
      EscapedByPrefix(t, u, i - 1);
    }
  }

  /** From position n on, every quote of t is escaped, and t ends unescaped. */
  predicate ClosedFrom(t: seq<Byte>, n: nat) {
    !EscapedAt(t, |t|) && forall i :: n <= i < |t| && t[i] == QUOTE ==> EscapedAt(t, i)
  }

  /** A two-byte escape ends unescaped: its second byte is the one escaped. */
  lemma PairIsClosed(p: seq<Byte>, d: Byte)
    requires !EscapedAt(p, |p|)
    ensures ClosedFrom(p + [0x5C, d], |p|) && !EscapedAt(p + [0x5C, d], |p| + 2)
  {
    var t := p + [0x5C, d];
    EscapedByPrefix(p, t, |p|);
    assert EscapedAt(t, |p| + 1) && !EscapedAt(t, |p| + 2);
  }

  /** A byte other than a backslash and a quote is no escape. */
  lemma PlainIsClosed(p: seq<Byte>, c: Byte)
    requires !EscapedAt(p, |p|) && c != 0x5C && c != QUOTE
    ensures ClosedFrom(p + [c], |p|)
  {
    EscapedByPrefix(p, p + [c], |p|);
  }

  lemma UnicodeIsClosed(p: seq<Byte>, a: Byte, b: Byte)
    requires !EscapedAt(p, |p|) && a !in {0x5C, QUOTE} && b !in {0x5C, QUOTE}
    ensures ClosedFrom(p + [0x5C, 0x75, 0x30, 0x30, a, b], |p|)
  {
    var t, q := p + [0x5C, 0x75, 0x30, 0x30, a, b], p + [0x5C, 0x75];
    PairIsClosed(p, 0x75);
    EscapedByPrefix(q, t, |p| + 2);
    assert !EscapedAt(t, |p| + 3) && !EscapedAt(t, |p| + 4) && !EscapedAt(t, |p| + 5) && !EscapedAt(t, |p| + 6);
  }

  lemma EscapeIsClosed(p: seq<Byte>, c: Byte)
    requires !EscapedAt(p, |p|)
    ensures ClosedFrom(p + Escape(c), |p|)
  {
    hide ClosedFrom, EscapedAt;
    var e := Escape(c);
    if |e| == 2 { PairIsClosed(p, e[1]); }
    else if |e| == 6 { UnicodeIsClosed(p, Hex(c / 16), Hex(c % 16)); }
    else { PlainIsClosed(p, c); }
  }

  lemma ClosedJoin(t: seq<Byte>, m: nat, q: seq<Byte>)
    requires q <= t && ClosedFrom(q, m) && ClosedFrom(t, |q|)
    ensures ClosedFrom(t, m)
  {
    forall i | m <= i < |q| && t[i] == QUOTE ensures EscapedAt(t, i) {
      EscapedByPrefix(q, t, i);
    }
  }

  lemma FirstByte(p: seq<Byte>, s: seq<Byte>) returns (q: seq<Byte>)
    requires !EscapedAt(p, |p|) && s != []
    ensures ClosedFrom(q, |p|) && q + Body(s[1..]) == p + Body(s)
  {
    q := p + Escape(s[0]);
    EscapeIsClosed(p, s[0]);
    FirstOfBody(p, s, Escape(s[0]));
  }

  lemma FirstOfBody(p: seq<Byte>, s: seq<Byte>, e: seq<Byte>)
    requires s != [] && e == Escape(s[0])
    ensures (p + e) + Body(s[1..]) == p + Body(s)
  {
    assert Body(s) == e + Body(s[1..]);
  }

  /** Behind text that ends unescaped, every quote of a printed body is escaped, and the text ends unescaped again. */
  lemma {:induction false} BodyIsClosed(p: seq<Byte>, s: seq<Byte>)
    requires !EscapedAt(p, |p|)
    ensures ClosedFrom(p + Body(s), |p|)
    decreases |s|
  {
    if s == [] {
      assert p + Body(s) == p;
    } else {
      var q := FirstByte(p, s);
      BodyIsClosed(q, s[1..]);
      ClosedJoin(q + Body(s[1..]), |p|, q);
    }
  }

  /** The unescaped quotes of the literal are its first and its last byte and no other. */
  lemma OnlyOuterQuotes(s: seq<Byte>)
    ensures var t := Literal(s);
            forall i :: 0 <= i < |t| ==> (t[i] == QUOTE && !EscapedAt(t, i) <==> i == 0 || i == |t| - 1)
  {
    var t, u := Literal(s), [QUOTE] + Body(s);
    assert !EscapedAt([QUOTE], 1);
    BodyIsClosed([QUOTE], s);
    assert u <= t;
    forall i | 0 <= i <= |u| ensures EscapedAt(t, i) == EscapedAt(u, i) {
      EscapedByPrefix(u, t, i);
    }
  }
}
