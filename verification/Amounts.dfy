/** CNY amounts on the wire: the payment service's cents reader, WeChat's conversions,
    and what the two make of each other's text. */
module Amounts {
  import opened Decimal

  // ----- int64 arithmetic ------------------------------------------------

  const MAX_INT64: int := 0x7FFF_FFFF_FFFF_FFFF
  const MIN_INT64: int := -0x8000_0000_0000_0000

  predicate IsInt64(x: int) { MIN_INT64 <= x <= MAX_INT64 }

  /** Two's-complement wrap-around to 64 bits. */
  function Wrap(x: int): (w: int)
    ensures IsInt64(w)
    ensures IsInt64(x) ==> w == x
    decreases if x > MAX_INT64 then x - MAX_INT64 else MIN_INT64 - x
  {
    if x > MAX_INT64 then Wrap(x - 0x1_0000_0000_0000_0000)
        else if x < MIN_INT64 then Wrap(x + 0x1_0000_0000_0000_0000) else x
  }

  lemma {:induction false} Excess(x: int) returns (k: int)
    ensures x == Wrap(x) + k * 0x1_0000_0000_0000_0000
    decreases if x > MAX_INT64 then x - MAX_INT64 else MIN_INT64 - x
  {
    k := 0;
    if x > MAX_INT64 { k := Excess(x - 0x1_0000_0000_0000_0000); k := k + 1; }
    else if x < MIN_INT64 { k := Excess(x + 0x1_0000_0000_0000_0000); k := k - 1; }
  }

  lemma WrapOnce(x: int)
    ensures Wrap(x + 0x1_0000_0000_0000_0000) == Wrap(x)
  {
    if x + 0x1_0000_0000_0000_0000 <= MAX_INT64 { assert x < MIN_INT64; }
  }

  lemma {:induction false} WrapShift(x: int, k: int)
    ensures Wrap(x + k * 0x1_0000_0000_0000_0000) == Wrap(x)
    decreases if k < 0 then -k else k
  {
    if k > 0 {
      WrapShift(x, k - 1);
      WrapOnce(x + (k - 1) * 0x1_0000_0000_0000_0000);
    } else if k < 0 {
      WrapShift(x, k + 1);
      WrapOnce(x + k * 0x1_0000_0000_0000_0000);
    }
  }

  /** x and y differ by a multiple of 2^64: the same 64-bit pattern. */
  ghost predicate SameBits(x: int, y: int) { exists k :: IsExcess(x, y, k) }

  predicate IsExcess(x: int, y: int, k: int) { x - y == k * 0x1_0000_0000_0000_0000 }

  lemma WrapIsResidue(x: int, y: int)
    ensures Wrap(x) == Wrap(y) <==> SameBits(x, y)
  {
    if Wrap(x) == Wrap(y) {
      var i := Excess(x);
      var j := Excess(y);
      assert IsExcess(x, y, i - j);
    }
    if SameBits(x, y) {
      var k :| IsExcess(x, y, k);
      WrapShift(y, k);
    }
  }

  // Wrapping an operand first does not change a wrapped linear result.

  lemma WrapTen(x: int, d: int)
    ensures Wrap(10 * Wrap(x) + d) == Wrap(10 * x + d)
  {
    var k := Excess(x);
    WrapShift(10 * Wrap(x) + d, 10 * k);
  }

  lemma WrapHundred(x: int, d: int)
    ensures Wrap(100 * Wrap(x) + d) == Wrap(100 * x + d)
  {
    var k := Excess(x);
    WrapShift(100 * Wrap(x) + d, 100 * k);
  }

  lemma WrapNegated(x: int)
    ensures Wrap(-Wrap(x)) == Wrap(-x)
  {
    var k := Excess(x);
    WrapShift(-Wrap(x), -k);
  }

  // ----- cents: the payment service's reader --------------------------------

  /** The digits of s read as a number, everything else skipped. */
  function Skim(s: string): (n: int)
    ensures n >= 0
  {
    if s == [] then 0
    else var n := |s| - 1;
         if IsDigit(s[n]) then Skim(s[..n]) * 10 + (s[n] as int - 48) else Skim(s[..n])
  }

  /** Byte subtraction of '0'; not a digit wraps around modulo 256. */
  function ByteDigit(c: char): nat { (c as int - 48) % 256 }

  function FracDigits(s: string): (n: int)
    ensures n >= 0
  {
    if s == [] then 0 else FracDigits(s[..|s| - 1]) * 10 + ByteDigit(s[|s| - 1])
  }

  function CentsMagnitude(s: string): (n: int)
    ensures n >= 0
  {
    var d := DotAt(s);
    if d == |s| then Skim(s) * 100 else Skim(s[..d]) * 100 + FracCents(UpTo2(s[d + 1..]))
  }

  function UpTo2(s: string): (t: string)
    ensures |t| <= 2
  {
    if |s| > 2 then s[..2] else s
  }

  /** At most two fraction bytes, scaled to cents. */
  function FracCents(frac: string): (n: int)
    ensures n >= 0
  {
    FracDigits(frac) * (if |frac| == 0 then 100 else if |frac| == 1 then 10 else 1)
  }

  /** What cents would return with unbounded integers. */
  function ExactCents(s: string): int {
    if s != [] && s[0] == '-' then -CentsMagnitude(s[1..]) else CentsMagnitude(s)
  }

  method SkimLoop(s: string) returns (n: int)
    ensures n == Wrap(Skim(s))
  {
    n := 0;
    for i := 0 to |s|
      invariant n == Wrap(Skim(s[..i]))
    {
      assert s[..i + 1][..i] == s[..i];
      if IsDigit(s[i]) {
        WrapTen(Skim(s[..i]), s[i] as int - 48);
        n := Wrap(n * 10 + (s[i] as int - 48));
      }
    }
    assert s[..|s|] == s;
  }

  method FracLoop(frac: string) returns (part: int)
    requires |frac| <= 2
    ensures part == FracCents(frac)
  {
    part := 0;
    for i := 0 to |frac|
      invariant part == FracDigits(frac[..i])
    {
      assert frac[..i + 1][..i] == frac[..i];
      part := part * 10 + ByteDigit(frac[i]);
    }
    assert frac[..|frac|] == frac;
    for i := |frac| to 2
      invariant part == FracDigits(frac) * (if i == |frac| then 1 else if i == |frac| + 1 then 10 else 100)
    {
      part := part * 10;
    }
  }

  method Magnitude(t: string) returns (r: int)
    ensures r == Wrap(CentsMagnitude(t))
  {
    var dot := DotAt(t);
    if dot == |t| {
      var n := SkimLoop(t);
      WrapHundred(Skim(t), 0);
      r := Wrap(n * 100);
    } else {
      r := SplitCents(t[..dot], t[dot + 1..]);
    }
  }

  /** Integer cents of a decimal string, in int64 arithmetic. */
  method Cents(s: string) returns (r: int)
    ensures r == Wrap(ExactCents(s))
  {
    if |s| > 0 && s[0] == '-' {
      r := Magnitude(s[1..]);
      WrapNegated(CentsMagnitude(s[1..]));
      r := Wrap(-r);
    } else {
      r := Magnitude(s);
    }
  }

  method SplitCents(whole: string, rest: string) returns (r: int)
    ensures r == Wrap(Skim(whole) * 100 + FracCents(UpTo2(rest)))
  {
    var n := SkimLoop(whole);
    var frac := rest;
    if |frac| > 2 {
      frac := frac[..2];
    }
    var part := FracLoop(frac);
    WrapHundred(Skim(whole), part);
    r := Wrap(n * 100 + part);
  }

  /** The payment service's equality test on amounts. */
  predicate CnyAmountEq(a: string, b: string) { Wrap(ExactCents(a)) == Wrap(ExactCents(b)) }

  // ----- cents undoes the printers --------------------------------------------

  lemma {:induction false} SkimDigits(s: string)
    requires AllDigits(s)
    ensures Skim(s) == Value(s)
  {
    if s != [] { SkimDigits(s[..|s| - 1]); }
  }

  lemma TwoDigits(r: nat)
    requires r < 100
    ensures FracDigits(Padded(r, 2)) == r
  {
    var p := Padded(r, 2);
    var t := Padded(r / 10, 1);
    assert t == Padded(r / 10 / 10, 0) + [DigitOf(r / 10 % 10)];
    assert t == [DigitOf(r / 10)];
    assert p[..1] == t && t[..0] == [];
    assert FracDigits(t) == r / 10;
  }

  lemma CentsOfText(q: nat, r: nat)
    requires r < 100
    ensures CentsMagnitude(Text(q, r, 2)) == q * 100 + r
    ensures Text(q, r, 2) != [] && Text(q, r, 2)[0] != '-'
  {
    var a, b := Digits(q), Padded(r, 2);
    SplitAtDot(a, b);
    SkimDigits(a);
    ValueOfDigits(q);
    TwoDigits(r);
    assert (a + "." + b)[0] == a[0];
  }

  lemma SignedCents(s: string)
    requires s != [] && s[0] != '-'
    ensures ExactCents("-" + s) == -CentsMagnitude(s)
    ensures ExactCents("" + s) == ExactCents(s) == CentsMagnitude(s)
  {
    assert ("-" + s)[1..] == s;
    assert "" + s == s;
  }

  /** Signed cents a two-decimal printer writes for x. */
  function PrintedCents(x: real): int {
    var m: int := Units(x, 2);
    if x < 0.0 then -m else m
  }

  /** Reading back what the two-decimal printer wrote. */
  lemma CentsOfPrinted(x: real)
    ensures ExactCents(FloatString(x, 2)) == PrintedCents(x)
  {
    FloatStringRounds(x, 2);
    var m := Units(x, 2);
    CentsOfText(m / 100, m % 100);
    SignedCents(Fixed(m, 2));
  }

  /** On printed amounts the equality test compares cents, modulo 2^64 and nothing else. */
  lemma AmountEqOnPrinted(x: real, y: real)
    ensures CnyAmountEq(FloatString(x, 2), FloatString(y, 2)) <==> SameBits(PrintedCents(x), PrintedCents(y))
    ensures IsInt64(PrintedCents(x)) && IsInt64(PrintedCents(y)) ==>
              (CnyAmountEq(FloatString(x, 2), FloatString(y, 2)) <==> PrintedCents(x) == PrintedCents(y))
  {
    CentsOfPrinted(x);
    CentsOfPrinted(y);
    WrapIsResidue(PrintedCents(x), PrintedCents(y));
  }

  // ----- WeChat: cents in and out -------------------------------------------------

  /** strconv.ParseInt(s, 10, 64) with its error dropped: 0 on bad syntax, clamped out of range. */
  function ParseInt(s: string): int {
    var neg := s != [] && s[0] == '-';
    var t := if s != [] && (s[0] == '-' || s[0] == '+') then s[1..] else s;
    if t == [] || !AllDigits(t) then 0
    else
      var v: int := if neg then 0 - Value(t) else Value(t);
      if v < MIN_INT64 then MIN_INT64 else if v > MAX_INT64 then MAX_INT64 else v
  }

  function PadTo2(s: string): (p: string)
    requires |s| <= 2
    decreases 2 - |s|
  {
    if |s| < 2 then PadTo2(s + "0") else s
  }

  /** Requested total, in cents, for a CNY string. */
  function RequestedCents(s: string): int {
    var d := DotAt(s);
    if d == |s| then Wrap(ParseInt(s) * 100) else RequestedSplit(s[..d], s[d + 1..])
  }

  function RequestedSplit(whole: string, rest: string): int {
    Wrap(ParseInt(whole) * 100 + ParseInt(PadTo2(UpTo2(rest))))
  }

  method CnyToCents(s: string) returns (n: int)
    ensures n == RequestedCents(s)
  {
    var dot := DotAt(s);
    if dot == |s| {
      return Wrap(ParseInt(s) * 100);
    }
    var frac := s[dot + 1..];
    if |frac| > 2 {
      frac := frac[..2];
    }
    while |frac| < 2
      invariant |frac| <= 2
      invariant PadTo2(frac) == PadTo2(UpTo2(s[dot + 1..]))
      decreases 2 - |frac|
    {
      frac := frac + "0";
    }
    n := Wrap(ParseInt(s[..dot]) * 100 + ParseInt(frac));
  }

  /** Go's truncating division and remainder by 100. */
  function Quo100(c: int): int { if c < 0 then -(-c / 100) else c / 100 }
  function Rem100(c: int): int { if c < 0 then -(-c % 100) else c % 100 }

  /** Text of a cent total as WeChat's notify handler reports it. */
  function CentsToCny(c: int): string {
    var yuan, rest := Quo100(c), Rem100(c);
    var cents: nat := if rest < 0 then -rest else rest;
    if yuan < 0 then "-" + Text(-yuan, cents, 2) else Text(yuan, cents, 2)
  }

  lemma ParseIntOfDigits(q: nat)
    requires q <= MAX_INT64
    ensures ParseInt(Digits(q)) == q
    ensures ParseInt("-" + Digits(q)) == 0 - q
  {
    ValueOfDigits(q);
    assert ("-" + Digits(q))[1..] == Digits(q);
  }

  lemma ParseIntOfPadded(r: nat)
    requires r < 100
    ensures ParseInt(Padded(r, 2)) == r && PadTo2(Padded(r, 2)) == Padded(r, 2)
  {
    UnitIsPow10(2);
    ValueOfPadded(r, 2);
  }

  lemma ReadSplit(whole: string, w: int, r: nat)
    requires ParseInt(whole) == w && r < 100
    ensures RequestedSplit(whole, Padded(r, 2)) == Wrap(w * 100 + r)
  {
    ParseIntOfPadded(r);
  }

  /** Reading a sign-and-digits part and two fraction digits. */
  lemma ReadParts(whole: string, w: int, r: nat)
    requires forall i :: 0 <= i < |whole| ==> whole[i] != '.'
    requires ParseInt(whole) == w && r < 100
    ensures RequestedCents(whole + "." + Padded(r, 2)) == Wrap(w * 100 + r)
  {
    SplitAtDot(whole, Padded(r, 2));
    ReadSplit(whole, w, r);
  }

  lemma ReadText(q: nat, r: nat)
    requires r < 100 && q * 100 + r <= MAX_INT64
    ensures RequestedCents(Text(q, r, 2)) == q * 100 + r
  {
    ParseIntOfDigits(q);
    ReadParts(Digits(q), q, r);
  }

  lemma ReadNegativeText(q: nat, r: nat)
    requires r < 100 && r - q * 100 >= MIN_INT64
    ensures RequestedCents("-" + Text(q, r, 2)) == r - q * 100
  {
    var m, b := "-" + Digits(q), Padded(r, 2);
    ParseIntOfDigits(q);
    ReadParts(m, 0 - q, r);
    NegatedText(q, r);
  }

  lemma NegatedText(q: nat, r: nat)
    ensures "-" + Text(q, r, 2) == "-" + Digits(q) + "." + Padded(r, 2)
  {
  }

  lemma CentsToCnyText(c: int, n: nat)
    requires n == if c < 0 then -c else c
    ensures CentsToCny(c) == if c <= -100 then "-" + Text(n / 100, n % 100, 2) else Text(n / 100, n % 100, 2)
  {
  }

  /** Printing a cent total and reading it back is the identity exactly on the totals
      that are not negative, or negative with no fractional part. */
  lemma WechatTextRoundTrip(c: int)
    requires IsInt64(c)
    ensures RequestedCents(CentsToCny(c)) == c <==> c >= 0 || Rem100(c) == 0
  {
    var n := if c < 0 then -c else c;
    var q, r := n / 100, n % 100;
    CentsToCnyText(c, n);
    if c <= -100 {
      ReadNegativeText(q, r);
    } else {
      ReadText(q, r);
    }
  }

  lemma CentsOfWechatText(c: int)
    ensures ExactCents(CentsToCny(c)) == if -100 < c < 0 then -c else c
  {
    var n := if c < 0 then -c else c;
    CentsToCnyText(c, n);
    CentsOfText(n / 100, n % 100);
    SignedCents(Text(n / 100, n % 100, 2));
  }

  /** Create asks WeChat for exactly the payable cents; the echoed total is then accepted exactly when it
      is that total (a negative total under one yuan loses its sign on the way and is read as positive). */
  lemma WechatAcceptsOwnTotal(payable: real, total: int)
    requires payable >= 0.0 && Units(payable, 2) <= MAX_INT64 && IsInt64(total)
    ensures RequestedCents(FloatString(payable, 2)) == Units(payable, 2)
    ensures CnyAmountEq(FloatString(payable, 2), CentsToCny(total))
            <==> total == Units(payable, 2) || (-100 < total < 0 && -total == Units(payable, 2))
  {
    var m := Units(payable, 2);
    FloatStringRounds(payable, 2);
    ReadText(m / 100, m % 100);
    assert FloatString(payable, 2) == Text(m / 100, m % 100, 2);
    CentsOfPrinted(payable);
    CentsOfWechatText(total);
  }
}
