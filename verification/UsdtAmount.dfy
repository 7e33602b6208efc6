/** The USDT amount shown for a CNY amount: divide, print six decimals, trim. */
module UsdtAmount {
  import opened Decimal

  /** Plain decimal text: an optional minus, then digits with at most one point and at least one digit. */
  predicate Plain(s: string) {
    var t := if s != [] && s[0] == '-' then s[1..] else s;
    var d := DotAt(t);
    && AllDigits(t[..d]) && (d < |t| ==> AllDigits(t[d + 1..]))
    && t != [] && t != "."
  }

  function TrimRight(s: string, c: char): (t: string)
    ensures t <= s && (t == [] || t[|t| - 1] != c)
  {
    if s != [] && s[|s| - 1] == c then TrimRight(s[..|s| - 1], c) else s
  }

  /** Drop trailing zeros and then a trailing point, when there is a point. */
  function Trim(s: string): string {
    if '.' in s then
      var t := TrimRight(TrimRight(s, '0'), '.');
      if t == "" then "0" else t
    else s
  }

  function Convert(cny: string, rate: string): string {
    if !Plain(cny) || !Plain(rate) || Parse(rate) == 0.0 then cny
    else Trim(FloatString(Parse(cny) / Parse(rate), 6))
  }

  // ----- trimming -------------------------------------------------------------------

  lemma {:induction false} TrimRightOf(a: string, b: string, c: char)
    requires a != [] && a[|a| - 1] != c
    ensures TrimRight(a + b, c) == a + TrimRight(b, c)
  {
    var s := a + b;
    if b == [] {
      assert s == a;
    } else if b[|b| - 1] == c {
      assert s[..|s| - 1] == a + b[..|b| - 1];
      TrimRightOf(a, b[..|b| - 1], c);
    }
  }

  lemma {:induction false} ShiftTen(v: real, k: nat)
    ensures Shifted(10.0 * v, k + 1) == Shifted(v, k)
  {
    if k > 0 {
      ShiftTen(v, k - 1);
    }
  }

  /** Trailing zeros of a fraction weigh nothing. */
  lemma {:induction false} TrimmedFraction(f: string)
    requires AllDigits(f)
    ensures AllDigits(TrimRight(f, '0'))
    ensures Shifted(Value(TrimRight(f, '0')) as real, |TrimRight(f, '0')|) == Shifted(Value(f) as real, |f|)
  {
    if f != [] && f[|f| - 1] == '0' {
      var g := f[..|f| - 1];
      TrimmedFraction(g);
      ShiftTen(Value(g) as real, |g|);
    }
  }

  lemma {:induction false} NoDot(a: string)
    requires AllDigits(a)
    ensures DotAt(a) == |a|
  {
  }

  /** What a fraction leaves behind its integer part. */
  function Tail(f: string): (t: string)
    ensures t == "" || t[0] == '.'
  {
    if TrimRight(f, '0') == [] then "" else "." + TrimRight(f, '0')
  }

  lemma TrimZeros(h: string, f: string)
    ensures TrimRight(h + "." + f, '0') == h + "." + TrimRight(f, '0')
  {
    TrimRightOf(h + ".", f, '0');
  }

  lemma TrimPoint(h: string, t: string)
    requires h != [] && h[|h| - 1] != '.'
    requires t != [] ==> t[|t| - 1] != '.'
    ensures TrimRight(h + "." + t, '.') == if t == [] then h else h + "." + t
  {
    var s := h + "." + t;
    if t == [] {
      assert s == h + ".";
      TrimRightOf(h, ".", '.');
      assert "."[..0] == [];
      assert TrimRight(".", '.') == [];
      assert h + [] == h;
    } else {
      assert s[|s| - 1] == t[|t| - 1];
    }
  }

  /** What is left of an integer part, a point and a fraction. */
  lemma TrimmedText(h: string, f: string)
    requires h != [] && h[|h| - 1] != '.' && AllDigits(f)
    ensures Trim(h + "." + f) == h + Tail(f)
  {
    var t := TrimRight(f, '0');
    assert (h + "." + f)[|h|] == '.';
    TrimZeros(h, f);
    TrimPoint(h, t);
    assert h + "" == h;
    assert h + ("." + t) == h + "." + t;
  }

  lemma TrimmedMagnitude(a: string, f: string)
    requires AllDigits(a) && AllDigits(f)
    ensures ParseMagnitude(a + Tail(f)) == ParseMagnitude(a + "." + f)
  {
    var t := TrimRight(f, '0');
    TrimmedFraction(f);
    SplitAtDot(a, f);
    if t == [] {
      NoDot(a);
      assert a + "" == a && a[..|a|] == a;
      assert Shifted(0.0, 0) == 0.0;
    } else {
      SplitAtDot(a, t);
      assert a + ("." + t) == a + "." + t;
    }
  }

  function Sign(x: real): string { if x < 0.0 then "-" else "" }

  /** Sign and integer digits of x printed with six decimals. */
  function Whole(x: real): (w: string)
    ensures w != [] && IsDigit(w[|w| - 1])
  {
    Sign(x) + Digits(Units(x, 6) / 1000000)
  }

  function Fraction(x: real): (f: string)
    ensures |f| == 6 && AllDigits(f)
  {
    Padded(Units(x, 6) % 1000000, 6)
  }

  lemma PrintedParts(x: real)
    ensures FloatString(x, 6) == Whole(x) + "." + Fraction(x)
  {
    hide FloatString;
    FloatStringRounds(x, 6);
    var a, f := Digits(Units(x, 6) / 1000000), Fraction(x);
    assert Sign(x) + (a + "." + f) == Sign(x) + a + "." + f;
  }

  lemma TrimmedParts(x: real)
    ensures Trim(FloatString(x, 6)) == Whole(x) + Tail(Fraction(x))
  {
    hide FloatString, Trim;
    PrintedParts(x);
    TrimmedText(Whole(x), Fraction(x));
  }

  lemma SignedParse(x: real, a: string, r: string)
    requires a != [] && IsDigit(a[0])
    ensures Parse(Sign(x) + a + r) == if x < 0.0 then -ParseMagnitude(a + r) else ParseMagnitude(a + r)
  {
    assert (a + r)[0] == a[0];
    assert Sign(x) + a + r == Sign(x) + (a + r);
    ParseSigned(a + r);
  }

  /** Trimming a printed number keeps its value. */
  lemma TrimKeepsValue(x: real)
    ensures Parse(Trim(FloatString(x, 6))) == Rounded(x, 6)
  {
    var n := Units(x, 6);
    var a := Digits(n / 1000000);
    TrimmedParts(x);
    SignedParse(x, a, Tail(Fraction(x)));
    TrimmedMagnitude(a, Fraction(x));
    ParseFixed(n, 6);
  }

  /** Trimming keeps sign and integer digits and leaves neither a trailing point nor a trailing zero after it;
      the text is never empty. */
  lemma TrimKeepsInteger(x: real)
    ensures var s := Trim(FloatString(x, 6));
            && s != [] && Whole(x) <= s <= FloatString(x, 6)
            && (s == Whole(x) || (|s| > |Whole(x)| + 1 && s[|Whole(x)|] == '.' && s[|s| - 1] !in {'0', '.'}))
  {
    var t := TrimRight(Fraction(x), '0');
    PrintedParts(x);
    TrimmedParts(x);
    if t != [] {
      assert t[|t| - 1] in Fraction(x);
    }
  }

  /** Without a readable rate other than 0, or a readable amount, the amount is taken over as it is. */
  lemma UnreadableIsKept(cny: string, rate: string)
    requires !Plain(cny) || !Plain(rate) || Parse(rate) == 0.0
    ensures Convert(cny, rate) == cny
  {
  }

  /** The text denotes cny / rate to within half a micro-USDT. */
  lemma WithinHalfMicro(cny: string, rate: string)
    requires Plain(cny) && Plain(rate) && Parse(rate) > 0.0
    ensures var x := Parse(cny) / Parse(rate);
            -0.0000005 <= Parse(Convert(cny, rate)) - x <= 0.0000005
  {
    var x := Parse(cny) / Parse(rate);
    TrimKeepsValue(x);
    RoundedIsClose(x);
  }

  lemma RoundedIsClose(x: real)
    ensures -0.0000005 <= Rounded(x, 6) - x <= 0.0000005
  {
  }

  // ----- telling amounts apart ----------------------------------------------------------

  /** Micro-USDT for m cents when one cent is g micro-USDT. */
  function Micros(m: nat, g: real): int { Nearest(m as real * g) }

  lemma {:induction false} SpacedOut(m: nat, n: nat, g: real)
    requires m < n && g >= 1.0
    ensures Micros(m, g) < Micros(n, g)
  {
    Apart(m as real, n as real, g);
  }

  lemma Apart(x: real, y: real, g: real)
    requires x + 1.0 <= y && g >= 1.0 && x >= 0.0
    ensures x * g + 1.0 <= y * g
  {
    assert (y - x) * g >= 1.0 * g;
    assert (y - x) * g == y * g - x * g;
  }

  /** If cents up to n all differ, the n-th needs at least n micro-USDT. */
  lemma {:induction false} Crowded(n: nat, g: real)
    requires g > 0.0 && forall k: nat :: k < n ==> Micros(k, g) != Micros(k + 1, g)
    ensures Micros(n, g) >= n
  {
    if n > 0 {
      Crowded(n - 1, g);
      assert Micros(n - 1, g) != Micros(n - 1 + 1, g);
      assert n as real * g == (n - 1) as real * g + g;
    }
  }

  lemma Reciprocal(h: real) returns (q: real)
    requires h > 0.0
    ensures q > 0.0 && q * h == 1.0
  {
    q := 1.0 / h;
  }

  lemma Above(q: real) returns (n: nat, r: real)
    requires q > 0.0
    ensures r == n as real > q
  {
    n := q.Floor + 1;
    r := n as real;
  }

  lemma Product(x: real, y: real, h: real, xh: real, yh: real)
    requires x < y && h > 0.0 && xh == x * h && yh == y * h
    ensures xh < yh
  {
    assert (y - x) * h > 0.0;
    assert (y - x) * h == y * h - x * h;
  }

  lemma Complement(r: real, g: real, p: real, q: real)
    requires p == r * g && q == r * (1.0 - g)
    ensures p + q == r
  {
  }

  lemma Late(g: real) returns (n: nat)
    requires 0.0 < g < 1.0
    ensures Micros(n, g) < n
  {
    var q := Reciprocal(1.0 - g);
    var r: real;
    n, r := Above(q);
    Product(q, r, 1.0 - g, 1.0, r * (1.0 - g));
    Complement(r, g, r * g, r * (1.0 - g));
    Floored(n, r * g);
  }

  lemma Floored(n: nat, x: real)
    requires x < n as real - 1.0
    ensures Nearest(x) < n
  {
  }

  /** Closer than one micro-USDT apart, two neighbouring cents must share an amount. */
  lemma Collide(g: real) returns (k: nat)
    requires 0.0 < g < 1.0
    ensures Micros(k, g) == Micros(k + 1, g)
  {
    var n := Late(g);
    if forall k: nat :: k < n ==> Micros(k, g) != Micros(k + 1, g) {
      Crowded(n, g);
      assert false;
    }
    k :| k < n && Micros(k, g) == Micros(k + 1, g);
  }

  lemma PrintedIsPlain(m: nat)
    ensures Plain(Fixed(m, 2)) && Parse(Fixed(m, 2)) == m as real / 100.0
  {
    var a, b := Digits(m / 100), Padded(m % 100, 2);
    var s := a + "." + b;
    assert Fixed(m, 2) == s && s[0] == a[0];
    SplitAtDot(a, b);
    ParseFixed(m, 2);
  }

  lemma UnitsDecideText(x: real, y: real)
    requires x >= 0.0 && y >= 0.0 && Units(x, 6) == Units(y, 6)
    ensures FloatString(x, 6) == FloatString(y, 6)
  {
    FloatStringRounds(x, 6);
    FloatStringRounds(y, 6);
  }

  lemma RoundedDecidesUnits(x: real, y: real)
    requires x >= 0.0 && y >= 0.0 && Rounded(x, 6) == Rounded(y, 6)
    ensures Units(x, 6) == Units(y, 6)
  {
    assert Rounded(x, 6) == Units(x, 6) as real / 1000000.0;
    assert Rounded(y, 6) == Units(y, 6) as real / 1000000.0;
  }

  lemma TextDecidesUnits(x: real, y: real)
    requires x >= 0.0 && y >= 0.0 && Trim(FloatString(x, 6)) == Trim(FloatString(y, 6))
    ensures Units(x, 6) == Units(y, 6)
  {
    TrimKeepsValue(x);
    TrimKeepsValue(y);
    RoundedDecidesUnits(x, y);
  }

  lemma MicrosOf(m: nat, r: real, x: real)
    requires r > 0.0 && x == m as real / 100.0 / r
    ensures x >= 0.0 && Units(x, 6) == Micros(m, 10000.0 / r)
  {
    assert 1000000.0 * x == m as real * (10000.0 / r);
  }

  lemma ConvertReads(cny: string, rate: string, c: real, x: real)
    requires Plain(cny) && Plain(rate) && Parse(rate) > 0.0 && Parse(cny) == c && x == c / Parse(rate)
    ensures Convert(cny, rate) == Trim(FloatString(x, 6))
  {
  }

  lemma ConvertPrinted(m: nat, rate: string) returns (x: real)
    requires Plain(rate) && Parse(rate) > 0.0
    ensures x == m as real / 100.0 / Parse(rate)
    ensures Convert(Fixed(m, 2), rate) == Trim(FloatString(x, 6))
  {
    hide Convert, Parse, Plain, Trim, FloatString;
    PrintedIsPlain(m);
    x := m as real / 100.0 / Parse(rate);
    ConvertReads(Fixed(m, 2), rate, m as real / 100.0, x);
  }

  /** The tokens for m and n cents are the same text exactly when they round to the same micro-USDT. */
  lemma TokenIsMicros(m: nat, n: nat, rate: string, g: real)
    requires Plain(rate) && Parse(rate) > 0.0 && g == 10000.0 / Parse(rate)
    ensures Convert(Fixed(m, 2), rate) == Convert(Fixed(n, 2), rate) <==> Micros(m, g) == Micros(n, g)
  {
    hide Convert, Parse, Plain, Trim, FloatString;
    var x := ConvertPrinted(m, rate);
    var y := ConvertPrinted(n, rate);
    MicrosOf(m, Parse(rate), x);
    MicrosOf(n, Parse(rate), y);
    if Units(x, 6) == Units(y, 6) {
      UnitsDecideText(x, y);
    } else if Trim(FloatString(x, 6)) == Trim(FloatString(y, 6)) {
      TextDecidesUnits(x, y);
    }
  }

  /** A text that tells micro amounts apart tells cents apart exactly when a cent is at least one micro-USDT. */
  lemma DistinctIff(text: nat -> string, g: real)
    requires g > 0.0 && forall m: nat, n: nat :: text(m) == text(n) <==> Micros(m, g) == Micros(n, g)
    ensures (forall m: nat, n: nat :: m < n ==> text(m) != text(n)) <==> g >= 1.0
  {
    if g >= 1.0 {
      forall m: nat, n: nat | m < n ensures text(m) != text(n) {
        SpacedOut(m, n, g);
      }
    } else {
      var k := Collide(g);
      assert text(k) == text(k + 1);
    }
  }

  /** The token text for each number of cents. */
  function Token(rate: string): nat -> string {
    (m: nat) => Convert(Fixed(m, 2), rate)
  }

  lemma Spacing(r: real)
    requires r > 0.0
    ensures 10000.0 / r > 0.0 && (10000.0 / r >= 1.0 <==> r <= 10000.0)
  {
    assert (10000.0 / r) * r == 10000.0;
  }

  /** Every two cent amounts have different token texts exactly for rates up to 10000 CNY per USDT. */
  lemma TokensDistinguishCents(rate: string)
    requires Plain(rate) && Parse(rate) > 0.0
    ensures (forall m: nat, n: nat :: m < n ==> Token(rate)(m) != Token(rate)(n)) <==> Parse(rate) <= 10000.0
  {
    var r := Parse(rate);
    var g := 10000.0 / r;
    Spacing(r);
    forall m: nat, n: nat ensures Token(rate)(m) == Token(rate)(n) <==> Micros(m, g) == Micros(n, g) {
      TokenIsMicros(m, n, rate, g);
    }
    DistinctIff(Token(rate), g);
  }
}
