/** Decimal text and fixed-point rounding: what Go's strconv and big.Rat.FloatString print,
    and what the readers in the payment path make of it. */
module Decimal {

  // ----- digits --------------------------------------------------------

  predicate IsDigit(c: char) { '0' <= c <= '9' }

  predicate AllDigits(s: string) { forall i :: 0 <= i < |s| ==> IsDigit(s[i]) }

  function DigitOf(d: nat): (c: char)
    requires d < 10
    ensures IsDigit(c) && c as int == d + 48
  {
    (d + 48) as char
  }

  /** Base-10 digits of n, most significant first, no leading zero except for 0 itself. */
  function Digits(n: nat): (s: string)
    ensures s != [] && AllDigits(s)
  {
    if n < 10 then [DigitOf(n)] else Digits(n / 10) + [DigitOf(n % 10)]
  }

  /** The number a run of digits denotes. */
  function Value(s: string): nat
    requires AllDigits(s)
  {
    if s == [] then 0 else Value(s[..|s| - 1]) * 10 + (s[|s| - 1] as int - 48)
  }

  lemma {:induction false} ValueOfDigits(n: nat)
    ensures Value(Digits(n)) == n
  {
    if n >= 10 {
      ValueOfDigits(n / 10);
      assert Digits(n)[..|Digits(n)| - 1] == Digits(n / 10);
    }
  }

  function Pow10(k: nat): (p: nat)
    ensures p >= 1
  {
    if k == 0 then 1 else 10 * Pow10(k - 1)
  }

  /** The last k digits of n, zero-padded on the left. */
  function Padded(n: nat, k: nat): (s: string)
    ensures |s| == k && AllDigits(s)
  {
    if k == 0 then [] else Padded(n / 10, k - 1) + [DigitOf(n % 10)]
  }

  lemma {:induction false} ValueOfPadded(n: nat, k: nat)
    requires n < Pow10(k)
    ensures Value(Padded(n, k)) == n
  {
    if k > 0 {
      ValueOfPadded(n / 10, k - 1);
      assert Padded(n, k)[..k - 1] == Padded(n / 10, k - 1);
    }
  }

  // ----- fixed-point text ------------------------------------------------

  /** Decimal places in use: 2 for CNY, 6 for USDT. */
  type Places = k: nat | k == 2 || k == 6 witness 2

  function Unit(k: Places): nat { if k == 2 then 100 else 1000000 }

  lemma UnitIsPow10(k: Places)
    ensures Pow10(k) == Unit(k)
  {
    assert Pow10(3) == 1000;
    assert Pow10(5) == 100000;
  }

  /** q whole units and r fractional ones, written with k decimals. */
  function Text(q: nat, r: nat, k: Places): (s: string) {
    Digits(q) + "." + Padded(r, k)
  }

  /** m units of 10^-k, written with k decimals. */
  function Fixed(m: nat, k: Places): string {
    Text(m / Unit(k), m % Unit(k), k)
  }

  /** Nearest integer, halves up; on magnitudes this is halves away from zero. */
  function Nearest(x: real): (n: int)
    ensures n as real - 0.5 <= x < n as real + 0.5
  {
    (x + 0.5).Floor
  }

  function Abs(x: real): real { if x < 0.0 then -x else x }

  /** m whole and r fractional units make up n units. */
  predicate MakesUp(n: int, q: int, r: int, k: Places) {
    n == if k == 2 then q * 100 + r else q * 1000000 + r
  }

  /** |x| as the nearest number of 10^-k units. */
  function Units(x: real, k: Places): (n: nat)
    ensures k == 2 ==> n as real - 0.5 <= 100.0 * Abs(x) < n as real + 0.5
    ensures k == 6 ==> n as real - 0.5 <= 1000000.0 * Abs(x) < n as real + 0.5
  {
    if k == 2 then Nearest(100.0 * Abs(x)) else Nearest(1000000.0 * Abs(x))
  }

  /** The part after the integer part, scaled, with one unit more when twice the rest reaches a unit. */
  function RoundedRest(x: real, k: Places): (r: nat)
    ensures r <= Unit(k) && MakesUp(Units(x, k), Abs(x).Floor, r, k)
  {
    var f := Abs(x) - Abs(x).Floor as real;
    var t := if k == 2 then 100.0 * f else 1000000.0 * f;
    if 2.0 * (t - t.Floor as real) >= 1.0 then t.Floor + 1 else t.Floor
  }

  /** big.Rat.FloatString(k): integer part, scaled remainder, one rounding step that may carry. */
  function FloatString(x: real, k: Places): string {
    var q, r := Abs(x).Floor, RoundedRest(x, k);
    (if x < 0.0 then "-" else "") + if r >= Unit(k) then Text(q + 1, r - Unit(k), k) else Text(q, r, k)
  }

  lemma FixedOf(n: nat, q: nat, r: nat, k: Places)
    requires r < Unit(k) && MakesUp(n, q, r, k)
    ensures Fixed(n, k) == Text(q, r, k)
  {
  }

  /** The carry-by-hand printer is the fixed-point text of the nearest multiple, ties away from zero. */
  lemma FloatStringRounds(x: real, k: Places)
    ensures FloatString(x, k) == (if x < 0.0 then "-" else "") + Fixed(Units(x, k), k)
  {
    var q, r := Abs(x).Floor, RoundedRest(x, k);
    if r == Unit(k) {
      FixedOf(Units(x, k), q + 1, 0, k);
    } else {
      FixedOf(Units(x, k), q, r, k);
    }
  }

  // ----- reading decimal text back ----------------------------------------

  /** Index of the first '.' or |s|. */
  function DotAt(s: string): (d: nat)
    ensures d <= |s|
    ensures forall i :: 0 <= i < d ==> s[i] != '.'
    ensures d < |s| ==> s[d] == '.'
  {
    if s == [] || s[0] == '.' then 0 else 1 + DotAt(s[1..])
  }

  lemma {:induction false} DotAfter(a: string, b: string)
    requires forall i :: 0 <= i < |a| ==> a[i] != '.'
    ensures DotAt(a + "." + b) == |a|
  {
    var s := a + "." + b;
    assert s[|a|] == '.';
    assert forall i :: 0 <= i < |a| ==> s[i] == a[i];
  }

  /** big.Rat.SetString on plain decimal literals [-]ddd[.ddd]; other notations are not modelled. */
  function Parse(s: string): (r: real) {
    if s != [] && s[0] == '-' then -ParseMagnitude(s[1..]) else ParseMagnitude(s)
  }

  /** v with its decimal point moved k places left. */
  function Shifted(v: real, k: nat): real {
    if k == 0 then v else Shifted(v, k - 1) / 10.0
  }

  lemma ShiftedByUnit(v: real, k: Places)
    ensures Shifted(v, k) == v / Unit(k) as real
  {
    assert Shifted(v, 1) == v / 10.0;
    assert Shifted(v, 2) == v / 100.0;
    if k == 6 {
      assert Shifted(v, 4) == Shifted(v, 2) / 100.0;
      assert Shifted(v, 6) == Shifted(v, 4) / 100.0;
    }
  }

  function ParseMagnitude(s: string): real {
    var d := DotAt(s);
    var whole := s[..d];
    var frac := if d < |s| then s[d + 1..] else "";
    if AllDigits(whole) && AllDigits(frac)
    then Value(whole) as real + Shifted(Value(frac) as real, |frac|)
    else 0.0
  }

  lemma SplitAtDot(a: string, b: string)
    requires forall i :: 0 <= i < |a| ==> a[i] != '.'
    ensures var s := a + "." + b;
            DotAt(s) == |a| < |s| && s[..|a|] == a && s[|a| + 1..] == b
  {
    DotAfter(a, b);
  }

  lemma ParseText(q: nat, r: nat, k: Places)
    requires r < Unit(k)
    ensures ParseMagnitude(Text(q, r, k)) == q as real + r as real / Unit(k) as real
    ensures Text(q, r, k) != [] && IsDigit(Text(q, r, k)[0])
  {
    var a, b := Digits(q), Padded(r, k);
    SplitAtDot(a, b);
    UnitIsPow10(k);
    ShiftedByUnit(r as real, k);
    ValueOfDigits(q);
    ValueOfPadded(r, k);
    assert (a + "." + b)[0] == a[0];
  }

  lemma ParseFixed(m: nat, k: Places)
    ensures ParseMagnitude(Fixed(m, k)) == m as real / Unit(k) as real
    ensures Fixed(m, k) != [] && IsDigit(Fixed(m, k)[0])
  {
    ParseText(m / Unit(k), m % Unit(k), k);
    Recombined(m, k);
  }

  lemma Recombined(m: nat, k: Places)
    ensures (m / Unit(k)) as real + (m % Unit(k)) as real / Unit(k) as real == m as real / Unit(k) as real
  {
    if k == 2 {
      assert m == 100 * (m / 100) + m % 100;
    } else {
      assert m == 1000000 * (m / 1000000) + m % 1000000;
    }
  }

  lemma ParseSigned(s: string)
    requires s != [] && s[0] != '-'
    ensures Parse("-" + s) == -ParseMagnitude(s)
    ensures Parse("" + s) == ParseMagnitude(s)
  {
    assert ("-" + s)[1..] == s;
    assert "" + s == s;
  }

  /** The number a printed x stands for: x rounded to k decimals, ties away from zero. */
  function Rounded(x: real, k: Places): real {
    var a := Units(x, k) as real / Unit(k) as real;
    if x < 0.0 then -a else a
  }

  /** Reading a printed number gives the number rounded to k decimals, with its sign. */
  lemma ParseFloatString(x: real, k: Places)
    ensures Parse(FloatString(x, k)) == Rounded(x, k)
  {
    FloatStringRounds(x, k);
    ParseFixed(Units(x, k), k);
    ParseSigned(Fixed(Units(x, k), k));
  }
}
