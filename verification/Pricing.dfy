/** Coupon quotes, the amount and discount an order stores, and the amount it later asks for. */
module Pricing {
  import opened Wrappers
  import Decimal
  import Amounts

  /** Two-decimal text: how it is read, how it is printed, and the cents the printer writes. */
  datatype Text = Text(read: string -> real, show: real -> string, cents: real -> int)

  /** n is the nearest cent to x, halves away from zero. */
  predicate IsNearest(x: real, n: int) {
    && (x >= 0.0 ==> n as real - 0.5 <= 100.0 * x < n as real + 0.5)
    && (x < 0.0 ==> n as real - 0.5 < 100.0 * x <= n as real + 0.5)
  }

  /** Printing rounds to the nearest cent, reading undoes printing, cents decide the text of amounts >= 0, and "0.01"
      reads as a hundredth. */
  ghost predicate Faithful(t: Text) {
    && t.read("0.01") == 0.01
    && (forall x: real :: IsNearest(x, t.cents(x)))
    && (forall x: real :: 100.0 * t.read(t.show(x)) == t.cents(x) as real)
    && (forall x: real, y: real :: x >= 0.0 && y >= 0.0 && t.cents(x) == t.cents(y) ==> t.show(x) == t.show(y))
  }

  /** The text the services use: big.Rat's reader and its two-decimal printer. */
  function SourceText(): Text {
    Text(s => Decimal.Parse(s), x => Decimal.FloatString(x, 2), x => Amounts.PrintedCents(x))
  }

  lemma Scaled(n: nat)
    ensures 100.0 * (n as real / Decimal.Unit(2) as real) == n as real
  {
  }

  lemma ReadPrinted(x: real)
    ensures 100.0 * Decimal.Parse(Decimal.FloatString(x, 2)) == Amounts.PrintedCents(x) as real
  {
    Decimal.ParseFloatString(x, 2);
    Scaled(Decimal.Units(x, 2));
  }

  lemma PrintOfCents(x: real, y: real)
    requires x >= 0.0 && y >= 0.0 && Amounts.PrintedCents(x) == Amounts.PrintedCents(y)
    ensures Decimal.FloatString(x, 2) == Decimal.FloatString(y, 2)
  {
    Decimal.FloatStringRounds(x, 2);
    Decimal.FloatStringRounds(y, 2);
  }

  lemma SourceTextIsFaithful()
    ensures Faithful(SourceText())
  {
    var t := SourceText();
    ReadCent();
    forall x: real ensures 100.0 * t.read(t.show(x)) == t.cents(x) as real {
      ReadPrinted(x);
    }
    forall x: real, y: real | x >= 0.0 && y >= 0.0 && t.cents(x) == t.cents(y) ensures t.show(x) == t.show(y) {
      PrintOfCents(x, y);
    }
  }

  // ----- quoting -----------------------------------------------------------------------

  datatype Kind = FixedOff | PercentOff | UnknownKind

  datatype Terms = Terms(active: bool, startsAt: Option<int>, expiresAt: Option<int>, quota: int, used: int,
                         scope: string, minAmount: string, perUser: int, kind: Kind, value: string)

  datatype Refusal = NotFound | OutOfDate | Exhausted | WrongScope | BelowMinimum

  datatype Quote = Quoted(discount: string, final: string) | Refused(why: Refusal)

  datatype Purchase = Purchase(now: int, amount: string, kind: string, usedByUser: int)

  /** What the terms take off an amount: a fixed value or a percentage, never more than the amount. */
  function Discount(t: Text, c: Terms, amount: real): (d: real)
    ensures d <= amount
  {
    var off := if c.kind == FixedOff then t.read(c.value) else amount * t.read(c.value) * t.read("0.01");
    if off > amount then amount else off
  }

  /** QuoteCoupon on the row its code finds; usedByUser is 0 when that count cannot be read. */
  function QuoteCoupon(t: Text, found: Option<Terms>, p: Purchase): (q: Quote)
    ensures q.Quoted? <==> found.Some? && Usable(t, found.value, p)
  {
    if found.None? then Refused(NotFound)
    else
      var c := found.value;
      if !c.active then Refused(OutOfDate)
      else if c.startsAt.Some? && p.now < c.startsAt.value then Refused(OutOfDate)
      else if c.expiresAt.Some? && p.now > c.expiresAt.value then Refused(OutOfDate)
      else if c.quota > 0 && c.used >= c.quota then Refused(Exhausted)
      else if c.scope != "all" && c.scope != p.kind then Refused(WrongScope)
      else if t.read(p.amount) < t.read(c.minAmount) then Refused(BelowMinimum)
      else if c.perUser > 0 && p.usedByUser >= c.perUser then Refused(Exhausted)
      else if c.kind == UnknownKind then Refused(NotFound)
      else
        var a := t.read(p.amount);
        var d := Discount(t, c, a);
        Quoted(t.show(d), t.show(a - d))
  }

  /** Running, unspent in total and for this user, in scope, affordable and of a known kind. */
  predicate Usable(t: Text, c: Terms, p: Purchase) {
    && c.active && c.kind != UnknownKind
    && (c.startsAt.Some? ==> c.startsAt.value <= p.now) && (c.expiresAt.Some? ==> p.now <= c.expiresAt.value)
    && (c.quota <= 0 || c.used < c.quota) && (c.perUser <= 0 || p.usedByUser < c.perUser)
    && (c.scope == "all" || c.scope == p.kind)
    && t.read(c.minAmount) <= t.read(p.amount)
  }

  /** What CreateOrder writes into the amount column; the discount column holds the quoted text. */
  function StoredAmount(t: Text, amount: string): string { t.show(t.read(amount)) }

  /** GetOrderAmount on a stored amount and discount. */
  function OrderAmount(t: Text, stored: string, discount: string): string {
    t.show(t.read(stored) - t.read(discount))
  }

  // ----- what a quote commits the shop to -------------------------------------------------

  lemma OrderedCents(x: real, y: real, m: int, n: int)
    requires x <= y && IsNearest(x, m) && IsNearest(y, n)
    ensures m <= n
  {
  }

  /** In cents: the stored amount, the stored discount, and the amount asked for, which is their difference. */
  lemma StoredCents(t: Text, a: real, d: real) returns (x: real)
    requires Faithful(t) && d <= a
    ensures x == t.read(t.show(a)) - t.read(t.show(d)) && 100.0 * x == (t.cents(a) - t.cents(d)) as real
    ensures x >= 0.0 && t.cents(x) == t.cents(a) - t.cents(d)
    ensures 100.0 * t.read(t.show(a)) == t.cents(a) as real && 100.0 * t.read(t.show(d)) == t.cents(d) as real
  {
    x := t.read(t.show(a)) - t.read(t.show(d));
    OrderedCents(d, a, t.cents(d), t.cents(a));
    assert IsNearest(x, t.cents(x));
  }

  lemma Hundredth(a: real, v: real)
    ensures a * v * 0.01 == a * v / 100.0
  {
  }

  /** What a coupon of value v takes off an amount, in arithmetic: the value itself or that many hundredths of the
      amount, and never more than the amount. */
  function TakenOff(kind: Kind, v: real, a: real): real {
    var off := match kind case FixedOff => v case _ => a * v / 100.0;
    if off <= a then off else a
  }

  lemma DiscountIs(t: Text, c: Terms, a: real)
    requires Faithful(t)
    ensures Discount(t, c, a) == TakenOff(c.kind, t.read(c.value), a)
  {
    hide IsNearest;
    Hundredth(a, t.read(c.value));
  }

  lemma ShowsNearest(t: Text, x: real) returns (n: int)
    requires Faithful(t)
    ensures 100.0 * t.read(t.show(x)) == n as real && IsNearest(x, n) && n == t.cents(x)
  {
    hide IsNearest;
    n := t.cents(x);
  }

  /** Every quote, in arithmetic: the discount shown is what the coupon takes off, to the nearest cent, and the final is
      the rest of the amount, to the nearest cent. */
  lemma QuoteTakesOff(t: Text, found: Option<Terms>, p: Purchase) returns (d: int, f: int)
    requires Faithful(t) && QuoteCoupon(t, found, p).Quoted?
    ensures var q, a := QuoteCoupon(t, found, p), t.read(p.amount);
            var taken := TakenOff(found.value.kind, t.read(found.value.value), a);
            && 100.0 * t.read(q.discount) == d as real && IsNearest(taken, d)
            && 100.0 * t.read(q.final) == f as real && IsNearest(a - taken, f)
  {
    var a := t.read(p.amount);
    DiscountIs(t, found.value, a);
    hide Discount, IsNearest, Faithful, TakenOff;
    var taken := Discount(t, found.value, a);
    d := ShowsNearest(t, taken);
    f := ShowsNearest(t, a - taken);
  }

  /** Every refusal names the first rule that fails. */
  lemma RefusalNamesFirstRule(t: Text, c: Terms, p: Purchase)
    ensures var q := QuoteCoupon(t, Some(c), p);
            var running := c.active && (c.startsAt.None? || c.startsAt.value <= p.now) &&
                             (c.expiresAt.None? || p.now <= c.expiresAt.value);
            var unspent := c.quota <= 0 || c.used < c.quota;
            var inScope := c.scope == "all" || c.scope == p.kind;
            var enough := t.read(c.minAmount) <= t.read(p.amount);
            var unused := c.perUser <= 0 || p.usedByUser < c.perUser;
            && (q == Refused(OutOfDate) <==> !running)
            && (q == Refused(WrongScope) <==> running && unspent && !inScope)
            && (q == Refused(BelowMinimum) <==> running && unspent && inScope && !enough)
            && (q == Refused(Exhausted) <==> running && (!unspent || (inScope && enough && !unused)))
            && (q == Refused(NotFound) <==>
                  running && unspent && inScope && enough && unused && c.kind == UnknownKind)
            && QuoteCoupon(t, None, p) == Refused(NotFound)
  {
  }

  /** For every amount and every terms: the stored discount never exceeds the stored amount, discount and
      payable add up to it exactly, the payable is never negative, and the final a quote showed is within
      one cent of it. */
  lemma QuotedOrderAddsUp(t: Text, found: Option<Terms>, p: Purchase)
    requires Faithful(t) && QuoteCoupon(t, found, p).Quoted?
    ensures var q, stored := QuoteCoupon(t, found, p), StoredAmount(t, p.amount);
            var payable := t.read(OrderAmount(t, stored, q.discount));
            && t.read(q.discount) <= t.read(stored)
            && t.read(q.discount) + payable == t.read(stored)
            && payable >= 0.0
            && -0.01 <= t.read(q.final) - payable <= 0.01
  {
    StoredAddsUp(t, t.read(p.amount), Discount(t, found.value, t.read(p.amount)));
  }

  lemma StoredAddsUp(t: Text, a: real, d: real)
    requires Faithful(t) && d <= a
    ensures var stored, discount, final := t.read(t.show(a)), t.read(t.show(d)), t.read(t.show(a - d));
            var payable := t.read(t.show(stored - discount));
            && discount <= stored && discount + payable == stored && payable >= 0.0
            && -0.01 <= final - payable <= 0.01
  {
    var x := StoredCents(t, a, d);
    assert 100.0 * t.read(t.show(x)) == t.cents(x) as real;
    assert 100.0 * t.read(t.show(a - d)) == t.cents(a - d) as real;
    assert IsNearest(a, t.cents(a)) && IsNearest(d, t.cents(d)) && IsNearest(a - d, t.cents(a - d));
  }

  /** d lies exactly on half a cent. */
  predicate HalfCent(d: real) {
    (100.0 * d - 0.5).Floor as real == 100.0 * d - 0.5
  }

  lemma RemainderCents(m: int, a: real, d: real, n: int, f: int)
    requires 100.0 * a == m as real && d <= a && IsNearest(d, n) && IsNearest(a - d, f)
    ensures f == m - n <==> !(d > 0.0 && HalfCent(d))
  {
    if d > 0.0 && HalfCent(d) {
      assert n == (100.0 * d - 0.5).Floor + 1;
    }
  }

  /** On whole-cent amounts the final a quote showed is the text the order later asks for, except exactly
      when a positive discount falls on half a cent (both sides then round away from zero). */
  lemma FinalIsPayable(t: Text, found: Option<Terms>, p: Purchase, m: int)
    requires Faithful(t) && QuoteCoupon(t, found, p).Quoted?
    requires 100.0 * t.read(p.amount) == m as real
    ensures var q, d := QuoteCoupon(t, found, p), Discount(t, found.value, t.read(p.amount));
            q.final == OrderAmount(t, StoredAmount(t, p.amount), q.discount) <==> !(d > 0.0 && HalfCent(d))
  {
    var a := t.read(p.amount);
    var d := Discount(t, found.value, a);
    var x := StoredCents(t, a, d);
    assert IsNearest(a, t.cents(a));
    assert t.cents(a) == m;
    assert IsNearest(d, t.cents(d)) && IsNearest(a - d, t.cents(a - d));
    RemainderCents(m, a, d, t.cents(d), t.cents(a - d));
    assert 100.0 * t.read(t.show(x)) == t.cents(x) as real;
    assert 100.0 * t.read(t.show(a - d)) == t.cents(a - d) as real;
  }

  lemma ReadPrice(q: nat, r: nat, s: string)
    requires r < 100 && s == Decimal.Text(q, r, 2)
    ensures Decimal.Parse(s) == q as real + r as real / 100.0
  {
    Decimal.ParseText(q, r, 2);
    assert Decimal.IsDigit(s[0]);
  }

  lemma ReadTenth()
    ensures Decimal.Parse("0.10") == 0.1
  {
    assert Decimal.Digits(0) == "0" && Decimal.Padded(1, 1) == "1" && Decimal.Padded(10, 2) == "10";
    assert Decimal.Text(0, 10, 2) == "0.10";
    ReadPrice(0, 10, "0.10");
  }

  lemma ReadCent()
    ensures Decimal.Parse("0.01") == 0.01
  {
    assert Decimal.Digits(0) == "0" && Decimal.Padded(0, 1) == "0" && Decimal.Padded(1, 2) == "01";
    assert Decimal.Text(0, 1, 2) == "0.01";
    ReadPrice(0, 1, "0.01");
  }

  lemma ReadQuarter()
    ensures Decimal.Parse("25.00") == 25.0
  {
    assert Decimal.Digits(2) == "2" && Decimal.Digits(25) == "25";
    assert Decimal.Padded(0, 1) == "0" && Decimal.Padded(0, 2) == "00";
    assert Decimal.Text(25, 0, 2) == "25.00";
    ReadPrice(25, 0, "25.00");
  }

  /** 25% off 0.10 takes 2.5 cents: the quote shows 0.08 and the order asks for 0.07. */
  lemma HalfCentIsLost(c: Terms, p: Purchase)
    requires p.amount == "0.10" && c.kind == PercentOff && c.value == "25.00" && Usable(SourceText(), c, p)
    ensures var t := SourceText();
            var q := QuoteCoupon(t, Some(c), p);
            && 100.0 * t.read(q.final) == 8.0
            && 100.0 * t.read(OrderAmount(t, StoredAmount(t, p.amount), q.discount)) == 7.0
  {
    ReadTenth();
    ReadQuarter();
    SourceTextIsFaithful();
    TenthLosesHalfACent(SourceText(), c, p);
  }

  lemma TenthLosesHalfACent(t: Text, c: Terms, p: Purchase)
    requires Faithful(t) && t.read(p.amount) == 0.1 && t.read(c.value) == 25.0
    requires c.kind == PercentOff && Usable(t, c, p)
    ensures var q := QuoteCoupon(t, Some(c), p);
            100.0 * t.read(q.final) == 8.0 && 100.0 * t.read(OrderAmount(t, StoredAmount(t, p.amount), q.discount)) ==
                7.0
  {
    assert Discount(t, c, 0.1) == 0.025;
    var x := StoredCents(t, 0.1, 0.025);
    assert IsNearest(0.1, t.cents(0.1)) && IsNearest(0.025, t.cents(0.025)) &&
        IsNearest(0.1 - 0.025, t.cents(0.1 - 0.025));
    assert t.cents(0.1) == 10 && t.cents(0.025) == 3 && t.cents(0.1 - 0.025) == 8;
    assert 100.0 * t.read(t.show(x)) == t.cents(x) as real;
    assert 100.0 * t.read(t.show(0.1 - 0.025)) == t.cents(0.1 - 0.025) as real;
  }
}
