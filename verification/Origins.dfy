/** Where rows come from: over every run, an order holds what the CreateOrder call that placed it asked for, and a
    payment what the CreatePayment call that stored it asked for. */
module Origins {
  import opened Wrappers
  import opened Tables
  import opened Machine
  import opened Growth
  import Pricing
  import Decimal
  import Amounts

  /** The CreateOrder and CreatePayment calls among these events. */
  function Calls(evs: seq<Event>): set<Thread> {
    set i | 0 <= i < |evs| && evs[i].Spawn? && (evs[i].th.CreateLookup? || evs[i].th.PayAmount?) :: evs[i].th
  }

  // ----- the invariant ----------------------------------------------------------------------------

  predicate AsOrdered(no: string, o: Order, input: NewOrder) {
    && input.no == no && o.user == input.user && o.key == input.key && o.item == input.item
    && o.amount == input.amount && o.discount == input.discount && o.coupon == input.coupon
  }

  /** Of this order and channel, its amount and owner those of the order, its tokens those the provider answered. */
  predicate AsAsked(m: Money, orders: map<string, Order>, p: Payment, no: string, ch: Channel, mint: Mint) {
    && p.order == no && p.channel == ch && p.token == mint.token
    && no in orders && p.user == orders[no].user && p.amount == m.net(orders[no].amount, orders[no].discount)
  }

  ghost predicate OrderTraced(calls: set<Thread>, no: string, o: Order) {
    exists input :: CreateLookup(input) in calls && AsOrdered(no, o, input)
  }

  ghost predicate PaymentTraced(m: Money, calls: set<Thread>, orders: map<string, Order>, p: Payment) {
    exists no, ch, mint :: PayAmount(no, ch, mint) in calls && AsAsked(m, orders, p, no, ch, mint)
  }

  ghost predicate ThreadTraced(m: Money, calls: set<Thread>, orders: map<string, Order>, th: Thread) {
    match th
    case CreateLookup(input) => CreateLookup(input) in calls
    case CreateClock(input) => CreateLookup(input) in calls
    case CreateInsert(input, _) => CreateLookup(input) in calls
    case PayAmount(_, _, _) => th in calls
    case PayLookup(no, ch, mint, user, amount) => Asking(m, calls, orders, no, ch, mint, user, amount)
    case PayClock(no, ch, mint, user, amount, _, _) => Asking(m, calls, orders, no, ch, mint, user, amount)
    case PayMint(no, ch, mint, user, amount, _) => Asking(m, calls, orders, no, ch, mint, user, amount)
    case PayInsert(row) => PaymentTraced(m, calls, orders, row)
    case _ => true
  }

  predicate Asking(m: Money, calls: set<Thread>, orders: map<string, Order>, no: string, ch: Channel, mint: Mint,
                   user: nat, amount: string) {
    PayAmount(no, ch, mint) in calls && no in orders && user == orders[no].user &&
    amount == m.net(orders[no].amount, orders[no].discount)
  }

  ghost predicate OrdersTraced(calls: set<Thread>, db: Db) {
    forall no :: no in db.orders ==> OrderTraced(calls, no, db.orders[no])
  }

  ghost predicate PaymentsTraced(m: Money, calls: set<Thread>, db: Db) {
    forall i :: 0 <= i < |db.payments| ==> PaymentTraced(m, calls, db.orders, db.payments[i])
  }

  ghost predicate Traced(w: World, calls: set<Thread>) {
    && OrdersTraced(calls, w.s.db) && PaymentsTraced(w.cfg.money, calls, w.s.db)
    && forall t :: t in w.threads ==> ThreadTraced(w.cfg.money, calls, w.s.db.orders, w.threads[t])
  }

  // ----- steps ----------------------------------------------------------------------------------------

  lemma ThreadStays(m: Money, calls: set<Thread>, a: map<string, Order>, b: map<string, Order>, th: Thread)
    requires OrdersGrow(a, b) && ThreadTraced(m, calls, a, th)
    ensures ThreadTraced(m, calls, b, th)
  {
    if th.PayInsert? { PaymentStaysTraced(m, calls, a, b, th.row, th.row); }
  }

  lemma PaymentStaysTraced(m: Money, calls: set<Thread>, a: map<string, Order>, b: map<string, Order>, p: Payment,
                           p': Payment)
    requires OrdersGrow(a, b) && PaymentTraced(m, calls, a, p) && SamePayment(p, p')
    ensures PaymentTraced(m, calls, b, p')
  {
    var no, ch, mint :| PayAmount(no, ch, mint) in calls && AsAsked(m, a, p, no, ch, mint);
    assert SameOrder(a[no], b[no]);
    assert AsAsked(m, b, p', no, ch, mint);
  }

  lemma OrderStaysTraced(calls: set<Thread>, no: string, o: Order, o': Order)
    requires OrderTraced(calls, no, o) && SameOrder(o, o')
    ensures OrderTraced(calls, no, o')
  {
    var input :| CreateLookup(input) in calls && AsOrdered(no, o, input);
    assert AsOrdered(no, o', input);
  }

  lemma CreateTraced(cfg: Config, calls: set<Thread>, s: Shared, th: Thread, out: Outcome)
    requires th.CreateLookup? || th.CreateClock? || th.CreateInsert? || th.CreateRefetch?
    requires OrdersTraced(calls, s.db) && ThreadTraced(cfg.money, calls, s.db.orders, th)
    ensures var (s', th') := AdvanceCreate(cfg, s, th, out);
            OrdersTraced(calls, s'.db) && ThreadTraced(cfg.money, calls, s'.db.orders, th')
  {
    var s' := AdvanceCreate(cfg, s, th, out).0;
    forall no | no in s'.db.orders ensures OrderTraced(calls, no, s'.db.orders[no]) {
      if no !in s.db.orders { assert AsOrdered(no, s'.db.orders[no], th.input); }
    }
  }

  lemma PayTraced(cfg: Config, calls: set<Thread>, s: Shared, tid: nat, th: Thread, out: Outcome)
    requires PayPhase(th) && ThreadTraced(cfg.money, calls, s.db.orders, th) && PaymentsTraced(cfg.money, calls, s.db)
    ensures var (s', th') := AdvancePay(cfg, s, tid, th, out);
            PaymentsTraced(cfg.money, calls, s'.db) && ThreadTraced(cfg.money, calls, s'.db.orders, th')
  {
    hide FindActiveByOrder, NextFree, TradeTaken;
    var th' := AdvancePay(cfg, s, tid, th, out).1;
    if th.PayMint? && th'.PayInsert? {
      assert AsAsked(cfg.money, s.db.orders, th'.row, th.no, th.channel, th.mint);
    }
  }

  lemma VerifyUntraced(cfg: Config, calls: set<Thread>, s: Shared, th: Thread, out: Outcome)
    requires VerifyPhase(th)
    ensures var (s', th') := AdvanceVerify(cfg, s, th, out);
            |s'.db.payments| == |s.db.payments| && ThreadTraced(cfg.money, calls, s'.db.orders, th')
  {
    hide FindByAddress, FindByTradeNo, FindActiveByOrder;
  }

  lemma PaidUntraced(cfg: Config, calls: set<Thread>, s: Shared, tid: nat, th: Thread, out: Outcome)
    requires PaidPhase(th)
    ensures var (s', th') := AdvancePaid(cfg, s, tid, th, out);
            |s'.db.payments| == |s.db.payments| && s'.db.orders.Keys == s.db.orders.Keys &&
            ThreadTraced(cfg.money, calls, s'.db.orders, th')
  {
  }

  lemma OtherUntraced(cfg: Config, calls: set<Thread>, s: Shared, th: Thread, out: Outcome)
    requires OtherPhase(th)
    ensures var (s', th') := AdvanceOther(s, th, out);
            |s'.db.payments| == |s.db.payments| && s'.db.orders.Keys == s.db.orders.Keys &&
            ThreadTraced(cfg.money, calls, s'.db.orders, th')
  {
  }

  lemma RowsStayTraced(m: Money, calls: set<Thread>, s: Shared, s': Shared)
    requires Grows(s, s')
    ensures PaymentsTraced(m, calls, s.db) && |s'.db.payments| == |s.db.payments| ==> PaymentsTraced(m, calls, s'.db)
    ensures OrdersTraced(calls, s.db) && s'.db.orders.Keys == s.db.orders.Keys ==> OrdersTraced(calls, s'.db)
  {
    if PaymentsTraced(m, calls, s.db) && |s'.db.payments| == |s.db.payments| {
      forall i | 0 <= i < |s'.db.payments| ensures PaymentTraced(m, calls, s'.db.orders, s'.db.payments[i]) {
        PaymentStaysTraced(m, calls, s.db.orders, s'.db.orders, s.db.payments[i], s'.db.payments[i]);
      }
    }
    if OrdersTraced(calls, s.db) && s'.db.orders.Keys == s.db.orders.Keys {
      forall no | no in s'.db.orders ensures OrderTraced(calls, no, s'.db.orders[no]) {
        OrderStaysTraced(calls, no, s.db.orders[no], s'.db.orders[no]);
      }
    }
  }

  lemma AdvanceTraced(cfg: Config, calls: set<Thread>, s: Shared, tid: nat, th: Thread, out: Outcome)
    requires OrdersTraced(calls, s.db) && PaymentsTraced(cfg.money, calls, s.db) &&
              ThreadTraced(cfg.money, calls, s.db.orders, th)
    ensures var (s', th') := Advance(cfg, s, tid, th, out);
            OrdersTraced(calls, s'.db) && PaymentsTraced(cfg.money, calls, s'.db) &&
            ThreadTraced(cfg.money, calls, s'.db.orders, th')
  {
    hide AdvanceCreate, AdvancePay, AdvanceVerify, AdvancePaid, AdvanceOther;
    AdvanceGrows(cfg, s, tid, th, out);
    RowsStayTraced(cfg.money, calls, s, Advance(cfg, s, tid, th, out).0);
    hide OrdersTraced, PaymentsTraced, ThreadTraced;
    if th.CreateLookup? || th.CreateClock? || th.CreateInsert? || th.CreateRefetch? {
      CreateTraced(cfg, calls, s, th, out);
      CreateStoresNone(cfg, s, th, out);
    }
    else if PayPhase(th) { PayTraced(cfg, calls, s, tid, th, out); PayKeepsOrders(cfg, s, tid, th, out); }
    else if VerifyPhase(th) { VerifyUntraced(cfg, calls, s, th, out); VerifyKeepsOrders(cfg, s, th, out); }
    else if PaidPhase(th) { PaidUntraced(cfg, calls, s, tid, th, out); }
    else if OtherPhase(th) { OtherUntraced(cfg, calls, s, th, out); }
  }

  lemma CreateStoresNone(cfg: Config, s: Shared, th: Thread, out: Outcome)
    requires th.CreateLookup? || th.CreateClock? || th.CreateInsert? || th.CreateRefetch?
    ensures AdvanceCreate(cfg, s, th, out).0.db.payments == s.db.payments
  {
  }

  lemma MoreCalls(w: World, a: set<Thread>, b: set<Thread>)
    requires Traced(w, a) && a <= b
    ensures Traced(w, b)
  {
  }

  lemma StepTraced(w: World, e: Event, calls: set<Thread>)
    requires Traced(w, calls)
    ensures Traced(Step(w, e), calls + Calls([e])) && Step(w, e).cfg == w.cfg
  {
    hide Advance;
    var w' := Step(w, e);
    MoreCalls(w, calls, calls + Calls([e]));
    hide ThreadTraced, OrdersTraced, PaymentsTraced;
    var more := calls + Calls([e]);
    StepGrows(w, e);
    match e {
      case AddAddresses(addrs) => SeedFrame(w.s.db, addrs); RowsStayTraced(w.cfg.money, more, w.s, w'.s);
      case Run(tid, out) => if tid in w.threads { AdvanceTraced(w.cfg, more, w.s, tid, w.threads[tid], out); }
      case Spawn(tid, th) => if CanStart(w.cfg, th) { SpawnTraced(w.cfg, more, w.s, tid, th); }
      case Tick(d) => RowsStayTraced(w.cfg.money, more, w.s, w'.s);
    }
    forall t | t in w'.threads ensures ThreadTraced(w'.cfg.money, more, w'.s.db.orders, w'.threads[t]) {
      if t in w.threads && w.threads[t] == w'.threads[t] {
        ThreadStays(w.cfg.money, more, w.s.db.orders, w'.s.db.orders, w.threads[t]);
      }
    }
  }

  lemma SpawnTraced(cfg: Config, calls: set<Thread>, s: Shared, tid: nat, th: Thread)
    requires CanStart(cfg, th) && Calls([Spawn(tid, th)]) <= calls
    ensures ThreadTraced(cfg.money, calls, s.db.orders, th)
  {
    assert [Spawn(tid, th)][0].th == th;
  }

  lemma {:induction false} RunTraced(w: World, evs: seq<Event>, calls: set<Thread>)
    requires Traced(w, calls)
    ensures Traced(RunAll(w, evs), calls + Calls(evs)) && RunAll(w, evs).cfg == w.cfg
    decreases |evs|
  {
    if evs == [] {
      assert calls + Calls(evs) == calls;
    } else {
      StepTraced(w, evs[0], calls);
      RunTraced(Step(w, evs[0]), evs[1..], calls + Calls([evs[0]]));
      CallsJoin(evs);
      hide Step, Traced, Calls;
      assert calls + Calls([evs[0]]) + Calls(evs[1..]) == calls + Calls(evs);
    }
  }

  lemma CallsJoin(evs: seq<Event>)
    requires evs != []
    ensures Calls(evs) == Calls([evs[0]]) + Calls(evs[1..])
  {
    forall th ensures th in Calls(evs) <==> th in Calls([evs[0]]) + Calls(evs[1..]) {
      if th in Calls(evs) {
        var i :| 0 <= i < |evs| && evs[i].Spawn? && evs[i].th == th;
        if i == 0 { assert [evs[0]][0] == evs[0]; } else { assert evs[1..][i - 1] == evs[i]; }
      }
    }
  }

  // ----- what every run keeps -----------------------------------------------------------------------------

  /** On every run, every order comes from a CreateOrder call of that run, and holds its user, key, item, amount,
      discount and coupon. */
  lemma OrdersAsRequested(cfg: Config, evs: seq<Event>, no: string) returns (k: nat)
    requires no in RunAll(Init(cfg), evs).s.db.orders
    ensures k < |evs| && evs[k].Spawn? && evs[k].th.CreateLookup?
    ensures var o, input := RunAll(Init(cfg), evs).s.db.orders[no], evs[k].th.input;
            && input.no == no && o.user == input.user && o.key == input.key && o.item == input.item
            && o.amount == input.amount && o.discount == input.discount && o.coupon == input.coupon
  {
    RunTraced(Init(cfg), evs, {});
    var o := RunAll(Init(cfg), evs).s.db.orders[no];
    assert OrderTraced({} + Calls(evs), no, o);
    var input :| CreateLookup(input) in Calls(evs) && AsOrdered(no, o, input);
    k :| 0 <= k < |evs| && evs[k].Spawn? && evs[k].th == CreateLookup(input);
  }

  /** On every run, every payment comes from a CreatePayment call of that run: it is for that call's order and
      channel, for as many tokens as the provider answered, and its owner and amount are the order's. */
  lemma PaymentsAsRequested(cfg: Config, evs: seq<Event>, i: nat) returns (k: nat)
    requires i < |RunAll(Init(cfg), evs).s.db.payments|
    ensures k < |evs| && evs[k].Spawn? && evs[k].th.PayAmount?
    ensures var db, th := RunAll(Init(cfg), evs).s.db, evs[k].th; var p := db.payments[i];
            && p.order == th.no && p.channel == th.channel && p.token == th.mint.token
            && p.order in db.orders && p.user == db.orders[p.order].user
            && p.amount == cfg.money.net(db.orders[p.order].amount, db.orders[p.order].discount)
  {
    RunTraced(Init(cfg), evs, {});
    var db := RunAll(Init(cfg), evs).s.db;
    assert PaymentTraced(cfg.money, {} + Calls(evs), db.orders, db.payments[i]);
    var no, ch, mint :| PayAmount(no, ch, mint) in Calls(evs) &&
      AsAsked(cfg.money, db.orders, db.payments[i], no, ch, mint);
    k :| 0 <= k < |evs| && evs[k].Spawn? && evs[k].th == PayAmount(no, ch, mint);
  }

  // ----- priced by a quote ------------------------------------------------------------------------------------

  lemma NoDiscount()
    ensures Decimal.Parse("0.00") == 0.0
  {
    assert Decimal.Digits(0) == "0" && Decimal.Padded(0, 1) == "0" && Decimal.Padded(0, 2) == "00";
    assert Decimal.Text(0, 0, 2) == "0.00";
    Pricing.ReadPrice(0, 0, "0.00");
  }

  lemma NearestWhole(x: real, n: int, k: int)
    requires 100.0 * x == n as real && Pricing.IsNearest(x, k)
    ensures k == n
  {
  }

  lemma ShownCents(x: real, n: int)
    requires 100.0 * x == n as real
    ensures var net := Decimal.FloatString(x, 2);
            100.0 * Decimal.Parse(net) == n as real && Amounts.ExactCents(net) == n
  {
    Pricing.SourceTextIsFaithful();
    hide Decimal.FloatString, Decimal.Parse, Amounts.ExactCents, Amounts.PrintedCents;
    var k := Pricing.ShowsNearest(Pricing.SourceText(), x);
    NearestWhole(x, n, k);
    Amounts.CentsOfPrinted(x);
  }

  /** A stored amount less a stored discount, in whole cents, is the payable text and the cents a top-up adds. */
  lemma PayableCents(amount: string, discount: string, a: int, d: int)
    requires 100.0 * Decimal.Parse(amount) == a as real && 100.0 * Decimal.Parse(discount) == d as real
    ensures var net := SourceMoney().net(amount, discount);
            100.0 * Decimal.Parse(net) == (a - d) as real && SourceMoney().cents(net) == a - d
  {
    hide Decimal.FloatString, Decimal.Parse, Amounts.ExactCents;
    ShownCents(Decimal.Parse(amount) - Decimal.Parse(discount), a - d);
  }

  /** With the services' own texts, on every run: when a CreateOrder call carries the amount the shop stores for a
      purchase and the discount its coupon was quoted, then every payment of that order asks for the amount to the
      nearest cent less what the coupon takes off to the nearest cent, and a top-up adds just that. */
  lemma PaymentAsksQuoted(cfg: Config, evs: seq<Event>, i: nat, found: Option<Pricing.Terms>, p: Pricing.Purchase)
    returns (k: nat, a: int, d: int)
    requires cfg.money == SourceMoney() && i < |RunAll(Init(cfg), evs).s.db.payments|
    requires Pricing.QuoteCoupon(Pricing.SourceText(), found, p).Quoted?
    ensures k < |evs| && evs[k].Spawn? && evs[k].th.CreateLookup?
    ensures evs[k].th.input.no == RunAll(Init(cfg), evs).s.db.payments[i].order
    ensures var x, v := Decimal.Parse(p.amount), Decimal.Parse(found.value.value);
            Pricing.IsNearest(x, a) && Pricing.IsNearest(Pricing.TakenOff(found.value.kind, v, x), d)
    ensures var input, pay := evs[k].th.input, RunAll(Init(cfg), evs).s.db.payments[i];
            input.amount == Pricing.StoredAmount(Pricing.SourceText(), p.amount) &&
            input.discount == Pricing.QuoteCoupon(Pricing.SourceText(), found, p).discount ==>
              100.0 * Decimal.Parse(pay.amount) == (a - d) as real && SourceMoney().cents(pay.amount) == a - d
  {
    var db := RunAll(Init(cfg), evs).s.db;
    var _ := PaymentsAsRequested(cfg, evs, i);
    k := OrdersAsRequested(cfg, evs, db.payments[i].order);
    var o := db.orders[db.payments[i].order];
    a, d := QuotedCents(found, p, o.amount, o.discount);
  }

  /** The texts an order stores for a quoted purchase, and what they come to. */
  lemma QuotedCents(found: Option<Pricing.Terms>, p: Pricing.Purchase, amount: string, discount: string)
    returns (a: int, d: int)
    requires Pricing.QuoteCoupon(Pricing.SourceText(), found, p).Quoted?
    ensures var x, v := Decimal.Parse(p.amount), Decimal.Parse(found.value.value);
            Pricing.IsNearest(x, a) && Pricing.IsNearest(Pricing.TakenOff(found.value.kind, v, x), d)
    ensures amount == Pricing.StoredAmount(Pricing.SourceText(), p.amount) &&
            discount == Pricing.QuoteCoupon(Pricing.SourceText(), found, p).discount ==>
              var net := SourceMoney().net(amount, discount);
              100.0 * Decimal.Parse(net) == (a - d) as real && SourceMoney().cents(net) == a - d
  {
    var t, f := Pricing.SourceText(), 0;
    Pricing.SourceTextIsFaithful();
    hide Pricing.QuoteCoupon, Pricing.IsNearest, Pricing.Faithful, Pricing.TakenOff, SourceMoney,
       Decimal.Parse, Decimal.FloatString;
    d, f := Pricing.QuoteTakesOff(t, found, p);
    a := Pricing.ShowsNearest(t, t.read(p.amount));
    if amount == Pricing.StoredAmount(t, p.amount) && discount == Pricing.QuoteCoupon(t, found, p).discount {
      PayableCents(amount, discount, a, d);
    }
  }

  /** Without a coupon the discount is "0.00", and every payment of the order asks for its amount to the nearest
      cent. */
  lemma PaymentAsksFull(cfg: Config, evs: seq<Event>, i: nat, price: string) returns (k: nat, a: int)
    requires cfg.money == SourceMoney() && i < |RunAll(Init(cfg), evs).s.db.payments|
    ensures k < |evs| && evs[k].Spawn? && evs[k].th.CreateLookup?
    ensures evs[k].th.input.no == RunAll(Init(cfg), evs).s.db.payments[i].order
    ensures Pricing.IsNearest(Decimal.Parse(price), a)
    ensures var input, pay := evs[k].th.input, RunAll(Init(cfg), evs).s.db.payments[i];
            input.amount == Pricing.StoredAmount(Pricing.SourceText(), price) && input.discount == "0.00" ==>
              100.0 * Decimal.Parse(pay.amount) == a as real && SourceMoney().cents(pay.amount) == a
  {
    var db := RunAll(Init(cfg), evs).s.db;
    var _ := PaymentsAsRequested(cfg, evs, i);
    k := OrdersAsRequested(cfg, evs, db.payments[i].order);
    var o := db.orders[db.payments[i].order];
    a := FullCents(price, o.amount, o.discount);
  }

  lemma FullCents(price: string, amount: string, discount: string) returns (a: int)
    ensures Pricing.IsNearest(Decimal.Parse(price), a)
    ensures amount == Pricing.StoredAmount(Pricing.SourceText(), price) && discount == "0.00" ==>
              var net := SourceMoney().net(amount, discount);
              100.0 * Decimal.Parse(net) == a as real && SourceMoney().cents(net) == a
  {
    var t := Pricing.SourceText();
    Pricing.SourceTextIsFaithful();
    NoDiscount();
    hide Pricing.IsNearest, Pricing.Faithful, SourceMoney, Decimal.Parse, Decimal.FloatString;
    a := Pricing.ShowsNearest(t, t.read(price));
    if amount == Pricing.StoredAmount(t, price) && discount == "0.00" { PayableCents(amount, discount, a, 0); }
  }
}
