/** What no step of any handler ever undoes, whatever the interleaving and the failures. */
module Growth {
  import opened Wrappers
  import opened Tables
  import opened Machine

  /** Rows are never deleted, and only an order's status, payment details and channel number ever change. */
  predicate SameOrder(o: Order, o': Order) {
    o'.user == o.user && o'.key == o.key && o'.item == o.item && o'.amount == o.amount && o'.discount == o.discount
    && o'.coupon == o.coupon && o'.expireAt == o.expireAt && (o.status != Pending ==> o'.status != Pending)
  }

  /** A payment leaves the pending status once and for all; its order, address, amount and expiry never change. */
  predicate SamePayment(p: Payment, p': Payment) {
    p'.order == p.order && p'.user == p.user && p'.channel == p.channel && p'.amount == p.amount && p'.token == p.token
    && p'.address == p.address && p'.expireAt == p.expireAt && (p.status != PayPending ==> p'.status == p.status)
  }

  ghost predicate OrdersGrow(a: map<string, Order>, b: map<string, Order>) {
    forall no :: no in a ==> no in b && SameOrder(a[no], b[no])
  }

  ghost predicate PaymentsGrow(a: seq<Payment>, b: seq<Payment>) {
    |a| <= |b| && forall i :: 0 <= i < |a| ==> SamePayment(a[i], b[i])
  }

  ghost predicate Grows(s: Shared, s': Shared) {
    && s.now <= s'.now
    && OrdersGrow(s.db.orders, s'.db.orders)
    && PaymentsGrow(s.db.payments, s'.db.payments)
  }

  lemma GrowsTransitive(a: Shared, b: Shared, c: Shared)
    requires Grows(a, b) && Grows(b, c)
    ensures Grows(a, c)
  {
  }

  lemma OrderUpdateGrows(db: Db, no: string, status: OrderStatus, paidAt: Option<int>, paid: string, channelNo: string)
    requires status != Pending
    ensures OrdersGrow(db.orders, UpdateOrder(db, no, status, paidAt, paid, channelNo).orders)
  {
  }

  lemma {:induction false} SeedFrame(db: Db, addrs: seq<string>)
    ensures Seed(db, addrs) == db.(pool := Seed(db, addrs).pool)
    decreases |addrs|
  {
    if addrs != [] { SeedFrame(SeedOne(db, addrs[0]), addrs[1..]); }
  }

  lemma CreateGrows(cfg: Config, s: Shared, th: Thread, out: Outcome)
    requires th.CreateLookup? || th.CreateClock? || th.CreateInsert? || th.CreateRefetch?
    ensures Grows(s, AdvanceCreate(cfg, s, th, out).0)
  {
  }

  lemma PayGrows(cfg: Config, s: Shared, tid: nat, th: Thread, out: Outcome)
    requires PayPhase(th)
    ensures Grows(s, AdvancePay(cfg, s, tid, th, out).0)
  {
  }

  lemma PaymentCallsGrow(db: Db, pid: nat, tradeNo: string, address: string)
    ensures PaymentsGrow(db.payments, UpdateTradeNo(db, pid, tradeNo).payments)
    ensures PaymentsGrow(db.payments, MarkPaid(db, pid, tradeNo).payments)
    ensures MarkUsed(db, address).payments == db.payments
  {
  }

  lemma VerifyGrows(cfg: Config, s: Shared, th: Thread, out: Outcome)
    requires VerifyPhase(th)
    ensures Grows(s, AdvanceVerify(cfg, s, th, out).0)
  {
    if th.VerifySetTrade? || th.VerifyMark? || th.VerifyUse? {
      PaymentCallsGrow(s.db, th.pid, th.n.tradeNo, th.pay.address);
    }
  }

  lemma PaidGrows(cfg: Config, s: Shared, tid: nat, th: Thread, out: Outcome)
    requires PaidPhase(th)
    ensures Grows(s, AdvancePaid(cfg, s, tid, th, out).0)
  {
    if th.PaidUpdate? {
      OrderUpdateGrows(s.db, th.no, Paid, Some(th.paidAt), Net(cfg.money, th.order), th.tradeNo);
    }
  }

  lemma OtherGrows(s: Shared, th: Thread, out: Outcome)
    requires OtherPhase(th)
    ensures Grows(s, AdvanceOther(s, th, out).0)
  {
    if th.CancelUpdate? {
      OrderUpdateGrows(s.db, th.no, Cancelled, None, th.order.paid, "");
    }
  }

  /** Payment steps touch neither orders nor their index, and end no CreateOrder call. */
  lemma PayKeepsOrders(cfg: Config, s: Shared, tid: nat, th: Thread, out: Outcome)
    requires PayPhase(th)
    ensures var (s', th') := AdvancePay(cfg, s, tid, th, out);
            s'.db.orders == s.db.orders && s'.db.idem == s.db.idem && !th'.CreateDone?
  {
  }

  lemma VerifyKeepsOrders(cfg: Config, s: Shared, th: Thread, out: Outcome)
    requires VerifyPhase(th)
    ensures var (s', th') := AdvanceVerify(cfg, s, th, out);
            s'.db.orders == s.db.orders && s'.db.idem == s.db.idem && !th'.CreateDone?
  {
  }

  lemma PaymentSideKeepsOrders(cfg: Config, s: Shared, tid: nat, th: Thread, out: Outcome)
    requires PayPhase(th) || VerifyPhase(th)
    ensures var (s', th') := Advance(cfg, s, tid, th, out);
            s'.db.orders == s.db.orders && s'.db.idem == s.db.idem && !th'.CreateDone?
  {
    hide AdvanceCreate, AdvancePay, AdvanceVerify, AdvancePaid, AdvanceOther;
    if PayPhase(th) { PayKeepsOrders(cfg, s, tid, th, out); } else { VerifyKeepsOrders(cfg, s, th, out); }
  }

  lemma AdvanceGrows(cfg: Config, s: Shared, tid: nat, th: Thread, out: Outcome)
    ensures Grows(s, Advance(cfg, s, tid, th, out).0)
  {
    hide AdvanceCreate, AdvancePay, AdvanceVerify, AdvancePaid, AdvanceOther;
    if th.CreateLookup? || th.CreateClock? || th.CreateInsert? || th.CreateRefetch? { CreateGrows(cfg, s, th, out); }
    else if PayPhase(th) { PayGrows(cfg, s, tid, th, out); }
    else if VerifyPhase(th) { VerifyGrows(cfg, s, th, out); }
    else if PaidPhase(th) { PaidGrows(cfg, s, tid, th, out); }
    else if OtherPhase(th) { OtherGrows(s, th, out); }
  }

  lemma PaymentSideClock(cfg: Config, s: Shared, tid: nat, th: Thread, out: Outcome)
    requires PayPhase(th) || VerifyPhase(th)
    ensures Advance(cfg, s, tid, th, out).0.now == s.now
  {
    hide AdvanceCreate, AdvancePaid, AdvanceOther;
  }

  /** No handler moves the clock. */
  lemma AdvanceClock(cfg: Config, s: Shared, tid: nat, th: Thread, out: Outcome)
    ensures Advance(cfg, s, tid, th, out).0.now == s.now
  {
    hide AdvancePay, AdvanceVerify;
    if PayPhase(th) || VerifyPhase(th) { PaymentSideClock(cfg, s, tid, th, out); }
  }

  lemma StepGrows(w: World, e: Event)
    ensures Grows(w.s, Step(w, e).s)
  {
    hide Advance;
    match e
    case AddAddresses(addrs) => SeedFrame(w.s.db, addrs);
    case Run(tid, out) => if tid in w.threads { AdvanceGrows(w.cfg, w.s, tid, w.threads[tid], out); }
    case _ =>
  }

  /** Over any run: no row disappears, no settled payment reopens, no finished order becomes pending again. */
  lemma {:induction false} RunGrows(w: World, evs: seq<Event>)
    ensures Grows(w.s, RunAll(w, evs).s) && RunAll(w, evs).cfg == w.cfg
    decreases |evs|
  {
    if evs != [] {
      StepGrows(w, evs[0]);
      RunGrows(Step(w, evs[0]), evs[1..]);
      GrowsTransitive(w.s, Step(w, evs[0]).s, RunAll(w, evs).s);
    }
  }
}
