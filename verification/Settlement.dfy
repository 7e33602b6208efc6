/** What an order is marked paid with: the payable amount its payment was minted for, equal to the notified one.
    Holds under any interleaving and any failures. */
module Settlement {
  import opened Wrappers
  import opened Tables
  import opened Machine
  import opened Growth
  import Amounts

  predicate Payable(cfg: Config, s: Shared, no: string, amount: string) {
    no in s.db.orders && Net(cfg.money, s.db.orders[no]) == amount
  }

  ghost predicate RowsPriced(cfg: Config, s: Shared) {
    forall i :: 0 <= i < |s.db.payments| ==> Payable(cfg, s, s.db.payments[i].order, s.db.payments[i].amount)
  }

  predicate PricedPay(cfg: Config, s: Shared, pay: Payment) { Payable(cfg, s, pay.order, pay.amount) }

  predicate PricedVia(cfg: Config, s: Shared, no: string, via: Via) {
    via.Through? ==> no in s.db.orders && cfg.money.same(Net(cfg.money, s.db.orders[no]), via.n.amount)
  }

  predicate ThreadPriced(cfg: Config, s: Shared, th: Thread) {
    match th
    case PayLookup(no, _, _, _, amount) => Payable(cfg, s, no, amount)
    case PayClock(no, _, _, _, amount, _, _) => Payable(cfg, s, no, amount)
    case PayMint(no, _, _, _, amount, _) => Payable(cfg, s, no, amount)
    case PayInsert(row) => PricedPay(cfg, s, row)
    case VerifySetTrade(_, _, _, pay) => PricedPay(cfg, s, pay)
    case VerifyMark(_, n, _, pay) => PricedPay(cfg, s, pay) && cfg.money.same(pay.amount, n.amount)
    case VerifyUse(_, n, _, pay) => PricedPay(cfg, s, pay) && cfg.money.same(pay.amount, n.amount)
    case PaidLookup(no, _, via) => PricedVia(cfg, s, no, via)
    case PaidCheck(no, _, via, o) => PricedVia(cfg, s, no, via) && no in s.db.orders && SameOrder(o, s.db.orders[no])
    case PaidUpdate(no, _, via, o, _) => PricedVia(cfg, s, no, via) && no in s.db.orders &&
        SameOrder(o, s.db.orders[no])
    case _ => true
  }

  ghost predicate Priced(w: World) {
    RowsPriced(w.cfg, w.s) && forall t :: t in w.threads ==> ThreadPriced(w.cfg, w.s, w.threads[t])
  }

  lemma ThreadKeeps(cfg: Config, s: Shared, s': Shared, th: Thread)
    requires Grows(s, s') && ThreadPriced(cfg, s, th)
    ensures ThreadPriced(cfg, s', th)
  {
  }

  lemma PayPriced(cfg: Config, s: Shared, tid: nat, th: Thread, out: Outcome)
    requires PayPhase(th) && RowsPriced(cfg, s) && ThreadPriced(cfg, s, th)
    ensures var (s', th') := AdvancePay(cfg, s, tid, th, out); RowsPriced(cfg, s') && ThreadPriced(cfg, s', th')
  {
  }

  lemma VerifyRows(cfg: Config, s: Shared, th: Thread, out: Outcome)
    requires VerifyPhase(th) && RowsPriced(cfg, s)
    ensures RowsPriced(cfg, AdvanceVerify(cfg, s, th, out).0)
  {
  }

  lemma LookupPriced(cfg: Config, s: Shared, th: Thread, out: Outcome)
    requires th.TransferLookup? || th.VerifyTrade? || th.VerifyActive?
    requires RowsPriced(cfg, s)
    ensures var (s', th') := AdvanceVerify(cfg, s, th, out); ThreadPriced(cfg, s', th')
  {
    hide FindByAddress, FindByTradeNo, FindActiveByOrder;
  }

  lemma MarkPriced(cfg: Config, s: Shared, th: Thread, out: Outcome)
    requires th.VerifySetTrade? || th.VerifyMark? || th.VerifyUse?
    requires ThreadPriced(cfg, s, th)
    ensures var (s', th') := AdvanceVerify(cfg, s, th, out); ThreadPriced(cfg, s', th')
  {
  }

  lemma VerifyPriced(cfg: Config, s: Shared, th: Thread, out: Outcome)
    requires VerifyPhase(th) && RowsPriced(cfg, s) && ThreadPriced(cfg, s, th)
    ensures var (s', th') := AdvanceVerify(cfg, s, th, out); ThreadPriced(cfg, s', th')
  {
    hide AdvanceVerify;
    if th.TransferLookup? || th.VerifyTrade? || th.VerifyActive? {
      LookupPriced(cfg, s, th, out);
    } else {
      MarkPriced(cfg, s, th, out);
    }
  }

  lemma PaidRows(cfg: Config, s: Shared, tid: nat, th: Thread, out: Outcome)
    requires PaidPhase(th) && RowsPriced(cfg, s)
    ensures RowsPriced(cfg, AdvancePaid(cfg, s, tid, th, out).0)
  {
  }

  lemma PaidReadPriced(cfg: Config, s: Shared, tid: nat, th: Thread, out: Outcome)
    requires (th.PaidLookup? || th.PaidCheck?) && ThreadPriced(cfg, s, th)
    ensures var (s', th') := AdvancePaid(cfg, s, tid, th, out); ThreadPriced(cfg, s', th')
  {
  }

  lemma PaidWritePriced(cfg: Config, s: Shared, tid: nat, th: Thread, out: Outcome)
    requires th.PaidUpdate? || th.PaidCoupon? || th.PaidApply?
    ensures var (s', th') := AdvancePaid(cfg, s, tid, th, out); ThreadPriced(cfg, s', th')
  {
  }

  lemma PaidPriced(cfg: Config, s: Shared, tid: nat, th: Thread, out: Outcome)
    requires PaidPhase(th) && RowsPriced(cfg, s) && ThreadPriced(cfg, s, th)
    ensures var (s', th') := AdvancePaid(cfg, s, tid, th, out); RowsPriced(cfg, s') && ThreadPriced(cfg, s', th')
  {
    hide AdvancePaid;
    PaidRows(cfg, s, tid, th, out);
    if th.PaidLookup? || th.PaidCheck? {
      PaidReadPriced(cfg, s, tid, th, out);
    } else {
      PaidWritePriced(cfg, s, tid, th, out);
    }
  }

  lemma RestPriced(cfg: Config, s: Shared, tid: nat, th: Thread, out: Outcome)
    requires !PayPhase(th) && !VerifyPhase(th) && !PaidPhase(th) && RowsPriced(cfg, s)
    ensures var (s', th') := Advance(cfg, s, tid, th, out); RowsPriced(cfg, s') && ThreadPriced(cfg, s', th')
  {
    hide AdvancePay, AdvanceVerify, AdvancePaid;
    AdvanceGrows(cfg, s, tid, th, out);
  }

  lemma AdvancePriced(cfg: Config, s: Shared, tid: nat, th: Thread, out: Outcome)
    requires RowsPriced(cfg, s) && ThreadPriced(cfg, s, th)
    ensures var (s', th') := Advance(cfg, s, tid, th, out); RowsPriced(cfg, s') && ThreadPriced(cfg, s', th')
  {
    hide AdvanceCreate, AdvancePay, AdvanceVerify, AdvancePaid, AdvanceOther;
    if PayPhase(th) {
      PayPriced(cfg, s, tid, th, out);
      assert Advance(cfg, s, tid, th, out) == AdvancePay(cfg, s, tid, th, out);
    } else if VerifyPhase(th) {
      VerifyRows(cfg, s, th, out);
      VerifyPriced(cfg, s, th, out);
      assert Advance(cfg, s, tid, th, out) == AdvanceVerify(cfg, s, th, out);
    } else if PaidPhase(th) {
      PaidPriced(cfg, s, tid, th, out);
      assert Advance(cfg, s, tid, th, out) == AdvancePaid(cfg, s, tid, th, out);
    } else {
      RestPriced(cfg, s, tid, th, out);
    }
  }

  lemma StepPriced(w: World, e: Event)
    requires Priced(w)
    ensures Priced(Step(w, e))
  {
    hide Advance;
    var w' := Step(w, e);
    StepGrows(w, e);
    match e {
      case Tick(d) =>
      case AddAddresses(addrs) => SeedFrame(w.s.db, addrs);
      case Spawn(tid, th) =>
      case Run(tid, out) => if tid in w.threads { AdvancePriced(w.cfg, w.s, tid, w.threads[tid], out); }
    }
    forall t | t in w'.threads ensures ThreadPriced(w'.cfg, w'.s, w'.threads[t]) {
      if t in w.threads && w.threads[t] == w'.threads[t] { ThreadKeeps(w.cfg, w.s, w'.s, w.threads[t]); }
    }
  }

  lemma {:induction false} RunPriced(w: World, evs: seq<Event>)
    requires Priced(w)
    ensures Priced(RunAll(w, evs)) && RunAll(w, evs).cfg == w.cfg
    decreases |evs|
  {
    if evs != [] {
      StepPriced(w, evs[0]);
      RunPriced(Step(w, evs[0]), evs[1..]);
    }
  }

  /** An order settled through a notify is recorded as paid with its payable amount, and the notified amount passes
      the service's equality test against exactly that. */
  lemma PaidMatchesNotified(cfg: Config, evs: seq<Event>, t: nat, out: Outcome)
    requires Took(out)
    requires var w := RunAll(Init(cfg), evs); t in w.threads && w.threads[t].PaidUpdate? && w.threads[t].via.Through?
    ensures var w := RunAll(Init(cfg), evs); var th := w.threads[t];
            var o := Step(w, Run(t, out)).s.db.orders;
            th.no in o && o[th.no].status == Paid && o[th.no].paid == Net(cfg.money, o[th.no])
            && cfg.money.same(o[th.no].paid, th.via.n.amount)
  {
    hide AdvanceCreate, AdvancePay, AdvanceVerify, AdvanceOther;
    RunPriced(Init(cfg), evs);
    var w := RunAll(Init(cfg), evs);
    assert ThreadPriced(cfg, w.s, w.threads[t]);
    assert Advance(cfg, w.s, t, w.threads[t], out) == AdvancePaid(cfg, w.s, t, w.threads[t], out);
  }

  /** In cents, with the services' own parser: the recorded and the notified amounts are the same int64. */
  lemma PaidCentsMatchNotified(cfg: Config, evs: seq<Event>, t: nat, out: Outcome)
    requires cfg.money == SourceMoney() && Took(out)
    requires var w := RunAll(Init(cfg), evs); t in w.threads && w.threads[t].PaidUpdate? && w.threads[t].via.Through?
    ensures var w := RunAll(Init(cfg), evs); var th := w.threads[t];
            var o := Step(w, Run(t, out)).s.db.orders;
            th.no in o && Amounts.Wrap(Amounts.ExactCents(o[th.no].paid)) ==
                Amounts.Wrap(Amounts.ExactCents(th.via.n.amount))
  {
    PaidMatchesNotified(cfg, evs, t, out);
  }
}
