/** From a transfer on the chain to the order it pays: handed over once, settled in one go or not at all. */
module Delivery {
  import opened Wrappers
  import opened Tables
  import opened Machine
  import opened Growth
  import opened Alone
  import Scanner
  import Scenario
  import Settling
  import Ttl

  // ----- HandlePaid on its own -------------------------------------------------------------------

  /** The calls of HandlePaid from the k-th outcome on settle this order: it is found and payable, the status write
      reports no error, and the effects are applied. */
  predicate Settles(s: Shared, no: string, outs: seq<Outcome>, k: nat)
    requires |outs| >= k + 5
  {
    && outs[k] == Ok && no in s.db.orders && IsPayable(s.db.orders[no], s.now)
    && outs[k + 2] == Ok && Took(outs[k + if s.db.orders[no].coupon != "" then 4 else 3])
    && s.db.orders[no].user in s.db.users
  }

  predicate Credits(s: Shared, s': Shared) { |s'.hist.effects| > |s.hist.effects| }

  /** Exactly this order's effects were applied, or, unless it settles, none. */
  predicate CreditsIff(s: Shared, s': Shared, no: string, tid: nat, settles: bool) {
    s'.hist.effects == s.hist.effects + if settles then [Effect(no, s.now, tid)] else []
  }

  lemma ApplyCredits(cfg: Config, s: Shared, tid: nat, no: string, o: Order, outs: seq<Outcome>)
    requires outs != []
    ensures CreditsIff(s, Solo(cfg, s, tid, PaidApply(no, o), outs).0, no, tid, Took(outs[0]) && o.user in s.db.users)
  {
    hide AdvanceCreate, AdvancePay, AdvanceVerify, AdvanceOther, ApplyEffects, Solo;
    SoloStep(cfg, s, tid, PaidApply(no, o), outs);
  }

  lemma UpdateCredits(cfg: Config, s: Shared, tid: nat, th: Thread, outs: seq<Outcome>)
    requires |outs| >= 3 && th.PaidUpdate?
    ensures CreditsIff(s, Solo(cfg, s, tid, th, outs).0, th.no, tid,
              outs[0] == Ok && Took(outs[if th.order.coupon != "" then 2 else 1]) && th.order.user in s.db.users)
  {
    hide UpdateOrder, BumpCoupon, ApplyEffects, Net, Solo;
    SettleSteps(cfg, s, tid, th, outs);
    var s1 := AdvancePaid(cfg, s, tid, th, outs[0]).0;
    UpdateKeepsUsers(cfg, s, tid, th, outs[0]);
    if th.order.coupon != "" {
      var s2 := AdvancePaid(cfg, s1, tid, PaidCoupon(th.no, th.order), outs[1]).0;
      CouponKeepsUsers(cfg, s1, tid, PaidCoupon(th.no, th.order), outs[1]);
      ApplyCredits(cfg, s2, tid, th.no, th.order, outs[2..]);
    } else {
      ApplyCredits(cfg, s1, tid, th.no, th.order, outs[1..]);
    }
  }

  lemma UpdateKeepsUsers(cfg: Config, s: Shared, tid: nat, th: Thread, out: Outcome)
    requires th.PaidUpdate?
    ensures var s' := AdvancePaid(cfg, s, tid, th, out).0;
            s'.now == s.now && s'.db.users == s.db.users && s'.hist.effects == s.hist.effects
  {
  }

  lemma CouponKeepsUsers(cfg: Config, s: Shared, tid: nat, th: Thread, out: Outcome)
    requires th.PaidCoupon?
    ensures var s' := AdvancePaid(cfg, s, tid, th, out).0;
            s'.now == s.now && s'.db.users == s.db.users && s'.hist.effects == s.hist.effects
  {
  }

  lemma PaidCredits(cfg: Config, s: Shared, tid: nat, no: string, tradeNo: string, via: Via, outs: seq<Outcome>)
    requires |outs| >= 5
    ensures CreditsIff(s, Solo(cfg, s, tid, PaidLookup(no, tradeNo, via), outs).0, no, tid, Settles(s, no, outs, 0))
  {
    hide AdvanceCreate, AdvancePay, AdvanceVerify, AdvanceOther, UpdateOrder, BumpCoupon, ApplyEffects, Net, Solo;
    var th := PaidLookup(no, tradeNo, via);
    SoloStep(cfg, s, tid, th, outs);
    var (s1, th1) := Advance(cfg, s, tid, th, outs[0]);
    if th1.PaidCheck? {
      SoloStep(cfg, s1, tid, th1, outs[1..]);
      assert outs[1..][1..] == outs[2..];
      var (s2, th2) := Advance(cfg, s1, tid, th1, outs[1]);
      if th2.PaidUpdate? { UpdateCredits(cfg, s2, tid, th2, outs[2..]); }
    }
  }

  // ----- a transfer on its own ----------------------------------------------------------------------

  lemma MarkCredits(cfg: Config, s: Shared, tid: nat, th: Thread, outs: seq<Outcome>)
    requires |outs| >= 7 && th.VerifyMark?
    ensures CreditsIff(s, Solo(cfg, s, tid, th, outs).0, th.pay.order, tid,
              && outs[0] == Ok && !MarkRefused(s.db, th.pid, th.n.tradeNo)
              && Settles(s, th.pay.order, outs, if th.pay.address != "" then 2 else 1))
  {
    hide MarkPaid, MarkUsed, Solo, MarkRefused;
    ConfirmSteps(cfg, s, tid, th, outs);
    var s1 := AdvanceVerify(cfg, s, th, outs[0]).0;
    var via := Through(th.pid, th.channel, th.n);
    MarkKeepsOrders(cfg, s, th, outs[0]);
    if th.pay.address != "" {
      var use := VerifyUse(th.channel, th.n, th.pid, th.pay);
      UseKeepsOrders(cfg, s1, use, outs[1]);
      PaidCredits(cfg, AdvanceVerify(cfg, s1, use, outs[1]).0, tid, th.pay.order, th.n.tradeNo, via, outs[2..]);
    } else {
      PaidCredits(cfg, s1, tid, th.pay.order, th.n.tradeNo, via, outs[1..]);
    }
  }

  /** Same orders, users, clock and record. */
  predicate SameBooks(s: Shared, s': Shared) {
    s'.now == s.now && s'.db.orders == s.db.orders && s'.db.users == s.db.users && s'.hist == s.hist
  }

  lemma MarkKeepsOrders(cfg: Config, s: Shared, th: Thread, out: Outcome)
    requires th.VerifyMark?
    ensures SameBooks(s, AdvanceVerify(cfg, s, th, out).0)
  {
  }

  lemma UseKeepsOrders(cfg: Config, s: Shared, th: Thread, out: Outcome)
    requires th.VerifyUse?
    ensures SameBooks(s, AdvanceVerify(cfg, s, th, out).0)
  {
  }

  lemma ActiveCredits(cfg: Config, s: Shared, tid: nat, n: Notify, outs: seq<Outcome>)
    requires |outs| >= 9
    requires forall j :: 0 <= j < |s.db.payments| && s.db.payments[j].channel == Usdt ==>
              s.db.payments[j].tradeNo != n.tradeNo
    ensures var hit := FindActiveByOrder(s.db, n.order, Usdt, s.now);
            CreditsIff(s, Solo(cfg, s, tid, VerifyActive(Usdt, n), outs).0, n.order, tid,
              && outs[0] == Ok && hit.Some? && cfg.money.same(s.db.payments[hit.value].amount, n.amount)
              && outs[2] == Ok && Settles(s, n.order, outs, if s.db.payments[hit.value].address != "" then 4 else 3))
  {
    ActiveSteps(cfg, s, tid, Usdt, n, outs);
    var hit := FindActiveByOrder(s.db, n.order, Usdt, s.now);
    hide FindActiveByOrder, Solo, Settles;
    if outs[0] == Ok && hit.Some? {
      var p := s.db.payments[hit.value];
      var noted := AdvanceVerify(cfg, s, VerifySetTrade(Usdt, n, hit.value, p), outs[1]).0;
      var next := AfterLookup(cfg, Usdt, n, hit.value, p);
      assert SameBooks(s, noted) && !MarkRefused(noted.db, hit.value, n.tradeNo);
      if next.VerifyMark? {
        MarkCredits(cfg, noted, tid, next, outs[2..]);
        SettlesFrom(s, noted, n.order, outs, 2, if p.address != "" then 2 else 1);
      } else {
        SoloAfterEnd(cfg, noted, tid, next, outs[2..]);
      }
    }
  }

  lemma SettlesFrom(s: Shared, s': Shared, no: string, outs: seq<Outcome>, d: nat, k: nat)
    requires SameBooks(s, s') && |outs| >= d + k + 5
    ensures Settles(s', no, outs[d..], k) <==> Settles(s, no, outs, d + k)
  {
  }

  /** The order a transfer finds: that of the newest payment waiting at its address with its amount, provided the order
      still has an active attempt, which is the one credited, and whose amount agrees. */
  predicate Finds(cfg: Config, s: Shared, address: string, token: Option<int>, pid: nat, no: string) {
    && FindByAddress(s.db, Usdt, address, token).Some?
    && var p := s.db.payments[FindByAddress(s.db, Usdt, address, token).value];
       && p.order == no && no != ""
       && FindActiveByOrder(s.db, no, Usdt, s.now) == Some(pid) && cfg.money.same(s.db.payments[pid].amount, p.amount)
  }

  /** It finds this order, the order is payable, and the lookups, the payment mark and the status write report no error
      and the effects take. Noting the transaction, retiring the address and counting the coupon may fail. */
  ghost predicate GoesThroughTo(cfg: Config, s: Shared, address: string, token: Option<int>, outs: seq<Outcome>,
                                no: string)
    requires |outs| >= 11
  {
    exists pid: nat :: Finds(cfg, s, address, token, pid, no) && outs[0] == outs[2] == outs[4] == Ok &&
      Settles(s, no, outs, if s.db.payments[pid].address != "" then 6 else 5)
  }

  ghost predicate GoesThrough(cfg: Config, s: Shared, address: string, token: Option<int>, outs: seq<Outcome>)
    requires |outs| >= 11
  {
    exists no :: GoesThroughTo(cfg, s, address, token, outs, no)
  }

  /** Under a transaction not noted yet: up to the lookup by order. */
  lemma FreshTransferSteps(cfg: Config, s: Shared, tid: nat, address: string, token: Option<int>, tx: string,
                           outs: seq<Outcome>)
    requires |outs| >= 11
    requires forall j :: 0 <= j < |s.db.payments| && s.db.payments[j].channel == Usdt ==> s.db.payments[j].tradeNo != tx
    ensures var r := Solo(cfg, s, tid, TransferLookup(address, token, tx), outs);
            var hit := FindByAddress(s.db, Usdt, address, token);
            if outs[0] != Ok || hit.None? || s.db.payments[hit.value].order == "" then r == (s, Finished(true))
            else var p := s.db.payments[hit.value];
                 r == Solo(cfg, s, tid, VerifyActive(Usdt, Notify(p.order, tx, p.amount)), outs[2..])
  {
    hide AdvanceCreate, AdvancePay, AdvancePaid, AdvanceOther, Solo, FindByAddress, FindActiveByOrder;
    var th := TransferLookup(address, token, tx);
    SoloStep(cfg, s, tid, th, outs);
    var (s1, th1) := Advance(cfg, s, tid, th, outs[0]);
    if th1.VerifyTrade? {
      assert FindByTradeNo(s.db, Usdt, tx) == None;
      SoloStep(cfg, s1, tid, th1, outs[1..]);
      assert outs[1..][1..] == outs[2..];
    }
  }

  /** A transfer under a transaction not noted yet, handled without interruption, is credited exactly when it goes
      through, and then to the order it goes through to. */
  lemma TransferCreditsIff(cfg: Config, s: Shared, tid: nat, address: string, token: Option<int>, tx: string,
                           outs: seq<Outcome>)
    requires |outs| >= 11
    requires forall j :: 0 <= j < |s.db.payments| && s.db.payments[j].channel == Usdt ==> s.db.payments[j].tradeNo != tx
    ensures var s' := Solo(cfg, s, tid, TransferLookup(address, token, tx), outs).0;
            && (Credits(s, s') <==> GoesThrough(cfg, s, address, token, outs))
            && (forall no :: GoesThroughTo(cfg, s, address, token, outs, no) ==> CreditsIff(s, s', no, tid, true))
  {
    hide Advance, Solo, FindActiveByOrder, FindByAddress, Settles;
    FreshTransferSteps(cfg, s, tid, address, token, tx, outs);
    var found := FindByAddress(s.db, Usdt, address, token);
    if found.Some? && s.db.payments[found.value].order != "" {
      var p := s.db.payments[found.value];
      ActiveCredits(cfg, s, tid, Notify(p.order, tx, p.amount), outs[2..]);
      var hit := FindActiveByOrder(s.db, p.order, Usdt, s.now);
      if hit.Some? {
        SettlesFrom(s, s, p.order, outs, 2, if s.db.payments[hit.value].address != "" then 4 else 3);
        assert Finds(cfg, s, address, token, hit.value, p.order) <==>
               cfg.money.same(s.db.payments[hit.value].amount, p.amount);
        assert GoesThroughTo(cfg, s, address, token, outs, p.order) ==> GoesThrough(cfg, s, address, token, outs);
      }
    }
  }

  /** A transfer of this amount under a transaction not noted yet credits at most one order: that of the newest pending
      USDT payment at its address for exactly this many tokens. */
  lemma TransferCreditsExpected(cfg: Config, s: Shared, tid: nat, address: string, amount: int, tx: string,
                                outs: seq<Outcome>) returns (i: nat)
    requires |outs| >= 11
    requires forall j :: 0 <= j < |s.db.payments| && s.db.payments[j].channel == Usdt ==> s.db.payments[j].tradeNo != tx
    requires Credits(s, Solo(cfg, s, tid, TransferLookup(address, Some(amount), tx), outs).0)
    ensures i < |s.db.payments| && Expects(s.db.payments[i], address, Some(amount))
    ensures forall j :: i < j < |s.db.payments| ==> !Expects(s.db.payments[j], address, Some(amount))
    ensures Solo(cfg, s, tid, TransferLookup(address, Some(amount), tx), outs).0.hist.effects
            == s.hist.effects + [Effect(s.db.payments[i].order, s.now, tid)]
  {
    var found := FindByAddress(s.db, Usdt, address, Some(amount));
    assert forall j :: (if found.Some? then found.value else -1) < j < |s.db.payments| ==>
             !Expects(s.db.payments[j], address, Some(amount));
    assert found.Some? ==> Expects(s.db.payments[found.value], address, Some(amount));
    hide Solo, FindByAddress, FindActiveByOrder, Settles, Expects;
    TransferCreditsIff(cfg, s, tid, address, Some(amount), tx, outs);
    assert found.Some?;
    i := found.value;
    assert GoesThroughTo(cfg, s, address, Some(amount), outs, s.db.payments[i].order);
  }

  // ----- the scanner's one hand-over ----------------------------------------------------------------------

  /** What one hand-over met: the tables, the thread serving it, and the outcomes of its calls. */
  datatype Handling = Handling(s: Shared, tid: nat, outs: seq<Outcome>)

  function Handled(cfg: Config, t: Scanner.Transfer, amount: string -> Option<int>, h: Handling): Shared {
    Solo(cfg, h.s, h.tid, TransferLookup(t.to, amount(t.amountToken), t.txHash), h.outs).0
  }

  ghost predicate Fresh(t: Scanner.Transfer, h: Handling) {
    |h.outs| >= 11 && forall j :: 0 <= j < |h.s.db.payments| && h.s.db.payments[j].channel == Usdt ==>
      h.s.db.payments[j].tradeNo != t.txHash
  }

  /** When no cursor write fails, the k-th transfer behind the cursor is the k-th one handed over, and is handed over at
      no other time, before or later. So it is never credited exactly when that one hand-over did not go through: it
      found no order awaiting it, or one of the calls that matter failed. Nothing tries again. */
  lemma NeverCreditedIff(cfg: Config, chain: Scanner.Chain, confirmations: int, batch: int, cursor: int,
                         ws: seq<Scanner.Weather>, later: seq<Scanner.Weather>, amount: string -> Option<int>,
                         hs: seq<Handling>, k: nat)
    requires forall w :: w in ws || w in later ==> w.write != Scanner.Lost
    requires var now := Scanner.Run(chain, confirmations, batch, Scanner.State(cursor, []), ws);
             k < |now.handed| == |hs| && Fresh(now.handed[k], hs[k])
    ensures var now := Scanner.Run(chain, confirmations, batch, Scanner.State(cursor, []), ws);
            var end := Scanner.Run(chain, confirmations, batch, now, later);
            && now.handed == Scanner.Range(chain, cursor + 1, now.cursor)
            && end.handed == now.handed + Scanner.Range(chain, now.cursor + 1, end.cursor)
            && var t, h := now.handed[k], hs[k];
               !Credits(h.s, Handled(cfg, t, amount, h)) <==>
               !GoesThrough(cfg, h.s, t.to, amount(t.amountToken), h.outs)
  {
    hide Solo, GoesThrough, Credits, Scanner.Run, Scanner.Range, Scanner.Next;
    var start := Scanner.State(cursor, []);
    var now := Scanner.Run(chain, confirmations, batch, start, ws);
    Scanner.ExactlyOnce(chain, confirmations, batch, start, ws);
    Scanner.ExactlyOnce(chain, confirmations, batch, now, later);
    HandlingIff(cfg, now.handed[k], amount, hs[k]);
  }

  lemma HandlingIff(cfg: Config, t: Scanner.Transfer, amount: string -> Option<int>, h: Handling)
    requires Fresh(t, h)
    ensures Credits(h.s, Handled(cfg, t, amount, h)) <==> GoesThrough(cfg, h.s, t.to, amount(t.amountToken), h.outs)
  {
    hide Solo, GoesThrough, Credits;
    TransferCreditsIff(cfg, h.s, h.tid, t.to, amount(t.amountToken), t.txHash, h.outs);
  }

  // ----- no second chance -----------------------------------------------------------------------------------

  /** On its way to settle an order through this payment. */
  predicate Carries(th: Thread, i: nat) {
    match th
    case VerifySetTrade(_, _, pid, _) => pid == i
    case VerifyMark(_, _, pid, _) => pid == i
    case VerifyUse(_, _, pid, _) => pid == i
    case PaidLookup(_, _, via) => via.Through? && via.pid == i
    case PaidCheck(_, _, via, _) => via.Through? && via.pid == i
    case PaidUpdate(_, _, via, _, _) => via.Through? && via.pid == i
    case _ => false
  }

  ghost predicate Done(w: World, i: nat) {
    && i < |w.s.db.payments| && w.s.db.payments[i].status == PayPaid
    && forall t :: t in w.threads ==> !Carries(w.threads[t], i)
  }

  lemma VerifyTakesUpNone(cfg: Config, s: Shared, th: Thread, out: Outcome, i: nat)
    requires VerifyPhase(th) && !Carries(th, i) && i < |s.db.payments| && s.db.payments[i].status == PayPaid
    ensures !Carries(AdvanceVerify(cfg, s, th, out).1, i)
  {
    hide UpdateTradeNo, MarkPaid, MarkUsed;
  }

  lemma PaidTakesUpNone(cfg: Config, s: Shared, tid: nat, th: Thread, out: Outcome, i: nat)
    requires PaidPhase(th) && !Carries(th, i)
    ensures !Carries(AdvancePaid(cfg, s, tid, th, out).1, i)
  {
    hide UpdateOrder, BumpCoupon, ApplyEffects, Net;
  }

  lemma PayTakesUpNone(cfg: Config, s: Shared, tid: nat, th: Thread, out: Outcome, i: nat)
    requires PayPhase(th)
    ensures !Carries(AdvancePay(cfg, s, tid, th, out).1, i)
  {
    hide FindActiveByOrder, NextFree;
  }

  lemma TakesUpNone(cfg: Config, s: Shared, tid: nat, th: Thread, out: Outcome, i: nat)
    requires !Carries(th, i) && i < |s.db.payments| && s.db.payments[i].status == PayPaid
    ensures !Carries(Advance(cfg, s, tid, th, out).1, i)
  {
    hide AdvancePay, AdvanceVerify, AdvancePaid;
    if PayPhase(th) { PayTakesUpNone(cfg, s, tid, th, out, i); }
    else if VerifyPhase(th) { VerifyTakesUpNone(cfg, s, th, out, i); }
    else if PaidPhase(th) { PaidTakesUpNone(cfg, s, tid, th, out, i); }
  }

  lemma StepDone(w: World, e: Event, i: nat)
    requires Done(w, i)
    ensures Done(Step(w, e), i)
  {
    hide Advance;
    StepGrows(w, e);
    assert SamePayment(w.s.db.payments[i], Step(w, e).s.db.payments[i]);
    if e.Run? && e.tid in w.threads { TakesUpNone(w.cfg, w.s, e.tid, w.threads[e.tid], e.out, i); }
  }

  lemma {:induction false} RunDone(w: World, evs: seq<Event>, i: nat)
    requires Done(w, i)
    ensures Done(RunAll(w, evs), i)
    decreases |evs|
  {
    hide Step, Done;
    if evs != [] {
      StepDone(w, evs[0], i);
      RunDone(Step(w, evs[0]), evs[1..], i);
    }
  }

  /** Once a payment is marked paid and no handler is on its way with it, no order is ever settled through it: a handler
      that failed between the two writes is not made up for by any later notify, reconcile or transfer. */
  lemma PaidIsFinal(w: World, after: seq<Event>, i: nat)
    requires Done(w, i)
    ensures forall t :: t in RunAll(w, after).threads && RunAll(w, after).threads[t].PaidUpdate? ==>
              var via := RunAll(w, after).threads[t].via; via.Through? ==> via.pid != i
  {
    hide RunAll, Done;
    RunDone(w, after, i);
    DoneMeans(RunAll(w, after), i);
  }

  lemma DoneMeans(w: World, i: nat)
    requires Done(w, i)
    ensures forall t :: t in w.threads && w.threads[t].PaidUpdate? ==>
              var via := w.threads[t].via; via.Through? ==> via.pid != i
  {
  }

  /** Such a state: a notify marks the payment paid, and then HandlePaid's first call fails. */
  lemma PaidButUnsettled(cfg: Config, u: nat) returns (evs: seq<Event>, w: World)
    requires u in cfg.users && cfg.orderTtl > 0 && Ttl.Reflexive(cfg.money)
    ensures w == RunAll(Init(cfg), evs) && Done(w, 0)
    ensures Scenario.NO in w.s.db.orders && IsPayable(w.s.db.orders[Scenario.NO], w.s.now)
  {
    hide AdvanceCreate, AdvancePay, AdvanceOther, RunAll, Step;
    evs, w := Scenario.Buy(cfg, u);
    var more, w1;
    more, w1 := Settling.Minted(w, Scenario.NO, Mock, Mint("t", 0), Ok);
    RunAllAppend(Init(cfg), evs, more);
    evs, w := evs + more, w1;
    var p, tid := w.s.db.payments[0], 0;
    var n := Notify(p.order, "t", p.amount);
    tid := Above(w.threads.Keys);
    evs, w := Start(Init(cfg), evs, w, tid, VerifyTrade(Mock, n));
    evs, w := Turn(Init(cfg), evs, w, tid, w.s, VerifyMark(Mock, n, 0, p));
    evs, w := Turn(Init(cfg), evs, w, tid, w.s.(db := MarkPaid(w.s.db, 0, "t")),
        PaidLookup(p.order, "t", Through(0, Mock, n)));
    evs, w := GivenUp(cfg, evs, w, tid);
  }

  lemma GivenUp(cfg: Config, evs: seq<Event>, w: World, tid: nat) returns (evs': seq<Event>, w': World)
    requires w == RunAll(Init(cfg), evs) && tid in w.threads && w.threads[tid].PaidLookup?
    ensures w' == RunAll(Init(cfg), evs') && w' == w.(threads := w.threads[tid := Finished(true)])
  {
    hide AdvanceCreate, AdvancePay, AdvanceVerify, AdvanceOther, RunAll;
    evs', w' := Then(Init(cfg), evs, w, Run(tid, Failed));
  }
}
