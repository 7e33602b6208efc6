/** TTL coupling: an order is only ever settled through a payment that is itself paid, whatever the
    interleaving and the failures, exactly when payments live at least as long as orders. */
module Ttl {
  import opened Wrappers
  import opened Tables
  import opened Machine
  import opened Growth
  import opened Scenario

  // ----- the invariant ---------------------------------------------------------

  ghost predicate RowsFit(cfg: Config, s: Shared) {
    && (forall no :: no in s.db.orders ==> s.db.orders[no].expireAt <= s.now + cfg.orderTtl)
    && (forall i :: 0 <= i < |s.db.payments| ==> PaymentFits(s, s.db.payments[i]))
  }

  /** A payment belongs to an order it outlives, and is marked expired only once its time is up. */
  predicate PaymentFits(s: Shared, p: Payment) {
    && Outlives(s, p.order, p.expireAt)
    && (p.status == PayExpired ==> p.expireAt <= s.now)
  }

  predicate Outlives(s: Shared, no: string, expireAt: int) {
    no in s.db.orders && s.db.orders[no].expireAt <= expireAt
  }

  predicate OnPayment(s: Shared, pid: nat, pay: Payment) {
    pid < |s.db.payments| && SamePayment(pay, s.db.payments[pid])
  }

  /** HandlePaid came directly, or through a payment of this order that is pending no more. */
  predicate ThroughDone(s: Shared, no: string, via: Via) {
    via.Through? ==> via.pid < |s.db.payments| && s.db.payments[via.pid].order == no
                     && s.db.payments[via.pid].status != PayPending
  }

  predicate ThroughPaid(s: Shared, no: string, via: Via) {
    via.Through? ==> via.pid < |s.db.payments| && s.db.payments[via.pid].order == no
                     && s.db.payments[via.pid].status == PayPaid
  }

  predicate ThreadFits(cfg: Config, s: Shared, th: Thread) {
    match th
    case CreateInsert(_, expireAt) => expireAt <= s.now + cfg.orderTtl
    case PayLookup(no, _, _, _, _) => no in s.db.orders
    case PayClock(no, _, _, _, _, _, _) => no in s.db.orders
    case PayMint(no, _, _, _, _, expireAt) => Outlives(s, no, expireAt)
    case PayInsert(row) => Outlives(s, row.order, row.expireAt) && row.status == PayPending
    case VerifySetTrade(_, _, pid, pay) => OnPayment(s, pid, pay)
    case VerifyMark(_, _, pid, pay) => OnPayment(s, pid, pay)
    case VerifyUse(_, _, pid, pay) => OnPayment(s, pid, pay) && s.db.payments[pid].status != PayPending
    case PaidLookup(no, _, via) => ThroughDone(s, no, via)
    case PaidCheck(no, _, via, o) => ThroughDone(s, no, via) && no in s.db.orders && SameOrder(o, s.db.orders[no])
    case PaidUpdate(no, _, via, o, _) => ThroughPaid(s, no, via)
    case PaymentSweepRun(before) => before <= s.now
    case _ => true
  }

  ghost predicate Fits(w: World) {
    RowsFit(w.cfg, w.s) && forall t :: t in w.threads ==> ThreadFits(w.cfg, w.s, w.threads[t])
  }

  // ----- preservation --------------------------------------------------------------

  lemma ThreadKeeps(cfg: Config, s: Shared, s': Shared, th: Thread)
    requires Grows(s, s') && ThreadFits(cfg, s, th)
    ensures ThreadFits(cfg, s', th)
  {
  }

  lemma CreateFits(cfg: Config, s: Shared, th: Thread, out: Outcome)
    requires th.CreateLookup? || th.CreateClock? || th.CreateInsert? || th.CreateRefetch?
    requires RowsFit(cfg, s) && ThreadFits(cfg, s, th)
    ensures var (s', th') := AdvanceCreate(cfg, s, th, out); RowsFit(cfg, s') && ThreadFits(cfg, s', th')
  {
    CreateGrows(cfg, s, th, out);
  }

  lemma PayRowsFit(cfg: Config, s: Shared, tid: nat, th: Thread, out: Outcome)
    requires PayPhase(th) && RowsFit(cfg, s) && ThreadFits(cfg, s, th)
    ensures RowsFit(cfg, AdvancePay(cfg, s, tid, th, out).0)
  {
  }

  lemma PayThreadFits(cfg: Config, s: Shared, tid: nat, th: Thread, out: Outcome)
    requires cfg.payTtl >= cfg.orderTtl
    requires PayPhase(th) && RowsFit(cfg, s) && ThreadFits(cfg, s, th)
    ensures var (s', th') := AdvancePay(cfg, s, tid, th, out); ThreadFits(cfg, s', th')
  {
  }

  lemma PayFits(cfg: Config, s: Shared, tid: nat, th: Thread, out: Outcome)
    requires cfg.payTtl >= cfg.orderTtl
    requires PayPhase(th) && RowsFit(cfg, s) && ThreadFits(cfg, s, th)
    ensures var (s', th') := AdvancePay(cfg, s, tid, th, out); RowsFit(cfg, s') && ThreadFits(cfg, s', th')
  {
    hide AdvancePay;
    PayRowsFit(cfg, s, tid, th, out);
    PayThreadFits(cfg, s, tid, th, out);
  }

  lemma VerifyRowsFit(cfg: Config, s: Shared, th: Thread, out: Outcome)
    requires VerifyPhase(th) && RowsFit(cfg, s)
    ensures RowsFit(cfg, AdvanceVerify(cfg, s, th, out).0)
  {
  }

  lemma LookupThreadFits(cfg: Config, s: Shared, th: Thread, out: Outcome)
    requires th.TransferLookup? || th.VerifyTrade? || th.VerifyActive?
    ensures var (s', th') := AdvanceVerify(cfg, s, th, out); ThreadFits(cfg, s', th')
  {
    hide FindByAddress, FindByTradeNo, FindActiveByOrder;
  }

  lemma SetTradeThreadFits(cfg: Config, s: Shared, th: Thread, out: Outcome)
    requires th.VerifySetTrade? && ThreadFits(cfg, s, th)
    ensures var (s', th') := AdvanceVerify(cfg, s, th, out); ThreadFits(cfg, s', th')
  {
  }

  lemma MarkThreadFits(cfg: Config, s: Shared, th: Thread, out: Outcome)
    requires th.VerifyMark? || th.VerifyUse?
    requires ThreadFits(cfg, s, th)
    ensures var (s', th') := AdvanceVerify(cfg, s, th, out); ThreadFits(cfg, s', th')
  {
  }

  lemma VerifyFits(cfg: Config, s: Shared, th: Thread, out: Outcome)
    requires VerifyPhase(th) && RowsFit(cfg, s) && ThreadFits(cfg, s, th)
    ensures var (s', th') := AdvanceVerify(cfg, s, th, out); RowsFit(cfg, s') && ThreadFits(cfg, s', th')
  {
    hide AdvanceVerify;
    VerifyRowsFit(cfg, s, th, out);
    if th.VerifyMark? || th.VerifyUse? {
      MarkThreadFits(cfg, s, th, out);
    } else if th.VerifySetTrade? {
      SetTradeThreadFits(cfg, s, th, out);
    } else {
      LookupThreadFits(cfg, s, th, out);
    }
  }

  /** The heart: the strict payable test leaves no room for the payment to have expired. */
  lemma PayableMeansPaid(cfg: Config, s: Shared, th: Thread)
    requires th.PaidCheck? && RowsFit(cfg, s) && ThreadFits(cfg, s, th) && IsPayable(th.order, s.now)
    ensures ThroughPaid(s, th.no, th.via)
  {
    if th.via.Through? {
      assert PaymentFits(s, s.db.payments[th.via.pid]);
    }
  }

  lemma PaidRowsFit(cfg: Config, s: Shared, tid: nat, th: Thread, out: Outcome)
    requires PaidPhase(th) && RowsFit(cfg, s)
    ensures RowsFit(cfg, AdvancePaid(cfg, s, tid, th, out).0)
  {
  }

  lemma PaidThreadFits(cfg: Config, s: Shared, tid: nat, th: Thread, out: Outcome)
    requires PaidPhase(th) && RowsFit(cfg, s) && ThreadFits(cfg, s, th)
    ensures var (s', th') := AdvancePaid(cfg, s, tid, th, out); ThreadFits(cfg, s', th')
  {
    if th.PaidCheck? && IsPayable(th.order, s.now) { PayableMeansPaid(cfg, s, th); }
  }

  lemma PaidFits(cfg: Config, s: Shared, tid: nat, th: Thread, out: Outcome)
    requires PaidPhase(th) && RowsFit(cfg, s) && ThreadFits(cfg, s, th)
    ensures var (s', th') := AdvancePaid(cfg, s, tid, th, out); RowsFit(cfg, s') && ThreadFits(cfg, s', th')
  {
    hide AdvancePaid;
    PaidRowsFit(cfg, s, tid, th, out);
    PaidThreadFits(cfg, s, tid, th, out);
  }

  lemma OtherFits(cfg: Config, s: Shared, th: Thread, out: Outcome)
    requires OtherPhase(th) && RowsFit(cfg, s) && ThreadFits(cfg, s, th)
    ensures var (s', th') := AdvanceOther(s, th, out); RowsFit(cfg, s') && ThreadFits(cfg, s', th')
  {
    OtherGrows(s, th, out);
  }

  lemma AdvanceFits(cfg: Config, s: Shared, tid: nat, th: Thread, out: Outcome)
    requires cfg.payTtl >= cfg.orderTtl && RowsFit(cfg, s) && ThreadFits(cfg, s, th)
    ensures var (s', th') := Advance(cfg, s, tid, th, out); RowsFit(cfg, s') && ThreadFits(cfg, s', th')
  {
    hide AdvanceCreate, AdvancePay, AdvanceVerify, AdvancePaid, AdvanceOther;
    if th.CreateLookup? || th.CreateClock? || th.CreateInsert? || th.CreateRefetch? { CreateFits(cfg, s, th, out); }
    else if PayPhase(th) { PayFits(cfg, s, tid, th, out); }
    else if VerifyPhase(th) { VerifyFits(cfg, s, th, out); }
    else if PaidPhase(th) { PaidFits(cfg, s, tid, th, out); }
    else if OtherPhase(th) { OtherFits(cfg, s, th, out); }
  }

  lemma StepFits(w: World, e: Event)
    requires w.cfg.payTtl >= w.cfg.orderTtl && Fits(w)
    ensures Fits(Step(w, e))
  {
    hide Advance;
    var w' := Step(w, e);
    StepGrows(w, e);
    match e {
      case Tick(d) =>
      case AddAddresses(addrs) => SeedFrame(w.s.db, addrs);
      case Spawn(tid, th) =>
      case Run(tid, out) => if tid in w.threads { AdvanceFits(w.cfg, w.s, tid, w.threads[tid], out); }
    }
    forall t | t in w'.threads
      ensures ThreadFits(w'.cfg, w'.s, w'.threads[t])
    {
      if t in w.threads && w.threads[t] == w'.threads[t] { ThreadKeeps(w.cfg, w.s, w'.s, w.threads[t]); }
    }
  }

  lemma {:induction false} RunFits(w: World, evs: seq<Event>)
    requires w.cfg.payTtl >= w.cfg.orderTtl && Fits(w)
    ensures Fits(RunAll(w, evs))
    decreases |evs|
  {
    if evs != [] {
      StepFits(w, evs[0]);
      RunFits(Step(w, evs[0]), evs[1..]);
    }
  }

  // ----- the theorem -----------------------------------------------------------------

  /** No thread is about to settle an order through a payment that is not itself paid, and of that order. */
  ghost predicate Honest(w: World) {
    forall t :: t in w.threads && w.threads[t].PaidUpdate? ==> ThroughPaid(w.s, w.threads[t].no, w.threads[t].via)
  }

  ghost predicate AlwaysHonest(cfg: Config) { forall evs :: Honest(RunAll(Init(cfg), evs)) }

  lemma CoupledIsHonest(cfg: Config, evs: seq<Event>)
    requires cfg.payTtl >= cfg.orderTtl
    ensures Honest(RunAll(Init(cfg), evs))
  {
    RunFits(Init(cfg), evs);
  }

  /** When a HandlePaid step turns an order paid, the payment it came through is paid at that moment and for ever
      after. */
  lemma SettledThroughPaidPayment(cfg: Config, before: seq<Event>, tid: nat, out: Outcome, after: seq<Event>)
    requires cfg.payTtl >= cfg.orderTtl
    requires var w := RunAll(Init(cfg), before);
             tid in w.threads && w.threads[tid].PaidUpdate? && w.threads[tid].via.Through?
    ensures var w := RunAll(Init(cfg), before);
            var pid := w.threads[tid].via.pid;
            var w' := RunAll(Step(w, Run(tid, out)), after);
            pid < |w'.s.db.payments| && w'.s.db.payments[pid].status == PayPaid
            && w'.s.db.payments[pid].order == w.threads[tid].no
  {
    var w := RunAll(Init(cfg), before);
    CoupledIsHonest(cfg, before);
    StepGrows(w, Run(tid, out));
    RunGrows(Step(w, Run(tid, out)), after);
  }

  // ----- and its converse -----------------------------------------------------------------
  // An order and a payment for it; the payment's time runs out and the sweep expires it while the order is
  // still payable; then the provider's late notify arrives.

  /** The amount test accepts the very text it compares with. */
  ghost predicate Reflexive(m: Money) { forall a :: m.same(a, a) }

  const TRADE := "t"

  function Attempt(cfg: Config, u: nat): Payment {
    Payment(NO, u, Mock, TRADE, Net(cfg.money, Row(cfg, u)), 0, PayPending, "", cfg.payTtl)
  }

  lemma Pay(cfg: Config, u: nat) returns (evs: seq<Event>, w: World)
    requires u in cfg.users
    ensures w == RunAll(Init(cfg), evs) && w.cfg == cfg && w.threads.Keys == {0, 1}
    ensures w.s.now == 0 && w.s.db.orders == map[NO := Row(cfg, u)] && w.s.db.payments == [Attempt(cfg, u)]
  {
    hide AdvanceCreate, AdvanceVerify, AdvancePaid, AdvanceOther;
    evs, w := Buy(cfg, u);
    var mint, amount := Mint(TRADE, 0), Net(cfg.money, Row(cfg, u));
    evs, w := Start(Init(cfg), evs, w, 1, PayAmount(NO, Mock, mint));
    evs, w := Turn(Init(cfg), evs, w, 1, w.s, PayLookup(NO, Mock, mint, u, amount));
    evs, w := Turn(Init(cfg), evs, w, 1, w.s, PayClock(NO, Mock, mint, u, amount, None, 0));
    evs, w := Turn(Init(cfg), evs, w, 1, w.s, PayMint(NO, Mock, mint, u, amount, cfg.payTtl));
    evs, w := Turn(Init(cfg), evs, w, 1, w.s, PayInsert(Attempt(cfg, u)));
    evs, w := Then(Init(cfg), evs, w, Run(1, Ok));
  }

  lemma Lapse(cfg: Config, u: nat, wait: nat) returns (evs: seq<Event>, w: World)
    requires u in cfg.users && cfg.payTtl <= wait
    ensures w == RunAll(Init(cfg), evs) && w.cfg == cfg && w.threads.Keys == {0, 1, 2}
    ensures w.s.now == wait && w.s.db.orders == map[NO := Row(cfg, u)]
    ensures w.s.db.payments == [Attempt(cfg, u).(status := PayExpired)]
  {
    hide AdvanceCreate, AdvancePay, AdvanceVerify, AdvancePaid;
    evs, w := Pay(cfg, u);
    evs, w := Then(Init(cfg), evs, w, Tick(wait));
    evs, w := Start(Init(cfg), evs, w, 2, PaymentSweepClock);
    evs, w := Turn(Init(cfg), evs, w, 2, w.s, PaymentSweepRun(wait));
    var db := ExpirePayments(w.s.db, wait);
    assert db.payments == [Attempt(cfg, u).(status := PayExpired)];
    evs, w := Turn(Init(cfg), evs, w, 2, w.s.(db := db), Finished(false));
  }

  /** The late notify marks nothing, since the row is expired, but carries on to the order. */
  lemma Notified(cfg: Config, u: nat, wait: nat) returns (evs: seq<Event>, w: World, via: Via)
    requires u in cfg.users && cfg.payTtl <= wait && Reflexive(cfg.money)
    ensures w == RunAll(Init(cfg), evs) && w.cfg == cfg && w.s.now == wait && 3 in w.threads
    ensures w.s.db.orders == map[NO := Row(cfg, u)] && w.s.db.payments == [Attempt(cfg, u).(status := PayExpired)]
    ensures via.Through? && via.pid == 0 && w.threads[3] == PaidLookup(NO, TRADE, via)
  {
    hide AdvanceCreate, AdvancePay, AdvancePaid, AdvanceOther;
    evs, w := Lapse(cfg, u, wait);
    var pay := w.s.db.payments[0];
    var n := Notify(NO, TRADE, pay.amount);
    via := Through(0, Mock, n);
    evs, w := Start(Init(cfg), evs, w, 3, VerifyTrade(Mock, n));
    evs, w := Turn(Init(cfg), evs, w, 3, w.s, VerifyMark(Mock, n, 0, pay));
    evs, w := Turn(Init(cfg), evs, w, 3, w.s, PaidLookup(NO, TRADE, via));
  }

  lemma LateNotify(cfg: Config, u: nat, wait: nat) returns (evs: seq<Event>)
    requires u in cfg.users && cfg.payTtl <= wait < cfg.orderTtl && Reflexive(cfg.money)
    ensures !Honest(RunAll(Init(cfg), evs))
  {
    hide AdvanceCreate, AdvancePay, AdvanceVerify, AdvanceOther;
    var w, via;
    evs, w, via := Notified(cfg, u, wait);
    evs, w := Turn(Init(cfg), evs, w, 3, w.s, PaidCheck(NO, TRADE, via, Row(cfg, u)));
    evs, w := Turn(Init(cfg), evs, w, 3, w.s, PaidUpdate(NO, TRADE, via, Row(cfg, u), wait));
    assert w.threads[3].PaidUpdate?;
  }

  // ----- deployments in which nothing is ever payable ---------------------------------------

  predicate DormantThread(cfg: Config, s: Shared, th: Thread) {
    match th
    case CreateLookup(input) => input.user in cfg.users
    case CreateClock(input) => input.user in cfg.users
    case CreateInsert(input, expireAt) => input.user in cfg.users && expireAt <= s.now + cfg.orderTtl
    case PaidCheck(no, _, _, o) => no in s.db.orders && SameOrder(o, s.db.orders[no])
    case PaidUpdate(_, _, _, _, _) => false
    case PaidCoupon(_, _) => false
    case PaidApply(_, _) => false
    case _ => true
  }

  ghost predicate DormantRows(cfg: Config, s: Shared) {
    forall no :: no in s.db.orders ==>
        s.db.orders[no].expireAt <= s.now + cfg.orderTtl && s.db.orders[no].user in cfg.users
  }

  ghost predicate Dormant(w: World) {
    DormantRows(w.cfg, w.s) && forall t :: t in w.threads ==> DormantThread(w.cfg, w.s, w.threads[t])
  }

  lemma CreateDormant(cfg: Config, s: Shared, th: Thread, out: Outcome)
    requires th.CreateLookup? || th.CreateClock? || th.CreateInsert? || th.CreateRefetch?
    requires DormantRows(cfg, s) && DormantThread(cfg, s, th)
    ensures var (s', th') := AdvanceCreate(cfg, s, th, out); DormantRows(cfg, s') && DormantThread(cfg, s', th')
  {
  }

  lemma PayDormant(cfg: Config, s: Shared, tid: nat, th: Thread, out: Outcome)
    requires PayPhase(th) && DormantRows(cfg, s)
    ensures var (s', th') := AdvancePay(cfg, s, tid, th, out); DormantRows(cfg, s') && DormantThread(cfg, s', th')
  {
  }

  lemma VerifyDormant(cfg: Config, s: Shared, th: Thread, out: Outcome)
    requires VerifyPhase(th) && DormantRows(cfg, s)
    ensures var (s', th') := AdvanceVerify(cfg, s, th, out); DormantRows(cfg, s') && DormantThread(cfg, s', th')
  {
  }

  lemma PaidDormant(cfg: Config, s: Shared, tid: nat, th: Thread, out: Outcome)
    requires cfg.orderTtl <= 0 || cfg.users == map[]
    requires PaidPhase(th) && DormantRows(cfg, s) && DormantThread(cfg, s, th)
    ensures var (s', th') := AdvancePaid(cfg, s, tid, th, out); DormantRows(cfg, s') && DormantThread(cfg, s', th')
  {
  }

  lemma OtherDormant(cfg: Config, s: Shared, th: Thread, out: Outcome)
    requires OtherPhase(th) && DormantRows(cfg, s)
    ensures var (s', th') := AdvanceOther(s, th, out); DormantRows(cfg, s') && DormantThread(cfg, s', th')
  {
  }

  lemma AdvanceDormant(cfg: Config, s: Shared, tid: nat, th: Thread, out: Outcome)
    requires cfg.orderTtl <= 0 || cfg.users == map[]
    requires DormantRows(cfg, s) && DormantThread(cfg, s, th)
    ensures var (s', th') := Advance(cfg, s, tid, th, out); DormantRows(cfg, s') && DormantThread(cfg, s', th')
  {
    hide AdvanceCreate, AdvancePay, AdvanceVerify, AdvancePaid, AdvanceOther;
    if th.CreateLookup? || th.CreateClock? || th.CreateInsert? || th.CreateRefetch? { CreateDormant(cfg, s, th, out); }
    else if PayPhase(th) { PayDormant(cfg, s, tid, th, out); }
    else if VerifyPhase(th) { VerifyDormant(cfg, s, th, out); }
    else if PaidPhase(th) { PaidDormant(cfg, s, tid, th, out); }
    else if OtherPhase(th) { OtherDormant(cfg, s, th, out); }
  }

  lemma StepDormant(w: World, e: Event)
    requires (w.cfg.orderTtl <= 0 || w.cfg.users == map[]) && Dormant(w)
    ensures Dormant(Step(w, e)) && Step(w, e).cfg == w.cfg
  {
    hide Advance;
    StepGrows(w, e);
    match e
    case AddAddresses(addrs) => SeedFrame(w.s.db, addrs);
    case Run(tid, out) => if tid in w.threads { AdvanceDormant(w.cfg, w.s, tid, w.threads[tid], out); }
    case _ =>
  }

  lemma {:induction false} RunDormant(w: World, evs: seq<Event>)
    requires (w.cfg.orderTtl <= 0 || w.cfg.users == map[]) && Dormant(w)
    ensures Dormant(RunAll(w, evs))
    decreases |evs|
  {
    hide Step, Dormant;
    if evs != [] {
      StepDormant(w, evs[0]);
      RunDormant(Step(w, evs[0]), evs[1..]);
    }
  }

  lemma NeverPayable(w: World, evs: seq<Event>)
    requires w.cfg.orderTtl <= 0 || w.cfg.users == map[]
    requires Dormant(w)
    ensures Honest(RunAll(w, evs)) && forall t :: t in RunAll(w, evs).threads ==> !RunAll(w, evs).threads[t].PaidUpdate?
  {
    RunDormant(w, evs);
    hide RunAll, Advance, Step;
  }

  /** Exactly when: payments live at least as long as orders, or no order can ever be payable. */
  lemma HonestIffCoupled(cfg: Config)
    requires Reflexive(cfg.money)
    ensures AlwaysHonest(cfg) <==> cfg.payTtl >= cfg.orderTtl || cfg.orderTtl <= 0 || cfg.users == map[]
  {
    if cfg.payTtl >= cfg.orderTtl {
      forall evs ensures Honest(RunAll(Init(cfg), evs)) { CoupledIsHonest(cfg, evs); }
    } else if cfg.orderTtl > 0 && cfg.users != map[] {
      var u :| u in cfg.users;
      var evs := LateNotify(cfg, u, if cfg.payTtl < 0 then 0 else cfg.payTtl);
    } else {
      forall evs ensures Honest(RunAll(Init(cfg), evs)) { NeverPayable(Init(cfg), evs); }
    }
  }

  /** With the services' own amount functions. */
  lemma SourceHonestIffCoupled(cfg: Config)
    requires cfg.money == SourceMoney()
    ensures AlwaysHonest(cfg) <==> cfg.payTtl >= cfg.orderTtl || cfg.orderTtl <= 0 || cfg.users == map[]
  {
    SourceReflexive();
    HonestIffCoupled(cfg);
  }

  lemma SourceReflexive()
    ensures Reflexive(SourceMoney())
  {
  }

  /** OrderPendingTTL and DefaultPaymentTTL are both fifteen minutes, so the code is on the safe side. */
  lemma SourceTtlsAreCoupled(cfg: Config, evs: seq<Event>)
    requires cfg.orderTtl == 15 * 60 && cfg.payTtl == 15 * 60
    ensures Honest(RunAll(Init(cfg), evs))
  {
    CoupledIsHonest(cfg, evs);
  }
}
