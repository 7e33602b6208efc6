/** The unique index on a payment's channel and trade number, and what keeps it. */
module TradeIndex {
  import opened Wrappers
  import opened Tables
  import opened Machine
  import opened Growth

  ghost predicate TradesUnique(db: Db) {
    forall i, j :: 0 <= i < j < |db.payments| && db.payments[i].channel == db.payments[j].channel ==>
      db.payments[i].tradeNo != db.payments[j].tradeNo
  }

  lemma PayKeepsIndex(cfg: Config, s: Shared, tid: nat, th: Thread, out: Outcome)
    requires PayPhase(th) && TradesUnique(s.db)
    ensures TradesUnique(AdvancePay(cfg, s, tid, th, out).0.db)
  {
    hide FindActiveByOrder, NextFree;
  }

  lemma RetradeKeepsIndex(db: Db, pid: nat, tradeNo: string)
    requires TradesUnique(db)
    ensures TradesUnique(UpdateTradeNo(db, pid, tradeNo)) && TradesUnique(MarkPaid(db, pid, tradeNo))
  {
  }

  lemma VerifyKeepsIndex(cfg: Config, s: Shared, th: Thread, out: Outcome)
    requires VerifyPhase(th) && TradesUnique(s.db)
    ensures TradesUnique(AdvanceVerify(cfg, s, th, out).0.db)
  {
    hide FindByAddress, FindByTradeNo, FindActiveByOrder, AfterLookup, UpdateTradeNo, MarkPaid;
    if th.VerifySetTrade? || th.VerifyMark? { RetradeKeepsIndex(s.db, th.pid, th.n.tradeNo); }
  }

  lemma OtherKeepsIndex(s: Shared, th: Thread, out: Outcome)
    requires OtherPhase(th) && TradesUnique(s.db)
    ensures TradesUnique(AdvanceOther(s, th, out).0.db)
  {
  }

  lemma CreateKeepsPayments(cfg: Config, s: Shared, th: Thread, out: Outcome)
    requires th.CreateLookup? || th.CreateClock? || th.CreateInsert? || th.CreateRefetch?
    ensures AdvanceCreate(cfg, s, th, out).0.db.payments == s.db.payments
  {
  }

  lemma PaidKeepsPayments(cfg: Config, s: Shared, tid: nat, th: Thread, out: Outcome)
    requires PaidPhase(th)
    ensures AdvancePaid(cfg, s, tid, th, out).0.db.payments == s.db.payments
  {
  }

  lemma AdvanceKeepsIndex(cfg: Config, s: Shared, tid: nat, th: Thread, out: Outcome)
    requires TradesUnique(s.db)
    ensures TradesUnique(Advance(cfg, s, tid, th, out).0.db)
  {
    hide AdvanceCreate, AdvancePay, AdvanceVerify, AdvancePaid, AdvanceOther;
    if th.CreateLookup? || th.CreateClock? || th.CreateInsert? || th.CreateRefetch? {
      CreateKeepsPayments(cfg, s, th, out);
    }
    else if PayPhase(th) { PayKeepsIndex(cfg, s, tid, th, out); }
    else if VerifyPhase(th) { VerifyKeepsIndex(cfg, s, th, out); }
    else if PaidPhase(th) { PaidKeepsPayments(cfg, s, tid, th, out); }
    else if OtherPhase(th) { OtherKeepsIndex(s, th, out); }
  }

  lemma StepKeepsIndex(w: World, e: Event)
    requires TradesUnique(w.s.db)
    ensures TradesUnique(Step(w, e).s.db)
  {
    hide Advance;
    match e
    case AddAddresses(addrs) => SeedFrame(w.s.db, addrs);
    case Run(tid, out) => if tid in w.threads { AdvanceKeepsIndex(w.cfg, w.s, tid, w.threads[tid], out); }
    case _ =>
  }

  lemma {:induction false} RunKeepsIndex(w: World, evs: seq<Event>)
    requires TradesUnique(w.s.db)
    ensures TradesUnique(RunAll(w, evs).s.db)
    decreases |evs|
  {
    hide Step, TradesUnique;
    if evs != [] {
      StepKeepsIndex(w, evs[0]);
      RunKeepsIndex(Step(w, evs[0]), evs[1..]);
    }
  }

  /** On every run, with any failures, two payments of one channel have different trade numbers. Since a missing one is
      the empty text, each channel holds at most one payment that waits for its trade number. */
  lemma TradeNumbersDiffer(cfg: Config, evs: seq<Event>, i: nat, j: nat)
    requires var ps := RunAll(Init(cfg), evs).s.db.payments;
             i < |ps| && j < |ps| && i != j && ps[i].channel == ps[j].channel
    ensures var ps := RunAll(Init(cfg), evs).s.db.payments; ps[i].tradeNo != ps[j].tradeNo
  {
    RunKeepsIndex(Init(cfg), evs);
  }
}
