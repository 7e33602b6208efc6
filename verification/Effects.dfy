/** At most one application of an order's effects, and finished orders stay finished: what per-order
    serialization of the handlers buys. */
module Effects {
  import opened Wrappers
  import opened Tables
  import opened Machine
  import opened Growth

  predicate IsPending(s: Shared, no: string) { no in s.db.orders && s.db.orders[no].status == Pending }

  predicate IsPaid(s: Shared, no: string) { no in s.db.orders && s.db.orders[no].status == Paid }

  // ----- disciplines ------------------------------------------------------------

  /** Between HandlePaid's read of the order and its status write. */
  predicate PayWindow(th: Thread, no: string) { (th.PaidCheck? || th.PaidUpdate?) && th.no == no }

  /** Between any handler's read of the order and its status write. */
  predicate Window(th: Thread, no: string) { PayWindow(th, no) || (th.CancelUpdate? && th.no == no) }

  /** HandlePaid calls on one order do not overlap; everything else may. */
  ghost predicate PaidExclusive(w: World, e: Event) {
    e.Run? && e.tid in w.threads && w.threads[e.tid].PaidLookup? ==>
      forall t :: t in w.threads ==> !PayWindow(w.threads[t], w.threads[e.tid].no)
  }

  /** Handlers on one order, including the sweep where it would expire that order, do not overlap. */
  ghost predicate Exclusive(w: World, e: Event) {
    e.Run? && e.tid in w.threads ==>
      var th := w.threads[e.tid];
      && (th.PaidLookup? || th.CancelLookup? ==> forall t :: t in w.threads ==> !Window(w.threads[t], th.no))
      && (th.OrderSweepRun? ==> forall t, no :: t in w.threads && no in w.s.db.orders && Window(w.threads[t], no) ==>
            !OrderLapses(w.s.db.orders[no], th.before))
  }

  ghost predicate PaidSerial(w: World, evs: seq<Event>)
    decreases |evs|
  {
    evs != [] ==> PaidExclusive(w, evs[0]) && PaidSerial(Step(w, evs[0]), evs[1..])
  }

  ghost predicate Serial(w: World, evs: seq<Event>)
    decreases |evs|
  {
    evs != [] ==> Exclusive(w, evs[0]) && Serial(Step(w, evs[0]), evs[1..])
  }

  // ----- at most once -------------------------------------------------------------

  /** A won order is pending no more. */
  ghost predicate WinnersOk(s: Shared) {
    forall no :: no in s.hist.winner ==> no in s.db.orders && s.db.orders[no].status != Pending
  }

  predicate ReadOrder(s: Shared, no: string, o: Order) { no in s.db.orders && SameOrder(o, s.db.orders[no]) }

  ghost predicate OnceThread(s: Shared, tid: nat, th: Thread) {
    match th
    case PaidCheck(no, _, _, o) => ReadOrder(s, no, o) && (o.status == Pending ==> no !in s.hist.winner)
    case PaidUpdate(no, _, _, o, _) => ReadOrder(s, no, o) && no !in s.hist.winner
    case PaidCoupon(no, o) => ReadOrder(s, no, o) && no in s.hist.winner && s.hist.winner[no] == tid && o.coupon != ""
    case PaidApply(no, o) => ReadOrder(s, no, o) && no in s.hist.winner && s.hist.winner[no] == tid
    case _ => true
  }

  /** Each effect was applied by the thread that won its order, and that thread is done. */
  ghost predicate EffectsOk(w: World) {
    && (forall i :: 0 <= i < |w.s.hist.effects| ==>
          var f := w.s.hist.effects[i];
          f.no in w.s.hist.winner && w.s.hist.winner[f.no] == f.tid && f.tid in w.threads && Ended(w.threads[f.tid]))
    && Distinct(w.s.hist.effects)
  }

  ghost predicate Distinct(fs: seq<Effect>) { forall i, j :: 0 <= i < j < |fs| ==> fs[i].no != fs[j].no }

  ghost predicate OneInWindow(w: World) {
    forall t, u, no :: t in w.threads && u in w.threads && t != u && PayWindow(w.threads[t], no) ==>
        !PayWindow(w.threads[u], no)
  }

  ghost predicate Once(w: World) {
    && WinnersOk(w.s)
    && OneInWindow(w)
    && (forall t :: t in w.threads ==> OnceThread(w.s, t, w.threads[t]))
    && EffectsOk(w)
  }

  /** What a step leaves of the record of winners and effects. */
  predicate Recorded(s: Shared, s': Shared, tid: nat, th: Thread, out: Outcome) {
    && s'.hist.winner == (if th.PaidUpdate? && Took(out) then s.hist.winner[th.no := tid] else s.hist.winner)
    && s'.hist.effects == if th.PaidApply? && Took(out) && th.order.user in s.db.users
                          then s.hist.effects + [Effect(th.no, s.now, tid)] else s.hist.effects
  }

  lemma PaidRecords(cfg: Config, s: Shared, tid: nat, th: Thread, out: Outcome)
    requires PaidPhase(th)
    ensures Recorded(s, AdvancePaid(cfg, s, tid, th, out).0, tid, th, out)
  {
  }

  lemma PayRecords(cfg: Config, s: Shared, tid: nat, th: Thread, out: Outcome)
    requires PayPhase(th)
    ensures Recorded(s, AdvancePay(cfg, s, tid, th, out).0, tid, th, out)
  {
    hide FindActiveByOrder, NextFree, TradeTaken;
  }

  lemma VerifyRecords(cfg: Config, s: Shared, tid: nat, th: Thread, out: Outcome)
    requires VerifyPhase(th)
    ensures Recorded(s, AdvanceVerify(cfg, s, th, out).0, tid, th, out)
  {
    hide FindByAddress, FindByTradeNo, FindActiveByOrder, AfterLookup, UpdateTradeNo, MarkPaid, MarkUsed;
  }

  lemma PaymentSideRecords(cfg: Config, s: Shared, tid: nat, th: Thread, out: Outcome)
    requires PayPhase(th) || VerifyPhase(th)
    ensures Recorded(s, Advance(cfg, s, tid, th, out).0, tid, th, out)
  {
    hide AdvanceCreate, AdvancePay, AdvanceVerify, AdvancePaid, AdvanceOther;
    if PayPhase(th) { PayRecords(cfg, s, tid, th, out); } else { VerifyRecords(cfg, s, tid, th, out); }
  }

  /** Winners are only added, and only by a status write; effects only by applying them. */
  lemma WinnerStep(cfg: Config, s: Shared, tid: nat, th: Thread, out: Outcome)
    ensures Recorded(s, Advance(cfg, s, tid, th, out).0, tid, th, out)
  {
    hide AdvancePay, AdvanceVerify, AdvancePaid;
    if PaidPhase(th) { PaidRecords(cfg, s, tid, th, out); }
    else if PayPhase(th) || VerifyPhase(th) { PaymentSideRecords(cfg, s, tid, th, out); }
  }

  /** What HandlePaid's status write leaves: the row paid, and the order's effects still to come. */
  lemma SettleStep(cfg: Config, s: Shared, tid: nat, th: Thread, out: Outcome)
    requires th.PaidUpdate? && th.no in s.db.orders
    ensures var (s', th') := Advance(cfg, s, tid, th, out); var o := s.db.orders[th.no];
            && (!Took(out) ==> s'.db.orders == s.db.orders)
            && (Took(out) ==> s'.db.orders == s.db.orders[th.no := o.(status := Paid, paidAt := Some(th.paidAt),
                  paid := Net(cfg.money, th.order), channelNo := if th.tradeNo != "" then th.tradeNo else o.channelNo)])
            && (out == Ok ==> (th'.PaidCoupon? || th'.PaidApply?) && th'.no == th.no && th'.order == th.order)
            && (out != Ok ==> th' == Finished(true))
            && s'.now == s.now
  {
    hide AdvanceCreate, AdvancePay, AdvanceVerify, AdvanceOther;
  }

  lemma OwnWinners(cfg: Config, s: Shared, tid: nat, th: Thread, out: Outcome)
    requires WinnersOk(s) && OnceThread(s, tid, th)
    ensures WinnersOk(Advance(cfg, s, tid, th, out).0)
  {
    hide AdvanceCreate, AdvancePay, AdvanceVerify, AdvanceOther;
    AdvanceGrows(cfg, s, tid, th, out);
    WinnerStep(cfg, s, tid, th, out);
  }

  lemma OwnThread(cfg: Config, s: Shared, tid: nat, th: Thread, out: Outcome)
    requires WinnersOk(s) && OnceThread(s, tid, th)
    ensures var (s', th') := Advance(cfg, s, tid, th, out); OnceThread(s', tid, th')
  {
    hide AdvanceCreate, AdvancePay, AdvanceVerify, AdvancePaid, AdvanceOther;
    AdvanceGrows(cfg, s, tid, th, out);
    if PaidPhase(th) {
      OwnPaidThread(cfg, s, tid, th, out);
    } else {
      OtherPhasesStayOut(cfg, s, tid, th, out);
    }
  }

  lemma OwnPaidThread(cfg: Config, s: Shared, tid: nat, th: Thread, out: Outcome)
    requires PaidPhase(th) && WinnersOk(s) && OnceThread(s, tid, th)
    ensures var (s', th') := AdvancePaid(cfg, s, tid, th, out); OnceThread(s', tid, th')
  {
  }

  predicate Outside(th: Thread) { !th.PaidCheck? && !th.PaidUpdate? && !th.PaidCoupon? && !th.PaidApply? }

  lemma VerifyStaysOut(cfg: Config, s: Shared, th: Thread, out: Outcome)
    requires VerifyPhase(th)
    ensures var th' := AdvanceVerify(cfg, s, th, out).1; Outside(th') && !th'.CancelUpdate?
  {
  }

  lemma PayStaysOut(cfg: Config, s: Shared, tid: nat, th: Thread, out: Outcome)
    requires PayPhase(th)
    ensures var th' := AdvancePay(cfg, s, tid, th, out).1; Outside(th') && !th'.CancelUpdate?
  {
  }

  /** Only HandlePaid reaches the stages the discipline is about, and only CancelOrder its own write. */
  lemma OtherPhasesStayOut(cfg: Config, s: Shared, tid: nat, th: Thread, out: Outcome)
    requires !PaidPhase(th)
    ensures var th' := Advance(cfg, s, tid, th, out).1; Outside(th') && (th'.CancelUpdate? ==> th.CancelLookup?)
  {
    hide AdvancePay, AdvanceVerify, AdvancePaid;
    if PayPhase(th) { PayStaysOut(cfg, s, tid, th, out); } else if VerifyPhase(th) { VerifyStaysOut(cfg, s, th, out); }
  }

  /** Another thread's facts survive a step that wins no order the thread is reading. */
  lemma OnceKeeps(s: Shared, s': Shared, tid: nat, th: Thread)
    requires Grows(s, s') && OnceThread(s, tid, th)
    requires forall no :: no in s'.hist.winner && no !in s.hist.winner ==> !PayWindow(th, no)
    requires forall no :: no in s.hist.winner ==> no in s'.hist.winner && s'.hist.winner[no] == s.hist.winner[no]
    ensures OnceThread(s', tid, th)
  {
  }

  /** Entering the window needs the discipline; staying in it does not. */
  lemma WindowStep(cfg: Config, s: Shared, tid: nat, th: Thread, out: Outcome, no: string)
    requires PayWindow(Advance(cfg, s, tid, th, out).1, no)
    ensures PayWindow(th, no) || (th.PaidLookup? && th.no == no)
  {
    hide AdvanceCreate, AdvancePay, AdvanceVerify, AdvanceOther;
    if !PaidPhase(th) { OtherPhasesStayOut(cfg, s, tid, th, out); }
  }

  lemma RunStepOnce(w: World, tid: nat, out: Outcome)
    requires Once(w) && tid in w.threads && PaidExclusive(w, Run(tid, out))
    ensures Once(Step(w, Run(tid, out)))
  {
    hide Advance;
    var th := w.threads[tid];
    var w' := Step(w, Run(tid, out));
    AdvanceGrows(w.cfg, w.s, tid, th, out);
    WinnerStep(w.cfg, w.s, tid, th, out);
    OwnWinners(w.cfg, w.s, tid, th, out);
    OwnThread(w.cfg, w.s, tid, th, out);
    forall t | t in w'.threads ensures OnceThread(w'.s, t, w'.threads[t]) {
      if t != tid { OnceKeeps(w.s, w'.s, t, w.threads[t]); }
    }
    RunStepWindow(w, tid, out);
    RunStepEffects(w, tid, out);
  }

  lemma RunStepWindow(w: World, tid: nat, out: Outcome)
    requires OneInWindow(w) && tid in w.threads && PaidExclusive(w, Run(tid, out))
    ensures OneInWindow(Step(w, Run(tid, out)))
  {
    hide Advance;
    var w' := Step(w, Run(tid, out));
    forall no | PayWindow(w'.threads[tid], no)
      ensures forall u :: u in w.threads && u != tid ==> !PayWindow(w.threads[u], no)
    {
      WindowStep(w.cfg, w.s, tid, w.threads[tid], out, no);
    }
  }

  lemma RunStepEffects(w: World, tid: nat, out: Outcome)
    requires EffectsOk(w) && tid in w.threads && OnceThread(w.s, tid, w.threads[tid])
    ensures EffectsOk(Step(w, Run(tid, out)))
  {
    hide Advance;
    var th := w.threads[tid];
    WinnerStep(w.cfg, w.s, tid, th, out);
    EndedStays(w.cfg, w.s, tid, th, out);
  }

  lemma EndedStays(cfg: Config, s: Shared, tid: nat, th: Thread, out: Outcome)
    ensures Ended(th) || th.PaidApply? ==> Ended(Advance(cfg, s, tid, th, out).1)
  {
    hide AdvanceCreate, AdvancePay, AdvanceVerify, AdvanceOther;
  }

  lemma QuietOnce(w: World, e: Event)
    requires Once(w) && !e.Run?
    ensures Once(Quiet(w, e))
  {
    hide Advance;
    if e.AddAddresses? { SeedFrame(w.s.db, e.addrs); }
  }

  lemma StepOnce(w: World, e: Event)
    requires Once(w) && PaidExclusive(w, e)
    ensures Once(Step(w, e))
  {
    hide Advance;
    if !e.Run? {
      QuietOnce(w, e);
    } else if e.tid in w.threads {
      RunStepOnce(w, e.tid, e.out);
    }
  }

  lemma {:induction false} RunOnce(w: World, evs: seq<Event>)
    requires Once(w) && PaidSerial(w, evs)
    ensures Once(RunAll(w, evs))
    decreases |evs|
  {
    if evs != [] {
      StepOnce(w, evs[0]);
      RunOnce(Step(w, evs[0]), evs[1..]);
    }
  }

  /** However many of an order's payments are verified, and whatever calls fail, its effects are applied at most once
      on every run in which HandlePaid calls on one order do not overlap. */
  lemma EffectsAtMostOnce(cfg: Config, evs: seq<Event>)
    requires PaidSerial(Init(cfg), evs)
    ensures Distinct(RunAll(Init(cfg), evs).s.hist.effects)
  {
    RunOnce(Init(cfg), evs);
  }

  lemma {:induction false} SerialIsPaidSerial(w: World, evs: seq<Event>)
    requires Serial(w, evs)
    ensures PaidSerial(w, evs)
    decreases |evs|
  {
    if evs != [] { SerialIsPaidSerial(Step(w, evs[0]), evs[1..]); }
  }

  // ----- finished orders stay finished ----------------------------------------------

  /** A thread in an order's window has read the row as it still is, and writes only if it read it pending. */
  predicate HeldThread(s: Shared, th: Thread) {
    match th
    case PaidCheck(no, _, _, o) => no in s.db.orders && s.db.orders[no] == o
    case PaidUpdate(no, _, _, o, _) => no in s.db.orders && s.db.orders[no] == o && o.status == Pending
    case CancelUpdate(no, o) => no in s.db.orders && s.db.orders[no] == o && o.status == Pending
    case _ => true
  }

  ghost predicate Held(w: World) {
    && (forall t, u, no :: t in w.threads && u in w.threads && t != u && Window(w.threads[t], no) ==>
        !Window(w.threads[u], no))
    && (forall t :: t in w.threads ==> HeldThread(w.s, w.threads[t]))
  }

  /** The rows a step can change: the one it writes, or the ones the sweep finds lapsed. */
  predicate Touches(s: Shared, th: Thread, no: string) {
    ((th.PaidUpdate? || th.CancelUpdate?) && th.no == no)
    || (th.OrderSweepRun? && no in s.db.orders && OrderLapses(s.db.orders[no], th.before))
  }

  lemma PaidRowsTouched(cfg: Config, s: Shared, tid: nat, th: Thread, out: Outcome, no: string)
    requires PaidPhase(th) && no in s.db.orders && !Touches(s, th, no)
    ensures var s' := AdvancePaid(cfg, s, tid, th, out).0; no in s'.db.orders && s'.db.orders[no] == s.db.orders[no]
  {
  }

  lemma OtherRowsTouched(s: Shared, th: Thread, out: Outcome, no: string)
    requires OtherPhase(th) && no in s.db.orders && !Touches(s, th, no)
    ensures var s' := AdvanceOther(s, th, out).0; no in s'.db.orders && s'.db.orders[no] == s.db.orders[no]
  {
  }

  lemma CreateRowsTouched(cfg: Config, s: Shared, th: Thread, out: Outcome, no: string)
    requires th.CreateLookup? || th.CreateClock? || th.CreateInsert? || th.CreateRefetch?
    requires no in s.db.orders
    ensures var s' := AdvanceCreate(cfg, s, th, out).0; no in s'.db.orders && s'.db.orders[no] == s.db.orders[no]
  {
  }

  lemma RowsTouched(cfg: Config, s: Shared, tid: nat, th: Thread, out: Outcome, no: string)
    requires no in s.db.orders && !Touches(s, th, no)
    ensures var s' := Advance(cfg, s, tid, th, out).0; no in s'.db.orders && s'.db.orders[no] == s.db.orders[no]
  {
    hide AdvanceCreate, AdvancePay, AdvanceVerify, AdvancePaid, AdvanceOther;
    var s' := Advance(cfg, s, tid, th, out).0;
    if PayPhase(th) || VerifyPhase(th) {
      PaymentSideKeepsOrders(cfg, s, tid, th, out);
    } else if PaidPhase(th) {
      PaidRowsTouched(cfg, s, tid, th, out, no);
      assert s' == AdvancePaid(cfg, s, tid, th, out).0;
    } else if OtherPhase(th) {
      OtherRowsTouched(s, th, out, no);
      assert s' == AdvanceOther(s, th, out).0;
    } else if !Ended(th) {
      CreateRowsTouched(cfg, s, th, out, no);
      assert s' == AdvanceCreate(cfg, s, th, out).0;
    }
  }

  lemma HeldKeeps(cfg: Config, s: Shared, tid: nat, th: Thread, out: Outcome, other: Thread)
    requires HeldThread(s, other)
    requires forall no :: Window(other, no) ==> !Touches(s, th, no)
    ensures HeldThread(Advance(cfg, s, tid, th, out).0, other)
  {
    hide Advance;
    if other.PaidCheck? || other.PaidUpdate? || other.CancelUpdate? {
      assert Window(other, other.no);
      RowsTouched(cfg, s, tid, th, out, other.no);
    }
  }

  lemma OwnHeld(cfg: Config, s: Shared, tid: nat, th: Thread, out: Outcome)
    requires HeldThread(s, th)
    ensures var (s', th') := Advance(cfg, s, tid, th, out); HeldThread(s', th')
  {
    hide AdvanceCreate, AdvancePay, AdvanceVerify;
    if !PaidPhase(th) { OtherPhasesStayOut(cfg, s, tid, th, out); }
  }

  lemma HeldWindowStep(cfg: Config, s: Shared, tid: nat, th: Thread, out: Outcome, no: string)
    requires Window(Advance(cfg, s, tid, th, out).1, no)
    ensures Window(th, no) || ((th.PaidLookup? || th.CancelLookup?) && th.no == no)
  {
    hide AdvanceCreate, AdvancePay, AdvanceVerify;
    if !PaidPhase(th) { OtherPhasesStayOut(cfg, s, tid, th, out); }
  }

  lemma RunStepHeld(w: World, tid: nat, out: Outcome)
    requires Held(w) && tid in w.threads && Exclusive(w, Run(tid, out))
    ensures Held(Step(w, Run(tid, out)))
  {
    hide Advance;
    var th := w.threads[tid];
    var w' := Step(w, Run(tid, out));
    OwnHeld(w.cfg, w.s, tid, th, out);
    forall t | t in w'.threads ensures HeldThread(w'.s, w'.threads[t]) {
      if t != tid { HeldKeeps(w.cfg, w.s, tid, th, out, w.threads[t]); }
    }
    forall no | Window(w'.threads[tid], no)
      ensures forall u :: u in w.threads && u != tid ==> !Window(w.threads[u], no)
    {
      HeldWindowStep(w.cfg, w.s, tid, th, out, no);
    }
  }

  /** A step that changes an order's status finds it pending. */
  ghost predicate OnlyFromPending(a: Db, b: Db) {
    forall no :: no in a.orders ==>
        no in b.orders && (a.orders[no].status != Pending ==> b.orders[no].status == a.orders[no].status)
  }

  lemma FinishedUntouched(s: Shared, th: Thread, no: string)
    requires HeldThread(s, th) && no in s.db.orders && s.db.orders[no].status != Pending
    ensures !Touches(s, th, no)
  {
  }

  lemma RunStepAbsorbs(cfg: Config, s: Shared, tid: nat, th: Thread, out: Outcome)
    requires HeldThread(s, th)
    ensures OnlyFromPending(s.db, Advance(cfg, s, tid, th, out).0.db)
  {
    hide Advance, PaymentsGrow, HeldThread, Touches;
    var db' := Advance(cfg, s, tid, th, out).0.db;
    AdvanceGrows(cfg, s, tid, th, out);
    forall no | no in s.db.orders && s.db.orders[no].status != Pending
      ensures db'.orders[no].status == s.db.orders[no].status
    {
      FinishedUntouched(s, th, no);
      RowsTouched(cfg, s, tid, th, out, no);
    }
  }

  lemma SpawnHeld(w: World, tid: nat, th: Thread)
    requires Held(w) && tid !in w.threads && !th.PaidCheck? && !th.PaidUpdate? && !th.CancelUpdate?
    ensures Held(w.(threads := w.threads[tid := th]))
  {
  }

  lemma QuietHeld(w: World, e: Event)
    requires Held(w) && !e.Run?
    ensures Held(Quiet(w, e)) && Quiet(w, e).s.db.orders == w.s.db.orders
  {
    hide Advance;
    match e
    case Tick(d) =>
    case AddAddresses(addrs) => SeedFrame(w.s.db, addrs);
    case Spawn(tid, th) => if tid !in w.threads && CanStart(w.cfg, th) { SpawnHeld(w, tid, th); }
  }

  lemma StepHeld(w: World, e: Event)
    requires Held(w) && Exclusive(w, e)
    ensures Held(Step(w, e)) && OnlyFromPending(w.s.db, Step(w, e).s.db)
  {
    hide Advance;
    if !e.Run? {
      QuietHeld(w, e);
    } else if e.tid in w.threads {
      RunStepHeld(w, e.tid, e.out);
      RunStepAbsorbs(w.cfg, w.s, e.tid, w.threads[e.tid], e.out);
    }
  }

  lemma {:induction false} RunHeld(w: World, evs: seq<Event>)
    requires Held(w) && Serial(w, evs)
    ensures Held(RunAll(w, evs)) && OnlyFromPending(w.s.db, RunAll(w, evs).s.db)
    decreases |evs|
  {
    if evs != [] {
      StepHeld(w, evs[0]);
      RunHeld(Step(w, evs[0]), evs[1..]);
    }
  }

  lemma {:induction false} SerialSplits(w: World, a: seq<Event>, b: seq<Event>)
    requires Serial(w, a + b)
    ensures Serial(w, a) && Serial(RunAll(w, a), b)
    decreases |a|
  {
    hide Exclusive, Step;
    if a == [] {
      assert a + b == b;
    } else {
      assert (a + b)[0] == a[0] && (a + b)[1..] == a[1..] + b;
      SerialSplits(Step(w, a[0]), a[1..], b);
    }
  }

  lemma {:induction false} SerialJoins(w: World, a: seq<Event>, b: seq<Event>)
    requires Serial(w, a) && Serial(RunAll(w, a), b)
    ensures Serial(w, a + b)
    decreases |a|
  {
    hide Exclusive, Step;
    if a == [] {
      assert a + b == b;
    } else {
      assert (a + b)[0] == a[0] && (a + b)[1..] == a[1..] + b;
      SerialJoins(Step(w, a[0]), a[1..], b);
    }
  }

  /** Paid, cancelled and expired orders never change status again, from any point of a run in which
      handlers on one order do not overlap; any calls may fail. */
  lemma FinishedOrdersStay(cfg: Config, before: seq<Event>, after: seq<Event>, no: string)
    requires Serial(Init(cfg), before + after)
    requires var o := RunAll(Init(cfg), before).s.db.orders; no in o && o[no].status != Pending
    ensures var o := RunAll(Init(cfg), before).s.db.orders; var o' := RunAll(Init(cfg), before + after).s.db.orders;
            no in o' && o'[no].status == o[no].status
  {
    SerialSplits(Init(cfg), before, after);
    RunAllAppend(Init(cfg), before, after);
    RunHeld(Init(cfg), before);
    RunHeld(RunAll(Init(cfg), before), after);
  }

  // ----- the one step that pays an order ------------------------------------------------

  /** A step that takes an order from pending to paid. */
  ghost predicate PaysIn(w: World, e: Event, no: string) { IsPending(w.s, no) && IsPaid(Step(w, e).s, no) }

  /** The k-th event of the run is such a step. */
  ghost predicate PaysAt(cfg: Config, evs: seq<Event>, k: nat, no: string) {
    k < |evs| && PaysIn(RunAll(Init(cfg), evs[..k]), evs[k], no)
  }

  lemma RunLast(w: World, evs: seq<Event>)
    requires evs != []
    ensures var n := |evs| - 1; RunAll(w, evs) == Step(RunAll(w, evs[..n]), evs[n])
  {
    hide Step;
    var n := |evs| - 1;
    assert evs == evs[..n] + [evs[n]];
    RunAllAppend(w, evs[..n], [evs[n]]);
    assert [evs[n]][1..] == [];
  }

  /** A winner was there before, or this step of its thread paid the order. */
  lemma WinnerComes(w: World, e: Event, no: string)
    requires Held(w) && Once(w) && no in Step(w, e).s.hist.winner
    ensures var tid := Step(w, e).s.hist.winner[no];
            (no in w.s.hist.winner && w.s.hist.winner[no] == tid) || (e.Run? && e.tid == tid && PaysIn(w, e, no))
  {
    hide Advance, Once;
    if e.Run? && e.tid in w.threads {
      var th := w.threads[e.tid];
      WinnerStep(w.cfg, w.s, e.tid, th, e.out);
      if th.PaidUpdate? {
        assert HeldThread(w.s, th);
        SettleStep(w.cfg, w.s, e.tid, th, e.out);
      }
    }
  }

  lemma {:induction false} WonAt(cfg: Config, evs: seq<Event>, no: string) returns (k: nat)
    requires Serial(Init(cfg), evs) && no in RunAll(Init(cfg), evs).s.hist.winner
    ensures PaysAt(cfg, evs, k, no) && evs[k].Run? && evs[k].tid == RunAll(Init(cfg), evs).s.hist.winner[no]
    decreases |evs|
  {
    hide Held, Once, PaysIn, Step;
    var n := |evs| - 1;
    assert evs != [] by { assert Init(cfg).s.hist.winner == map[]; }
    assert evs == evs[..n] + [evs[n]];
    SerialSplits(Init(cfg), evs[..n], [evs[n]]);
    RunLast(Init(cfg), evs);
    HeldAndOnce(cfg, evs[..n]);
    var w := RunAll(Init(cfg), evs[..n]);
    WinnerComes(w, evs[n], no);
    if no in w.s.hist.winner && w.s.hist.winner[no] == RunAll(Init(cfg), evs).s.hist.winner[no] {
      k := WonAt(cfg, evs[..n], no);
      assert evs[..n][..k] == evs[..k];
    } else {
      k := n;
    }
  }

  lemma HeldAndOnce(cfg: Config, evs: seq<Event>)
    requires Serial(Init(cfg), evs)
    ensures Held(RunAll(Init(cfg), evs)) && Once(RunAll(Init(cfg), evs))
  {
    SerialIsPaidSerial(Init(cfg), evs);
    RunHeld(Init(cfg), evs);
    RunOnce(Init(cfg), evs);
  }

  /** No order is ever paid by two steps of a run, whatever interleaves and fails. */
  lemma PaysAtMostOnce(cfg: Config, evs: seq<Event>, j: nat, k: nat, no: string)
    requires j < k && PaysAt(cfg, evs, j, no)
    ensures !PaysAt(cfg, evs, k, no)
  {
    hide Step;
    if k < |evs| {
      assert evs[..k] == evs[..j + 1] + evs[j + 1..k];
      RunAllAppend(Init(cfg), evs[..j + 1], evs[j + 1..k]);
      assert evs[..j + 1][..j] == evs[..j];
      RunLast(Init(cfg), evs[..j + 1]);
      RunGrows(RunAll(Init(cfg), evs[..j + 1]), evs[j + 1..k]);
      var a, b := RunAll(Init(cfg), evs[..j + 1]), RunAll(Init(cfg), evs[..k]);
      assert SameOrder(a.s.db.orders[no], b.s.db.orders[no]);
    }
  }

  /** On every run in which handlers on one order do not overlap, with any call failing: effects are applied at most
      once, to orders that are paid, each by the thread whose step was the one step of the run that took the order from
      pending to paid. */
  lemma EffectsFollowTheirPaidStep(cfg: Config, evs: seq<Event>, i: nat) returns (k: nat)
    requires Serial(Init(cfg), evs) && i < |RunAll(Init(cfg), evs).s.hist.effects|
    ensures var s := RunAll(Init(cfg), evs).s; var f := s.hist.effects[i];
            && Distinct(s.hist.effects)
            && IsPaid(s, f.no)
            && PaysAt(cfg, evs, k, f.no) && evs[k].Run? && evs[k].tid == f.tid
            && forall j: nat :: PaysAt(cfg, evs, j, f.no) ==> j == k
  {
    HeldAndOnce(cfg, evs);
    hide Held, PaysAt, Serial, Step;
    var f := RunAll(Init(cfg), evs).s.hist.effects[i];
    k := WonAt(cfg, evs, f.no);
    PaidStays(cfg, evs, k, f.no);
    forall j: nat | PaysAt(cfg, evs, j, f.no) ensures j == k {
      if j < k { PaysAtMostOnce(cfg, evs, j, k, f.no); }
      if k < j { PaysAtMostOnce(cfg, evs, k, j, f.no); }
    }
  }

  lemma PaidStays(cfg: Config, evs: seq<Event>, k: nat, no: string)
    requires Serial(Init(cfg), evs) && PaysAt(cfg, evs, k, no)
    ensures k < |evs| && IsPaid(RunAll(Init(cfg), evs).s, no)
  {
    hide Step;
    assert evs == evs[..k + 1] + evs[k + 1..];
    assert evs[..k + 1][..k] == evs[..k];
    RunLast(Init(cfg), evs[..k + 1]);
    FinishedOrdersStay(cfg, evs[..k + 1], evs[k + 1..], no);
  }
}
