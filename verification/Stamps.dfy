/** When effects were applied and when their orders were paid: the log is in the order of its stamps, and, where
    HandlePaid calls of one user do not overlap, in the order the user's orders were paid. */
module Stamps {
  import opened Wrappers
  import opened Tables
  import opened Machine
  import opened Growth
  import opened Effects

  // ----- stamps ----------------------------------------------------------------------

  /** Paid, and no later than this instant. */
  predicate PaidBy(s: Shared, no: string, t: int) {
    IsPaid(s, no) && s.db.orders[no].paidAt.Some? && s.db.orders[no].paidAt.value <= t
  }

  ghost predicate LogStamped(s: Shared) {
    var fs := s.hist.effects;
    && (forall i, j :: 0 <= i < j < |fs| ==> fs[i].at <= fs[j].at)
    && (forall i :: 0 <= i < |fs| ==> fs[i].at <= s.now && PaidBy(s, fs[i].no, fs[i].at))
  }

  predicate ThreadStamped(s: Shared, th: Thread) {
    match th
    case PaidUpdate(_, _, _, _, paidAt) => paidAt <= s.now
    case PaidCoupon(no, _) => PaidBy(s, no, s.now)
    case PaidApply(no, _) => PaidBy(s, no, s.now)
    case _ => true
  }

  ghost predicate Stamped(w: World) {
    LogStamped(w.s) && forall t :: t in w.threads ==> ThreadStamped(w.s, w.threads[t])
  }

  /** Paid rows keep still. */
  ghost predicate PaidRowsKept(s: Shared, s': Shared) {
    s.now <= s'.now && forall no :: IsPaid(s, no) ==> no in s'.db.orders && s'.db.orders[no] == s.db.orders[no]
  }

  lemma StepKeepsPaidRows(cfg: Config, s: Shared, tid: nat, th: Thread, out: Outcome)
    requires HeldThread(s, th)
    ensures PaidRowsKept(s, Advance(cfg, s, tid, th, out).0)
  {
    hide Advance;
    AdvanceClock(cfg, s, tid, th, out);
    forall no | IsPaid(s, no)
      ensures var s' := Advance(cfg, s, tid, th, out).0; no in s'.db.orders && s'.db.orders[no] == s.db.orders[no]
    {
      RowsTouched(cfg, s, tid, th, out, no);
    }
  }

  lemma PaidThreadStamped(cfg: Config, s: Shared, tid: nat, th: Thread, out: Outcome)
    requires PaidPhase(th) && HeldThread(s, th) && ThreadStamped(s, th)
    ensures var (s', th') := AdvancePaid(cfg, s, tid, th, out); ThreadStamped(s', th')
  {
  }

  /** The moving thread's stamps pass to its next stage. */
  lemma OwnStamp(cfg: Config, s: Shared, tid: nat, th: Thread, out: Outcome)
    requires HeldThread(s, th) && ThreadStamped(s, th)
    ensures var (s', th') := Advance(cfg, s, tid, th, out); ThreadStamped(s', th')
  {
    hide AdvanceCreate, AdvancePay, AdvanceVerify, AdvancePaid, AdvanceOther;
    if PaidPhase(th) { PaidThreadStamped(cfg, s, tid, th, out); } else { OtherPhasesStayOut(cfg, s, tid, th, out); }
  }

  lemma LogStays(s: Shared, s': Shared)
    requires LogStamped(s) && PaidRowsKept(s, s') && s'.hist.effects == s.hist.effects
    ensures LogStamped(s')
  {
  }

  /** A new entry is stamped now, with an order paid by now. */
  lemma LogAppends(s: Shared, s': Shared, f: Effect)
    requires LogStamped(s) && PaidRowsKept(s, s') && s'.hist.effects == s.hist.effects + [f]
    requires f.at == s.now && PaidBy(s, f.no, s.now)
    ensures LogStamped(s')
  {
  }

  lemma RunStepStamped(w: World, tid: nat, out: Outcome)
    requires Stamped(w) && Held(w) && tid in w.threads
    ensures Stamped(Step(w, Run(tid, out)))
  {
    hide Advance;
    var th, w' := w.threads[tid], Step(w, Run(tid, out));
    assert HeldThread(w.s, th);
    StepKeepsPaidRows(w.cfg, w.s, tid, th, out);
    WinnerStep(w.cfg, w.s, tid, th, out);
    OwnStamp(w.cfg, w.s, tid, th, out);
    if th.PaidApply? && Took(out) && th.order.user in w.s.db.users {
      LogAppends(w.s, w'.s, Effect(th.no, w.s.now, tid));
    } else {
      LogStays(w.s, w'.s);
    }
  }

  lemma QuietStamped(w: World, e: Event)
    requires Stamped(w) && !e.Run?
    ensures Stamped(Quiet(w, e))
  {
    if e.AddAddresses? { SeedFrame(w.s.db, e.addrs); }
    assert PaidRowsKept(w.s, Quiet(w, e).s);
    LogStays(w.s, Quiet(w, e).s);
  }

  lemma {:induction false} RunStamped(w: World, evs: seq<Event>)
    requires Stamped(w) && Held(w) && Serial(w, evs)
    ensures Stamped(RunAll(w, evs))
    decreases |evs|
  {
    if evs != [] {
      StepHeld(w, evs[0]);
      hide Advance, Held, Stamped, Exclusive;
      if !evs[0].Run? { QuietStamped(w, evs[0]); }
      else if evs[0].tid in w.threads { RunStepStamped(w, evs[0].tid, evs[0].out); }
      RunStamped(Step(w, evs[0]), evs[1..]);
    }
  }

  /** On every serial run, with any call failing, the log of effects is sorted by its stamps, and the order of every
      entry is paid, no later than it was credited. */
  lemma LogIsStamped(cfg: Config, evs: seq<Event>)
    requires Serial(Init(cfg), evs)
    ensures LogStamped(RunAll(Init(cfg), evs).s)
  {
    RunStamped(Init(cfg), evs);
  }

  // ----- one user's orders, one at a time ----------------------------------------------------

  /** HandlePaid from its read of the order to its last call. */
  predicate Busy(th: Thread) { th.PaidCheck? || th.PaidUpdate? || th.PaidCoupon? || th.PaidApply? }

  /** HandlePaid calls on orders of one user do not overlap. */
  ghost predicate UserExclusive(w: World, e: Event) {
    e.Run? && e.tid in w.threads && w.threads[e.tid].PaidLookup? && w.threads[e.tid].no in w.s.db.orders ==>
      forall t :: t in w.threads && Busy(w.threads[t]) ==>
        w.threads[t].order.user != w.s.db.orders[w.threads[e.tid].no].user
  }

  ghost predicate UserSerial(w: World, evs: seq<Event>)
    decreases |evs|
  {
    evs != [] ==> UserExclusive(w, evs[0]) && UserSerial(Step(w, evs[0]), evs[1..])
  }

  predicate Buys(s: Shared, f: Effect, user: nat) { f.no in s.db.orders && s.db.orders[f.no].user == user }

  /** The instant from which this thread's order counts as paid. */
  function PayInstant(s: Shared, th: Thread): int {
    match th
    case PaidUpdate(_, _, _, _, paidAt) => paidAt
    case PaidCoupon(no, _) => if PaidBy(s, no, s.now) then s.db.orders[no].paidAt.value else s.now
    case PaidApply(no, _) => if PaidBy(s, no, s.now) then s.db.orders[no].paidAt.value else s.now
    case _ => s.now
  }

  /** Everything credited to the thread's user so far was credited before its order was paid. */
  ghost predicate InTurn(s: Shared, th: Thread) {
    Busy(th) ==> forall i :: 0 <= i < |s.hist.effects| && Buys(s, s.hist.effects[i], th.order.user) ==>
        s.hist.effects[i].at <= PayInstant(s, th)
  }

  ghost predicate OneBusy(w: World) {
    forall t, u :: t in w.threads && u in w.threads && t != u && Busy(w.threads[t]) && Busy(w.threads[u]) ==>
      w.threads[t].order.user != w.threads[u].order.user
  }

  /** A user's entries: each was credited before the next one's order was paid. */
  ghost predicate LogInPaidOrder(s: Shared) {
    var fs := s.hist.effects;
    forall i, j :: 0 <= i < j < |fs| && PaidBy(s, fs[j].no, fs[j].at) && Buys(s, fs[i], s.db.orders[fs[j].no].user) ==>
        fs[i].at <= s.db.orders[fs[j].no].paidAt.value
  }

  ghost predicate Queued(w: World) {
    && OneBusy(w)
    && LogInPaidOrder(w.s)
    && (forall t :: t in w.threads ==> InTurn(w.s, w.threads[t]))
  }

  lemma BusyStep(cfg: Config, s: Shared, tid: nat, th: Thread, out: Outcome)
    requires Busy(Advance(cfg, s, tid, th, out).1)
    ensures var th' := Advance(cfg, s, tid, th, out).1;
            if th.PaidLookup? then th.no in s.db.orders && th'.order.user == s.db.orders[th.no].user
            else Busy(th) && th'.order == th.order
  {
    hide AdvanceCreate, AdvancePay, AdvanceVerify, AdvanceOther;
    if !PaidPhase(th) { OtherPhasesStayOut(cfg, s, tid, th, out); }
  }

  lemma OneStaysBusy(w: World, tid: nat, out: Outcome)
    requires OneBusy(w) && tid in w.threads && UserExclusive(w, Run(tid, out))
    ensures OneBusy(Step(w, Run(tid, out)))
  {
    hide Advance;
    var w' := Step(w, Run(tid, out));
    if Busy(w'.threads[tid]) { BusyStep(w.cfg, w.s, tid, w.threads[tid], out); }
  }

  /** A thread that does not move stays in turn: whatever is credited meanwhile is another user's. */
  lemma TurnKept(w: World, tid: nat, out: Outcome, t: nat)
    requires Stamped(w) && Held(w) && Once(w) && OneBusy(w) && tid in w.threads && t in w.threads && t != tid
    requires InTurn(w.s, w.threads[t])
    ensures InTurn(Step(w, Run(tid, out)).s, w.threads[t])
  {
    hide Advance;
    var th, s' := w.threads[tid], Step(w, Run(tid, out)).s;
    assert HeldThread(w.s, th) && OnceThread(w.s, tid, th);
    StepKeepsPaidRows(w.cfg, w.s, tid, th, out);
    WinnerStep(w.cfg, w.s, tid, th, out);
    assert ThreadStamped(w.s, w.threads[t]);
  }

  lemma ReadTurn(cfg: Config, s: Shared, tid: nat, th: Thread, out: Outcome)
    requires (th.PaidLookup? || th.PaidCheck? || th.PaidCoupon?) && ThreadStamped(s, th) && LogStamped(s) &&
              InTurn(s, th)
    ensures var (s', th') := AdvancePaid(cfg, s, tid, th, out); InTurn(s', th')
  {
    hide ApplyEffects, BumpCoupon;
    BumpKeepsOrders(s.db, if th.PaidCoupon? then th.order.coupon else "");
  }

  lemma BumpKeepsOrders(db: Db, code: string)
    ensures BumpCoupon(db, code) == db.(coupons := BumpCoupon(db, code).coupons)
  {
  }

  lemma SettleTurn(cfg: Config, s: Shared, tid: nat, th: Thread, out: Outcome)
    requires th.PaidUpdate? && HeldThread(s, th) && ThreadStamped(s, th) && LogStamped(s) && InTurn(s, th)
    ensures var (s', th') := Advance(cfg, s, tid, th, out); InTurn(s', th')
  {
    hide Advance;
    SettleStep(cfg, s, tid, th, out);
    WinnerStep(cfg, s, tid, th, out);
  }

  /** The moving thread takes its turn when it reads the clock, and keeps it. */
  lemma OwnTurn(cfg: Config, s: Shared, tid: nat, th: Thread, out: Outcome)
    requires HeldThread(s, th) && ThreadStamped(s, th) && OnceThread(s, tid, th)
    requires LogStamped(s) && InTurn(s, th)
    ensures var (s', th') := Advance(cfg, s, tid, th, out); InTurn(s', th')
  {
    hide AdvanceCreate, AdvancePay, AdvanceVerify, AdvancePaid, AdvanceOther;
    if th.PaidApply? { EndedStays(cfg, s, tid, th, out); }
    else if th.PaidUpdate? { SettleTurn(cfg, s, tid, th, out); }
    else if PaidPhase(th) { ReadTurn(cfg, s, tid, th, out); }
    else { OtherPhasesStayOut(cfg, s, tid, th, out); }
  }

  lemma LogStaysInOrder(s: Shared, s': Shared)
    requires LogStamped(s) && LogInPaidOrder(s) && PaidRowsKept(s, s') && s'.hist.effects == s.hist.effects
    ensures LogInPaidOrder(s')
  {
  }

  lemma LogAppendsInOrder(s: Shared, s': Shared, th: Thread, f: Effect)
    requires LogStamped(s) && LogInPaidOrder(s) && PaidRowsKept(s, s') && s'.hist.effects == s.hist.effects + [f]
    requires th.PaidApply? && th.no == f.no && f.at == s.now && PaidBy(s, f.no, s.now)
    requires th.order.user == s.db.orders[f.no].user && InTurn(s, th)
    ensures LogInPaidOrder(s')
  {
  }

  lemma RunStepQueued(w: World, tid: nat, out: Outcome)
    requires Queued(w) && Stamped(w) && Held(w) && Once(w) && tid in w.threads && UserExclusive(w, Run(tid, out))
    ensures Queued(Step(w, Run(tid, out)))
  {
    hide Advance;
    var th, w' := w.threads[tid], Step(w, Run(tid, out));
    assert HeldThread(w.s, th) && OnceThread(w.s, tid, th) && ThreadStamped(w.s, th) && InTurn(w.s, th);
    OneStaysBusy(w, tid, out);
    OwnTurn(w.cfg, w.s, tid, th, out);
    forall t | t in w'.threads ensures InTurn(w'.s, w'.threads[t]) {
      if t != tid { TurnKept(w, tid, out, t); }
    }
    LogStepInOrder(w, tid, out);
  }

  lemma LogStepInOrder(w: World, tid: nat, out: Outcome)
    requires LogInPaidOrder(w.s) && LogStamped(w.s) && tid in w.threads
    requires var th := w.threads[tid];
             HeldThread(w.s, th) && OnceThread(w.s, tid, th) && ThreadStamped(w.s, th) && InTurn(w.s, th)
    ensures LogInPaidOrder(Step(w, Run(tid, out)).s)
  {
    hide Advance, LogInPaidOrder, LogStamped;
    var th, w' := w.threads[tid], Step(w, Run(tid, out));
    StepKeepsPaidRows(w.cfg, w.s, tid, th, out);
    WinnerStep(w.cfg, w.s, tid, th, out);
    if th.PaidApply? && Took(out) && th.order.user in w.s.db.users {
      LogAppendsInOrder(w.s, w'.s, th, Effect(th.no, w.s.now, tid));
    } else {
      LogStaysInOrder(w.s, w'.s);
    }
  }

  lemma QuietQueued(w: World, e: Event)
    requires Queued(w) && Stamped(w) && !e.Run?
    ensures Queued(Quiet(w, e))
  {
    hide InTurn, LogInPaidOrder, LogStamped, ThreadStamped;
    var w' := Quiet(w, e);
    if e.AddAddresses? { SeedFrame(w.s.db, e.addrs); }
    LogStaysInOrder(w.s, w'.s);
    forall t | t in w'.threads ensures InTurn(w'.s, w'.threads[t]) {
      if t in w.threads { TurnStays(w.s, w'.s, w.threads[t]); } else { IdleInTurn(w'.s, w'.threads[t]); }
    }
  }

  lemma IdleInTurn(s: Shared, th: Thread)
    requires !Busy(th)
    ensures InTurn(s, th)
  {
  }

  lemma TurnStays(s: Shared, s': Shared, th: Thread)
    requires InTurn(s, th) && ThreadStamped(s, th) && LogStamped(s) && PaidRowsKept(s, s') &&
              s'.hist.effects == s.hist.effects
    ensures InTurn(s', th)
  {
  }

  lemma {:induction false} RunQueued(w: World, evs: seq<Event>)
    requires Queued(w) && Stamped(w) && Held(w) && Once(w) && Serial(w, evs) && UserSerial(w, evs)
    ensures Queued(RunAll(w, evs))
    decreases |evs|
  {
    if evs != [] {
      var e := evs[0];
      StepHeld(w, e);
      StepOnce(w, e);
      hide Advance, Held, Once, Stamped, Queued, Exclusive, UserExclusive;
      if !e.Run? {
        QuietStamped(w, e);
        QuietQueued(w, e);
      } else if e.tid in w.threads {
        RunStepStamped(w, e.tid, e.out);
        RunStepQueued(w, e.tid, e.out);
      }
      RunQueued(Step(w, e), evs[1..]);
    }
  }

  /** Where HandlePaid calls of one user do not overlap, with any call failing, that user's part of the log is in the
      order of payment: each order was credited no later than the next one was paid. */
  lemma LogFollowsPayments(cfg: Config, evs: seq<Event>, i: nat, j: nat)
    requires Serial(Init(cfg), evs) && UserSerial(Init(cfg), evs)
    requires var s := RunAll(Init(cfg), evs).s;
             i < j < |s.hist.effects| &&
             exists user :: Buys(s, s.hist.effects[i], user) && Buys(s, s.hist.effects[j], user)
    ensures var s := RunAll(Init(cfg), evs).s; var f, g := s.hist.effects[i], s.hist.effects[j];
            && PaidBy(s, f.no, f.at) && PaidBy(s, g.no, g.at)
            && s.db.orders[f.no].paidAt.value <= f.at <= s.db.orders[g.no].paidAt.value <= g.at
  {
    LogIsStamped(cfg, evs);
    SerialIsPaidSerial(Init(cfg), evs);
    RunQueued(Init(cfg), evs);
  }
}
