/** Whole-run accounting when no call fails and handlers on one order do not overlap: users are the replay of the paid
    orders' effects, and coupon counters count the paid orders. */
module Accounting {
  import opened Wrappers
  import opened Tables
  import opened Machine
  import opened Growth
  import opened Effects
  import opened Stamps

  predicate Faultless(e: Event) { e.Run? ==> e.out == Ok }

  // ----- replay -------------------------------------------------------------------

  /** The users after applying the effects one by one, each read off its order's row. */
  ghost function Replay(m: Money, users: map<nat, User>, orders: map<string, Order>, fs: seq<Effect>): map<nat, User> {
    if fs == [] then users else Credit(m, Replay(m, users, orders, fs[..|fs| - 1]), orders, fs[|fs| - 1])
  }

  ghost function Credit(m: Money, users: map<nat, User>, orders: map<string, Order>, f: Effect): map<nat, User> {
    if f.no in orders && orders[f.no].user in users
    then var o := orders[f.no]; users[o.user := Applied(users[o.user], o.item, m.cents(Net(m, o)), f.at)]
    else users
  }

  lemma {:induction false} ReplayStays(m: Money, users: map<nat, User>, a: map<string, Order>, b: map<string, Order>,
                                       fs: seq<Effect>)
    requires OrdersGrow(a, b) && forall i :: 0 <= i < |fs| ==> fs[i].no in a
    ensures Replay(m, users, a, fs) == Replay(m, users, b, fs)
  {
    if fs != [] {
      ReplayStays(m, users, a, b, fs[..|fs| - 1]);
      assert SameOrder(a[fs[|fs| - 1].no], b[fs[|fs| - 1].no]);
    }
  }

  lemma {:induction false} ReplayKeys(m: Money, users: map<nat, User>, orders: map<string, Order>, fs: seq<Effect>)
    ensures Replay(m, users, orders, fs).Keys == users.Keys
  {
    if fs != [] { ReplayKeys(m, users, orders, fs[..|fs| - 1]); }
  }

  // ----- the invariant -----------------------------------------------------------------

  ghost predicate KnownUsers(w: World) {
    && (forall no :: no in w.s.db.orders ==> w.s.db.orders[no].user in w.cfg.users)
    && (forall t :: t in w.threads ==> KnownThread(w.cfg, w.threads[t]))
  }

  predicate KnownThread(cfg: Config, th: Thread) {
    th.CreateLookup? || th.CreateClock? || th.CreateInsert? || th.CreateRefetch? ==> th.input.user in cfg.users
  }

  /** A paid order was won, and its winner has credited it or is still about to. */
  predicate Owed(w: World, no: string) {
    no in w.s.hist.winner && w.s.hist.winner[no] in w.threads &&
    var th := w.threads[w.s.hist.winner[no]];
    (th.PaidCoupon? || th.PaidApply?) && th.no == no
  }

  ghost predicate Credited(w: World, no: string) {
    exists i :: 0 <= i < |w.s.hist.effects| && w.s.hist.effects[i].no == no
  }

  ghost predicate PaidOnBooks(w: World) {
    && (forall no :: no in w.s.hist.winner <==> no in w.s.db.orders && w.s.db.orders[no].status == Paid)
    && (forall no :: no in w.s.hist.winner ==> w.s.db.orders[no].paid == Net(w.cfg.money, w.s.db.orders[no]))
    && (forall no :: no in w.s.hist.winner ==> Owed(w, no) || Credited(w, no))
  }

  ghost predicate UsersOnBooks(w: World) {
    w.s.db.users == Replay(w.cfg.money, w.cfg.users, w.s.db.orders, w.s.hist.effects)
  }

  ghost predicate Booked(w: World) {
    Once(w) && Held(w) && KnownUsers(w) && PaidOnBooks(w) && UsersOnBooks(w)
  }

  // ----- preservation ---------------------------------------------------------------------

  lemma StepKnown(w: World, e: Event)
    requires KnownUsers(w)
    ensures KnownUsers(Step(w, e))
  {
    hide Advance;
    match e
    case AddAddresses(addrs) => SeedFrame(w.s.db, addrs);
    case Run(tid, out) => if tid in w.threads { AdvanceKnown(w.cfg, w.s, tid, w.threads[tid], out); }
    case _ =>
  }

  /** The step's thread starts no CreateOrder for another user, and rows keep their users. */
  lemma AdvanceKnown(cfg: Config, s: Shared, tid: nat, th: Thread, out: Outcome)
    requires KnownThread(cfg, th)
    requires forall no :: no in s.db.orders ==> s.db.orders[no].user in cfg.users
    ensures var (s', th') := Advance(cfg, s, tid, th, out);
            KnownThread(cfg, th') && forall no :: no in s'.db.orders ==> s'.db.orders[no].user in cfg.users
  {
    hide AdvancePay, AdvanceVerify, AdvancePaid, AdvanceOther;
    if !Creates(th) { CreatesStayCreates(cfg, s, tid, th, out); }
    if PayPhase(th) || VerifyPhase(th) {
      PaymentSideKeepsOrders(cfg, s, tid, th, out);
    } else if PaidPhase(th) || OtherPhase(th) {
      AdvanceGrows(cfg, s, tid, th, out);
      NoNewOrders(cfg, s, tid, th, out);
    }
  }

  predicate Creates(th: Thread) { th.CreateLookup? || th.CreateClock? || th.CreateInsert? || th.CreateRefetch? }

  lemma CreatesStayCreates(cfg: Config, s: Shared, tid: nat, th: Thread, out: Outcome)
    requires !Creates(th)
    ensures !Creates(Advance(cfg, s, tid, th, out).1)
  {
    hide AdvanceCreate, AdvancePay, AdvanceVerify, AdvancePaid, AdvanceOther;
    if PayPhase(th) { PayCreatesNothing(cfg, s, tid, th, out); }
    else if VerifyPhase(th) { VerifyCreatesNothing(cfg, s, th, out); }
    else if PaidPhase(th) { PaidCreatesNothing(cfg, s, tid, th, out); }
    else if OtherPhase(th) { OtherCreatesNothing(s, th, out); }
  }

  lemma PayCreatesNothing(cfg: Config, s: Shared, tid: nat, th: Thread, out: Outcome)
    requires PayPhase(th)
    ensures !Creates(AdvancePay(cfg, s, tid, th, out).1)
  {
  }

  lemma VerifyCreatesNothing(cfg: Config, s: Shared, th: Thread, out: Outcome)
    requires VerifyPhase(th)
    ensures !Creates(AdvanceVerify(cfg, s, th, out).1)
  {
  }

  lemma PaidCreatesNothing(cfg: Config, s: Shared, tid: nat, th: Thread, out: Outcome)
    requires PaidPhase(th)
    ensures !Creates(AdvancePaid(cfg, s, tid, th, out).1)
    ensures AdvancePaid(cfg, s, tid, th, out).0.db.orders.Keys == s.db.orders.Keys
  {
  }

  lemma OtherCreatesNothing(s: Shared, th: Thread, out: Outcome)
    requires OtherPhase(th)
    ensures !Creates(AdvanceOther(s, th, out).1)
    ensures AdvanceOther(s, th, out).0.db.orders.Keys == s.db.orders.Keys
  {
  }

  /** Settling, cancelling and sweeping insert no order. */
  lemma NoNewOrders(cfg: Config, s: Shared, tid: nat, th: Thread, out: Outcome)
    requires PaidPhase(th) || OtherPhase(th)
    ensures Advance(cfg, s, tid, th, out).0.db.orders.Keys == s.db.orders.Keys
  {
    hide AdvanceCreate, AdvancePay, AdvanceVerify, AdvancePaid, AdvanceOther;
    if PaidPhase(th) { PaidCreatesNothing(cfg, s, tid, th, out); } else { OtherCreatesNothing(s, th, out); }
  }

  lemma PayKeepsUsers(cfg: Config, s: Shared, tid: nat, th: Thread, out: Outcome)
    requires PayPhase(th)
    ensures AdvancePay(cfg, s, tid, th, out).0.db.users == s.db.users
  {
    hide FindActiveByOrder, NextFree;
  }

  lemma VerifyKeepsUsers(cfg: Config, s: Shared, th: Thread, out: Outcome)
    requires VerifyPhase(th)
    ensures AdvanceVerify(cfg, s, th, out).0.db.users == s.db.users
  {
    hide FindByAddress, FindByTradeNo, FindActiveByOrder, AfterLookup;
  }

  lemma PaymentSideKeepsUsers(cfg: Config, s: Shared, tid: nat, th: Thread, out: Outcome)
    requires PayPhase(th) || VerifyPhase(th)
    ensures Advance(cfg, s, tid, th, out).0.db.users == s.db.users
  {
    hide AdvanceCreate, AdvancePay, AdvanceVerify, AdvancePaid, AdvanceOther;
    if PayPhase(th) { PayKeepsUsers(cfg, s, tid, th, out); } else { VerifyKeepsUsers(cfg, s, th, out); }
  }

  lemma PaidKeepsUsers(cfg: Config, s: Shared, tid: nat, th: Thread, out: Outcome)
    requires PaidPhase(th) && (!th.PaidApply? || !Took(out))
    ensures AdvancePaid(cfg, s, tid, th, out).0.db.users == s.db.users
  {
  }

  /** Users change only when effects are applied. */
  lemma UsersStep(cfg: Config, s: Shared, tid: nat, th: Thread, out: Outcome)
    requires !th.PaidApply? || !Took(out)
    ensures Advance(cfg, s, tid, th, out).0.db.users == s.db.users
  {
    hide AdvancePay, AdvanceVerify, AdvancePaid;
    if PayPhase(th) || VerifyPhase(th) { PaymentSideKeepsUsers(cfg, s, tid, th, out); }
    else if PaidPhase(th) { PaidKeepsUsers(cfg, s, tid, th, out); }
  }

  lemma ApplyStepUsers(w: World, tid: nat, out: Outcome)
    requires tid in w.threads && w.threads[tid].PaidApply? && Took(out) && UsersOnBooks(w)
    requires OnceThread(w.s, tid, w.threads[tid])
    ensures var s' := AdvancePaid(w.cfg, w.s, tid, w.threads[tid], out).0;
            s'.db.orders == w.s.db.orders
            && s'.db.users == Replay(w.cfg.money, w.cfg.users, w.s.db.orders, s'.hist.effects)
  {
    var th := w.threads[tid];
    var fs := w.s.hist.effects;
    ReplayKeys(w.cfg.money, w.cfg.users, w.s.db.orders, fs);
    assert SameOrder(th.order, w.s.db.orders[th.no]);
    assert (fs + [Effect(th.no, w.s.now, tid)])[..|fs|] == fs;
  }

  /** The users stay the replay of the log, whatever the call's outcome. */
  lemma RunStepUsers(w: World, tid: nat, out: Outcome)
    requires tid in w.threads && UsersOnBooks(w) && EffectsOk(w) && WinnersOk(w.s)
    requires OnceThread(w.s, tid, w.threads[tid])
    ensures UsersOnBooks(Step(w, Run(tid, out)))
  {
    var th := w.threads[tid];
    if th.PaidApply? && Took(out) {
      hide AdvancePaid;
      ApplyStepUsers(w, tid, out);
    } else {
      hide Advance;
      AdvanceGrows(w.cfg, w.s, tid, th, out);
      UsersStep(w.cfg, w.s, tid, th, out);
      WinnerStep(w.cfg, w.s, tid, th, out);
      ReplayStays(w.cfg.money, w.cfg.users, w.s.db.orders, Step(w, Run(tid, out)).s.db.orders, w.s.hist.effects);
    }
  }

  lemma NewOrdersPending(cfg: Config, s: Shared, tid: nat, th: Thread, out: Outcome)
    ensures var o' := Advance(cfg, s, tid, th, out).0.db.orders;
            forall no :: no in o' && no !in s.db.orders ==> o'[no].status == Pending
  {
    hide AdvancePay, AdvanceVerify, AdvancePaid, AdvanceOther;
    if PayPhase(th) || VerifyPhase(th) {
      PaymentSideKeepsOrders(cfg, s, tid, th, out);
    } else if PaidPhase(th) || OtherPhase(th) {
      NoNewOrders(cfg, s, tid, th, out);
    }
  }

  /** Apart from HandlePaid's write, no step makes an order paid, unpays one, or changes a paid row. */
  /** Short of HandlePaid's status write, a touched row was pending and does not become paid. */
  lemma OtherTouches(s: Shared, th: Thread, out: Outcome, no: string)
    requires HeldThread(s, th) && OtherPhase(th) && no in s.db.orders && Touches(s, th, no)
    ensures !IsPaid(s, no) && !IsPaid(AdvanceOther(s, th, out).0, no)
  {
  }

  lemma PaidRowsStay(cfg: Config, s: Shared, tid: nat, th: Thread, out: Outcome, no: string)
    requires HeldThread(s, th) && !th.PaidUpdate?
    ensures var s' := Advance(cfg, s, tid, th, out).0;
            (IsPaid(s', no) <==> IsPaid(s, no)) && (IsPaid(s, no) ==> s'.db.orders[no] == s.db.orders[no])
  {
    hide AdvanceCreate, AdvancePay, AdvanceVerify, AdvancePaid, AdvanceOther;
    if no !in s.db.orders {
      NewOrdersPending(cfg, s, tid, th, out);
    } else if !Touches(s, th, no) {
      RowsTouched(cfg, s, tid, th, out, no);
    } else {
      OtherTouches(s, th, out, no);
    }
  }

  lemma OwedStays(w: World, tid: nat, no: string)
    requires tid in w.threads && Owed(w, no) && OnceThread(w.s, tid, w.threads[tid])
    requires w.threads[tid].PaidApply? ==> w.threads[tid].order.user in w.s.db.users
    ensures Owed(Step(w, Run(tid, Ok)), no) || Credited(Step(w, Run(tid, Ok)), no)
  {
    hide AdvanceCreate, AdvancePay, AdvanceVerify, AdvanceOther;
    var th := w.threads[tid];
    var w' := Step(w, Run(tid, Ok));
    WinnerStep(w.cfg, w.s, tid, th, Ok);
    if th.PaidApply? || th.PaidCoupon? {
      assert Advance(w.cfg, w.s, tid, th, Ok) == AdvancePaid(w.cfg, w.s, tid, th, Ok);
      if th.PaidApply? { assert w'.s.hist.effects[|w.s.hist.effects|].no == th.no; }
    }
  }

  lemma CreditedStays(w: World, tid: nat, no: string)
    requires tid in w.threads && Credited(w, no)
    ensures Credited(Step(w, Run(tid, Ok)), no)
  {
    hide Advance;
    WinnerStep(w.cfg, w.s, tid, w.threads[tid], Ok);
    var i :| 0 <= i < |w.s.hist.effects| && w.s.hist.effects[i].no == no;
    assert Step(w, Run(tid, Ok)).s.hist.effects[i].no == no;
  }

  /** What was owed or credited stays so. */
  lemma StillOwed(w: World, tid: nat)
    requires tid in w.threads && OnceThread(w.s, tid, w.threads[tid])
    requires w.threads[tid].PaidApply? ==> w.threads[tid].order.user in w.s.db.users
    requires forall no :: no in w.s.hist.winner ==> Owed(w, no) || Credited(w, no)
    ensures var w' := Step(w, Run(tid, Ok)); forall no :: no in w.s.hist.winner ==> Owed(w', no) || Credited(w', no)
  {
    hide Advance;
    forall no | no in w.s.hist.winner ensures var w' := Step(w, Run(tid, Ok)); Owed(w', no) || Credited(w', no) {
      if Owed(w, no) { OwedStays(w, tid, no); } else { CreditedStays(w, tid, no); }
    }
  }

  lemma WinStep(w: World, tid: nat)
    requires PaidOnBooks(w) && tid in w.threads && w.threads[tid].PaidUpdate?
    requires OnceThread(w.s, tid, w.threads[tid])
    ensures PaidOnBooks(Step(w, Run(tid, Ok)))
  {
    hide Advance;
    var th, w' := w.threads[tid], Step(w, Run(tid, Ok));
    assert SameOrder(th.order, w.s.db.orders[th.no]);
    StillOwed(w, tid);
    SettleStep(w.cfg, w.s, tid, th, Ok);
    WinnerStep(w.cfg, w.s, tid, th, Ok);
    SettledBooks(w, w', tid, th);
  }

  /** Adding a settled order and its winner, who still owes it. */
  lemma SettledBooks(w: World, w': World, tid: nat, th: Thread)
    requires PaidOnBooks(w) && w'.cfg == w.cfg && th.PaidUpdate? && th.no in w.s.db.orders
    requires SameOrder(th.order, w.s.db.orders[th.no])
    requires w'.s.hist.winner == w.s.hist.winner[th.no := tid] && th.no !in w.s.hist.winner
    requires th.no in w'.s.db.orders && w'.s.db.orders == w.s.db.orders[th.no := w'.s.db.orders[th.no]]
    requires var o := w'.s.db.orders[th.no];
             o.status == Paid && o.paid == Net(w.cfg.money, th.order) && o.amount == th.order.amount &&
                 o.discount == th.order.discount
    requires tid in w'.threads && (w'.threads[tid].PaidCoupon? || w'.threads[tid].PaidApply?) &&
              w'.threads[tid].no == th.no
    requires forall no :: no in w.s.hist.winner ==> Owed(w', no) || Credited(w', no)
    ensures PaidOnBooks(w')
  {
    assert Owed(w', th.no);
    hide Owed, Credited;
  }

  lemma OtherBooks(w: World, tid: nat)
    requires PaidOnBooks(w) && tid in w.threads && !w.threads[tid].PaidUpdate?
    requires HeldThread(w.s, w.threads[tid]) && OnceThread(w.s, tid, w.threads[tid])
    requires w.threads[tid].PaidApply? ==> w.threads[tid].order.user in w.s.db.users
    ensures PaidOnBooks(Step(w, Run(tid, Ok)))
  {
    hide Advance;
    var th, w' := w.threads[tid], Step(w, Run(tid, Ok));
    StillOwed(w, tid);
    WinnerStep(w.cfg, w.s, tid, th, Ok);
    forall no ensures (IsPaid(w'.s, no) <==> IsPaid(w.s, no)) &&
        (IsPaid(w.s, no) ==> w'.s.db.orders[no] == w.s.db.orders[no]) {
      PaidRowsStay(w.cfg, w.s, tid, th, Ok, no);
    }
  }

  lemma RunStepBooks(w: World, tid: nat)
    requires Booked(w) && tid in w.threads
    ensures PaidOnBooks(Step(w, Run(tid, Ok)))
  {
    hide Advance, PaidOnBooks;
    ReplayKeys(w.cfg.money, w.cfg.users, w.s.db.orders, w.s.hist.effects);
    if w.threads[tid].PaidUpdate? { WinStep(w, tid); } else { OtherBooks(w, tid); }
  }

  lemma StepBooked(w: World, e: Event)
    requires Booked(w) && Exclusive(w, e) && Faultless(e)
    ensures Booked(Step(w, e))
  {
    StepOnce(w, e);
    StepHeld(w, e);
    StepKnown(w, e);
    hide Advance, Once, Held, KnownUsers;
    if !e.Run? {
      QuietBooks(w, e);
    } else if e.tid in w.threads {
      RunStepBooks(w, e.tid);
      assert EffectsOk(w) && WinnersOk(w.s) && OnceThread(w.s, e.tid, w.threads[e.tid]) by { OnceParts(w); }
      RunStepUsers(w, e.tid, Ok);
    }
  }

  lemma OnceParts(w: World)
    requires Once(w)
    ensures WinnersOk(w.s) && EffectsOk(w) && forall t :: t in w.threads ==> OnceThread(w.s, t, w.threads[t])
  {
  }

  lemma QuietBooks(w: World, e: Event)
    requires PaidOnBooks(w) && UsersOnBooks(w) && !e.Run?
    ensures PaidOnBooks(Quiet(w, e)) && UsersOnBooks(Quiet(w, e))
  {
    if e.AddAddresses? { SeedFrame(w.s.db, e.addrs); }
    SameBooks(w, Quiet(w, e));
  }

  lemma SameBooks(w: World, w': World)
    requires PaidOnBooks(w) && UsersOnBooks(w) && w'.cfg == w.cfg
    requires w'.s.db.orders == w.s.db.orders && w'.s.db.users == w.s.db.users
    requires w'.s.hist.winner == w.s.hist.winner && w'.s.hist.effects == w.s.hist.effects
    requires forall t :: t in w.threads ==> t in w'.threads && w'.threads[t] == w.threads[t]
    ensures PaidOnBooks(w') && UsersOnBooks(w')
  {
    forall no | no in w'.s.hist.winner ensures Owed(w', no) || Credited(w', no) {
      if Credited(w, no) {
        var i :| 0 <= i < |w.s.hist.effects| && w.s.hist.effects[i].no == no;
        assert w'.s.hist.effects[i].no == no;
      }
    }
  }

  ghost predicate AllFaultless(evs: seq<Event>) { forall i :: 0 <= i < |evs| ==> Faultless(evs[i]) }

  lemma {:induction false} RunBooked(w: World, evs: seq<Event>)
    requires Booked(w) && Serial(w, evs) && AllFaultless(evs)
    ensures Booked(RunAll(w, evs)) && RunAll(w, evs).cfg == w.cfg
    decreases |evs|
  {
    hide Booked, Advance, Exclusive;
    if evs != [] {
      StepBooked(w, evs[0]);
      RunBooked(Step(w, evs[0]), evs[1..]);
    }
  }

  // ----- the books balance -----------------------------------------------------------------

  /** No HandlePaid call is between its status write and the end of its effects. */
  ghost predicate Settled(w: World) {
    forall t :: t in w.threads ==> !w.threads[t].PaidCoupon? && !w.threads[t].PaidApply?
  }

  lemma StepLedgered(w: World, e: Event)
    requires Once(w) && UsersOnBooks(w) && PaidExclusive(w, e)
    ensures Once(Step(w, e)) && UsersOnBooks(Step(w, e))
  {
    StepOnce(w, e);
    OnceParts(w);
    hide Advance, Once, EffectsOk, WinnersOk, OnceThread;
    if !e.Run? {
      if e.AddAddresses? { SeedFrame(w.s.db, e.addrs); }
    } else if e.tid in w.threads {
      RunStepUsers(w, e.tid, e.out);
    }
  }

  lemma {:induction false} RunLedgered(w: World, evs: seq<Event>)
    requires Once(w) && UsersOnBooks(w) && PaidSerial(w, evs)
    ensures Once(RunAll(w, evs)) && UsersOnBooks(RunAll(w, evs)) && RunAll(w, evs).cfg == w.cfg
    decreases |evs|
  {
    hide Step, Once, UsersOnBooks, PaidExclusive;
    if evs != [] {
      StepLedgered(w, evs[0]);
      assert Step(w, evs[0]).cfg == w.cfg by { StepGrowsConfig(w, evs[0]); }
      RunLedgered(Step(w, evs[0]), evs[1..]);
    }
  }

  lemma StepGrowsConfig(w: World, e: Event)
    ensures Step(w, e).cfg == w.cfg
  {
    hide Advance;
  }

  /** On every serial run, whatever calls fail, the users are the replay of a log of distinct orders, every one of
      them paid, sorted by the instants they were credited at, none before it was paid. */
  lemma UsersAreReplayDespiteFailures(cfg: Config, evs: seq<Event>)
    requires Serial(Init(cfg), evs)
    ensures var s := RunAll(Init(cfg), evs).s;
            s.db.users == Replay(cfg.money, cfg.users, s.db.orders, s.hist.effects) && Distinct(s.hist.effects) &&
                LogStamped(s)
  {
    SerialIsPaidSerial(Init(cfg), evs);
    RunLedgered(Init(cfg), evs);
    LogIsStamped(cfg, evs);
  }

  /** At any settled point of a fault-free serial run, the users are exactly the replay of the effects of the paid
      orders: each paid order once, no other order at all, every paid order recorded with its payable amount; the log
      is sorted by the instants of crediting, none before its order was paid. */
  lemma UsersAreReplayOfPaidOrders(cfg: Config, evs: seq<Event>)
    requires Serial(Init(cfg), evs) && AllFaultless(evs) && Settled(RunAll(Init(cfg), evs))
    ensures var w := RunAll(Init(cfg), evs); var s := w.s;
            && s.db.users == Replay(cfg.money, cfg.users, s.db.orders, s.hist.effects)
            && Distinct(s.hist.effects) && LogStamped(s)
            && (forall no :: IsPaid(s, no) <==> Credited(w, no))
            && (forall no :: IsPaid(s, no) ==> s.db.orders[no].paid == Net(cfg.money, s.db.orders[no]))
  {
    RunBooked(Init(cfg), evs);
    LogIsStamped(cfg, evs);
    hide Once, Held, LogStamped, UsersOnBooks;
    SettledOnBooks(cfg, evs);
  }

  lemma SettledOnBooks(cfg: Config, evs: seq<Event>)
    requires Booked(RunAll(Init(cfg), evs)) && RunAll(Init(cfg), evs).cfg == cfg && Settled(RunAll(Init(cfg), evs))
    ensures var w := RunAll(Init(cfg), evs); var s := w.s;
            && s.db.users == Replay(cfg.money, cfg.users, s.db.orders, s.hist.effects) && Distinct(s.hist.effects)
            && (forall no :: IsPaid(s, no) <==> Credited(w, no))
            && (forall no :: IsPaid(s, no) ==> s.db.orders[no].paid == Net(cfg.money, s.db.orders[no]))
  {
    var w := RunAll(Init(cfg), evs);
    forall no ensures IsPaid(w.s, no) <==> Credited(w, no) {
      if Credited(w, no) {
        var i :| 0 <= i < |w.s.hist.effects| && w.s.hist.effects[i].no == no;
        assert w.s.hist.effects[i].no in w.s.hist.winner;
      }
    }
  }

  /** Payable cents of a user's top-ups among the credited orders. */
  ghost function TopupCents(m: Money, orders: map<string, Order>, fs: seq<Effect>, user: nat): int {
    if fs == [] then 0
    else
      var no := fs[|fs| - 1].no;
      TopupCents(m, orders, fs[..|fs| - 1], user) +
      if no in orders && orders[no].user == user && orders[no].item.TopupItem? then m.cents(Net(m, orders[no])) else 0
  }

  /** Balances grow by the payable cents of credited top-ups, and by nothing else. */
  lemma {:induction false} BalanceIsTopups(m: Money, users: map<nat, User>, orders: map<string, Order>,
                                           fs: seq<Effect>, user: nat)
    requires user in users
    ensures user in Replay(m, users, orders, fs)
    ensures Replay(m, users, orders, fs)[user].balance == users[user].balance + TopupCents(m, orders, fs, user)
  {
    if fs != [] { BalanceIsTopups(m, users, orders, fs[..|fs| - 1], user); }
  }

  lemma BalancesAddUp(cfg: Config, evs: seq<Event>, user: nat)
    requires Serial(Init(cfg), evs) && AllFaultless(evs) && user in cfg.users
    ensures var s := RunAll(Init(cfg), evs).s;
            user in s.db.users && s.db.users[user].balance
            == cfg.users[user].balance + TopupCents(cfg.money, s.db.orders, s.hist.effects, user)
  {
    RunBooked(Init(cfg), evs);
    var s := RunAll(Init(cfg), evs).s;
    BalanceIsTopups(cfg.money, cfg.users, s.db.orders, s.hist.effects, user);
  }

  // ----- renewals -------------------------------------------------------------------------------

  datatype Renewal = Renewal(days: nat, gb: nat, devices: nat, at: int)

  /** A user after buying the same plan again and again. */
  function Renewed(u: User, plan: nat, rs: seq<Renewal>): User {
    if rs == [] then u
    else
      var v, r := Renewed(u, plan, rs[..|rs| - 1]), rs[|rs| - 1];
      Applied(v, PlanItem(plan, r.days, r.gb, r.devices), 0, r.at)
  }

  function TotalDays(rs: seq<Renewal>): nat {
    if rs == [] then 0 else TotalDays(rs[..|rs| - 1]) + rs[|rs| - 1].days
  }

  /** Renewing a plan before it runs out adds the days bought, whatever the instants of the purchases. */
  lemma {:induction false} RenewalsStack(u: User, plan: nat, rs: seq<Renewal>, expire: int)
    requires u.plan == Some(plan) && u.planExpire == Some(expire)
    requires forall i :: 0 <= i < |rs| ==> rs[i].at < expire + DaySeconds(TotalDays(rs[..i]))
    ensures var v := Renewed(u, plan, rs);
            v.plan == Some(plan) && v.planExpire == Some(expire + DaySeconds(TotalDays(rs)))
  {
    if rs != [] {
      var n := |rs| - 1;
      forall i | 0 <= i < n ensures rs[..n][i].at < expire + DaySeconds(TotalDays(rs[..n][..i])) {
        assert rs[..n][..i] == rs[..i];
      }
      RenewalsStack(u, plan, rs[..n], expire);
      assert rs[..n] == rs[..|rs| - 1];
    }
  }

  // ----- coupons -----------------------------------------------------------------------------------

  /** The counter after n uses. */
  function Capped(quota: nat, n: nat): nat { if quota == 0 || n < quota then n else quota }

  function Carrying(orders: map<string, Order>, nos: set<string>, code: string): set<string> {
    set no | no in nos && no in orders && orders[no].coupon == code
  }

  ghost predicate SameQuotas(cfg: Config, db: Db) {
    db.coupons.Keys == cfg.coupons.Keys && forall c :: c in db.coupons ==> db.coupons[c].quota == cfg.coupons[c].quota
  }

  ghost predicate WithinQuota(db: Db) {
    forall c :: c in db.coupons && db.coupons[c].quota > 0 ==> db.coupons[c].used <= db.coupons[c].quota
  }

  /** What a step leaves of the coupons and of the record of those counted. */
  predicate CouponsRecorded(s: Shared, s': Shared, th: Thread, out: Outcome) {
    if th.PaidCoupon? && Took(out)
    then s'.db.coupons == BumpCoupon(s.db, th.order.coupon).coupons && s'.hist.counted == s.hist.counted + {th.no}
    else s'.db.coupons == s.db.coupons && s'.hist.counted == s.hist.counted
  }

  lemma PaidCouponsStep(cfg: Config, s: Shared, tid: nat, th: Thread, out: Outcome)
    requires PaidPhase(th)
    ensures CouponsRecorded(s, AdvancePaid(cfg, s, tid, th, out).0, th, out)
  {
  }

  lemma PayCouponsStep(cfg: Config, s: Shared, tid: nat, th: Thread, out: Outcome)
    requires PayPhase(th)
    ensures CouponsRecorded(s, AdvancePay(cfg, s, tid, th, out).0, th, out)
  {
    hide FindActiveByOrder, NextFree;
  }

  lemma VerifyCouponsStep(cfg: Config, s: Shared, th: Thread, out: Outcome)
    requires VerifyPhase(th)
    ensures CouponsRecorded(s, AdvanceVerify(cfg, s, th, out).0, th, out)
  {
    hide FindByAddress, FindByTradeNo, FindActiveByOrder, AfterLookup;
  }

  lemma OtherCouponsStep(s: Shared, th: Thread, out: Outcome)
    requires OtherPhase(th)
    ensures CouponsRecorded(s, AdvanceOther(s, th, out).0, th, out)
  {
  }

  lemma CreateCouponsStep(cfg: Config, s: Shared, th: Thread, out: Outcome)
    requires th.CreateLookup? || th.CreateClock? || th.CreateInsert? || th.CreateRefetch?
    ensures CouponsRecorded(s, AdvanceCreate(cfg, s, th, out).0, th, out)
  {
  }

  /** Coupon counters move only in HandlePaid's coupon step. */
  lemma CouponsStep(cfg: Config, s: Shared, tid: nat, th: Thread, out: Outcome)
    ensures CouponsRecorded(s, Advance(cfg, s, tid, th, out).0, th, out)
  {
    hide AdvanceCreate, AdvancePay, AdvanceVerify, AdvancePaid, AdvanceOther;
    if th.CreateLookup? || th.CreateClock? || th.CreateInsert? || th.CreateRefetch? {
      CreateCouponsStep(cfg, s, th, out);
    }
    else if PayPhase(th) { PayCouponsStep(cfg, s, tid, th, out); }
    else if VerifyPhase(th) { VerifyCouponsStep(cfg, s, th, out); }
    else if PaidPhase(th) { PaidCouponsStep(cfg, s, tid, th, out); }
    else if OtherPhase(th) { OtherCouponsStep(s, th, out); }
  }

  /** No interleaving and no failure takes a counter over a positive quota. */
  lemma {:induction false} QuotaNeverExceeded(w: World, evs: seq<Event>)
    requires SameQuotas(w.cfg, w.s.db) && WithinQuota(w.s.db)
    ensures SameQuotas(w.cfg, RunAll(w, evs).s.db) && WithinQuota(RunAll(w, evs).s.db)
    decreases |evs|
  {
    hide Advance;
    if evs != [] {
      match evs[0] {
        case AddAddresses(addrs) => SeedFrame(w.s.db, addrs);
        case Run(tid, out) => if tid in w.threads { CouponsStep(w.cfg, w.s, tid, w.threads[tid], out); }
        case _ =>
      }
      QuotaNeverExceeded(Step(w, evs[0]), evs[1..]);
    }
  }

  /** The thread that won this order has not reached its coupon yet. */
  predicate PendingBump(w: World, no: string) {
    no in w.s.hist.winner && w.s.hist.winner[no] in w.threads &&
    var th := w.threads[w.s.hist.winner[no]]; th.PaidCoupon? && th.no == no
  }

  predicate HasCoupon(w: World, no: string) { no in w.s.db.orders && w.s.db.orders[no].coupon != "" }

  ghost predicate CounterOk(w: World, c: string) {
    c in w.s.db.coupons ==>
      w.s.db.coupons[c].used == Capped(w.s.db.coupons[c].quota, |Carrying(w.s.db.orders, w.s.hist.counted, c)|)
  }

  ghost predicate CouponsOnBooks(w: World) {
    && SameQuotas(w.cfg, w.s.db)
    && (forall c :: CounterOk(w, c))
    && CountedOk(w)
  }

  /** Of the settled orders with a coupon, those counted and those about to be. */
  ghost predicate CountedOk(w: World) {
    && (forall no :: no in w.s.hist.counted ==> no in w.s.hist.winner && HasCoupon(w, no) && !PendingBump(w, no))
    && (forall no :: no in w.s.hist.winner && HasCoupon(w, no) ==> no in w.s.hist.counted || PendingBump(w, no))
  }

  lemma CarryingStays(a: map<string, Order>, b: map<string, Order>, nos: set<string>, c: string)
    requires OrdersGrow(a, b) && nos <= a.Keys
    ensures Carrying(b, nos, c) == Carrying(a, nos, c)
  {
    forall no | no in nos ensures b[no].coupon == a[no].coupon { assert SameOrder(a[no], b[no]); }
  }

  lemma CarryingAdds(orders: map<string, Order>, nos: set<string>, no: string, c: string)
    requires no in orders && no !in nos
    ensures |Carrying(orders, nos + {no}, c)| == |Carrying(orders, nos, c)| + if orders[no].coupon == c then 1 else 0
  {
    if orders[no].coupon == c {
      assert Carrying(orders, nos + {no}, c) == Carrying(orders, nos, c) + {no};
    } else {
      assert Carrying(orders, nos + {no}, c) == Carrying(orders, nos, c);
    }
  }

  /** The coupon step counts its order once. */
  lemma BumpStepCounters(w: World, tid: nat, c: string)
    requires tid in w.threads && w.threads[tid].PaidCoupon? && OnceThread(w.s, tid, w.threads[tid])
    requires CouponsOnBooks(w)
    ensures CounterOk(Step(w, Run(tid, Ok)), c)
  {
    hide AdvanceCreate, AdvancePay, AdvanceVerify, AdvanceOther;
    var th := w.threads[tid];
    var w' := Step(w, Run(tid, Ok));
    CouponsStep(w.cfg, w.s, tid, th, Ok);
    assert Advance(w.cfg, w.s, tid, th, Ok) == AdvancePaid(w.cfg, w.s, tid, th, Ok);
    assert PendingBump(w, th.no);
    CarryingAdds(w.s.db.orders, w.s.hist.counted, th.no, c);
    assert SameOrder(th.order, w.s.db.orders[th.no]);
    assert CounterOk(w, c);
  }

  lemma OtherStepCounters(w: World, tid: nat, c: string)
    requires tid in w.threads && !w.threads[tid].PaidCoupon? && CouponsOnBooks(w)
    ensures CounterOk(Step(w, Run(tid, Ok)), c)
  {
    hide Advance;
    CouponsStep(w.cfg, w.s, tid, w.threads[tid], Ok);
    AdvanceGrows(w.cfg, w.s, tid, w.threads[tid], Ok);
    CarryingStays(w.s.db.orders, Step(w, Run(tid, Ok)).s.db.orders, w.s.hist.counted, c);
    assert CounterOk(w, c);
  }

  /** A step outside HandlePaid's status write and coupon step counts nothing and leaves nothing to count. */
  lemma SameCounts(w: World, w': World, tid: nat)
    requires CountedOk(w) && tid in w.threads && tid in w'.threads && w'.threads == w.threads[tid := w'.threads[tid]]
    requires !w.threads[tid].PaidCoupon? && !w'.threads[tid].PaidCoupon?
    requires w'.s.hist.winner == w.s.hist.winner && w'.s.hist.counted == w.s.hist.counted
    requires forall no :: no in w.s.hist.winner ==> (HasCoupon(w', no) <==> HasCoupon(w, no))
    ensures CountedOk(w')
  {
    forall no ensures PendingBump(w', no) <==> PendingBump(w, no) {}
  }

  /** Coupons of settled orders are read off rows that stay. */
  lemma CouponsStay(w: World, tid: nat)
    requires tid in w.threads && WinnersOk(w.s)
    ensures forall no :: no in w.s.hist.winner ==> (HasCoupon(Step(w, Run(tid, Ok)), no) <==> HasCoupon(w, no))
  {
    hide Advance;
    var w' := Step(w, Run(tid, Ok));
    AdvanceGrows(w.cfg, w.s, tid, w.threads[tid], Ok);
    forall no | no in w.s.hist.winner ensures HasCoupon(w', no) <==> HasCoupon(w, no) {
      assert SameOrder(w.s.db.orders[no], w'.s.db.orders[no]);
    }
  }

  /** Which orders are counted, and which are about to be. */
  lemma RunStepCounted(w: World, tid: nat)
    requires tid in w.threads && OnceThread(w.s, tid, w.threads[tid]) && CountedOk(w) && WinnersOk(w.s)
    ensures CountedOk(Step(w, Run(tid, Ok)))
  {
    var th := w.threads[tid];
    if th.PaidUpdate? { SettleStepCounted(w, tid); }
    else if th.PaidCoupon? { BumpStepCounted(w, tid); }
    else {
      hide Advance;
      var w' := Step(w, Run(tid, Ok));
      CouponsStay(w, tid);
      CouponsStep(w.cfg, w.s, tid, th, Ok);
      WinnerStep(w.cfg, w.s, tid, th, Ok);
      CouponFollowsUpdate(w.cfg, w.s, tid, th, Ok);
      SameCounts(w, w', tid);
    }
  }

  lemma CouponFollowsUpdate(cfg: Config, s: Shared, tid: nat, th: Thread, out: Outcome)
    requires !th.PaidUpdate?
    ensures !Advance(cfg, s, tid, th, out).1.PaidCoupon?
  {
    hide AdvanceCreate, AdvancePay, AdvanceVerify, AdvanceOther;
    if !PaidPhase(th) { OtherPhasesStayOut(cfg, s, tid, th, out); }
  }

  lemma SettleStepCounted(w: World, tid: nat)
    requires tid in w.threads && w.threads[tid].PaidUpdate? && OnceThread(w.s, tid, w.threads[tid])
    requires CountedOk(w) && WinnersOk(w.s)
    ensures CountedOk(Step(w, Run(tid, Ok)))
  {
    hide AdvanceCreate, AdvancePay, AdvanceVerify, AdvanceOther;
  }

  lemma BumpStepCounted(w: World, tid: nat)
    requires tid in w.threads && w.threads[tid].PaidCoupon? && OnceThread(w.s, tid, w.threads[tid])
    requires CountedOk(w) && WinnersOk(w.s)
    ensures CountedOk(Step(w, Run(tid, Ok)))
  {
    hide AdvanceCreate, AdvancePay, AdvanceVerify, AdvanceOther;
  }

  lemma RunStepCoupons(w: World, tid: nat)
    requires tid in w.threads && OnceThread(w.s, tid, w.threads[tid]) && CouponsOnBooks(w) && WinnersOk(w.s)
    ensures CouponsOnBooks(Step(w, Run(tid, Ok)))
  {
    hide Advance;
    CouponsStep(w.cfg, w.s, tid, w.threads[tid], Ok);
    RunStepCounted(w, tid);
    forall c ensures CounterOk(Step(w, Run(tid, Ok)), c) {
      if w.threads[tid].PaidCoupon? { BumpStepCounters(w, tid, c); } else { OtherStepCounters(w, tid, c); }
    }
  }

  lemma QuietCoupons(w: World, e: Event)
    requires CouponsOnBooks(w) && !e.Run?
    ensures CouponsOnBooks(Quiet(w, e))
  {
    hide Advance;
    if e.AddAddresses? { SeedFrame(w.s.db, e.addrs); }
    var w' := Quiet(w, e);
    forall c ensures CounterOk(w', c) { assert CounterOk(w, c); }
    forall no ensures PendingBump(w', no) <==> PendingBump(w, no) {}
  }

  lemma {:induction false} RunCoupons(w: World, evs: seq<Event>)
    requires CouponsOnBooks(w) && Booked(w) && Serial(w, evs) && AllFaultless(evs)
    ensures CouponsOnBooks(RunAll(w, evs))
    decreases |evs|
  {
    hide Advance;
    if evs != [] {
      var e := evs[0];
      StepBooked(w, e);
      if !e.Run? { QuietCoupons(w, e); } else if e.tid in w.threads { RunStepCoupons(w, e.tid); }
      RunCoupons(Step(w, e), evs[1..]);
    }
  }

  lemma InitOnBooks(cfg: Config)
    requires forall k :: k in cfg.coupons ==> cfg.coupons[k].used == 0
    ensures CouponsOnBooks(Init(cfg)) && Booked(Init(cfg))
  {
    var w := Init(cfg);
    forall k ensures CounterOk(w, k) { assert Carrying(w.s.db.orders, w.s.hist.counted, k) == {}; }
  }

  lemma SettledCounter(w: World, c: string)
    requires CouponsOnBooks(w) && PaidOnBooks(w) && Settled(w) && c in w.s.db.coupons && c != ""
    ensures w.s.db.coupons[c].used == Capped(w.s.db.coupons[c].quota,
              |set no | no in w.s.db.orders && w.s.db.orders[no].status == Paid && w.s.db.orders[no].coupon == c|)
  {
    assert CounterOk(w, c);
    assert Carrying(w.s.db.orders, w.s.hist.counted, c)
        == set no | no in w.s.db.orders && w.s.db.orders[no].status == Paid && w.s.db.orders[no].coupon == c;
  }

  /** At any settled point of a fault-free serial run, every counter that started at zero equals the number of paid
      orders carrying the coupon, capped by a positive quota. */
  lemma CounterCountsPaidOrders(cfg: Config, evs: seq<Event>, c: string)
    requires forall k :: k in cfg.coupons ==> cfg.coupons[k].used == 0
    requires Serial(Init(cfg), evs) && AllFaultless(evs) && Settled(RunAll(Init(cfg), evs))
    requires c in cfg.coupons && c != ""
    ensures var db := RunAll(Init(cfg), evs).s.db;
            c in db.coupons && db.coupons[c].used
            == Capped(cfg.coupons[c].quota,
                      |set no | no in db.orders && db.orders[no].status == Paid && db.orders[no].coupon == c|)
  {
    InitOnBooks(cfg);
    RunCoupons(Init(cfg), evs);
    RunBooked(Init(cfg), evs);
    SettledCounter(RunAll(Init(cfg), evs), c);
  }
}
