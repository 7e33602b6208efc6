/** How many payments of one order may reach paid: exactly when only one can, over configurations, runs and states. */
module OnePaid {
  import opened Wrappers
  import opened Tables
  import opened Machine
  import opened Growth
  import opened Scenario
  import opened TradeIndex
  import opened Settling
  import opened Waiting
  import opened Addresses
  import Ttl

  ghost predicate OnePaidEach(db: Db) {
    forall i, j :: 0 <= i < j < |db.payments| && db.payments[i].order == db.payments[j].order ==>
      !(db.payments[i].status == PayPaid && db.payments[j].status == PayPaid)
  }

  // ----- the guard ---------------------------------------------------------------------------------

  /** If the event stores a payment, every other payment of its order has been marked expired. */
  ghost predicate Alone(w: World, e: Event) {
    var ps, ps' := w.s.db.payments, Step(w, e).s.db.payments;
    forall i, k :: 0 <= i < |ps| <= k < |ps'| && ps[i].order == ps'[k].order ==> ps[i].status == PayExpired
  }

  ghost predicate AlwaysAlone(w: World, evs: seq<Event>)
    decreases |evs|
  {
    evs != [] ==> Alone(w, evs[0]) && AlwaysAlone(Step(w, evs[0]), evs[1..])
  }

  /** Of two payments of an order, one is marked expired. */
  ghost predicate OneOpen(db: Db) {
    forall i, j :: 0 <= i < j < |db.payments| && db.payments[i].order == db.payments[j].order ==>
      db.payments[i].status == PayExpired || db.payments[j].status == PayExpired
  }

  lemma OneMore(cfg: Config, s: Shared, tid: nat, th: Thread, out: Outcome)
    ensures |Advance(cfg, s, tid, th, out).0.db.payments| <= |s.db.payments| + 1
  {
    hide AdvanceCreate, AdvancePay, AdvanceVerify, AdvancePaid, AdvanceOther;
    if PayPhase(th) { PayOneMore(cfg, s, tid, th, out); PayStep(cfg, s, tid, th, out); }
    else { StoresNone(cfg, s, tid, th, out); }
  }

  lemma PayOneMore(cfg: Config, s: Shared, tid: nat, th: Thread, out: Outcome)
    requires PayPhase(th)
    ensures |AdvancePay(cfg, s, tid, th, out).0.db.payments| <= |s.db.payments| + 1
  {
    hide FindActiveByOrder, NextFree;
  }

  lemma StepOneMore(w: World, e: Event)
    ensures |Step(w, e).s.db.payments| <= |w.s.db.payments| + 1
  {
    hide Advance;
    match e
    case AddAddresses(addrs) => SeedFrame(w.s.db, addrs);
    case Run(tid, out) => if tid in w.threads { OneMore(w.cfg, w.s, tid, w.threads[tid], out); }
    case _ =>
  }

  lemma StepOneOpen(w: World, e: Event)
    requires OneOpen(w.s.db) && Alone(w, e)
    ensures OneOpen(Step(w, e).s.db)
  {
    StepGrows(w, e);
    StepOneMore(w, e);
    hide Step;
    var ps, ps' := w.s.db.payments, Step(w, e).s.db.payments;
    forall i, j | 0 <= i < j < |ps'| && ps'[i].order == ps'[j].order
      ensures ps'[i].status == PayExpired || ps'[j].status == PayExpired
    {
      assert SamePayment(ps[i], ps'[i]);
      if j < |ps| { assert SamePayment(ps[j], ps'[j]); }
    }
  }

  lemma {:induction false} RunOneOpen(w: World, evs: seq<Event>)
    requires OneOpen(w.s.db) && AlwaysAlone(w, evs)
    ensures OneOpen(RunAll(w, evs).s.db)
    decreases |evs|
  {
    hide Step, OneOpen, Alone;
    if evs != [] {
      StepOneOpen(w, evs[0]);
      RunOneOpen(Step(w, evs[0]), evs[1..]);
    }
  }

  /** If every payment, when stored, finds all others of its order marked expired, then at most one payment of an order
      is ever paid, whatever interleaves and fails. */
  lemma OnePaidIfAlone(cfg: Config, evs: seq<Event>)
    requires AlwaysAlone(Init(cfg), evs)
    ensures OnePaidEach(RunAll(Init(cfg), evs).s.db)
  {
    RunOneOpen(Init(cfg), evs);
  }

  // ----- two payments that can both be paid ----------------------------------------------------------------

  /** Already paid, or pending and still to be found: by its trade number, by its order before the deadline, or, on the
      USDT channel, by a transfer. */
  ghost predicate Settleable(cfg: Config, s: Shared, i: nat)
    requires i < |s.db.payments|
  {
    var p := s.db.payments[i];
    p.status == PayPaid ||
    (p.status == PayPending && if p.channel == Usdt then exists tx :: Awaits(cfg, s, i, tx)
                               else p.tradeNo != "" || !Unfindable(p, s.now))
  }

  /** One payment is paid; the others are as they were, or newer ones found first are paid too. */
  lemma Settles(w: World, i: nat) returns (evs: seq<Event>, w': World)
    requires PaymentsOk(w.cfg, w.s) && TradesUnique(w.s.db) && Ttl.Reflexive(w.cfg.money)
    requires i < |w.s.db.payments| && Settleable(w.cfg, w.s, i)
    ensures w' == RunAll(w, evs) && w'.cfg == w.cfg && w'.s.now == w.s.now
    ensures w'.s.db == w.s.db.(payments := w'.s.db.payments)
    ensures var p := w.s.db.payments[i]; PaidSome(w.s.db.payments, w'.s.db.payments, p.order, p.channel)
    ensures w'.s.db.payments[i].status == PayPaid
    ensures w.s.db.payments[i].channel == Usdt ==>
              forall k :: 0 <= k < |w.s.db.payments| && k != i ==> w'.s.db.payments[k] == w.s.db.payments[k]
    ensures var p := w.s.db.payments[i];
            p.channel == Usdt &&
              (p.status == PayPending ==> FindActiveByOrder(w.s.db, p.order, Usdt, w.s.now) != Some(i)) ==>
              w'.s.db.payments[i].tradeNo == p.tradeNo
  {
    hide Step, RunAll, PaymentsOk, TradesUnique, FindActiveByOrder;
    var p := w.s.db.payments[i];
    if p.status == PayPaid {
      NothingRun(w);
      evs, w' := [], w;
    } else if p.channel == Usdt {
      var tx :| Awaits(w.cfg, w.s, i, tx);
      evs, w' := TransferPays(w, i, tx);
    } else if p.tradeNo != "" {
      evs, w' := NotifyPays(w, i);
    } else {
      ActiveFound(w.s.db, p.order, p.channel, w.s.now);
      var k := FindActiveByOrder(w.s.db, p.order, p.channel, w.s.now);
      evs, w' := ActivePays(w, i, k.value);
    }
  }

  /** Paying one leaves the other settleable, if a USDT payment to be found by its order comes second. */
  lemma StaysSettleable(w: World, w': World, i: nat, j: nat)
    requires i < |w.s.db.payments| && j < |w.s.db.payments| && i != j && Settleable(w.cfg, w.s, j)
    requires w'.cfg == w.cfg && w'.s.now == w.s.now
    requires var p := w.s.db.payments[i]; PaidSome(w.s.db.payments, w'.s.db.payments, p.order, p.channel)
    requires w.s.db.payments[i].channel == w.s.db.payments[j].channel == Usdt ==>
              && (forall k :: 0 <= k < |w.s.db.payments| && k != i ==> w'.s.db.payments[k] == w.s.db.payments[k])
              && w'.s.db.payments[i].tradeNo == w.s.db.payments[i].tradeNo
    ensures Settleable(w'.cfg, w'.s, j)
  {
    var ps, ps' := w.s.db.payments, w'.s.db.payments;
    if ps'[j].status != PayPaid && ps[j].channel == Usdt {
      assert ps'[j] == ps[j];
      var tx :| Awaits(w.cfg, w.s, j, tx);
      ActiveFound(w.s.db, ps[j].order, Usdt, w.s.now);
      ActiveFound(w'.s.db, ps[j].order, Usdt, w'.s.now);
      hide FindActiveByOrder;
      assert Awaits(w'.cfg, w'.s, j, tx);
    }
  }

  /** At most one of two USDT payments of an order is the one its order finds, so the other bears its transaction. */
  predicate First(s: Shared, i: nat, j: nat)
    requires i < |s.db.payments| && j < |s.db.payments|
  {
    s.db.payments[i].channel == s.db.payments[j].channel == Usdt && s.db.payments[i].status == PayPending ==>
      FindActiveByOrder(s.db, s.db.payments[i].order, Usdt, s.now) != Some(i)
  }

  lemma RowsAreOk(w: World)
    requires Isolated(w)
    ensures PaymentsOk(w.cfg, w.s)
  {
  }

  lemma PaysBoth(w: World, i: nat, j: nat) returns (evs: seq<Event>)
    requires Isolated(w) && TradesUnique(w.s.db) && Ttl.Reflexive(w.cfg.money)
    requires i < |w.s.db.payments| && j < |w.s.db.payments| && i != j && First(w.s, i, j)
    requires Settleable(w.cfg, w.s, i) && Settleable(w.cfg, w.s, j)
    ensures var ps := RunAll(w, evs).s.db.payments;
            i < |ps| && j < |ps| && ps[i].status == ps[j].status == PayPaid
  {
    hide Step, RunAll, TradesUnique, Settleable, RowsOk, PaymentsOk, ThreadOk, FindActiveByOrder;
    var w', more, w'';
    RowsAreOk(w);
    evs, w' := Settles(w, i);
    StaysSettleable(w, w', i, j);
    RunKeepsIndex(w, evs);
    RunIsolated(w, evs);
    RowsAreOk(w');
    more, w'' := Settles(w', j);
    RunAllAppend(w, evs, more);
    evs := evs + more;
  }

  /** From any state a run reaches, two payments of one order that are both settleable can both be paid. */
  lemma TwoCanBePaid(cfg: Config, before: seq<Event>, i: nat, j: nat) returns (after: seq<Event>)
    requires Ttl.Reflexive(cfg.money)
    requires var s := RunAll(Init(cfg), before).s;
             && i < |s.db.payments| && j < |s.db.payments| && i != j && s.db.payments[i].order == s.db.payments[j].order
             && Settleable(cfg, s, i) && Settleable(cfg, s, j)
    ensures var ps := RunAll(RunAll(Init(cfg), before), after).s.db.payments;
            && i < |ps| && j < |ps| && ps[i].order == ps[j].order && ps[i].status == ps[j].status == PayPaid
  {
    var w := RunAll(Init(cfg), before);
    RunKeepsConfig(Init(cfg), before);
    RunIsolated(Init(cfg), before);
    RunKeepsIndex(Init(cfg), before);
    hide Step, Settleable, TradesUnique;
    if First(w.s, i, j) { after := PaysBoth(w, i, j); } else { after := PaysBoth(w, j, i); }
    RunGrows(w, after);
    assert SamePayment(w.s.db.payments[i], RunAll(w, after).s.db.payments[i]);
    assert SamePayment(w.s.db.payments[j], RunAll(w, after).s.db.payments[j]);
  }

  // ----- exactly when two payments can both be paid ----------------------------------------------------------

  ghost predicate PaidTogether(w: World, i: nat, j: nat) {
    && i < |w.s.db.payments| && j < |w.s.db.payments|
    && w.s.db.payments[i].status == w.s.db.payments[j].status == PayPaid
  }

  /** Off the USDT channel, a payment that is not settleable, and that no handler is about to write, is never paid. */
  lemma NeverPaid(w: World, i: nat, after: seq<Event>)
    requires AllRegular(w) && Idle(w, i) && i < |w.s.db.payments| && w.s.db.payments[i].channel != Usdt
    requires !Settleable(w.cfg, w.s, i)
    ensures var ps := RunAll(w, after).s.db.payments; i < |ps| && ps[i].status != PayPaid
  {
    RunGrows(w, after);
    assert SamePayment(w.s.db.payments[i], RunAll(w, after).s.db.payments[i]);
    if w.s.db.payments[i].status == PayPending {
      hide RunAll;
      RunStuck(w, after, i);
    }
  }

  /** Off the USDT channel, from any state a run reaches: two payments of an order that no handler is about to write can
      both be paid exactly when both are settleable. */
  lemma TwoCanBePaidIff(cfg: Config, before: seq<Event>, i: nat, j: nat)
    requires Ttl.Reflexive(cfg.money)
    requires var w := RunAll(Init(cfg), before); var ps := w.s.db.payments;
             && i < |ps| && j < |ps| && i != j && ps[i].order == ps[j].order
             && ps[i].channel != Usdt && ps[j].channel != Usdt && Idle(w, i) && Idle(w, j)
    ensures var w := RunAll(Init(cfg), before);
            (exists after :: PaidTogether(RunAll(w, after), i, j))
            <==> Settleable(cfg, w.s, i) && Settleable(cfg, w.s, j)
  {
    var w := RunAll(Init(cfg), before);
    RunKeepsConfig(Init(cfg), before);
    RunRegular(Init(cfg), before);
    hide Step, RunAll, AllRegular, Idle, Settleable;
    if Settleable(cfg, w.s, i) && Settleable(cfg, w.s, j) {
      var after := TwoCanBePaid(cfg, before, i, j);
      assert PaidTogether(RunAll(w, after), i, j);
    } else {
      forall after ensures !PaidTogether(RunAll(w, after), i, j) {
        if !Settleable(cfg, w.s, i) { NeverPaid(w, i, after); } else { NeverPaid(w, j, after); }
      }
    }
  }

  lemma NewIsIdle(w: World, e: Event)
    requires Isolated(w) && |Step(w, e).s.db.payments| > |w.s.db.payments|
    ensures Idle(Step(w, e), |w.s.db.payments|)
  {
    hide Advance, RowsOk;
    var w', k := Step(w, e), |w.s.db.payments|;
    if e.AddAddresses? { SeedFrame(w.s.db, e.addrs); }
    var th := w.threads[e.tid];
    if PayPhase(th) {
      PayStep(w.cfg, w.s, e.tid, th, e.out);
      PayOffRow(w.cfg, w.s, e.tid, th, e.out, k);
    } else {
      StoresNone(w.cfg, w.s, e.tid, th, e.out);
    }
    forall t | t in w'.threads ensures OffRow(w'.threads[t], k) {
      if t != e.tid { assert ThreadOk(w.cfg, w.s, t, w.threads[t]); }
    }
  }

  lemma PayOffRow(cfg: Config, s: Shared, tid: nat, th: Thread, out: Outcome, k: nat)
    requires PayPhase(th)
    ensures OffRow(AdvancePay(cfg, s, tid, th, out).1, k)
  {
    hide FindActiveByOrder, NextFree;
  }

  /** In particular when the one is stored beside the other: the double payment is open exactly when the earlier attempt
      is still settleable and the new one has a trade number or time left. */
  lemma StoredBesideIff(cfg: Config, before: seq<Event>, e: Event, i: nat)
    requires Ttl.Reflexive(cfg.money)
    requires var w := RunAll(Init(cfg), before); var w' := RunAll(Init(cfg), before + [e]);
             var ps, ps', k := w.s.db.payments, w'.s.db.payments, |w.s.db.payments|;
             && i < k < |ps'| && ps'[i].order == ps'[k].order && Idle(w', i)
             && ps'[i].channel != Usdt && ps'[k].channel != Usdt
    ensures var w' := RunAll(Init(cfg), before + [e]); var k := |RunAll(Init(cfg), before).s.db.payments|;
            (exists after :: PaidTogether(RunAll(w', after), i, k))
            <==> Settleable(cfg, w'.s, i) && (w'.s.db.payments[k].tradeNo != "" ||
                   !Unfindable(w'.s.db.payments[k], w'.s.now))
  {
    var w := RunAll(Init(cfg), before);
    RunAllAppend(Init(cfg), before, [e]);
    assert [e][1..] == [] && RunAll(w, [e]) == Step(w, e);
    RunIsolated(Init(cfg), before);
    RunRegular(Init(cfg), before);
    hide RunAll;
    NewIsIdle(w, e);
    NewIsPending(w, e);
    TwoCanBePaidIff(cfg, before + [e], i, |w.s.db.payments|);
  }

  lemma NewIsPending(w: World, e: Event)
    requires AllRegular(w) && |Step(w, e).s.db.payments| > |w.s.db.payments|
    ensures Step(w, e).s.db.payments[|w.s.db.payments|].status == PayPending
  {
    hide Advance;
    if e.AddAddresses? { SeedFrame(w.s.db, e.addrs); }
    var th := w.threads[e.tid];
    assert Regular(w.s, th);
    if PayPhase(th) {
      PayStep(w.cfg, w.s, e.tid, th, e.out);
      PayStoresPending(w.cfg, w.s, e.tid, th, e.out);
    } else {
      StoresNone(w.cfg, w.s, e.tid, th, e.out);
    }
  }

  lemma PayStoresPending(cfg: Config, s: Shared, tid: nat, th: Thread, out: Outcome)
    requires PayPhase(th) && Regular(s, th)
    ensures var ps := AdvancePay(cfg, s, tid, th, out).0.db.payments;
            |ps| > |s.db.payments| ==> ps[|s.db.payments|].status == PayPending
  {
    hide FindActiveByOrder, NextFree;
  }

  // ----- configurations -------------------------------------------------------------------------------------------

  ghost predicate AlwaysOnePaid(cfg: Config) { forall evs :: OnePaidEach(RunAll(Init(cfg), evs).s.db) }

  /** Payments on this channel can be settled by notifies: the provider has minted a trade number, or payments live. */
  predicate Notifiable(cfg: Config, ch: Channel) { ch == Mock || (ch != Usdt && cfg.payTtl > 0) }

  /** An attempt on one channel and then one on the other, every call succeeding: the second lookup finds nothing on its
      own channel, or only an attempt whose time is up and which no sweep has marked yet. */
  lemma TwoAttempts(cfg: Config, u: nat, a: Channel, b: Channel) returns (evs: seq<Event>, w: World)
    requires u in cfg.users && Notifiable(cfg, a) && Notifiable(cfg, b) && (a == b ==> a == Mock)
    ensures w == RunAll(Init(cfg), evs) && w.cfg == cfg && |w.s.db.payments| == 2
    ensures w.s.db.payments[0].order == w.s.db.payments[1].order == NO
    ensures w.s.db.payments[0].channel == a && w.s.db.payments[1].channel == b
    ensures Settleable(cfg, w.s, 0) && Settleable(cfg, w.s, 1)
  {
    hide Advance, RunAll, Step;
    var more, w1;
    evs, w := Buy(cfg, u);
    more, w1 := Minted(w, NO, a, Mint("t", 0), Ok);
    RunAllAppend(Init(cfg), evs, more);
    var wait := if a == b && cfg.payTtl > 0 then cfg.payTtl else 0;
    Waited(w1, wait);
    evs, w := Then(Init(cfg), evs + more, w1, Tick(wait));
    ActiveFound(w.s.db, NO, b, w.s.now);
    more, w1 := Minted(w, NO, b, Mint("t2", 0), Ok);
    RunAllAppend(Init(cfg), evs, more);
    evs, w := evs + more, w1;
  }

  /** Both are paid: on two channels, or on the mock one alone. */
  lemma BothAttemptsPaid(cfg: Config, u: nat, a: Channel, b: Channel) returns (evs: seq<Event>)
    requires u in cfg.users && Notifiable(cfg, a) && Notifiable(cfg, b) && (a == b ==> a == Mock)
    requires Ttl.Reflexive(cfg.money)
    ensures var ps := RunAll(Init(cfg), evs).s.db.payments;
            |ps| >= 2 && ps[0].order == ps[1].order == NO && ps[0].channel == a && ps[1].channel == b
            && ps[0].status == ps[1].status == PayPaid
  {
    hide Step, RunAll, Settleable;
    var w, after;
    evs, w := TwoAttempts(cfg, u, a, b);
    after := TwoCanBePaid(cfg, evs, 0, 1);
    RunAllAppend(Init(cfg), evs, after);
    RunGrows(w, after);
    assert SamePayment(w.s.db.payments[0], RunAll(w, after).s.db.payments[0]);
    assert SamePayment(w.s.db.payments[1], RunAll(w, after).s.db.payments[1]);
    evs := evs + after;
  }

  lemma NobodyPays(cfg: Config, evs: seq<Event>)
    requires cfg.users == map[]
    ensures RunAll(Init(cfg), evs).s.db.payments == []
  {
    Ttl.RunDormant(Init(cfg), evs);
    RunRegular(Init(cfg), evs);
    RunKeepsConfig(Init(cfg), evs);
    var w := RunAll(Init(cfg), evs);
    assert forall no :: no in w.s.db.orders ==> w.s.db.orders[no].user in cfg.users;
    if w.s.db.payments != [] { OrderBehind(w.s); }
  }

  lemma OrderBehind(s: Shared)
    requires RowsOrdered(s) && s.db.payments != []
    ensures exists no :: no in s.db.orders
  {
    assert s.db.payments[0].order in s.db.orders;
  }

  /** At most one payment of an order is paid, on every run, exactly when there are no users at all: neither lifetime
      makes up for the missing guard. */
  lemma OnePaidIff(cfg: Config)
    requires Ttl.Reflexive(cfg.money)
    ensures AlwaysOnePaid(cfg) <==> cfg.users == map[]
  {
    if cfg.users == map[] {
      forall evs ensures OnePaidEach(RunAll(Init(cfg), evs).s.db) { NobodyPays(cfg, evs); }
    } else {
      var u :| u in cfg.users;
      var evs := BothAttemptsPaid(cfg, u, Mock, Mock);
    }
  }

  /** With the services' own amount functions. */
  lemma SourceOnePaidIff(cfg: Config)
    requires cfg.money == SourceMoney()
    ensures AlwaysOnePaid(cfg) <==> cfg.users == map[]
  {
    Ttl.SourceReflexive();
    OnePaidIff(cfg);
  }
}
