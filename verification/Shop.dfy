/** The services serving one call after the other, with any repository call failing: what holds of the tables without
    looking at any record of the run. */
module Shop {
  import opened Wrappers
  import opened Tables
  import opened Machine
  import opened Growth
  import opened Effects
  import opened Stamps
  import opened Accounting
  import opened Alone
  import opened Services

  datatype Request =
    | PlaceOrder(input: NewOrder)
    | StartPayment(no: string, channel: Channel, mint: Mint)
    | Webhook(channel: Channel, verified: Option<Notify>, success: bool)
    | Transfer(address: string, token: Option<int>, tx: string)
    | Reconcile(channel: Channel, limit: int, poll: Payment -> Option<PaymentStatus>, luck: nat -> seq<Outcome>)
    | MockPay(no: string, tradeNo: string)
    | Cancel(no: string, user: nat)
    | SweepOrders
    | SweepPayments

  /** A request, the time that passes before it, and the outcomes of its repository calls. */
  datatype Call = Call(wait: nat, request: Request, outs: seq<Outcome>)

  /** What reaches the services: keyed orders of known users, transfers the chain shows, and neither webhooks nor
      paid polls on the USDT channel, whose provider has none. */
  ghost predicate Possible(cfg: Config, c: Call) {
    && |c.outs| >= 11
    && match c.request
       case PlaceOrder(input) => input.key != "" && input.user in cfg.users
       case Webhook(ch, verified, _) => ch == Usdt ==> verified.None?
       case Transfer(address, _, tx) => tx != "" && address in PaysTo(cfg, tx)
       case Reconcile(ch, _, poll, luck) =>
         (ch == Usdt ==> forall p :: poll(p) != Some(PayPaid)) && forall i :: |luck(i)| >= 10
       case _ => true
  }

  // ----- calls as runs ------------------------------------------------------------------------

  /** A serialized run that has come to rest: every handler has ended. */
  ghost predicate AtRest(cfg: Config, evs: seq<Event>) {
    Serial(Init(cfg), evs) && RunAll(Init(cfg), evs).cfg == cfg
    && forall t :: t in RunAll(Init(cfg), evs).threads ==> Ended(RunAll(Init(cfg), evs).threads[t])
  }

  lemma AtStart(cfg: Config)
    ensures AtRest(cfg, []) && RunAll(Init(cfg), []) == Init(cfg)
  {
  }

  /** Alone among ended handlers, a handler overlaps with nobody. */
  lemma {:induction false} SoloIsSerial(w: World, tid: nat, outs: seq<Outcome>)
    requires tid in w.threads && forall t :: t in w.threads && t != tid ==> Ended(w.threads[t])
    ensures Serial(w, Turns(tid, outs))
    decreases |outs|
  {
    hide Advance;
    if outs != [] {
      var evs := Turns(tid, outs);
      assert evs[0] == Run(tid, outs[0]) && evs[1..] == Turns(tid, outs[1..]);
      AloneIsExclusive(w, tid, outs[0]);
      SoloIsSerial(Step(w, evs[0]), tid, outs[1..]);
    }
  }

  lemma AloneIsExclusive(w: World, tid: nat, out: Outcome)
    requires tid in w.threads && forall t :: t in w.threads && t != tid ==> Ended(w.threads[t])
    ensures Exclusive(w, Run(tid, out))
  {
  }

  lemma Waited(cfg: Config, evs: seq<Event>, wait: nat) returns (evs': seq<Event>)
    requires AtRest(cfg, evs)
    ensures evs' == evs + [Tick(wait)] && AtRest(cfg, evs')
    ensures var s := RunAll(Init(cfg), evs).s; RunAll(Init(cfg), evs').s == s.(now := s.now + wait)
    ensures RunAll(Init(cfg), evs').threads == RunAll(Init(cfg), evs).threads
  {
    hide Advance;
    var w;
    evs', w := Then(Init(cfg), evs, RunAll(Init(cfg), evs), Tick(wait));
    assert [Tick(wait)][1..] == [];
    SerialJoins(Init(cfg), evs, [Tick(wait)]);
  }

  /** A handler run to its end extends the run, and leaves it at rest. */
  lemma Served(cfg: Config, evs: seq<Event>, tid: nat, th: Thread, outs: seq<Outcome>) returns (evs': seq<Event>)
    requires AtRest(cfg, evs) && tid !in RunAll(Init(cfg), evs).threads && CanStart(cfg, th)
    requires Ended(Solo(cfg, RunAll(Init(cfg), evs).s, tid, th, outs).1)
    ensures AtRest(cfg, evs') && evs <= evs'
    ensures RunAll(Init(cfg), evs').s == Solo(cfg, RunAll(Init(cfg), evs).s, tid, th, outs).0
    ensures RunAll(Init(cfg), evs').s.now == RunAll(Init(cfg), evs).s.now
    ensures RunAll(Init(cfg), evs').threads.Keys == RunAll(Init(cfg), evs).threads.Keys + {tid}
  {
    hide Advance, Solo, Step, Exclusive, CanStart;
    var w, turns := RunAll(Init(cfg), evs), Turns(tid, outs);
    var started, w1 := Start(Init(cfg), evs, w, tid, th);
    SpawnIsSerial(cfg, evs, tid, th);
    SoloIsRun(w1, tid, outs);
    SoloClock(cfg, w.s, tid, th, outs);
    SoloIsSerial(w1, tid, outs);
    RunAllAppend(Init(cfg), started, turns);
    SerialJoins(Init(cfg), started, turns);
    evs' := started + turns;
  }

  lemma SpawnIsSerial(cfg: Config, evs: seq<Event>, tid: nat, th: Thread)
    requires Serial(Init(cfg), evs)
    ensures Serial(Init(cfg), evs + [Spawn(tid, th)])
  {
    hide Step;
    assert [Spawn(tid, th)][1..] == [];
    SerialJoins(Init(cfg), evs, [Spawn(tid, th)]);
  }

  /** These tables, at this instant, are what a serialized run at rest has left. */
  ghost predicate LeftBy(cfg: Config, evs: seq<Event>, now: int, rows: Db) {
    AtRest(cfg, evs) && Shared(now, rows, RunAll(Init(cfg), evs).s.hist) == RunAll(Init(cfg), evs).s
  }

  function Record(cfg: Config, evs: seq<Event>): History { RunAll(Init(cfg), evs).s.hist }

  predicate Unused(cfg: Config, evs: seq<Event>, tid: nat) {
    forall k :: k in RunAll(Init(cfg), evs).threads ==> k < tid
  }

  lemma FreshThread(cfg: Config, evs: seq<Event>) returns (tid: nat)
    ensures Unused(cfg, evs, tid)
  {
    tid := Above(RunAll(Init(cfg), evs).threads.Keys);
  }

  lemma Continued(cfg: Config, evs: seq<Event>, now: int, rows: Db, tid: nat, th: Thread, outs: seq<Outcome>)
    returns (evs': seq<Event>)
    requires LeftBy(cfg, evs, now, rows) && Unused(cfg, evs, tid) && CanStart(cfg, th)
    requires Ended(Solo(cfg, Shared(now, rows, Record(cfg, evs)), tid, th, outs).1)
    ensures evs <= evs'
    ensures LeftBy(cfg, evs', now, Solo(cfg, Shared(now, rows, Record(cfg, evs)), tid, th, outs).0.db)
  {
    hide Advance, Solo, RunAll, AtRest, CanStart;
    evs' := Served(cfg, evs, tid, th, outs);
  }

  // ----- verified payments end within ten calls ---------------------------------------------------

  /** Calls left at most. */
  function Left(th: Thread): nat {
    match th
    case VerifyTrade(_, _) => 10
    case VerifyActive(_, _) => 9
    case VerifySetTrade(_, _, _, _) => 8
    case VerifyMark(_, _, _, _) => 7
    case VerifyUse(_, _, _, _) => 6
    case PaidLookup(_, _, _) => 5
    case PaidCheck(_, _, _, _) => 4
    case PaidUpdate(_, _, _, _, _) => 3
    case PaidCoupon(_, _) => 2
    case PaidApply(_, _) => 1
    case _ => 0
  }

  predicate Settling(th: Thread) { Left(th) > 0 || Ended(th) }

  lemma VerifyLeft(cfg: Config, s: Shared, th: Thread, out: Outcome)
    requires VerifyPhase(th) && !th.TransferLookup?
    ensures var th' := AdvanceVerify(cfg, s, th, out).1; Settling(th') && Left(th') < Left(th)
  {
    hide FindByTradeNo, FindActiveByOrder;
  }

  lemma PaidLeft(cfg: Config, s: Shared, tid: nat, th: Thread, out: Outcome)
    requires PaidPhase(th)
    ensures var th' := AdvancePaid(cfg, s, tid, th, out).1; Settling(th') && Left(th') < Left(th)
  {
    hide UpdateOrder, BumpCoupon, ApplyEffects;
  }

  lemma {:induction false} SoloEnds(cfg: Config, s: Shared, tid: nat, th: Thread, outs: seq<Outcome>)
    requires Settling(th) && |outs| >= Left(th)
    ensures Ended(Solo(cfg, s, tid, th, outs).1)
    decreases |outs|
  {
    hide AdvanceCreate, AdvancePay, AdvanceVerify, AdvancePaid, AdvanceOther;
    if Ended(th) {
      SoloAfterEnd(cfg, s, tid, th, outs);
    } else {
      if VerifyPhase(th) { VerifyLeft(cfg, s, th, outs[0]); } else { PaidLeft(cfg, s, tid, th, outs[0]); }
      var (s', th') := Advance(cfg, s, tid, th, outs[0]);
      SoloEnds(cfg, s', tid, th', outs[1..]);
    }
  }

  /** Polling row after row extends the run, and leaves it at rest. */
  lemma {:induction false} Polled(cfg: Config, evs: seq<Event>, tid: nat, ch: Channel, rows: seq<Payment>,
                                  polls: seq<Option<PaymentStatus>>, outs: seq<seq<Outcome>>, i: nat)
    returns (evs': seq<Event>)
    requires AtRest(cfg, evs) && |polls| >= |rows| && |outs| >= |rows| >= i
    requires forall k :: k in RunAll(Init(cfg), evs).threads ==> k < tid + i
    requires forall k :: 0 <= k < |outs| ==> |outs[k]| >= 10
    requires ch == Usdt ==> forall k :: 0 <= k < |polls| ==> polls[k] != Some(PayPaid)
    ensures AtRest(cfg, evs') && evs <= evs'
    ensures RunAll(Init(cfg), evs').s == PollAll(cfg, RunAll(Init(cfg), evs).s, tid, ch, rows, polls, outs, i).0
    decreases |rows| - i
  {
    hide Advance, Solo, RunAll, AtRest;
    if i == |rows| {
      evs' := evs;
    } else {
      var mid := evs;
      var s := RunAll(Init(cfg), evs).s;
      var th := VerifyTrade(ch, Notify(rows[i].order, rows[i].tradeNo, rows[i].amount));
      if polls[i] == Some(PayPaid) {
        SoloEnds(cfg, s, tid + i, th, outs[i]);
        mid := Served(cfg, evs, tid + i, th, outs[i]);
      }
      assert RunAll(Init(cfg), mid).s == PollOne(cfg, s, tid + i, ch, rows[i], polls[i], outs[i]).0;
      evs' := Polled(cfg, mid, tid, ch, rows, polls, outs, i + 1);
    }
  }

  lemma {:induction false} PollsKeepClock(cfg: Config, s: Shared, tid: nat, ch: Channel, rows: seq<Payment>,
                                          polls: seq<Option<PaymentStatus>>, outs: seq<seq<Outcome>>, i: nat)
    requires |polls| >= |rows| && |outs| >= |rows| >= i
    ensures PollAll(cfg, s, tid, ch, rows, polls, outs, i).0.now == s.now
    decreases |rows| - i
  {
    hide Advance, Solo;
    if i < |rows| {
      SoloClock(cfg, s, tid + i, VerifyTrade(ch, Notify(rows[i].order, rows[i].tradeNo, rows[i].amount)), outs[i]);
      PollsKeepClock(cfg, PollOne(cfg, s, tid + i, ch, rows[i], polls[i], outs[i]).0, tid, ch, rows, polls, outs,
          i + 1);
    }
  }

  // ----- what shows -----------------------------------------------------------------------------------

  /** The users are the replay of the effects of distinct paid orders: nothing was credited twice, nothing unpaid was
      credited, and nothing else changed a user. */
  ghost predicate OnBooks(cfg: Config, db: Db) {
    exists log: seq<Effect> :: Distinct(log) && db.users == Replay(cfg.money, cfg.users, db.orders, log)
                  && forall i :: 0 <= i < |log| ==> log[i].no in db.orders && db.orders[log[i].no].status == Paid
  }

  lemma RunOnBooks(cfg: Config, evs: seq<Event>)
    requires Serial(Init(cfg), evs)
    ensures OnBooks(cfg, RunAll(Init(cfg), evs).s.db)
  {
    UsersAreReplayDespiteFailures(cfg, evs);
    hide Serial, RunAll;
    var s := RunAll(Init(cfg), evs).s;
    forall i | 0 <= i < |s.hist.effects|
      ensures s.hist.effects[i].no in s.db.orders && s.db.orders[s.hist.effects[i].no].status == Paid
    {
      assert PaidBy(s, s.hist.effects[i].no, s.hist.effects[i].at);
    }
  }

  lemma RunKeepsFinished(cfg: Config, evs: seq<Event>, evs': seq<Event>)
    requires Serial(Init(cfg), evs') && evs <= evs'
    ensures OnlyFromPending(RunAll(Init(cfg), evs).s.db, RunAll(Init(cfg), evs').s.db)
  {
    hide Step;
    assert evs' == evs + evs'[|evs|..];
    SerialSplits(Init(cfg), evs, evs'[|evs|..]);
    RunAllAppend(Init(cfg), evs, evs'[|evs|..]);
    RunHeld(Init(cfg), evs);
    RunHeld(RunAll(Init(cfg), evs), evs'[|evs|..]);
  }

  // ----- the loop ----------------------------------------------------------------------------------------

  class Shop {
    const cfg: Config
    const db: Database
    const billing: Billing
    const payments: Payments

    ghost predicate Wired() {
      billing.cfg == cfg && billing.db == db && payments.cfg == cfg && payments.db == db && payments.billing == billing
    }

    /** The tables are those a serialized run at rest has left at this instant. */
    ghost predicate Stands(evs: seq<Event>, now: int)
      reads db
    {
      Wired() && LeftBy(cfg, evs, now, db.Rows())
    }

    constructor (cfg: Config)
      ensures this.cfg == cfg && Stands([], 0)
    {
      var d := new Database(cfg.coupons, cfg.users);
      var b := new Billing(cfg, d);
      var p := new Payments(cfg, d, b);
      this.cfg, db, billing, payments := cfg, d, b, p;
      AtStart(cfg);
    }

    /** One call at the present instant. */
    method Serve(r: Request, outs: seq<Outcome>, now: int, ghost evs: seq<Event>) returns (ghost evs': seq<Event>)
      requires Stands(evs, now) && Possible(cfg, Call(0, r, outs))
      modifies db
      ensures Stands(evs', now) && evs <= evs'
    {
      hide Stands;
      match r {
        case Webhook(ch, verified, success) => evs' := ServeWebhook(ch, verified, success, outs, now, evs);
        case Reconcile(ch, limit, poll, luck) => evs' := ServeReconcile(ch, limit, poll, luck, now, evs);
        case PlaceOrder(_) => evs' := ServeOrder(r, outs, now, evs);
        case MockPay(_, _) => evs' := ServeOrder(r, outs, now, evs);
        case StartPayment(_, _, _) => evs' := ServePayment(r, outs, now, evs);
        case Transfer(_, _, _) => evs' := ServePayment(r, outs, now, evs);
        case _ => evs' := ServeEnd(r, outs, now, evs);
      }
    }

    method ServeOrder(r: Request, outs: seq<Outcome>, now: int, ghost evs: seq<Event>) returns (ghost evs': seq<Event>)
      requires Stands(evs, now) && Possible(cfg, Call(0, r, outs))
      requires r.PlaceOrder? || r.MockPay?
      modifies db
      ensures Stands(evs', now) && evs <= evs'
    {
      hide Advance, Solo, LeftBy, Record, Unused, AtRest, RunAll, Init;
      ghost var tid := FreshThread(cfg, evs);
      ghost var rows, h := db.Rows(), Record(cfg, evs);
      match r {
        case PlaceOrder(input) =>
          var _ := billing.CreateOrder(input, now, outs, h, tid);
          evs' := Continued(cfg, evs, now, rows, tid, CreateLookup(input), outs);
        case MockPay(no, tradeNo) =>
          var _ := billing.HandlePaid(no, tradeNo, now, outs, Direct, h, tid);
          evs' := Continued(cfg, evs, now, rows, tid, PaidLookup(no, tradeNo, Direct), outs);
      }
    }

    method ServeEnd(r: Request, outs: seq<Outcome>, now: int, ghost evs: seq<Event>) returns (ghost evs': seq<Event>)
      requires Stands(evs, now) && Possible(cfg, Call(0, r, outs))
      requires r.Cancel? || r.SweepOrders? || r.SweepPayments?
      modifies db
      ensures Stands(evs', now) && evs <= evs'
    {
      hide OneCancelled, OrdersSwept, PaymentsSwept;
      hide Advance, Solo, LeftBy, Record, Unused, AtRest, RunAll, Init;
      ghost var tid := FreshThread(cfg, evs);
      ghost var rows, h := db.Rows(), Record(cfg, evs);
      match r {
        case Cancel(no, user) =>
          var _ := billing.CancelOrder(no, user, now, outs, h, tid);
          evs' := Continued(cfg, evs, now, rows, tid, CancelLookup(no, user), outs);
        case SweepOrders =>
          var _ := billing.AutoCancelExpired(now, outs, h, tid);
          evs' := Continued(cfg, evs, now, rows, tid, OrderSweepClock, outs);
        case SweepPayments =>
          var _ := payments.ExpireOldPending(now, outs, h, tid);
          evs' := Continued(cfg, evs, now, rows, tid, PaymentSweepClock, outs);
      }
    }

    method ServePayment(r: Request, outs: seq<Outcome>, now: int, ghost evs: seq<Event>)
      returns (ghost evs': seq<Event>)
      requires Stands(evs, now) && Possible(cfg, Call(0, r, outs))
      requires r.StartPayment? || r.Transfer?
      modifies db
      ensures Stands(evs', now) && evs <= evs'
    {
      hide Advance, Solo, LeftBy, Record, Unused, AtRest, RunAll, Init;
      ghost var tid := FreshThread(cfg, evs);
      ghost var rows, h := db.Rows(), Record(cfg, evs);
      match r {
        case StartPayment(no, ch, mint) =>
          var _ := payments.CreatePayment(no, ch, mint, now, outs, h, tid);
          evs' := Continued(cfg, evs, now, rows, tid, PayAmount(no, ch, mint), outs);
        case Transfer(address, token, tx) =>
          var _ := payments.UsdtReceived(address, token, tx, now, outs, h, tid);
          evs' := Continued(cfg, evs, now, rows, tid, TransferLookup(address, token, tx), outs);
      }
    }

    method ServeWebhook(ch: Channel, verified: Option<Notify>, success: bool, outs: seq<Outcome>, now: int,
                        ghost evs: seq<Event>) returns (ghost evs': seq<Event>)
      requires Stands(evs, now) && Possible(cfg, Call(0, Webhook(ch, verified, success), outs))
      modifies db
      ensures Stands(evs', now) && evs <= evs'
    {
      hide Advance, Solo, LeftBy, Record, Unused, AtRest, RunAll, Init;
      ghost var tid := FreshThread(cfg, evs);
      ghost var rows, h := db.Rows(), Record(cfg, evs);
      var _ := payments.HandleNotify(ch, verified, success, now, outs, h, tid);
      evs' := evs;
      if verified.Some? && success {
        evs' := Continued(cfg, evs, now, rows, tid, VerifyTrade(ch, verified.value), outs);
      }
    }

    method ServeReconcile(ch: Channel, limit: int, poll: Payment -> Option<PaymentStatus>, luck: nat -> seq<Outcome>,
                          now: int,
                          ghost evs: seq<Event>) returns (ghost evs': seq<Event>)
      requires Stands(evs, now)
      requires (ch == Usdt ==> forall p :: poll(p) != Some(PayPaid)) && forall i :: |luck(i)| >= 10
      modifies db
      ensures Stands(evs', now) && evs <= evs'
    {
      hide Advance, Solo, RunAll, Serial, Step, AtRest, Init, PollAll;
      ghost var w := RunAll(Init(cfg), evs);
      ghost var tid := Above(w.threads.Keys);
      var rows := ListPending(db.payments, ch, if limit <= 0 then 50 else limit);
      var polls := seq(|rows|, i requires 0 <= i < |rows| => poll(rows[i]));
      var lucks := seq(|rows|, i requires 0 <= i < |rows| => luck(i));
      var _ := payments.ReconcileChannel(ch, limit, polls, now, lucks, w.s.hist, tid);
      evs' := Polled(cfg, evs, tid, ch, rows, polls, lucks, 0);
      PollsKeepClock(cfg, w.s, tid, ch, rows, polls, lucks, 0);
    }

    /** Any list of calls, one after the other, with any repository call failing: users stay the replay of distinct paid
        orders, and finished orders stay as they were. */
    method ServeAll(calls: seq<Call>, now: int, ghost evs: seq<Event>) returns (later: int, ghost evs': seq<Event>)
      requires Stands(evs, now) && forall i :: 0 <= i < |calls| ==> Possible(cfg, calls[i])
      modifies db
      ensures Stands(evs', later) && now <= later
      ensures OnBooks(cfg, db.Rows()) && OnlyFromPending(old(db.Rows()), db.Rows())
    {
      later, evs' := now, evs;
      for i := 0 to |calls|
        invariant Stands(evs', later) && evs <= evs' && now <= later
      {
        later, evs' := ServeAfter(calls[i], later, evs');
      }
      RunOnBooks(cfg, evs');
      RunKeepsFinished(cfg, evs, evs');
    }

    method ServeAfter(c: Call, now: int, ghost evs: seq<Event>) returns (later: int, ghost evs': seq<Event>)
      requires Stands(evs, now) && Possible(cfg, c)
      modifies db
      ensures Stands(evs', later) && evs <= evs' && now <= later
    {
      later := now + c.wait;
      evs' := Waited(cfg, evs, c.wait);
      evs' := Serve(c.request, c.outs, later, evs');
    }
  }
}
