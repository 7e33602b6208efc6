/** Billing and payment handlers as threads over shared tables: every step is one repository call or one
    reading of the clock, any number of threads interleave, and every call may fail. */
module Machine {
  import opened Wrappers
  import opened Tables

  /** Deployment constants: the amount functions, the two time-to-live settings, the addresses each on-chain transaction
      pays to, and the users and coupons that exist. */
  datatype Config = Config(money: Money, orderTtl: int, payTtl: int, txTo: map<string, set<string>>,
                           users: map<nat, User>, coupons: map<string, Coupon>)

  /** A call takes effect and says so; does nothing and reports an error; or takes effect and reports an error. */
  datatype Outcome = Ok | Failed | Ambiguous

  predicate Took(out: Outcome) { out != Failed }

  /** Which payment and notify a HandlePaid call came through, if any. */
  datatype Via = Direct | Through(pid: nat, channel: Channel, n: Notify)

  datatype Notify = Notify(order: string, tradeNo: string, amount: string)

  datatype NewOrder = NewOrder(no: string, user: nat, key: string, item: Item, amount: string, discount: string,
                               coupon: string)

  /** What a payment provider answers: its trade number and the token amount. */
  datatype Mint = Mint(tradeNo: string, token: int)

  datatype Thread =
    // CreateOrder
    | CreateLookup(input: NewOrder)
    | CreateClock(input: NewOrder)
    | CreateInsert(input: NewOrder, expireAt: int)
    | CreateRefetch(input: NewOrder)
    | CreateDone(user: nat, key: string, result: Option<string>)
    // CreatePayment
    | PayAmount(no: string, channel: Channel, mint: Mint)
    | PayLookup(no: string, channel: Channel, mint: Mint, user: nat, amount: string)
    | PayClock(no: string, channel: Channel, mint: Mint, user: nat, amount: string, found: Option<nat>,
               foundExpireAt: int)
    | PayMint(no: string, channel: Channel, mint: Mint, user: nat, amount: string, expireAt: int)
    | PayInsert(row: Payment)
    | PayDone(payment: Option<nat>)
    // USDTReceived, and applyVerified from a notify, a reconcile poll or a transfer
    | TransferLookup(address: string, token: Option<int>, tx: string)
    | VerifyTrade(channel: Channel, n: Notify)
    | VerifyActive(channel: Channel, n: Notify)
    | VerifySetTrade(channel: Channel, n: Notify, pid: nat, pay: Payment)
    | VerifyMark(channel: Channel, n: Notify, pid: nat, pay: Payment)
    | VerifyUse(channel: Channel, n: Notify, pid: nat, pay: Payment)
    // HandlePaid
    | PaidLookup(no: string, tradeNo: string, via: Via)
    | PaidCheck(no: string, tradeNo: string, via: Via, order: Order)
    | PaidUpdate(no: string, tradeNo: string, via: Via, order: Order, paidAt: int)
    | PaidCoupon(no: string, order: Order)
    | PaidApply(no: string, order: Order)
    // CancelOrder
    | CancelLookup(no: string, user: nat)
    | CancelUpdate(no: string, order: Order)
    // the two sweeps
    | OrderSweepClock
    | OrderSweepRun(before: int)
    | PaymentSweepClock
    | PaymentSweepRun(before: int)
    | Finished(failed: bool)

  /** One application of an order's effects to its user. */
  datatype Effect = Effect(no: string, at: int, tid: nat)

  /** Auxiliary record of the run: addresses ever seeded, which thread leased an address, which payment carries it,
      which thread moved an order to paid, which orders bumped their coupon, which effects were applied. */
  datatype History = History(seeded: set<string>, holder: map<string, nat>, bound: map<string, nat>,
                             winner: map<string, nat>, counted: set<string>, effects: seq<Effect>)

  datatype Shared = Shared(now: int, db: Db, hist: History)

  // ----- CreateOrder -------------------------------------------------------

  function NewRow(input: NewOrder, expireAt: int): Order {
    Order(input.user, input.key, input.item, input.amount, input.discount, "0.00", input.coupon,
          Pending, expireAt, None, "")
  }

  function AdvanceCreate(cfg: Config, s: Shared, th: Thread, out: Outcome): (Shared, Thread)
    requires th.CreateLookup? || th.CreateClock? || th.CreateInsert? || th.CreateRefetch?
  {
    var input := th.input;
    match th
    case CreateLookup(_) =>
      var hit := if out == Ok then FindByIdempotency(s.db, input.user, input.key) else None;
      (s, if hit.Some? then CreateDone(input.user, input.key, hit) else CreateClock(input))
    case CreateClock(_) =>
      // a missing or inactive target, or a refused coupon, ends here
      (s, if out == Ok then CreateInsert(input, s.now + cfg.orderTtl) else CreateDone(input.user, input.key, None))
    case CreateInsert(_, expireAt) =>
      var db := InsertOrder(s.db, input.no, NewRow(input, expireAt));
      if db.None? || !Took(out) then (s, CreateRefetch(input))
      else (s.(db := db.value),
            if out == Ok then CreateDone(input.user, input.key, Some(input.no)) else CreateRefetch(input))
    case CreateRefetch(_) =>
      (s, CreateDone(input.user, input.key, if out == Ok then FindByIdempotency(s.db, input.user, input.key) else None))
  }

  // ----- CreatePayment -------------------------------------------------------

  /** Alipay, WeChat and USDT assign no trade number before the payment. */
  function TradeAtMint(ch: Channel, mint: Mint): string { if ch == Mock then mint.tradeNo else "" }

  predicate PayPhase(th: Thread) {
    th.PayAmount? || th.PayLookup? || th.PayClock? || th.PayMint? || th.PayInsert?
  }

  function AdvancePay(cfg: Config, s: Shared, tid: nat, th: Thread, out: Outcome): (Shared, Thread)
    requires PayPhase(th)
  {
    match th
    case PayAmount(no, ch, mint) =>
      (s, if out == Ok && no in s.db.orders
          then PayLookup(no, ch, mint, s.db.orders[no].user, Net(cfg.money, s.db.orders[no])) else PayDone(None))
    case PayLookup(no, ch, mint, user, amount) =>
      var hit := if out == Ok then FindActiveByOrder(s.db, no, ch, s.now) else None;
      (s, PayClock(no, ch, mint, user, amount, hit, if hit.Some? then s.db.payments[hit.value].expireAt else 0))
    case PayClock(no, ch, mint, user, amount, hit, foundExpireAt) =>
      (s, if hit.Some? && s.now < foundExpireAt then PayDone(hit)
          else PayMint(no, ch, mint, user, amount, s.now + cfg.payTtl))
    case PayMint(no, ch, mint, user, amount, expireAt) =>
      var row := Payment(no, user, ch, TradeAtMint(ch, mint), amount, mint.token, PayPending, "", expireAt);
      if ch == Usdt then
        var lease := NextFree(s.db);
        if lease.None? || !Took(out) then (s, PayDone(None))
        else
          var address := s.db.pool[lease.value].address;
          (s.(db := Allocate(s.db, lease.value, no), hist := s.hist.(holder := s.hist.holder[address := tid])),
           if out == Ok then PayInsert(row.(address := address)) else PayDone(None))
      else
        (s, if out == Ok then PayInsert(row) else PayDone(None))
    case PayInsert(row) =>
      var pid, db := |s.db.payments|, InsertPayment(s.db, row);
      if db.None? || !Took(out) then (s, PayDone(None))
      else (s.(db := db.value,
               hist := if row.channel == Usdt then s.hist.(bound := s.hist.bound[row.address := pid]) else s.hist),
            PayDone(if out == Ok then Some(pid) else None))
  }

  // ----- USDTReceived and applyVerified --------------------------------------

  predicate VerifyPhase(th: Thread) {
    th.TransferLookup? || th.VerifyTrade? || th.VerifyActive? || th.VerifySetTrade? || th.VerifyMark? || th.VerifyUse?
  }

  /** Already paid is a no-op; a differing amount is an error; otherwise mark it paid. */
  function AfterLookup(cfg: Config, ch: Channel, n: Notify, pid: nat, pay: Payment): Thread {
    if pay.status == PayPaid then Finished(false)
    else if !cfg.money.same(pay.amount, n.amount) then Finished(true)
    else VerifyMark(ch, n, pid, pay)
  }

  function AdvanceVerify(cfg: Config, s: Shared, th: Thread, out: Outcome): (Shared, Thread)
    requires VerifyPhase(th)
  {
    match th
    case TransferLookup(address, token, tx) =>
      var hit := if out == Ok then FindByAddress(s.db, Usdt, address, token) else None;
      (s, if hit.Some?
          then VerifyTrade(Usdt, Notify(s.db.payments[hit.value].order, tx, s.db.payments[hit.value].amount))
          else Finished(true))
    case VerifyTrade(ch, n) =>
      var hit := if out == Ok then FindByTradeNo(s.db, ch, n.tradeNo) else None;
      (s, if hit.Some? then AfterLookup(cfg, ch, n, hit.value, s.db.payments[hit.value])
          else if n.order == "" then Finished(true) else VerifyActive(ch, n))
    case VerifyActive(ch, n) =>
      var hit := if out == Ok then FindActiveByOrder(s.db, n.order, ch, s.now) else None;
      (s, if hit.Some? then VerifySetTrade(ch, n, hit.value, s.db.payments[hit.value]) else Finished(true))
    case VerifySetTrade(ch, n, pid, pay) =>
      (if Took(out) then s.(db := UpdateTradeNo(s.db, pid, n.tradeNo)) else s, AfterLookup(cfg, ch, n, pid, pay))
    case VerifyMark(ch, n, pid, pay) =>
      (if Took(out) then s.(db := MarkPaid(s.db, pid, n.tradeNo)) else s,
       if out != Ok || MarkRefused(s.db, pid, n.tradeNo) then Finished(true)
       else if pay.address != "" then VerifyUse(ch, n, pid, pay)
       else PaidLookup(pay.order, n.tradeNo, Through(pid, ch, n)))
    case VerifyUse(ch, n, pid, pay) =>
      (if Took(out) then s.(db := MarkUsed(s.db, pay.address)) else s,
       PaidLookup(pay.order, n.tradeNo, Through(pid, ch, n)))
  }

  // ----- HandlePaid, CancelOrder, sweeps ----------------------------------------

  predicate PaidPhase(th: Thread) {
    th.PaidLookup? || th.PaidCheck? || th.PaidUpdate? || th.PaidCoupon? || th.PaidApply?
  }

  predicate IsPayable(o: Order, now: int) { o.status == Pending && now < o.expireAt }

  function AdvancePaid(cfg: Config, s: Shared, tid: nat, th: Thread, out: Outcome): (Shared, Thread)
    requires PaidPhase(th)
  {
    match th
    case PaidLookup(no, tradeNo, via) =>
      (s, if out != Ok || no !in s.db.orders then Finished(true)
          else if s.db.orders[no].status == Paid then Finished(false)
          else PaidCheck(no, tradeNo, via, s.db.orders[no]))
    case PaidCheck(no, tradeNo, via, o) =>
      (s, if IsPayable(o, s.now) then PaidUpdate(no, tradeNo, via, o, s.now) else Finished(true))
    case PaidUpdate(no, tradeNo, via, o, paidAt) =>
      (if Took(out)
       then s.(db := UpdateOrder(s.db, no, Paid, Some(paidAt), Net(cfg.money, o), tradeNo),
               hist := s.hist.(winner := s.hist.winner[no := tid]))
       else s,
       if out != Ok then Finished(true) else if o.coupon != "" then PaidCoupon(no, o) else PaidApply(no, o))
    case PaidCoupon(no, o) =>
      (if Took(out)
       then s.(db := BumpCoupon(s.db, o.coupon), hist := s.hist.(counted := s.hist.counted + {no}))
       else s,
       PaidApply(no, o))
    case PaidApply(no, o) =>
      (if Took(out) && o.user in s.db.users
       then s.(db := ApplyEffects(cfg.money, s.db, o, s.now),
               hist := s.hist.(effects := s.hist.effects + [Effect(no, s.now, tid)]))
       else s,
       Finished(out != Ok || o.user !in s.db.users))
  }

  predicate OtherPhase(th: Thread) {
    th.CancelLookup? || th.CancelUpdate? || th.OrderSweepClock? || th.OrderSweepRun?
    || th.PaymentSweepClock? || th.PaymentSweepRun?
  }

  function AdvanceOther(s: Shared, th: Thread, out: Outcome): (Shared, Thread)
    requires OtherPhase(th)
  {
    match th
    case CancelLookup(no, user) =>
      (s, if out == Ok && no in s.db.orders && s.db.orders[no].user == user && s.db.orders[no].status == Pending
          then CancelUpdate(no, s.db.orders[no]) else Finished(true))
    case CancelUpdate(no, o) =>
      (if Took(out) then s.(db := UpdateOrder(s.db, no, Cancelled, None, o.paid, "")) else s, Finished(out != Ok))
    case OrderSweepClock => (s, OrderSweepRun(s.now))
    case OrderSweepRun(before) =>
      (if Took(out) then s.(db := ExpireOrders(s.db, before)) else s, Finished(out != Ok))
    case PaymentSweepClock => (s, PaymentSweepRun(s.now))
    case PaymentSweepRun(before) =>
      (if Took(out) then s.(db := ExpirePayments(s.db, before)) else s, Finished(out != Ok))
  }

  // ----- the machine ---------------------------------------------------------------

  predicate Ended(th: Thread) { th.CreateDone? || th.PayDone? || th.Finished? }

  function Advance(cfg: Config, s: Shared, tid: nat, th: Thread, out: Outcome): (Shared, Thread) {
    if th.CreateLookup? || th.CreateClock? || th.CreateInsert? || th.CreateRefetch? then AdvanceCreate(cfg, s, th, out)
    else if PayPhase(th) then AdvancePay(cfg, s, tid, th, out)
    else if VerifyPhase(th) then AdvanceVerify(cfg, s, th, out)
    else if PaidPhase(th) then AdvancePaid(cfg, s, tid, th, out)
    else if OtherPhase(th) then AdvanceOther(s, th, out)
    else (s, th)
  }

  datatype World = World(cfg: Config, s: Shared, threads: map<nat, Thread>)

  /** Time passes, the operator seeds addresses, a handler is called, or a handler takes one step. */
  datatype Event =
    Tick(d: nat) | AddAddresses(addrs: seq<string>) | Spawn(tid: nat, th: Thread) | Run(tid: nat, out: Outcome)

  /** The addresses a transaction pays to. */
  function PaysTo(cfg: Config, tx: string): set<string> { if tx in cfg.txTo then cfg.txTo[tx] else {} }

  /** Handlers as callers may start them: a keyed order for a known user, a payment, a transfer to an address its
      transaction pays to, a verified notify or reconcile on a channel other than USDT, a direct mock payment,
      a cancellation, or a sweep. */
  predicate CanStart(cfg: Config, th: Thread) {
    match th
    case CreateLookup(input) => input.key != "" && input.user in cfg.users
    case PayAmount(_, _, _) => true
    case TransferLookup(address, _, tx) => tx != "" && address in PaysTo(cfg, tx)
    case VerifyTrade(ch, _) => ch != Usdt
    case PaidLookup(_, _, via) => via == Direct
    case CancelLookup(_, _) => true
    case OrderSweepClock => true
    case PaymentSweepClock => true
    case _ => false
  }

  /** Events other than a handler's step. */
  function Quiet(w: World, e: Event): World
    requires !e.Run?
  {
    match e
    case Tick(d) => w.(s := w.s.(now := w.s.now + d))
    case AddAddresses(addrs) =>
      w.(s := w.s.(db := Seed(w.s.db, addrs), hist := w.s.hist.(seeded := w.s.hist.seeded + (set a | a in addrs))))
    case Spawn(tid, th) =>
      if tid !in w.threads && CanStart(w.cfg, th) then w.(threads := w.threads[tid := th]) else w
  }

  function Step(w: World, e: Event): World {
    if !e.Run? then Quiet(w, e)
    else if e.tid in w.threads then
      var (s, th) := Advance(w.cfg, w.s, e.tid, w.threads[e.tid], e.out);
      w.(s := s, threads := w.threads[e.tid := th])
    else w
  }

  function RunAll(w: World, evs: seq<Event>): World
    decreases |evs|
  {
    if evs == [] then w else RunAll(Step(w, evs[0]), evs[1..])
  }

  function Init(cfg: Config): World {
    World(cfg, Shared(0, Db(map[], map[], [], [], cfg.coupons, cfg.users), History({}, map[], map[], map[], {}, [])),
        map[])
  }

  lemma {:induction false} RunAllAppend(w: World, a: seq<Event>, b: seq<Event>)
    ensures RunAll(w, a + b) == RunAll(RunAll(w, a), b)
    decreases |a|
  {
    hide Step;
    if a == [] {
      assert a + b == b;
    } else {
      assert (a + b)[0] == a[0] && (a + b)[1..] == a[1..] + b;
      RunAllAppend(Step(w, a[0]), a[1..], b);
    }
  }

  lemma {:induction false} RunKeepsConfig(w: World, evs: seq<Event>)
    ensures RunAll(w, evs).cfg == w.cfg
    decreases |evs|
  {
    hide Advance;
    if evs != [] { RunKeepsConfig(Step(w, evs[0]), evs[1..]); }
  }

  /** Extend a run by one event. */
  lemma Then(w0: World, evs: seq<Event>, w: World, e: Event) returns (evs': seq<Event>, w': World)
    requires w == RunAll(w0, evs)
    ensures w' == Step(w, e) == RunAll(w0, evs') && evs' == evs + [e]
  {
    hide Advance;
    evs', w' := evs + [e], Step(w, e);
    RunAllAppend(w0, evs, [e]);
    assert [e][1..] == [];
  }

  /** Extend a run by one successful step of a thread. */
  lemma Turn(w0: World, evs: seq<Event>, w: World, tid: nat, s: Shared, th: Thread)
    returns (evs': seq<Event>, w': World)
    requires w == RunAll(w0, evs) && tid in w.threads
    requires Advance(w.cfg, w.s, tid, w.threads[tid], Ok) == (s, th)
    ensures w' == World(w.cfg, s, w.threads[tid := th]) && w' == RunAll(w0, evs')
    ensures evs' == evs + [Run(tid, Ok)]
  {
    hide Advance;
    evs', w' := Then(w0, evs, w, Run(tid, Ok));
  }

  /** Extend a run by the start of a handler. */
  lemma Start(w0: World, evs: seq<Event>, w: World, tid: nat, th: Thread)
    returns (evs': seq<Event>, w': World)
    requires w == RunAll(w0, evs) && tid !in w.threads && CanStart(w.cfg, th)
    ensures w' == World(w.cfg, w.s, w.threads[tid := th]) && w' == RunAll(w0, evs')
    ensures evs' == evs + [Spawn(tid, th)]
  {
    hide Advance;
    evs', w' := Then(w0, evs, w, Spawn(tid, th));
  }

  /** A thread number above all in use. */
  lemma {:induction false} Above(keys: set<nat>) returns (t: nat)
    ensures forall k :: k in keys ==> k < t
    decreases |keys|
  {
    if keys == {} {
      t := 0;
    } else {
      var k :| k in keys;
      t := Above(keys - {k});
      t := if t <= k then k + 1 else t;
      assert forall j :: j in keys ==> j == k || j in keys - {k};
    }
  }
}
