/** A thread of the machine running alone: what one handler, from its first call to its last, does to the rows. */
module Alone {
  import opened Wrappers
  import opened Tables
  import opened Machine
  import opened Growth

  // ----- a thread running alone -------------------------------------------------

  /** One thread, one outcome per step. */
  function Solo(cfg: Config, s: Shared, tid: nat, th: Thread, outs: seq<Outcome>): (Shared, Thread)
    decreases |outs|
  {
    if outs == [] then (s, th)
    else
      var (s', th') := Advance(cfg, s, tid, th, outs[0]);
      Solo(cfg, s', tid, th', outs[1..])
  }

  function Turns(tid: nat, outs: seq<Outcome>): seq<Event> {
    seq(|outs|, i requires 0 <= i < |outs| => Run(tid, outs[i]))
  }

  /** A solo run is a run of the machine, so everything proved of all runs holds of the services. */
  lemma {:induction false} SoloIsRun(w: World, tid: nat, outs: seq<Outcome>)
    requires tid in w.threads
    ensures var (s, th) := Solo(w.cfg, w.s, tid, w.threads[tid], outs);
            RunAll(w, Turns(tid, outs)) == World(w.cfg, s, w.threads[tid := th])
    decreases |outs|
  {
    hide Advance;
    if outs == [] {
      assert w.threads[tid := w.threads[tid]] == w.threads;
    } else {
      var evs := Turns(tid, outs);
      assert evs[0] == Run(tid, outs[0]) && evs[1..] == Turns(tid, outs[1..]);
      var w' := Step(w, evs[0]);
      SoloIsRun(w', tid, outs[1..]);
      var th := Solo(w'.cfg, w'.s, tid, w'.threads[tid], outs[1..]).1;
      assert w'.threads[tid := th] == w.threads[tid := th];
    }
  }

  /** The first step of a solo run, and all of it when that step ends the thread. */
  lemma SoloStep(cfg: Config, s: Shared, tid: nat, th: Thread, outs: seq<Outcome>)
    requires outs != []
    ensures var (s1, th1) := Advance(cfg, s, tid, th, outs[0]);
            && Solo(cfg, s, tid, th, outs) == Solo(cfg, s1, tid, th1, outs[1..])
            && (Ended(th1) ==> Solo(cfg, s, tid, th, outs) == (s1, th1))
  {
    hide Advance;
    var (s1, th1) := Advance(cfg, s, tid, th, outs[0]);
    if Ended(th1) { SoloAfterEnd(cfg, s1, tid, th1, outs[1..]); }
  }

  /** The status write and the coupon's counter. */
  lemma SettleSteps(cfg: Config, s: Shared, tid: nat, th: Thread, outs: seq<Outcome>)
    requires |outs| >= 3 && th.PaidUpdate?
    ensures var r := Solo(cfg, s, tid, th, outs); var no, o := th.no, th.order;
            var s1 := AdvancePaid(cfg, s, tid, th, outs[0]).0;
            var s2 := AdvancePaid(cfg, s1, tid, PaidCoupon(no, o), outs[1]).0;
            if outs[0] != Ok then r == (s1, Finished(true))
            else if o.coupon != "" then r == Solo(cfg, s2, tid, PaidApply(no, o), outs[2..])
            else r == Solo(cfg, s1, tid, PaidApply(no, o), outs[1..])
  {
    hide AdvanceCreate, AdvancePay, AdvanceVerify, AdvanceOther, UpdateOrder, BumpCoupon, ApplyEffects, Net, Solo;
    SoloStep(cfg, s, tid, th, outs);
    var (s1, th1) := Advance(cfg, s, tid, th, outs[0]);
    SoloStep(cfg, s1, tid, th1, outs[1..]);
    assert outs[1..][1..] == outs[2..];
  }

  /** Marking the payment paid and its address used. */
  lemma ConfirmSteps(cfg: Config, s: Shared, tid: nat, th: Thread, outs: seq<Outcome>)
    requires |outs| >= 2 && th.VerifyMark?
    ensures var r := Solo(cfg, s, tid, th, outs);
            var next := PaidLookup(th.pay.order, th.n.tradeNo, Through(th.pid, th.channel, th.n));
            var s1 := AdvanceVerify(cfg, s, th, outs[0]).0;
            var s2 := AdvanceVerify(cfg, s1, VerifyUse(th.channel, th.n, th.pid, th.pay), outs[1]).0;
            if outs[0] != Ok || MarkRefused(s.db, th.pid, th.n.tradeNo) then r == (s1, Finished(true))
            else if th.pay.address != "" then r == Solo(cfg, s2, tid, next, outs[2..])
            else r == Solo(cfg, s1, tid, next, outs[1..])
  {
    hide AdvanceCreate, AdvancePay, AdvancePaid, AdvanceOther, MarkPaid, MarkUsed, Solo;
    SoloStep(cfg, s, tid, th, outs);
    var (s1, th1) := Advance(cfg, s, tid, th, outs[0]);
    SoloStep(cfg, s1, tid, th1, outs[1..]);
    assert outs[1..][1..] == outs[2..];
  }

  /** The fallback's lookup and the noted trade number. */
  lemma ActiveSteps(cfg: Config, s: Shared, tid: nat, ch: Channel, n: Notify, outs: seq<Outcome>)
    requires |outs| >= 2
    ensures var r := Solo(cfg, s, tid, VerifyActive(ch, n), outs);
            var hit := if outs[0] == Ok then FindActiveByOrder(s.db, n.order, ch, s.now) else None;
            if hit.None? then r == (s, Finished(true))
            else
              var p := s.db.payments[hit.value];
              var s1 := AdvanceVerify(cfg, s, VerifySetTrade(ch, n, hit.value, p), outs[1]).0;
              r == Solo(cfg, s1, tid, AfterLookup(cfg, ch, n, hit.value, p), outs[2..])
  {
    hide AdvanceCreate, AdvancePay, AdvancePaid, AdvanceOther, FindActiveByOrder, UpdateTradeNo, AfterLookup, Solo;
    var th := VerifyActive(ch, n);
    SoloStep(cfg, s, tid, th, outs);
    var (s1, th1) := Advance(cfg, s, tid, th, outs[0]);
    SoloStep(cfg, s1, tid, th1, outs[1..]);
    assert outs[1..][1..] == outs[2..];
  }

  /** The order's amount, the active attempt, and the new deadline. */
  lemma PaySteps(cfg: Config, s: Shared, tid: nat, no: string, ch: Channel, mint: Mint, outs: seq<Outcome>)
    requires |outs| >= 3
    ensures var r := Solo(cfg, s, tid, PayAmount(no, ch, mint), outs);
            if outs[0] != Ok || no !in s.db.orders then r == (s, PayDone(None))
            else
              var user, amount := s.db.orders[no].user, Net(cfg.money, s.db.orders[no]);
              var found := if outs[1] == Ok then FindActiveByOrder(s.db, no, ch, s.now) else None;
              if found.Some? && s.now < s.db.payments[found.value].expireAt then r == (s, PayDone(found))
              else r == Solo(cfg, s, tid, PayMint(no, ch, mint, user, amount, s.now + cfg.payTtl), outs[3..])
  {
    hide AdvanceCreate, AdvanceVerify, AdvancePaid, AdvanceOther, FindActiveByOrder, Net, Solo;
    var th := PayAmount(no, ch, mint);
    SoloStep(cfg, s, tid, th, outs);
    var (s1, th1) := Advance(cfg, s, tid, th, outs[0]);
    SoloStep(cfg, s1, tid, th1, outs[1..]);
    var (s2, th2) := Advance(cfg, s1, tid, th1, outs[1]);
    assert outs[1..][1..] == outs[2..];
    SoloStep(cfg, s2, tid, th2, outs[2..]);
    assert outs[2..][1..] == outs[3..];
  }

  lemma {:induction false} SoloAfterEnd(cfg: Config, s: Shared, tid: nat, th: Thread, outs: seq<Outcome>)
    requires Ended(th)
    ensures Solo(cfg, s, tid, th, outs) == (s, th)
    decreases |outs|
  {
    hide AdvanceCreate, AdvancePay, AdvanceVerify, AdvancePaid, AdvanceOther;
    if outs != [] { SoloAfterEnd(cfg, s, tid, th, outs[1..]); }
  }

  /** Within a solo run the clock stands. */
  lemma {:induction false} SoloClock(cfg: Config, s: Shared, tid: nat, th: Thread, outs: seq<Outcome>)
    ensures Solo(cfg, s, tid, th, outs).0.now == s.now
    decreases |outs|
  {
    hide Advance;
    if outs != [] {
      AdvanceClock(cfg, s, tid, th, outs[0]);
      var (s', th') := Advance(cfg, s, tid, th, outs[0]);
      SoloClock(cfg, s', tid, th', outs[1..]);
    }
  }

  // ----- CreateOrder alone ---------------------------------------------------------------------

  /** One new order with everything the request asked for, and nothing else. */
  predicate OrderPlaced(a: Db, b: Db, input: NewOrder, expireAt: int) {
    && input.no !in a.orders && (input.user, input.key) !in a.idem && input.no in b.orders
    && (var o := b.orders[input.no];
        && o.user == input.user && o.key == input.key && o.item == input.item && o.amount == input.amount
        && o.discount == input.discount && o.coupon == input.coupon && o.paid == "0.00" && o.channelNo == ""
        && o.status == Pending && o.paidAt == None && o.expireAt == expireAt
        && b == a.(orders := a.orders[input.no := o], idem := a.idem[(input.user, input.key) := input.no]))
  }

  /** An order known under the key is given back and nothing changes. Otherwise nothing changes or the requested
      order is placed: it is if the catalogue and the insert work, and then its number is the answer. */
  predicate CreateServed(cfg: Config, a: Db, b: Db, now: int, input: NewOrder, outs: seq<Outcome>,
                         result: Option<string>)
    requires |outs| >= 4
  {
    var known, free := (input.user, input.key) in a.idem, input.no !in a.orders;
    && (known && outs[0] == Ok ==> b == a && result == Some(a.idem[(input.user, input.key)]))
    && (b == a || OrderPlaced(a, b, input, now + cfg.orderTtl))
    && (!known && free && outs[1] == Ok && outs[2] != Failed ==> b != a)
    && (!known && free && outs[1] == Ok && outs[2] == Ok ==> result == Some(input.no))
    && (!known && free && outs[1] == Ok && outs[2] == Ambiguous && outs[3] == Ok ==> result == Some(input.no))
    && (known && outs[1] == Ok && outs[3] == Ok ==> b == a && result == Some(a.idem[(input.user, input.key)]))
    && (!known && result.Some? ==> result.value == input.no && b != a)
    && (!known && outs[1] != Ok ==> result == None)
  }

  lemma CreateAlone(cfg: Config, s: Shared, tid: nat, input: NewOrder, outs: seq<Outcome>)
    requires |outs| >= 4
    ensures var (s', th) := Solo(cfg, s, tid, CreateLookup(input), outs);
            th.CreateDone? && CreateServed(cfg, s.db, s'.db, s.now, input, outs, th.result)
  {
    hide AdvancePay, AdvanceVerify, AdvancePaid, AdvanceOther, Solo;
    var th := CreateLookup(input);
    SoloStep(cfg, s, tid, th, outs);
    var (s1, th1) := Advance(cfg, s, tid, th, outs[0]);
    if th1.CreateClock? {
      SoloStep(cfg, s1, tid, th1, outs[1..]);
      assert outs[1..][1..] == outs[2..];
      var (s2, th2) := Advance(cfg, s1, tid, th1, outs[1]);
      if th2.CreateInsert? { InsertAlone(cfg, s2, tid, input, th2.expireAt, outs[2..]); }
    }
  }

  lemma InsertAlone(cfg: Config, s: Shared, tid: nat, input: NewOrder, expireAt: int, outs: seq<Outcome>)
    requires |outs| >= 2
    ensures var (s', th) := Solo(cfg, s, tid, CreateInsert(input, expireAt), outs);
            var known, free := (input.user, input.key) in s.db.idem, input.no !in s.db.orders;
            && th.CreateDone?
            && (s'.db == s.db || OrderPlaced(s.db, s'.db, input, expireAt))
            && (!known && free && outs[0] != Failed ==> s'.db != s.db)
            && (!known && free && outs[0] == Ok ==> th.result == Some(input.no))
            && (!known && free && outs[0] == Ambiguous && outs[1] == Ok ==> th.result == Some(input.no))
            && (known && outs[1] == Ok ==>
                  s'.db == s.db && th.result == Some(s.db.idem[(input.user, input.key)]))
            && (!known && th.result.Some? ==> th.result.value == input.no && s'.db != s.db)
  {
    hide AdvancePay, AdvanceVerify, AdvancePaid, AdvanceOther, Solo;
    var th := CreateInsert(input, expireAt);
    SoloStep(cfg, s, tid, th, outs);
    var (s1, th1) := Advance(cfg, s, tid, th, outs[0]);
    if s1.db != s.db { assert OrderPlaced(s.db, s1.db, input, expireAt); }
    if th1.CreateRefetch? {
      SoloStep(cfg, s1, tid, th1, outs[1..]);
      assert outs[1..][1..] == outs[2..];
    }
  }

  // ----- HandlePaid alone -----------------------------------------------------------------------

  /** A user before and after an item, in arithmetic: a plan replaces plan, quota, devices and usage, and stacks its
      days only on the same plan; a pack adds bytes, and days when it has an expiry of its own; a top-up adds cents. */
  predicate ItemGiven(u: User, v: User, item: Item, cents: int, now: int) {
    var later := if u.planExpire.Some? && u.planExpire.value > now then u.planExpire.value else now;
    match item
    case PlanItem(plan, days, gb, devices) =>
      && v.plan == Some(plan) && v.devices == devices && v.used == 0 && v.total == 1073741824 * gb
      && v.planExpire == Some(86400 * days + if u.plan == Some(plan) then later else now) && v.balance == u.balance
    case PackItem(gb, days, mode) =>
      && v.plan == u.plan && v.devices == u.devices && v.used == u.used && v.total == u.total + 1073741824 * gb
      && v.planExpire == (if mode == 2 then Some(86400 * days + later) else u.planExpire) && v.balance == u.balance
    case TopupItem => v == u.(balance := u.balance + cents)
  }

  lemma AppliedGives(u: User, item: Item, cents: int, now: int)
    ensures ItemGiven(u, Applied(u, item, cents, now), item, cents, now)
  {
  }

  /** Only this coupon's counter moves, by one, unless its quota is used up. */
  predicate CouponCounted(a: map<string, Coupon>, b: map<string, Coupon>, code: string) {
    && b.Keys == a.Keys
    && (forall c :: c in a ==> b[c].quota == a[c].quota)
    && (forall c :: c in a && (c != code || code == "" || (a[c].quota != 0 && a[c].used >= a[c].quota)) ==>
          b[c].used == a[c].used)
    && (code in a && code != "" && (a[code].quota == 0 || a[code].used < a[code].quota) ==>
          b[code].used == a[code].used + 1)
  }

  /** The order is paid now with its payable amount under this trade number, its coupon counted, its item given to its
      user, and nothing else changed among orders, coupons and users. */
  predicate OrderSettled(m: Money, a: Db, b: Db, no: string, tradeNo: string, now: int) {
    && no in a.orders && no in b.orders
    && var o := a.orders[no];
       var net := m.net(o.amount, o.discount);
       && b.orders == a.orders[no := o.(status := Paid, paidAt := Some(now), paid := net,
            channelNo := if tradeNo != "" then tradeNo else o.channelNo)]
       && b.idem == a.idem && CouponCounted(a.coupons, b.coupons, o.coupon)
       && o.user in a.users && o.user in b.users
       && b.users == a.users[o.user := b.users[o.user]]
       && ItemGiven(a.users[o.user], b.users[o.user], o.item, m.cents(net), now)
  }

  lemma AllOk(outs: seq<Outcome>, k: nat)
    requires k <= |outs| && AllWork(outs)
    ensures AllWork(outs[k..])
  {
  }

  lemma CouponCounts(db: Db, code: string)
    ensures code != "" ==> CouponCounted(db.coupons, BumpCoupon(db, code).coupons, code)
    ensures CouponCounted(db.coupons, db.coupons, "")
    ensures BumpCoupon(db, code) == db.(coupons := BumpCoupon(db, code).coupons)
  {
  }

  predicate AllWork(outs: seq<Outcome>) { forall i :: 0 <= i < |outs| ==> outs[i] == Ok }

  /** An order of a known user that can still be paid. */
  predicate Ready(a: Db, no: string, now: int) {
    no in a.orders && a.orders[no].status == Pending && now < a.orders[no].expireAt && a.orders[no].user in a.users
  }

  /** An order already paid is a success that changes nothing; one that cannot be read, or is neither paid nor
      payable, is a failure that changes nothing; and when every call works a payable order is settled. */
  predicate PaidServed(m: Money, a: Db, b: Db, now: int, no: string, tradeNo: string, outs: seq<Outcome>, failed: bool)
    requires outs != []
  {
    var found := outs[0] == Ok && no in a.orders;
    && (found && a.orders[no].status == Paid ==> b == a && !failed)
    && (!found ==> b == a && failed)
    && (found && a.orders[no].status != Paid && (a.orders[no].status != Pending || now >= a.orders[no].expireAt) ==>
          b == a && failed)
    && (AllWork(outs) && Ready(a, no, now) ==>
          !failed && OrderSettled(m, a, b, no, tradeNo, now) && b.payments == a.payments && b.pool == a.pool)
  }

  lemma PaidAlone(cfg: Config, s: Shared, tid: nat, no: string, tradeNo: string, via: Via, outs: seq<Outcome>)
    requires |outs| >= 5
    ensures var (s', th) := Solo(cfg, s, tid, PaidLookup(no, tradeNo, via), outs);
            (th == Finished(true) || th == Finished(false)) &&
            PaidServed(cfg.money, s.db, s'.db, s.now, no, tradeNo, outs, th.failed)
  {
    hide AdvanceCreate, AdvancePay, AdvanceVerify, AdvanceOther, UpdateOrder, BumpCoupon, ApplyEffects, Solo;
    hide OrderSettled, Net;
    var th := PaidLookup(no, tradeNo, via);
    SoloStep(cfg, s, tid, th, outs);
    var (s1, th1) := Advance(cfg, s, tid, th, outs[0]);
    if th1.PaidCheck? {
      SoloStep(cfg, s1, tid, th1, outs[1..]);
      assert outs[1..][1..] == outs[2..];
      var (s2, th2) := Advance(cfg, s1, tid, th1, outs[1]);
      if th2.PaidUpdate? {
        PaidEnds(cfg, s2, tid, th2, outs[2..]);
        if AllWork(outs) && s.db.orders[no].user in s.db.users {
          AllOk(outs, 2);
          SettleAlone(cfg, s2, tid, th2, outs[2..]);
        }
      }
    }
  }

  lemma ApplyAlone(cfg: Config, s: Shared, tid: nat, no: string, o: Order, outs: seq<Outcome>)
    requires outs != [] && outs[0] == Ok && o.user in s.db.users
    ensures var (s', th) := Solo(cfg, s, tid, PaidApply(no, o), outs);
            && th == Finished(false) && s'.db == s.db.(users := s'.db.users)
            && o.user in s'.db.users && s'.db.users == s.db.users[o.user := s'.db.users[o.user]]
            && ItemGiven(s.db.users[o.user], s'.db.users[o.user], o.item,
                         cfg.money.cents(cfg.money.net(o.amount, o.discount)), s.now)
  {
    AppliedGives(s.db.users[o.user], o.item, cfg.money.cents(Net(cfg.money, o)), s.now);
    hide AdvanceCreate, AdvancePay, AdvanceVerify, AdvanceOther, Solo, Applied, ItemGiven;
    SoloStep(cfg, s, tid, PaidApply(no, o), outs);
  }

  lemma ApplyEnds(cfg: Config, s: Shared, tid: nat, no: string, o: Order, outs: seq<Outcome>)
    requires outs != []
    ensures Solo(cfg, s, tid, PaidApply(no, o), outs).1.Finished?
  {
    hide AdvanceCreate, AdvancePay, AdvanceVerify, AdvanceOther, Solo, ApplyEffects;
    SoloStep(cfg, s, tid, PaidApply(no, o), outs);
  }

  lemma PaidEnds(cfg: Config, s: Shared, tid: nat, th: Thread, outs: seq<Outcome>)
    requires |outs| >= 3 && th.PaidUpdate?
    ensures Solo(cfg, s, tid, th, outs).1.Finished?
  {
    SettleSteps(cfg, s, tid, th, outs);
    hide Advance, AdvancePaid, Solo;
    var s1 := AdvancePaid(cfg, s, tid, th, outs[0]).0;
    ApplyEnds(cfg, s1, tid, th.no, th.order, outs[1..]);
    ApplyEnds(cfg, AdvancePaid(cfg, s1, tid, PaidCoupon(th.no, th.order), outs[1]).0, tid, th.no, th.order, outs[2..]);
  }

  lemma SettleAlone(cfg: Config, s: Shared, tid: nat, th: Thread, outs: seq<Outcome>)
    requires |outs| >= 3 && AllWork(outs) && th.PaidUpdate? && th.paidAt == s.now
    requires th.no in s.db.orders && s.db.orders[th.no] == th.order && th.order.user in s.db.users
    ensures var (s', th') := Solo(cfg, s, tid, th, outs);
            && th' == Finished(false) && OrderSettled(cfg.money, s.db, s'.db, th.no, th.tradeNo, s.now)
            && s'.db.payments == s.db.payments && s'.db.pool == s.db.pool
  {
    SettleSteps(cfg, s, tid, th, outs);
    hide Advance, Solo;
    var no, o := th.no, th.order;
    var s1 := AdvancePaid(cfg, s, tid, th, outs[0]).0;
    CouponCounts(s1.db, o.coupon);
    hide BumpCoupon, CouponCounted, ItemGiven;
    if o.coupon != "" {
      var s2 := AdvancePaid(cfg, s1, tid, PaidCoupon(no, o), outs[1]).0;
      ApplyAlone(cfg, s2, tid, no, o, outs[2..]);
    } else {
      ApplyAlone(cfg, s1, tid, no, o, outs[1..]);
    }
  }

  // ----- CreatePayment alone ------------------------------------------------------------------------

  /** A pending attempt of this order and channel whose time is not up. */
  predicate Live(p: Payment, no: string, ch: Channel, now: int) {
    p.order == no && p.channel == ch && p.status == PayPending && now < p.expireAt
  }

  predicate NewestLive(ps: seq<Payment>, i: nat, no: string, ch: Channel, now: int)
    requires i < |ps|
  {
    Live(ps[i], no, ch, now) && forall j :: i < j < |ps| ==> !Live(ps[j], no, ch, now)
  }

  /** The first free address is leased to the order; no other lease changes. */
  predicate FirstLeased(a: seq<Lease>, b: seq<Lease>, address: string, no: string) {
    exists j :: 0 <= j < |a| && a[j].status == Free && a[j].address == address &&
      (forall i :: 0 <= i < j ==> a[i].status != Free) && b == a[j := Lease(address, Allocated, no)]
  }

  /** One more payment, pending: of this order, its owner and its payable amount, on this channel, with the provider's
      tokens and a deadline one lifetime ahead; a USDT one has the first free address, leased to the order. */
  predicate AttemptStored(cfg: Config, a: Db, b: Db, no: string, ch: Channel, mint: Mint, now: int) {
    && |b.payments| == |a.payments| + 1 && b.payments[..|a.payments|] == a.payments && no in a.orders
    && var p := b.payments[|a.payments|];
       && p.order == no && p.channel == ch && p.user == a.orders[no].user && p.token == mint.token
       && p.amount == cfg.money.net(a.orders[no].amount, a.orders[no].discount) && p.status == PayPending
       && p.expireAt == now + cfg.payTtl && p.tradeNo == (if ch == Mock then mint.tradeNo else "")
       && (ch == Usdt ==> FirstLeased(a.pool, b.pool, p.address, no))
       && (ch != Usdt ==> p.address == "" && b.pool == a.pool)
       && b == a.(payments := b.payments, pool := b.pool)
  }

  lemma MintStep(cfg: Config, s: Shared, tid: nat, th: Thread, out: Outcome)
    requires th.PayMint?
    ensures var (s1, th1) := Advance(cfg, s, tid, th, out);
            && s1.db == s.db.(pool := s1.db.pool)
            && (th1.PayInsert? || th1 == PayDone(None))
            && (th1.PayInsert? ==> var row := th1.row;
                  && row == Payment(th.no, th.user, th.channel, TradeAtMint(th.channel, th.mint), th.amount,
                                    th.mint.token, PayPending, row.address, th.expireAt)
                  && if th.channel == Usdt then FirstLeased(s.db.pool, s1.db.pool, row.address, th.no)
                     else row.address == "" && s1.db.pool == s.db.pool)
  {
    hide AdvanceCreate, AdvanceVerify, AdvancePaid, AdvanceOther;
    LeasesFirst(s.db, th.no);
    hide NextFree, FirstLeased;
  }

  lemma StoreStep(cfg: Config, s: Shared, tid: nat, th: Thread, out: Outcome)
    requires th.PayInsert?
    ensures var (s1, th1) := Advance(cfg, s, tid, th, out);
            || (s1 == s && th1 == PayDone(None))
            || (s1.db == s.db.(payments := s.db.payments + [th.row]) &&
                th1 == PayDone(if out == Ok then Some(|s.db.payments|) else None))
  {
    hide AdvanceCreate, AdvanceVerify, AdvancePaid, AdvanceOther, TradeTaken;
  }

  lemma MintAlone(cfg: Config, s: Shared, tid: nat, th: Thread, outs: seq<Outcome>)
    requires |outs| >= 2 && th.PayMint? && th.no in s.db.orders && th.user == s.db.orders[th.no].user
    requires th.amount == Net(cfg.money, s.db.orders[th.no]) && th.expireAt == s.now + cfg.payTtl
    ensures var (s', th') := Solo(cfg, s, tid, th, outs); var id := |s.db.payments|;
            && th'.PayDone? && (th'.payment.Some? ==> th'.payment == Some(id) && |s'.db.payments| > id)
            && (|s'.db.payments| > id ==> AttemptStored(cfg, s.db, s'.db, th.no, th.channel, th.mint, s.now))
            && (|s'.db.payments| <= id ==> s'.db.payments == s.db.payments)
            && s'.db == s.db.(payments := s'.db.payments, pool := s'.db.pool)
  {
    hide Advance, Solo, AttemptStored, FirstLeased;
    SoloStep(cfg, s, tid, th, outs);
    MintStep(cfg, s, tid, th, outs[0]);
    var (s1, th1) := Advance(cfg, s, tid, th, outs[0]);
    if th1.PayInsert? {
      SoloStep(cfg, s1, tid, th1, outs[1..]);
      StoreStep(cfg, s1, tid, th1, outs[1]);
      StoredIs(cfg, s.db, s1.db.pool, th1.row, th.no, th.channel, th.mint, s.now);
    }
  }

  lemma LeasesFirst(db: Db, no: string)
    ensures NextFree(db).Some? ==>
              FirstLeased(db.pool, Allocate(db, NextFree(db).value, no).pool, db.pool[NextFree(db).value].address, no)
  {
  }

  lemma StoredIs(cfg: Config, a: Db, pool: seq<Lease>, row: Payment, no: string, ch: Channel, mint: Mint, now: int)
    requires no in a.orders
    requires row == Payment(no, a.orders[no].user, ch, TradeAtMint(ch, mint), Net(cfg.money, a.orders[no]), mint.token,
              PayPending, row.address, now + cfg.payTtl)
    requires if ch == Usdt then FirstLeased(a.pool, pool, row.address, no) else row.address == "" && pool == a.pool
    ensures AttemptStored(cfg, a, a.(payments := a.payments + [row], pool := pool), no, ch, mint, now)
  {
    hide FirstLeased;
    assert (a.payments + [row])[..|a.payments|] == a.payments;
  }

  /** An order that cannot be read gives nothing; the newest live attempt, when the lookup works, is given back and
      nothing changes; otherwise one attempt is stored, and its position is the answer if there is one, or none is. */
  predicate PayServed(cfg: Config, a: Db, b: Db, now: int, no: string, ch: Channel, mint: Mint, outs: seq<Outcome>,
                      result: Option<nat>)
    requires |outs| >= 5
  {
    var ps, id := a.payments, |a.payments|;
    && (outs[0] != Ok || no !in a.orders ==> b == a && result == None)
    && (forall i | 0 <= i < id && NewestLive(ps, i, no, ch, now) ::
          outs[0] == outs[1] == Ok && no in a.orders ==> b == a && result == Some(i))
    && (result.Some? && b.payments == ps ==> result.value < id && Live(ps[result.value], no, ch, now))
    && (b.payments == ps || AttemptStored(cfg, a, b, no, ch, mint, now))
    && (b.payments != ps && result.Some? ==> result == Some(id))
    && b == a.(payments := b.payments, pool := b.pool)
  }

  lemma PayAlone(cfg: Config, s: Shared, tid: nat, no: string, ch: Channel, mint: Mint, outs: seq<Outcome>)
    requires |outs| >= 5
    ensures var (s', th) := Solo(cfg, s, tid, PayAmount(no, ch, mint), outs);
            th.PayDone? && PayServed(cfg, s.db, s'.db, s.now, no, ch, mint, outs, th.payment)
  {
    PaySteps(cfg, s, tid, no, ch, mint, outs);
    hide Advance, Solo, Net, AttemptStored;
    if outs[0] == Ok && no in s.db.orders {
      var found := if outs[1] == Ok then FindActiveByOrder(s.db, no, ch, s.now) else None;
      if found.Some? {
        assert s.now < s.db.payments[found.value].expireAt;
      } else {
        var th := PayMint(no, ch, mint, s.db.orders[no].user, Net(cfg.money, s.db.orders[no]), s.now + cfg.payTtl);
        MintAlone(cfg, s, tid, th, outs[3..]);
      }
    }
  }

  // ----- a verified payment alone ----------------------------------------------------------------------

  predicate Bears(p: Payment, ch: Channel, tradeNo: string) { p.channel == ch && p.tradeNo == tradeNo }

  /** The only payment that bears the trade number. */
  predicate OnlyBearer(ps: seq<Payment>, i: nat, ch: Channel, tradeNo: string)
    requires i < |ps|
  {
    tradeNo != "" && Bears(ps[i], ch, tradeNo) && forall j :: 0 <= j < |ps| && j != i ==> !Bears(ps[j], ch, tradeNo)
  }

  predicate Unborne(ps: seq<Payment>, ch: Channel, tradeNo: string) {
    forall j :: 0 <= j < |ps| ==> !Bears(ps[j], ch, tradeNo)
  }

  /** The payment a verified notify is for: the one that bears its trade number, or, when none does, the newest live
      attempt of the order it names. */
  predicate IsFor(a: Db, ch: Channel, n: Notify, now: int, i: nat)
    requires i < |a.payments|
  {
    OnlyBearer(a.payments, i, ch, n.tradeNo) ||
    (Unborne(a.payments, ch, n.tradeNo) && n.order != "" && NewestLive(a.payments, i, n.order, ch, now))
  }

  /** Leases of this address become used; no other changes. */
  predicate AddressRetired(a: seq<Lease>, b: seq<Lease>, address: string) {
    |b| == |a| && forall i :: 0 <= i < |a| ==>
      b[i] == if address != "" && a[i].address == address then a[i].(status := Used) else a[i]
  }

  lemma MarkAlone(cfg: Config, s: Shared, tid: nat, th: Thread, outs: seq<Outcome>)
    requires |outs| >= 7 && AllWork(outs) && th.VerifyMark? && Ready(s.db, th.pay.order, s.now)
    requires th.pid < |s.db.payments| && s.db.payments[th.pid].status == PayPending
    requires !TradeTaken(s.db, th.pid, s.db.payments[th.pid].channel, th.n.tradeNo)
    ensures var (s', th') := Solo(cfg, s, tid, th, outs);
            && th' == Finished(false)
            && s'.db.payments == s.db.payments[th.pid := s.db.payments[th.pid].(status := PayPaid,
                 tradeNo := th.n.tradeNo)]
            && AddressRetired(s.db.pool, s'.db.pool, th.pay.address)
            && OrderSettled(cfg.money, s.db, s'.db, th.pay.order, th.n.tradeNo, s.now)
  {
    ConfirmSteps(cfg, s, tid, th, outs);
    MarksRow(cfg, s, th);
    assert !MarkRefused(s.db, th.pid, th.n.tradeNo);
    hide Advance, AdvanceVerify, Solo, TradeTaken, MarkRefused, OrderSettled, AddressRetired, IsFor;
    var s1 := AdvanceVerify(cfg, s, th, outs[0]).0;
    var paid := PaidLookup(th.pay.order, th.n.tradeNo, Through(th.pid, th.channel, th.n));
    if th.pay.address != "" {
      var use := VerifyUse(th.channel, th.n, th.pid, th.pay);
      RetiresRow(cfg, s1, use);
      var s2 := AdvanceVerify(cfg, s1, use, outs[1]).0;
      AllOk(outs, 2);
      PaidAlone(cfg, s2, tid, paid.no, paid.tradeNo, paid.via, outs[2..]);
      SameRowsSettle(cfg.money, s.db, s2.db, Solo(cfg, s2, tid, paid, outs[2..]).0.db, paid.no, paid.tradeNo, s.now);
    } else {
      AllOk(outs, 1);
      NoneRetired(s.db.pool);
      PaidAlone(cfg, s1, tid, paid.no, paid.tradeNo, paid.via, outs[1..]);
      SameRowsSettle(cfg.money, s.db, s1.db, Solo(cfg, s1, tid, paid, outs[1..]).0.db, paid.no, paid.tradeNo, s.now);
    }
  }

  lemma MarksRow(cfg: Config, s: Shared, th: Thread)
    requires th.VerifyMark? && th.pid < |s.db.payments| && s.db.payments[th.pid].status == PayPending
    requires !TradeTaken(s.db, th.pid, s.db.payments[th.pid].channel, th.n.tradeNo)
    ensures AdvanceVerify(cfg, s, th, Ok).0 == s.(db := s.db.(payments := s.db.payments[th.pid :=
              s.db.payments[th.pid].(status := PayPaid, tradeNo := th.n.tradeNo)]))
  {
    hide TradeTaken;
  }

  lemma RetiresRow(cfg: Config, s: Shared, th: Thread)
    requires th.VerifyUse? && th.pay.address != ""
    ensures var s' := AdvanceVerify(cfg, s, th, Ok).0;
            s' == s.(db := s.db.(pool := s'.db.pool)) && AddressRetired(s.db.pool, s'.db.pool, th.pay.address)
  {
  }

  lemma NoneRetired(pool: seq<Lease>)
    ensures AddressRetired(pool, pool, "")
  {
  }

  lemma SameRowsSettle(m: Money, a: Db, b: Db, c: Db, no: string, tradeNo: string, now: int)
    requires b.orders == a.orders && b.idem == a.idem && b.coupons == a.coupons && b.users == a.users
    ensures OrderSettled(m, b, c, no, tradeNo, now) <==> OrderSettled(m, a, c, no, tradeNo, now)
  {
  }

  /** A verified notify for the i-th payment: already paid, it is a success that changes nothing; of another amount,
      a failure that changes nothing but the noted trade number; and when every call works, for a pending payment of
      a payable order, the payment is paid under its trade number, its address retired and its order settled, and no
      other payment or lease changes. */
  predicate NotifyServed(m: Money, a: Db, b: Db, now: int, n: Notify, outs: seq<Outcome>, failed: bool, i: nat)
    requires outs != [] && i < |a.payments|
  {
    var p := a.payments[i];
    && (outs[0] == Ok && p.status == PayPaid ==> b == a && !failed)
    && (AllWork(outs) && p.status != PayPaid && !m.same(p.amount, n.amount) ==>
          failed && b == a.(payments := a.payments[i := p.(tradeNo := n.tradeNo)]))
    && (AllWork(outs) && p.status == PayPending && m.same(p.amount, n.amount) && Ready(a, p.order, now) ==>
          && !failed
          && b.payments == a.payments[i := p.(status := PayPaid, tradeNo := n.tradeNo)]
          && AddressRetired(a.pool, b.pool, p.address)
          && OrderSettled(m, a, b, p.order, n.tradeNo, now))
  }

  lemma VerifyAlone(cfg: Config, s: Shared, tid: nat, ch: Channel, n: Notify, outs: seq<Outcome>, i: nat)
    requires |outs| >= 10 && i < |s.db.payments| && IsFor(s.db, ch, n, s.now, i)
    ensures var (s', th) := Solo(cfg, s, tid, VerifyTrade(ch, n), outs);
            th.Finished? ==> NotifyServed(cfg.money, s.db, s'.db, s.now, n, outs, th.failed, i)
  {
    hide AdvanceCreate, AdvancePay, AdvancePaid, AdvanceOther, Solo, OrderSettled, AddressRetired, Ready;
    var p, trade := s.db.payments[i], VerifyTrade(ch, n);
    SoloStep(cfg, s, tid, trade, outs);
    if OnlyBearer(s.db.payments, i, ch, n.tradeNo) {
      BearerFound(s.db, i, ch, n.tradeNo);
      hide FindByTradeNo, TradeTaken;
      if outs[0] == Ok {
        var th := AfterLookup(cfg, ch, n, i, p);
        assert Advance(cfg, s, tid, trade, outs[0]) == (s, th);
        if th.VerifyMark? && AllWork(outs) && p.status == PayPending && Ready(s.db, p.order, s.now) {
          AllOk(outs, 1);
          MarkAlone(cfg, s, tid, th, outs[1..]);
        }
      }
    } else {
      NoneFound(s.db, ch, n.tradeNo);
      hide FindByTradeNo;
      assert Advance(cfg, s, tid, trade, outs[0]) == (s, VerifyActive(ch, n));
      if AllWork(outs) {
        AllOk(outs, 1);
        ActiveAlone(cfg, s, tid, ch, n, outs[1..], i);
      }
    }
  }

  lemma BearerFound(db: Db, i: nat, ch: Channel, tradeNo: string)
    requires i < |db.payments| && OnlyBearer(db.payments, i, ch, tradeNo)
    ensures FindByTradeNo(db, ch, tradeNo) == Some(i) && !TradeTaken(db, i, ch, tradeNo)
    ensures db.payments[i].channel == ch
    ensures db.payments[i := db.payments[i].(tradeNo := tradeNo)] == db.payments
  {
    var hit := FindByTradeNo(db, ch, tradeNo);
    assert hit.Some? ==> Bears(db.payments[hit.value], ch, tradeNo);
    assert Bears(db.payments[i], ch, tradeNo);
  }

  lemma NoneFound(db: Db, ch: Channel, tradeNo: string)
    requires Unborne(db.payments, ch, tradeNo)
    ensures FindByTradeNo(db, ch, tradeNo) == None
  {
    var hit := FindByTradeNo(db, ch, tradeNo);
    assert hit.Some? ==> Bears(db.payments[hit.value], ch, tradeNo);
  }

  lemma NewestFound(db: Db, i: nat, no: string, ch: Channel, now: int)
    requires i < |db.payments| && NewestLive(db.payments, i, no, ch, now)
    ensures FindActiveByOrder(db, no, ch, now) == Some(i)
  {
    var hit := FindActiveByOrder(db, no, ch, now);
    assert hit.Some? ==> Live(db.payments[hit.value], no, ch, now);
    assert Live(db.payments[i], no, ch, now);
  }

  lemma ActiveAlone(cfg: Config, s: Shared, tid: nat, ch: Channel, n: Notify, outs: seq<Outcome>, i: nat)
    requires |outs| >= 9 && AllWork(outs) && i < |s.db.payments|
    requires Unborne(s.db.payments, ch, n.tradeNo) && NewestLive(s.db.payments, i, n.order, ch, s.now)
    ensures var (s', th) := Solo(cfg, s, tid, VerifyActive(ch, n), outs); var p := s.db.payments[i];
            && (!cfg.money.same(p.amount, n.amount) ==>
                  th == Finished(true) && s'.db == s.db.(payments := s.db.payments[i := p.(tradeNo := n.tradeNo)]))
            && (cfg.money.same(p.amount, n.amount) && Ready(s.db, p.order, s.now) ==>
                  && th == Finished(false)
                  && s'.db.payments == s.db.payments[i := p.(status := PayPaid, tradeNo := n.tradeNo)]
                  && AddressRetired(s.db.pool, s'.db.pool, p.address)
                  && OrderSettled(cfg.money, s.db, s'.db, p.order, n.tradeNo, s.now))
  {
    ActiveSteps(cfg, s, tid, ch, n, outs);
    NewestFound(s.db, i, n.order, ch, s.now);
    hide Advance, Solo, OrderSettled, AddressRetired, FindActiveByOrder;
    var p := s.db.payments[i];
    var noted := AdvanceVerify(cfg, s, VerifySetTrade(ch, n, i, p), outs[1]).0;
    var th := AfterLookup(cfg, ch, n, i, p);
    assert !TradeTaken(s.db, i, ch, n.tradeNo) by {
      assert forall j :: 0 <= j < |s.db.payments| ==> !Bears(s.db.payments[j], ch, n.tradeNo);
    }
    assert noted == s.(db := s.db.(payments := s.db.payments[i := p.(tradeNo := n.tradeNo)]));
    assert !TradeTaken(noted.db, i, ch, n.tradeNo);
    hide TradeTaken, UpdateTradeNo;
    if th.VerifyMark? {
      if Ready(s.db, p.order, s.now) {
        AllOk(outs, 2);
        MarkAlone(cfg, noted, tid, th, outs[2..]);
        SameRowsSettle(cfg.money, s.db, noted.db, Solo(cfg, noted, tid, th, outs[2..]).0.db, p.order, n.tradeNo, s.now);
      }
    } else {
      SoloAfterEnd(cfg, noted, tid, th, outs[2..]);
    }
  }

  // ----- a transfer alone --------------------------------------------------------------------------------

  /** A pending USDT payment at this address, for exactly these tokens when the transfer names an amount. */
  predicate Expects(p: Payment, address: string, token: Option<int>) {
    p.channel == Usdt && p.status == PayPending && p.address == address && (token == None || token == Some(p.token))
  }

  /** A transfer that no payment expects fails and changes nothing, whatever its transaction. */
  lemma UnexpectedTransferFails(cfg: Config, s: Shared, tid: nat, address: string, token: Option<int>, tx: string,
                                outs: seq<Outcome>)
    requires |outs| >= 11 && forall i :: 0 <= i < |s.db.payments| ==> !Expects(s.db.payments[i], address, token)
    ensures Solo(cfg, s, tid, TransferLookup(address, token, tx), outs) == (s, Finished(true))
  {
    hide AdvanceCreate, AdvancePay, AdvancePaid, AdvanceOther, Solo;
    SoloStep(cfg, s, tid, TransferLookup(address, token, tx), outs);
  }

  lemma ExpectedFound(db: Db, address: string, token: Option<int>, i: nat)
    requires i < |db.payments| && Expects(db.payments[i], address, token)
    requires forall j :: i < j < |db.payments| ==> !Expects(db.payments[j], address, token)
    ensures FindByAddress(db, Usdt, address, token) == Some(i)
  {
    var hit := FindByAddress(db, Usdt, address, token);
    assert hit.Some? ==> Expects(db.payments[hit.value], address, token);
    assert Expects(db.payments[i], address, token);
  }

  /** Otherwise, when the lookup works, it is handled as a notify for the order and amount of the newest that does. */
  lemma TransferIsNotify(cfg: Config, s: Shared, tid: nat, address: string, token: Option<int>, tx: string,
                         outs: seq<Outcome>, i: nat)
    requires |outs| >= 11 && outs[0] == Ok && i < |s.db.payments| && Expects(s.db.payments[i], address, token)
    requires forall j :: i < j < |s.db.payments| ==> !Expects(s.db.payments[j], address, token)
    ensures var p := s.db.payments[i];
            Solo(cfg, s, tid, TransferLookup(address, token, tx), outs)
            == Solo(cfg, s, tid, VerifyTrade(Usdt, Notify(p.order, tx, p.amount)), outs[1..])
  {
    ExpectedFound(s.db, address, token, i);
    hide AdvanceCreate, AdvancePay, AdvancePaid, AdvanceOther, Solo, FindByAddress, Expects;
    SoloStep(cfg, s, tid, TransferLookup(address, token, tx), outs);
  }

  predicate NewestExpecting(ps: seq<Payment>, i: nat, address: string, token: Option<int>)
    requires i < |ps|
  {
    Expects(ps[i], address, token) && forall j :: i < j < |ps| ==> !Expects(ps[j], address, token)
  }

  /** The lookup by address, and what follows it. */
  lemma TransferSteps(cfg: Config, s: Shared, tid: nat, address: string, token: Option<int>, tx: string,
                      outs: seq<Outcome>)
    requires outs != []
    ensures var r := Solo(cfg, s, tid, TransferLookup(address, token, tx), outs);
            var hit := if outs[0] == Ok then FindByAddress(s.db, Usdt, address, token) else None;
            match hit
            case None => r == (s, Finished(true))
            case Some(i) =>
              var p := s.db.payments[i];
              r == Solo(cfg, s, tid, VerifyTrade(Usdt, Notify(p.order, tx, p.amount)), outs[1..])
  {
    hide AdvanceCreate, AdvancePay, AdvancePaid, AdvanceOther, Solo, FindByAddress;
    SoloStep(cfg, s, tid, TransferLookup(address, token, tx), outs);
  }

  /** A transfer that no payment expects, or whose lookup fails, fails and changes nothing; any other is handled as a
      notify for the order and amount of the newest payment that expects it. */
  ghost predicate TransferServed(cfg: Config, s: Shared, tid: nat, address: string, token: Option<int>, tx: string,
                                 outs: seq<Outcome>, b: Db, failed: bool)
    requires outs != []
  {
    var ps := s.db.payments;
    && (outs[0] != Ok || (forall i :: 0 <= i < |ps| ==> !Expects(ps[i], address, token)) ==> failed && b == s.db)
    && (outs[0] == Ok ==> forall i | 0 <= i < |ps| && NewestExpecting(ps, i, address, token) ::
          var (s', th) := Solo(cfg, s, tid, VerifyTrade(Usdt, Notify(ps[i].order, tx, ps[i].amount)), outs[1..]);
          b == s'.db && th == Finished(failed))
  }

  lemma TransferAlone(cfg: Config, s: Shared, tid: nat, address: string, token: Option<int>, tx: string,
                      outs: seq<Outcome>)
    requires |outs| >= 11
    ensures var (s', th) := Solo(cfg, s, tid, TransferLookup(address, token, tx), outs);
            th.Finished? ==> TransferServed(cfg, s, tid, address, token, tx, outs, s'.db, th.failed)
  {
    hide Solo;
    var ps := s.db.payments;
    if outs[0] != Ok {
      LookupFails(cfg, s, tid, address, token, tx, outs);
    } else if forall i :: 0 <= i < |ps| ==> !Expects(ps[i], address, token) {
      UnexpectedTransferFails(cfg, s, tid, address, token, tx, outs);
    }
    forall i | outs[0] == Ok && 0 <= i < |ps| && NewestExpecting(ps, i, address, token)
      ensures Solo(cfg, s, tid, TransferLookup(address, token, tx), outs)
              == Solo(cfg, s, tid, VerifyTrade(Usdt, Notify(ps[i].order, tx, ps[i].amount)), outs[1..])
    {
      TransferIsNotify(cfg, s, tid, address, token, tx, outs, i);
    }
  }

  lemma LookupFails(cfg: Config, s: Shared, tid: nat, address: string, token: Option<int>, tx: string,
                    outs: seq<Outcome>)
    requires |outs| >= 11 && outs[0] != Ok
    ensures Solo(cfg, s, tid, TransferLookup(address, token, tx), outs) == (s, Finished(true))
  {
    hide AdvanceCreate, AdvancePay, AdvancePaid, AdvanceOther, Solo, FindByAddress;
    SoloStep(cfg, s, tid, TransferLookup(address, token, tx), outs);
  }

  // ----- what a reconciliation lists ------------------------------------------------------------------------

  predicate IsPolled(p: Payment, ch: Channel) { p.channel == ch && p.status == PayPending && p.tradeNo != "" }

  /** Row positions of a listing, newest first; a row that qualifies and is left out is older than all of them, and then
      the listing is full. */
  ghost predicate Lists(rows: seq<Payment>, ch: Channel, limit: nat, r: seq<Payment>, at: seq<nat>) {
    && |at| == |r| <= limit
    && (forall k :: 0 <= k < |at| ==> at[k] < |rows| && r[k] == rows[at[k]] && IsPolled(r[k], ch))
    && (forall k, l :: 0 <= k < l < |at| ==> at[k] > at[l])
    && (forall i :: 0 <= i < |rows| && IsPolled(rows[i], ch) && i !in at ==>
          |r| == limit && forall k :: 0 <= k < |at| ==> i < at[k])
  }

  lemma ListsOlder(rows: seq<Payment>, ch: Channel, limit: nat, r: seq<Payment>, at: seq<nat>)
    requires rows != [] && !IsPolled(rows[|rows| - 1], ch) && Lists(rows[..|rows| - 1], ch, limit, r, at)
    ensures Lists(rows, ch, limit, r, at)
  {
    var n := |rows| - 1;
    forall i | 0 <= i < |rows| && IsPolled(rows[i], ch) && i !in at
      ensures |r| == limit && forall k :: 0 <= k < |at| ==> i < at[k]
    {
      assert rows[..n][i] == rows[i];
    }
  }

  lemma ListsNewer(rows: seq<Payment>, ch: Channel, limit: nat, r: seq<Payment>, at: seq<nat>)
    requires rows != [] && limit > 0 && IsPolled(rows[|rows| - 1], ch)
    requires Lists(rows[..|rows| - 1], ch, limit - 1, r, at)
    ensures Lists(rows, ch, limit, [rows[|rows| - 1]] + r, [|rows| - 1] + at)
  {
    hide IsPolled;
    ListsItsRows(rows, ch, limit, r, at);
    LeftOutIsOlder(rows, ch, limit, r, at);
    var at' := [|rows| - 1] + at;
    forall k, l | 0 <= k < l < |at'| ensures at'[k] > at'[l] {
      if k > 0 { assert at'[k] == at[k - 1] && at'[l] == at[l - 1]; }
    }
  }

  lemma ListsItsRows(rows: seq<Payment>, ch: Channel, limit: nat, r: seq<Payment>, at: seq<nat>)
    requires rows != [] && limit > 0 && IsPolled(rows[|rows| - 1], ch)
    requires Lists(rows[..|rows| - 1], ch, limit - 1, r, at)
    ensures var r', at' := [rows[|rows| - 1]] + r, [|rows| - 1] + at;
            forall k :: 0 <= k < |at'| ==> at'[k] < |rows| && r'[k] == rows[at'[k]] && IsPolled(r'[k], ch)
  {
    var n := |rows| - 1;
    var p := rows[..n];
    var r', at' := [rows[n]] + r, [n] + at;
    hide IsPolled;
    forall k | 0 <= k < |at'| ensures at'[k] < |rows| && r'[k] == rows[at'[k]] && IsPolled(r'[k], ch) {
      if k > 0 { assert r'[k] == r[k - 1] && at'[k] == at[k - 1] && p[at[k - 1]] == rows[at[k - 1]]; }
    }
  }

  lemma LeftOutIsOlder(rows: seq<Payment>, ch: Channel, limit: nat, r: seq<Payment>, at: seq<nat>)
    requires rows != [] && limit > 0 && Lists(rows[..|rows| - 1], ch, limit - 1, r, at)
    ensures var at' := [|rows| - 1] + at;
            forall i :: 0 <= i < |rows| && IsPolled(rows[i], ch) && i !in at' ==>
              |r| + 1 == limit && forall k :: 0 <= k < |at'| ==> i < at'[k]
  {
    var n := |rows| - 1;
    var p, at' := rows[..n], [n] + at;
    hide IsPolled;
    forall i | 0 <= i < |rows| && IsPolled(rows[i], ch) && i !in at'
      ensures |r| + 1 == limit && forall k :: 0 <= k < |at'| ==> i < at'[k]
    {
      NotInTail(n, at, i);
      assert p[i] == rows[i];
      forall k | 0 <= k < |at'| ensures i < at'[k] {
        if k > 0 { assert at'[k] == at[k - 1]; }
      }
    }
  }

  lemma NotInTail(n: nat, at: seq<nat>, i: nat)
    requires i !in [n] + at
    ensures i != n && i !in at
  {
    assert ([n] + at)[0] == n;
  }

  /** A reconciliation lists the newest payments of the channel that are pending and have a trade number, newest first,
      all of them if the limit allows. */
  lemma {:induction false} ListsNewest(rows: seq<Payment>, ch: Channel, limit: nat) returns (at: seq<nat>)
    ensures Lists(rows, ch, limit, ListPending(rows, ch, limit), at)
  {
    if rows == [] || limit == 0 {
      at := [];
    } else {
      var n := |rows| - 1;
      if IsPolled(rows[n], ch) {
        var rest := ListsNewest(rows[..n], ch, limit - 1);
        at := [n] + rest;
        ListsNewer(rows, ch, limit, ListPending(rows[..n], ch, limit - 1), rest);
      } else {
        at := ListsNewest(rows[..n], ch, limit);
        ListsOlder(rows, ch, limit, ListPending(rows[..n], ch, limit), at);
      }
    }
  }
}
