/** The billing and payment services as code over a database object: each handler, run to its end with no other
    handler in between, does exactly what its thread in the interleaved machine does when it runs alone. */
module Services {
  import opened Wrappers
  import opened Tables
  import opened Machine
  import opened Growth
  import opened Alone

  // ----- the database ----------------------------------------------------------------

  class Database {
    var orders: map<string, Order>
    var idem: map<(nat, string), string>
    var payments: seq<Payment>
    var pool: seq<Lease>
    var coupons: map<string, Coupon>
    var users: map<nat, User>

    constructor (coupons: map<string, Coupon>, users: map<nat, User>)
      ensures Rows() == Db(map[], map[], [], [], coupons, users)
    {
      this.orders, this.idem, this.payments, this.pool := map[], map[], [], [];
      this.coupons, this.users := coupons, users;
    }

    function Rows(): Db
      reads this
    {
      Db(orders, idem, payments, pool, coupons, users)
    }

    method InsertOrder(no: string, o: Order, out: Outcome) returns (ok: bool)
      modifies this
      ensures var r := Tables.InsertOrder(old(Rows()), no, o);
              Rows() == (if r.Some? && Took(out) then r.value else old(Rows())) && ok == (r.Some? && out == Ok)
    {
      if no in orders || (o.user, o.key) in idem || out == Failed {
        return false;
      }
      orders := orders[no := o];
      idem := idem[(o.user, o.key) := no];
      ok := out == Ok;
    }

    method UpdateStatus(no: string, status: OrderStatus, paidAt: Option<int>, paid: string, channelNo: string,
                        out: Outcome)
      returns (ok: bool)
      modifies this
      ensures Rows() == (if Took(out) then UpdateOrder(old(Rows()), no, status, paidAt, paid, channelNo)
              else old(Rows()))
      ensures ok == (out == Ok)
    {
      if Took(out) && no in orders {
        var o := orders[no].(status := status, paid := paid);
        if paidAt.Some? { o := o.(paidAt := paidAt); }
        if channelNo != "" { o := o.(channelNo := channelNo); }
        orders := orders[no := o];
      }
      ok := out == Ok;
    }

    method InsertPayment(p: Payment, out: Outcome) returns (id: Option<nat>)
      modifies this
      ensures var r := Tables.InsertPayment(old(Rows()), p);
              Rows() == (if r.Some? && Took(out) then r.value else old(Rows()))
              && id == if r.Some? && out == Ok then Some(|old(payments)|) else None
    {
      if out == Failed || TradeTaken(Rows(), |payments|, p.channel, p.tradeNo) {
        return None;
      }
      id := if out == Ok then Some(|payments|) else None;
      payments := payments + [p];
    }

    method MarkPaid(pid: nat, tradeNo: string, out: Outcome) returns (ok: bool)
      modifies this
      ensures Rows() == (if Took(out) then Tables.MarkPaid(old(Rows()), pid, tradeNo) else old(Rows()))
      ensures ok == (out == Ok && !MarkRefused(old(Rows()), pid, tradeNo))
    {
      ok := out == Ok;
      if Took(out) && pid < |payments| && payments[pid].status == PayPending {
        if TradeTaken(Rows(), pid, payments[pid].channel, tradeNo) {
          return false;
        }
        payments := payments[pid := payments[pid].(status := PayPaid, tradeNo := tradeNo)];
      }
    }

    method UpdateTradeNo(pid: nat, tradeNo: string, out: Outcome)
      modifies this
      ensures Rows() == if Took(out) then Tables.UpdateTradeNo(old(Rows()), pid, tradeNo) else old(Rows())
    {
      if Took(out) && pid < |payments| && !TradeTaken(Rows(), pid, payments[pid].channel, tradeNo) {
        payments := payments[pid := payments[pid].(tradeNo := tradeNo)];
      }
    }

    method ExpirePayments(before: int, out: Outcome) returns (ok: bool)
      modifies this
      ensures Rows() == (if Took(out) then Tables.ExpirePayments(old(Rows()), before) else old(Rows())) &&
              ok == (out == Ok)
    {
      if Took(out) { payments := Tables.ExpirePayments(Rows(), before).payments; }
      ok := out == Ok;
    }

    method ExpireOrders(before: int, out: Outcome) returns (ok: bool)
      modifies this
      ensures Rows() == (if Took(out) then Tables.ExpireOrders(old(Rows()), before) else old(Rows())) &&
              ok == (out == Ok)
    {
      if Took(out) { orders := Tables.ExpireOrders(Rows(), before).orders; }
      ok := out == Ok;
    }

    /** Lease the next free address to an order. */
    method Allocate(no: string, out: Outcome) returns (address: Option<string>)
      modifies this
      ensures var i := NextFree(old(Rows()));
              Rows() == (if i.Some? && Took(out) then Tables.Allocate(old(Rows()), i.value, no) else old(Rows()))
              && address == if i.Some? && out == Ok then Some(old(pool)[i.value].address) else None
    {
      var i := NextFree(Rows());
      if i.None? || out == Failed {
        return None;
      }
      address := if out == Ok then Some(pool[i.value].address) else None;
      pool := pool[i.value := pool[i.value].(status := Allocated, order := no)];
    }

    method MarkUsed(address: string, out: Outcome)
      modifies this
      ensures Rows() == if Took(out) then Tables.MarkUsed(old(Rows()), address) else old(Rows())
    {
      if Took(out) { pool := Tables.MarkUsed(Rows(), address).pool; }
    }

    method BumpCoupon(code: string, out: Outcome)
      modifies this
      ensures Rows() == if Took(out) then Tables.BumpCoupon(old(Rows()), code) else old(Rows())
    {
      if Took(out) && code in coupons && (coupons[code].quota == 0 || coupons[code].used < coupons[code].quota) {
        coupons := coupons[code := coupons[code].(used := coupons[code].used + 1)];
      }
    }

    /** ApplyPlan, ApplyPack or ApplyTopup on the user's row, field by field. */
    method ApplyItem(user: nat, item: Item, cents: int, now: int, out: Outcome) returns (ok: bool)
      modifies this
      ensures Rows() == (if Took(out) && user in old(users)
                         then old(Rows()).(users := old(users)[user := Applied(old(users)[user], item, cents, now)])
                         else old(Rows()))
      ensures ok == (out == Ok && user in old(users))
    {
      if !Took(out) || user !in users {
        return false;
      }
      var u := users[user];
      match item {
        case PlanItem(plan, days, gb, devices) =>
          var base := now;
          if u.plan == Some(plan) && u.planExpire.Some? && u.planExpire.value > now {
            base := u.planExpire.value;
          }
          u := u.(plan := Some(plan), planExpire := Some(base + DaySeconds(days)), total := GibBytes(gb), used := 0,
              devices := devices);
        case PackItem(gb, days, mode) =>
          if mode == 2 {
            var base := now;
            if u.planExpire.Some? && u.planExpire.value > now {
              base := u.planExpire.value;
            }
            u := u.(planExpire := Some(base + DaySeconds(days)));
          }
          u := u.(total := u.total + GibBytes(gb));
        case TopupItem =>
          u := u.(balance := u.balance + cents);
      }
      users := users[user := u];
      ok := out == Ok;
    }
  }

  // ----- billing ---------------------------------------------------------------------------

  /** One order, pending and this user's, became cancelled; every other row and every other field is as it was. */
  predicate OneCancelled(a: Db, b: Db, no: string, user: nat) {
    && no in a.orders && a.orders[no].user == user && a.orders[no].status == Pending
    && b == a.(orders := a.orders[no := a.orders[no].(status := Cancelled)])
  }

  /** Exactly the pending orders past their deadline became expired. */
  ghost predicate OrdersSwept(a: Db, b: Db, now: int) {
    && b == a.(orders := b.orders) && b.orders.Keys == a.orders.Keys
    && forall no :: no in a.orders ==>
         b.orders[no] == if a.orders[no].status == Pending && a.orders[no].expireAt < now
                         then a.orders[no].(status := Expired) else a.orders[no]
  }

  /** Exactly the pending payments whose deadline has come became expired. */
  ghost predicate PaymentsSwept(a: Db, b: Db, now: int) {
    && b == a.(payments := b.payments) && |b.payments| == |a.payments|
    && forall i :: 0 <= i < |a.payments| ==>
         b.payments[i] == if a.payments[i].status == PayPending && a.payments[i].expireAt <= now
                          then a.payments[i].(status := PayExpired) else a.payments[i]
  }

  class Billing {
    const cfg: Config
    const db: Database

    constructor (cfg: Config, db: Database)
      ensures this.cfg == cfg && this.db == db
    {
      this.cfg, this.db := cfg, db;
    }

    /** HandlePaid: already paid is a no-op; otherwise a payable order is marked paid and its effects applied. */
    method HandlePaid(no: string, tradeNo: string, now: int, outs: seq<Outcome>, ghost via: Via, ghost h: History,
                      ghost tid: nat)
      returns (failed: bool)
      requires |outs| >= 5
      modifies db
      ensures var (s, th) := Solo(cfg, Shared(now, old(db.Rows()), h), tid, PaidLookup(no, tradeNo, via), outs);
              db.Rows() == s.db && th == Finished(failed)
      ensures PaidServed(cfg.money, old(db.Rows()), db.Rows(), now, no, tradeNo, outs, failed)
    {
      PaidAlone(cfg, Shared(now, db.Rows(), h), tid, no, tradeNo, via, outs);
      hide PaidServed;
      hide AdvanceCreate, AdvancePay, AdvanceVerify, AdvanceOther;
      hide UpdateOrder, Tables.BumpCoupon, ApplyEffects, Net;
      ghost var s, th := Shared(now, db.Rows(), h), PaidLookup(no, tradeNo, via);
      ghost var (s1, th1) := Advance(cfg, s, tid, th, outs[0]);
      if outs[0] != Ok || no !in db.orders {
        SoloAfterEnd(cfg, s1, tid, th1, outs[1..]);
        return true;
      }
      var o := db.orders[no];
      if o.status == Paid {
        SoloAfterEnd(cfg, s1, tid, th1, outs[1..]);
        return false;
      }
      ghost var (s2, th2) := Advance(cfg, s1, tid, th1, outs[1]);
      assert outs[1..][1..] == outs[2..];
      if !IsPayable(o, now) {
        SoloAfterEnd(cfg, s2, tid, th2, outs[2..]);
        return true;
      }
      failed := Settle(no, tradeNo, o, now, outs[2..], via, h, tid);
    }

    /** From the status write on. */
    method Settle(no: string, tradeNo: string, o: Order, now: int, outs: seq<Outcome>, ghost via: Via,
                  ghost h: History, ghost tid: nat)
      returns (failed: bool)
      requires |outs| >= 3
      modifies db
      ensures var (s, th) := Solo(cfg, Shared(now, old(db.Rows()), h), tid, PaidUpdate(no, tradeNo, via, o, now), outs);
              db.Rows() == s.db && th == Finished(failed)
    {
      hide UpdateOrder, Tables.BumpCoupon, ApplyEffects, Net, Solo;
      ghost var s, th := Shared(now, db.Rows(), h), PaidUpdate(no, tradeNo, via, o, now);
      ghost var s1 := AdvancePaid(cfg, s, tid, th, outs[0]).0;
      SettleSteps(cfg, s, tid, th, outs);
      var ok := db.UpdateStatus(no, Paid, Some(now), Net(cfg.money, o), tradeNo, outs[0]);
      if !ok {
        return true;
      }
      if o.coupon != "" {
        ghost var s2 := AdvancePaid(cfg, s1, tid, PaidCoupon(no, o), outs[1]).0;
        db.BumpCoupon(o.coupon, outs[1]);
        failed := ApplyOrderEffects(no, o, now, outs[2..], s2.hist, tid);
      } else {
        failed := ApplyOrderEffects(no, o, now, outs[1..], s1.hist, tid);
      }
    }

    method ApplyOrderEffects(no: string, o: Order, now: int, outs: seq<Outcome>, ghost h: History, ghost tid: nat)
      returns (failed: bool)
      requires |outs| >= 1
      modifies db
      ensures var (s, th) := Solo(cfg, Shared(now, old(db.Rows()), h), tid, PaidApply(no, o), outs);
              db.Rows() == s.db && th == Finished(failed)
      ensures outs[0] == Ok ==> failed == (o.user !in old(db.users))
      ensures !failed ==>
                && o.user in old(db.users) && o.user in db.users
                && db.Rows() == old(db.Rows()).(users := old(db.users)[o.user := db.users[o.user]])
                && ItemGiven(old(db.users)[o.user], db.users[o.user], o.item,
                             cfg.money.cents(cfg.money.net(o.amount, o.discount)), now)
    {
      if o.user in db.users {
        AppliedGives(db.users[o.user], o.item, cfg.money.cents(Net(cfg.money, o)), now);
      }
      hide Applied, ItemGiven;
      hide AdvanceCreate, AdvancePay, AdvanceVerify, AdvanceOther;
      ghost var (s1, th1) := Advance(cfg, Shared(now, db.Rows(), h), tid, PaidApply(no, o), outs[0]);
      var ok := db.ApplyItem(o.user, o.item, cfg.money.cents(Net(cfg.money, o)), now, outs[0]);
      SoloAfterEnd(cfg, s1, tid, th1, outs[1..]);
      failed := !ok;
    }

    /** CreateOrder: the order under (user, key) if there is one, otherwise a new pending order; refused tells
        that the target or the coupon was. */
    method CreateOrder(input: NewOrder, now: int, outs: seq<Outcome>, ghost h: History, ghost tid: nat)
      returns (result: Option<string>)
      requires |outs| >= 4
      modifies db
      ensures var (s, th) := Solo(cfg, Shared(now, old(db.Rows()), h), tid, CreateLookup(input), outs);
              db.Rows() == s.db && th == CreateDone(input.user, input.key, result)
      ensures CreateServed(cfg, old(db.Rows()), db.Rows(), now, input, outs, result)
    {
      CreateAlone(cfg, Shared(now, db.Rows(), h), tid, input, outs);
      hide CreateServed;
      hide AdvancePay, AdvanceVerify, AdvancePaid, AdvanceOther;
      ghost var s, th := Shared(now, db.Rows(), h), CreateLookup(input);
      ghost var (s1, th1) := Advance(cfg, s, tid, th, outs[0]);
      if outs[0] == Ok && (input.user, input.key) in db.idem {
        SoloAfterEnd(cfg, s1, tid, th1, outs[1..]);
        return Some(db.idem[(input.user, input.key)]);
      }
      ghost var (s2, th2) := Advance(cfg, s1, tid, th1, outs[1]);
      assert outs[1..][1..] == outs[2..];
      if outs[1] != Ok {
        SoloAfterEnd(cfg, s2, tid, th2, outs[2..]);
        return None;
      }
      result := Insert(input, now + cfg.orderTtl, now, outs[2..], h, tid);
    }

    /** Insert; on an error, the order a parallel call may have put there. */
    method Insert(input: NewOrder, expireAt: int, now: int, outs: seq<Outcome>, ghost h: History, ghost tid: nat)
      returns (result: Option<string>)
      requires |outs| >= 2
      modifies db
      ensures var (s, th) := Solo(cfg, Shared(now, old(db.Rows()), h), tid, CreateInsert(input, expireAt), outs);
              db.Rows() == s.db && th == CreateDone(input.user, input.key, result)
    {
      hide AdvancePay, AdvanceVerify, AdvancePaid, AdvanceOther;
      ghost var s := Shared(now, db.Rows(), h);
      ghost var (s1, th1) := Advance(cfg, s, tid, CreateInsert(input, expireAt), outs[0]);
      var ok := db.InsertOrder(input.no, NewRow(input, expireAt), outs[0]);
      if ok {
        SoloAfterEnd(cfg, s1, tid, th1, outs[1..]);
        return Some(input.no);
      }
      ghost var (s2, th2) := Advance(cfg, s1, tid, th1, outs[1]);
      SoloAfterEnd(cfg, s2, tid, th2, outs[1..][1..]);
      result := if outs[1] == Ok && (input.user, input.key) in db.idem then Some(db.idem[(input.user, input.key)])
          else None;
    }

    /** CancelOrder: a pending order of its owner is cancelled, and nothing else changes. */
    method CancelOrder(no: string, user: nat, now: int, outs: seq<Outcome>, ghost h: History, ghost tid: nat)
      returns (failed: bool)
      requires |outs| >= 2
      modifies db
      ensures var (s, th) := Solo(cfg, Shared(now, old(db.Rows()), h), tid, CancelLookup(no, user), outs);
              db.Rows() == s.db && th == Finished(failed)
      ensures OneCancelled(old(db.Rows()), db.Rows(), no, user) || (failed && db.Rows() == old(db.Rows()))
      ensures (outs[0] == outs[1] == Ok && no in old(db.orders) && old(db.orders)[no].user == user &&
                old(db.orders)[no].status == Pending) ==> !failed
    {
      hide AdvanceCreate, AdvancePay, AdvanceVerify, AdvancePaid;
      ghost var s := Shared(now, db.Rows(), h);
      ghost var (s1, th1) := Advance(cfg, s, tid, CancelLookup(no, user), outs[0]);
      if outs[0] != Ok || no !in db.orders || db.orders[no].user != user || db.orders[no].status != Pending {
        SoloAfterEnd(cfg, s1, tid, th1, outs[1..]);
        return true;
      }
      ghost var (s2, th2) := Advance(cfg, s1, tid, th1, outs[1]);
      SoloAfterEnd(cfg, s2, tid, th2, outs[1..][1..]);
      var ok := db.UpdateStatus(no, Cancelled, None, db.orders[no].paid, "", outs[1]);
      failed := !ok;
    }

    method AutoCancelExpired(now: int, outs: seq<Outcome>, ghost h: History, ghost tid: nat) returns (failed: bool)
      requires |outs| >= 2
      modifies db
      ensures var (s, th) := Solo(cfg, Shared(now, old(db.Rows()), h), tid, OrderSweepClock, outs);
              db.Rows() == s.db && th == Finished(failed)
      ensures OrdersSwept(old(db.Rows()), db.Rows(), now) || (failed && db.Rows() == old(db.Rows()))
      ensures outs[1] == Ok ==> !failed
    {
      hide AdvanceCreate, AdvancePay, AdvanceVerify, AdvancePaid;
      ghost var (s1, th1) := Advance(cfg, Shared(now, db.Rows(), h), tid, OrderSweepClock, outs[0]);
      ghost var (s2, th2) := Advance(cfg, s1, tid, th1, outs[1]);
      SoloAfterEnd(cfg, s2, tid, th2, outs[1..][1..]);
      var ok := db.ExpireOrders(now, outs[1]);
      failed := !ok;
    }
  }

  // ----- payments -------------------------------------------------------------------------------

  /** One polled row: applied, as a solo thread of its own, if the provider calls it paid. */
  function PollOne(cfg: Config, s: Shared, tid: nat, ch: Channel, p: Payment, poll: Option<PaymentStatus>,
                   outs: seq<Outcome>): (Shared, bool) {
    if poll != Some(PayPaid) then (s, false)
    else
      var (s', th) := Solo(cfg, s, tid, VerifyTrade(ch, Notify(p.order, p.tradeNo, p.amount)), outs);
      (s', th == Finished(false))
  }

  /** Polling the rows from i on, one after the other, counting those that were applied without an error. */
  function PollAll(cfg: Config, s: Shared, tid: nat, ch: Channel, rows: seq<Payment>, polls: seq<Option<PaymentStatus>>,
                   outs: seq<seq<Outcome>>, i: nat): (Shared, nat)
    requires |polls| >= |rows| && |outs| >= |rows| >= i
    decreases |rows| - i
  {
    if i == |rows| then (s, 0)
    else
      var (s1, ok) := PollOne(cfg, s, tid + i, ch, rows[i], polls[i], outs[i]);
      var (s2, n) := PollAll(cfg, s1, tid, ch, rows, polls, outs, i + 1);
      (s2, n + if ok then 1 else 0)
  }

  /** Polling goes through all the rows in order: there are states, one after each row, such that a row the provider
      does not call paid changes nothing and counts nothing, and one it does is applied to what the rows before it
      left, and counts if that succeeds. */
  lemma {:induction false} PollGoesThrough(cfg: Config, s: Shared, tid: nat, ch: Channel, rows: seq<Payment>,
                                           polls: seq<Option<PaymentStatus>>, outs: seq<seq<Outcome>>, i: nat)
    returns (ss: seq<Shared>, counts: seq<nat>)
    requires |polls| >= |rows| && |outs| >= |rows| >= i
    ensures |ss| == |counts| == |rows| + 1 && ss[i] == s && counts[i] == 0
    ensures PollAll(cfg, s, tid, ch, rows, polls, outs, i) == (ss[|rows|], counts[|rows|])
    ensures forall k :: i <= k < |rows| && polls[k] != Some(PayPaid) ==>
              ss[k + 1] == ss[k] && counts[k + 1] == counts[k]
    ensures forall k :: i <= k < |rows| && polls[k] == Some(PayPaid) ==>
              var n := Notify(rows[k].order, rows[k].tradeNo, rows[k].amount);
              var (s', th) := Solo(cfg, ss[k], tid + k, VerifyTrade(ch, n), outs[k]);
              ss[k + 1] == s' && counts[k + 1] == counts[k] + if th == Finished(false) then 1 else 0
    decreases |rows| - i
  {
    hide Solo;
    if i == |rows| {
      ss, counts := seq(|rows| + 1, _ => s), seq(|rows| + 1, _ => 0);
    } else {
      var (s1, ok) := PollOne(cfg, s, tid + i, ch, rows[i], polls[i], outs[i]);
      var tail, more := PollGoesThrough(cfg, s1, tid, ch, rows, polls, outs, i + 1);
      var one := if ok then 1 else 0;
      ss := tail[i := s];
      counts := seq(|more|, k requires 0 <= k < |more| => if k <= i then 0 else more[k] + one);
    }
  }

  class Payments {
    const cfg: Config
    const db: Database
    const billing: Billing

    ghost predicate Wired() { billing.cfg == cfg && billing.db == db }

    constructor (cfg: Config, db: Database, billing: Billing)
      requires billing.cfg == cfg && billing.db == db
      ensures Wired() && this.cfg == cfg && this.db == db && this.billing == billing
    {
      this.cfg, this.db, this.billing := cfg, db, billing;
    }

    /** CreatePayment: the active attempt of the order on this channel if there is one, otherwise a new one. */
    method CreatePayment(no: string, ch: Channel, mint: Mint, now: int, outs: seq<Outcome>, ghost h: History,
                         ghost tid: nat)
      returns (result: Option<nat>)
      requires Wired() && |outs| >= 5
      modifies db
      ensures var (s, th) := Solo(cfg, Shared(now, old(db.Rows()), h), tid, PayAmount(no, ch, mint), outs);
              db.Rows() == s.db && th == PayDone(result)
      ensures PayServed(cfg, old(db.Rows()), db.Rows(), now, no, ch, mint, outs, result)
    {
      PayAlone(cfg, Shared(now, db.Rows(), h), tid, no, ch, mint, outs);
      hide PayServed;
      hide FindActiveByOrder, Net, Solo;
      PaySteps(cfg, Shared(now, db.Rows(), h), tid, no, ch, mint, outs);
      if outs[0] != Ok || no !in db.orders {
        return None;
      }
      var user, amount := db.orders[no].user, Net(cfg.money, db.orders[no]);
      var found := if outs[1] == Ok then FindActiveByOrder(db.Rows(), no, ch, now) else None;
      if found.Some? && now < db.payments[found.value].expireAt {
        return found;
      }
      result := MintPayment(no, ch, mint, user, amount, now, now + cfg.payTtl, outs[3..], h, tid);
    }

    /** Ask the provider, which leases an address for USDT, then store the attempt. */
    method MintPayment(no: string, ch: Channel, mint: Mint, user: nat, amount: string, now: int, expireAt: int,
                       outs: seq<Outcome>, ghost h: History, ghost tid: nat)
      returns (result: Option<nat>)
      requires |outs| >= 2
      modifies db
      ensures var (s, th) := Solo(cfg, Shared(now, old(db.Rows()), h), tid,
              PayMint(no, ch, mint, user, amount, expireAt), outs);
              db.Rows() == s.db && th == PayDone(result)
    {
      hide AdvanceCreate, AdvanceVerify, AdvancePaid, AdvanceOther;
      hide FindActiveByOrder, NextFree, Tables.Allocate, Tables.InsertPayment, Net;
      ghost var (s1, th1) := Advance(cfg, Shared(now, db.Rows(), h), tid,
          PayMint(no, ch, mint, user, amount, expireAt), outs[0]);
      var address := "";
      if ch == Usdt {
        var lease := db.Allocate(no, outs[0]);
        if lease.None? {
          SoloAfterEnd(cfg, s1, tid, th1, outs[1..]);
          return None;
        }
        address := lease.value;
      } else if outs[0] != Ok {
        SoloAfterEnd(cfg, s1, tid, th1, outs[1..]);
        return None;
      }
      var row := Payment(no, user, ch, TradeAtMint(ch, mint), amount, mint.token, PayPending, address, expireAt);
      ghost var (s2, th2) := Advance(cfg, s1, tid, th1, outs[1]);
      SoloAfterEnd(cfg, s2, tid, th2, outs[1..][1..]);
      result := db.InsertPayment(row, outs[1]);
    }

    /** applyVerified: find the payment by trade number or else the order's active attempt, check the amount,
        mark it paid and its address used, and hand the order to billing. */
    method ApplyVerified(ch: Channel, n: Notify, now: int, outs: seq<Outcome>, ghost h: History, ghost tid: nat)
      returns (failed: bool)
      requires Wired() && |outs| >= 10
      modifies db
      ensures var (s, th) := Solo(cfg, Shared(now, old(db.Rows()), h), tid, VerifyTrade(ch, n), outs);
              db.Rows() == s.db && th == Finished(failed)
      ensures forall i | 0 <= i < |old(db.payments)| && IsFor(old(db.Rows()), ch, n, now, i) ::
                NotifyServed(cfg.money, old(db.Rows()), db.Rows(), now, n, outs, failed, i)
    {
      forall i | 0 <= i < |db.payments| && IsFor(db.Rows(), ch, n, now, i)
        ensures var (s', th) := Solo(cfg, Shared(now, db.Rows(), h), tid, VerifyTrade(ch, n), outs);
                th.Finished? ==> NotifyServed(cfg.money, db.Rows(), s'.db, now, n, outs, th.failed, i)
      {
        VerifyAlone(cfg, Shared(now, db.Rows(), h), tid, ch, n, outs, i);
      }
      hide IsFor, NotifyServed;
      hide AdvanceCreate, AdvancePay, AdvancePaid, AdvanceOther;
      hide FindByTradeNo, FindActiveByOrder, Tables.UpdateTradeNo, Tables.MarkPaid, Tables.MarkUsed, AfterLookup;
      ghost var (s1, th1) := Advance(cfg, Shared(now, db.Rows(), h), tid, VerifyTrade(ch, n), outs[0]);
      var hit := if outs[0] == Ok then FindByTradeNo(db.Rows(), ch, n.tradeNo) else None;
      if hit.Some? {
        failed := Confirm(ch, n, hit.value, db.payments[hit.value], now, outs[1..], h, tid);
      } else if n.order == "" {
        SoloAfterEnd(cfg, s1, tid, th1, outs[1..]);
        failed := true;
      } else {
        failed := ApplyToActive(ch, n, now, outs[1..], h, tid);
      }
    }

    /** The fallback by order number: the trade number is noted on the active attempt. */
    method ApplyToActive(ch: Channel, n: Notify, now: int, outs: seq<Outcome>, ghost h: History, ghost tid: nat)
      returns (failed: bool)
      requires Wired() && |outs| >= 9
      modifies db
      ensures var (s, th) := Solo(cfg, Shared(now, old(db.Rows()), h), tid, VerifyActive(ch, n), outs);
              db.Rows() == s.db && th == Finished(failed)
    {
      hide FindActiveByOrder, Tables.UpdateTradeNo, AfterLookup, Solo;
      ActiveSteps(cfg, Shared(now, db.Rows(), h), tid, ch, n, outs);
      var hit := if outs[0] == Ok then FindActiveByOrder(db.Rows(), n.order, ch, now) else None;
      if hit.None? {
        return true;
      }
      var p := db.payments[hit.value];
      db.UpdateTradeNo(hit.value, n.tradeNo, outs[1]);
      failed := Confirm(ch, n, hit.value, p, now, outs[2..], h, tid);
    }

    /** From the found payment on: p is the row as it was read. */
    method Confirm(ch: Channel, n: Notify, pid: nat, p: Payment, now: int, outs: seq<Outcome>, ghost h: History,
                   ghost tid: nat)
      returns (failed: bool)
      requires Wired() && |outs| >= 7
      modifies db
      ensures var (s, th) := Solo(cfg, Shared(now, old(db.Rows()), h), tid, AfterLookup(cfg, ch, n, pid, p), outs);
              db.Rows() == s.db && th == Finished(failed)
    {
      hide Tables.MarkPaid, Tables.MarkUsed, Solo, Advance;
      ghost var s, th := Shared(now, db.Rows(), h), AfterLookup(cfg, ch, n, pid, p);
      if p.status == PayPaid {
        SoloAfterEnd(cfg, s, tid, th, outs);
        return false;
      }
      if !cfg.money.same(p.amount, n.amount) {
        SoloAfterEnd(cfg, s, tid, th, outs);
        return true;
      }
      failed := Accept(ch, n, pid, p, now, outs, h, tid);
    }

    /** The payment is pending and the amounts agree. */
    method Accept(ch: Channel, n: Notify, pid: nat, p: Payment, now: int, outs: seq<Outcome>, ghost h: History,
                  ghost tid: nat)
      returns (failed: bool)
      requires Wired() && |outs| >= 7
      modifies db
      ensures var (s, th) := Solo(cfg, Shared(now, old(db.Rows()), h), tid, VerifyMark(ch, n, pid, p), outs);
              db.Rows() == s.db && th == Finished(failed)
    {
      hide Tables.MarkPaid, Tables.MarkUsed, Solo, Advance;
      ConfirmSteps(cfg, Shared(now, db.Rows(), h), tid, VerifyMark(ch, n, pid, p), outs);
      var ok := db.MarkPaid(pid, n.tradeNo, outs[0]);
      if !ok {
        return true;
      }
      ghost var via := Through(pid, ch, n);
      if p.address != "" {
        db.MarkUsed(p.address, outs[1]);
        failed := billing.HandlePaid(p.order, n.tradeNo, now, outs[2..], via, h, tid);
      } else {
        failed := billing.HandlePaid(p.order, n.tradeNo, now, outs[1..], via, h, tid);
      }
    }

    /** HandleNotify: a webhook that does not verify is an error, one that reports no success is ignored. */
    method HandleNotify(ch: Channel, verified: Option<Notify>, success: bool, now: int, outs: seq<Outcome>,
                        ghost h: History, ghost tid: nat)
      returns (failed: bool)
      requires Wired() && |outs| >= 10
      modifies db
      ensures verified.None? || !success ==> db.Rows() == old(db.Rows()) && failed == verified.None?
      ensures verified.Some? && success ==>
                var (s, th) := Solo(cfg, Shared(now, old(db.Rows()), h), tid, VerifyTrade(ch, verified.value), outs);
                db.Rows() == s.db && th == Finished(failed)
      ensures verified.Some? && success ==>
                forall i | 0 <= i < |old(db.payments)| && IsFor(old(db.Rows()), ch, verified.value, now, i) ::
                  NotifyServed(cfg.money, old(db.Rows()), db.Rows(), now, verified.value, outs, failed, i)
    {
      hide Advance, IsFor, NotifyServed;
      if verified.None? {
        return true;
      }
      if !success {
        return false;
      }
      failed := ApplyVerified(ch, verified.value, now, outs, h, tid);
    }

    /** ReconcileChannel: poll our pending payments and apply those the provider calls paid. */
    method ReconcileChannel(ch: Channel, limit: int, polls: seq<Option<PaymentStatus>>, now: int,
                            outs: seq<seq<Outcome>>,
                            ghost h: History, ghost tid: nat)
      returns (updated: nat)
      requires Wired() && forall i :: 0 <= i < |outs| ==> |outs[i]| >= 10
      requires var rows := ListPending(db.payments, ch, if limit <= 0 then 50 else limit);
               |polls| >= |rows| && |outs| >= |rows|
      modifies db
      ensures var rows := ListPending(old(db.payments), ch, if limit <= 0 then 50 else limit);
              var (s, n) := PollAll(cfg, Shared(now, old(db.Rows()), h), tid, ch, rows, polls, outs, 0);
              db.Rows() == s.db && updated == n
    {
      hide Advance;
      var rows := ListPending(db.payments, ch, if limit <= 0 then 50 else limit);
      updated := PollRows(ch, rows, polls, now, outs, Shared(now, db.Rows(), h), tid);
    }

    method PollRows(ch: Channel, rows: seq<Payment>, polls: seq<Option<PaymentStatus>>, now: int,
                    outs: seq<seq<Outcome>>,
                    ghost s0: Shared, ghost tid: nat)
      returns (updated: nat)
      requires Wired() && |polls| >= |rows| && |outs| >= |rows| && forall i :: 0 <= i < |outs| ==> |outs[i]| >= 10
      requires s0.now == now && s0.db == db.Rows()
      modifies db
      ensures PollAll(cfg, s0, tid, ch, rows, polls, outs, 0).1 == updated
      ensures db.Rows() == PollAll(cfg, s0, tid, ch, rows, polls, outs, 0).0.db
    {
      hide Advance;
      updated := 0;
      ghost var s := s0;
      ghost var all := PollAll(cfg, s, tid, ch, rows, polls, outs, 0);
      for i := 0 to |rows|
        invariant s.now == now && s.db == db.Rows()
        invariant all.0 == PollAll(cfg, s, tid, ch, rows, polls, outs, i).0
        invariant all.1 == updated + PollAll(cfg, s, tid, ch, rows, polls, outs, i).1
      {
        var ok := Poll(ch, rows[i], polls[i], now, outs[i], s, tid + i);
        s := PollOne(cfg, s, tid + i, ch, rows[i], polls[i], outs[i]).0;
        if ok {
          updated := updated + 1;
        }
      }
    }

    method Poll(ch: Channel, p: Payment, poll: Option<PaymentStatus>, now: int, outs: seq<Outcome>, ghost s: Shared,
                ghost tid: nat)
      returns (ok: bool)
      requires Wired() && |outs| >= 10 && s.now == now && s.db == db.Rows()
      modifies db
      ensures var (s', r) := PollOne(cfg, s, tid, ch, p, poll, outs); db.Rows() == s'.db && s'.now == now && ok == r
    {
      hide Advance;
      if poll != Some(PayPaid) {
        return false;
      }
      var n := Notify(p.order, p.tradeNo, p.amount);
      SoloClock(cfg, s, tid, VerifyTrade(ch, n), outs);
      var failed := ApplyVerified(ch, n, now, outs, s.hist, tid);
      ok := !failed;
    }

    /** USDTReceived: the newest pending payment of the address, settled under the transaction's hash. */
    method UsdtReceived(address: string, token: Option<int>, tx: string, now: int, outs: seq<Outcome>,
                        ghost h: History, ghost tid: nat)
      returns (failed: bool)
      requires Wired() && |outs| >= 11
      modifies db
      ensures var (s, th) := Solo(cfg, Shared(now, old(db.Rows()), h), tid, TransferLookup(address, token, tx), outs);
              db.Rows() == s.db && th == Finished(failed)
      ensures TransferServed(cfg, Shared(now, old(db.Rows()), h), tid, address, token, tx, outs, db.Rows(), failed)
    {
      TransferAlone(cfg, Shared(now, db.Rows(), h), tid, address, token, tx, outs);
      TransferSteps(cfg, Shared(now, db.Rows(), h), tid, address, token, tx, outs);
      hide TransferServed, Solo, FindByAddress, IsFor, NotifyServed, Advance;
      var hit := if outs[0] == Ok then FindByAddress(db.Rows(), Usdt, address, token) else None;
      if hit.None? {
        return true;
      }
      var p := db.payments[hit.value];
      failed := ApplyVerified(Usdt, Notify(p.order, tx, p.amount), now, outs[1..], h, tid);
    }

    method ExpireOldPending(now: int, outs: seq<Outcome>, ghost h: History, ghost tid: nat) returns (failed: bool)
      requires |outs| >= 2
      modifies db
      ensures var (s, th) := Solo(cfg, Shared(now, old(db.Rows()), h), tid, PaymentSweepClock, outs);
              db.Rows() == s.db && th == Finished(failed)
      ensures PaymentsSwept(old(db.Rows()), db.Rows(), now) || (failed && db.Rows() == old(db.Rows()))
      ensures outs[1] == Ok ==> !failed
    {
      hide AdvanceCreate, AdvancePay, AdvanceVerify, AdvancePaid;
      ghost var (s1, th1) := Advance(cfg, Shared(now, db.Rows(), h), tid, PaymentSweepClock, outs[0]);
      ghost var (s2, th2) := Advance(cfg, s1, tid, th1, outs[1]);
      SoloAfterEnd(cfg, s2, tid, th2, outs[1..][1..]);
      var ok := db.ExpirePayments(now, outs[1]);
      failed := !ok;
    }
  }
}
