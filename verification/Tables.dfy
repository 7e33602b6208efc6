/** The rows behind billing and payment, and each repository call as one atomic step on them
    with the guard its WHERE clause carries. */
module Tables {
  import opened Wrappers
  import Decimal
  import Amounts

  datatype Channel = Alipay | Wechat | Usdt | Mock

  datatype OrderStatus = Pending | Paid | Cancelled | Expired

  datatype PaymentStatus = PayPending | PayPaid | PayExpired

  /** What an order buys: the snapshot taken when the order was created. */
  datatype Item =
    | PlanItem(plan: nat, days: nat, gb: nat, devices: nat)
    | PackItem(packGb: nat, packDays: nat, mode: int)
    | TopupItem

  datatype Order = Order(user: nat, key: string, item: Item, amount: string, discount: string, paid: string,
                         coupon: string, status: OrderStatus, expireAt: int, paidAt: Option<int>, channelNo: string)

  datatype Payment = Payment(order: string, user: nat, channel: Channel, tradeNo: string, amount: string,
                             token: int, status: PaymentStatus, address: string, expireAt: int)

  datatype LeaseStatus = Free | Allocated | Used

  datatype Lease = Lease(address: string, status: LeaseStatus, order: string)

  datatype Coupon = Coupon(quota: nat, used: nat)

  datatype User = User(plan: Option<nat>, planExpire: Option<int>, total: nat, used: nat, devices: nat, balance: int)

  /** orders is keyed by its unique order number; idem is the unique index on (user, idempotency key);
      payments and pool are in primary-key order. */
  datatype Db = Db(orders: map<string, Order>, idem: map<(nat, string), string>, payments: seq<Payment>,
                   pool: seq<Lease>, coupons: map<string, Coupon>, users: map<nat, User>)

  // ----- amounts -----------------------------------------------------------

  /** How the services handle amount text: amount less discount, the equality test on a notified amount,
      and the cents a decimal column adds. */
  datatype Money = Money(net: (string, string) -> string, same: (string, string) -> bool, cents: string -> int)

  /** The functions the services use. */
  function SourceMoney(): Money {
    Money((a, d) => Decimal.FloatString(Decimal.Parse(a) - Decimal.Parse(d), 2),
          (a, b) => Amounts.CnyAmountEq(a, b),
          s => Amounts.ExactCents(s))
  }

  function Net(m: Money, o: Order): string { m.net(o.amount, o.discount) }

  // ----- picking rows --------------------------------------------------------

  function FirstMatch<T>(rows: seq<T>, p: T -> bool): (r: Option<nat>)
    ensures r.Some? ==> r.value < |rows| && p(rows[r.value]) && forall j :: 0 <= j < r.value ==> !p(rows[j])
    ensures r.None? ==> forall j :: 0 <= j < |rows| ==> !p(rows[j])
  {
    if rows == [] then None
    else if p(rows[0]) then Some(0)
    else match FirstMatch(rows[1..], p) case Some(i) => Some(i + 1) case None => None
  }

  function LastMatch<T>(rows: seq<T>, p: T -> bool): (r: Option<nat>)
    ensures r.Some? ==> r.value < |rows| && p(rows[r.value]) && forall j :: r.value < j < |rows| ==> !p(rows[j])
    ensures r.None? ==> forall j :: 0 <= j < |rows| ==> !p(rows[j])
  {
    if rows == [] then None
    else
      var n := |rows| - 1;
      if p(rows[n]) then Some(n) else LastMatch(rows[..n], p)
  }

  // ----- orders ------------------------------------------------------------------

  function FindByIdempotency(db: Db, user: nat, key: string): Option<string> {
    if (user, key) in db.idem then Some(db.idem[(user, key)]) else None
  }

  /** Insert; refused by the unique indexes on the order number and on (user, key). */
  function InsertOrder(db: Db, no: string, o: Order): Option<Db> {
    if no in db.orders || (o.user, o.key) in db.idem then None
    else Some(db.(orders := db.orders[no := o], idem := db.idem[(o.user, o.key) := no]))
  }

  /** UpdateStatus: no guard on the present status. */
  function UpdateOrder(db: Db, no: string, status: OrderStatus, paidAt: Option<int>, paid: string,
                       channelNo: string): Db {
    if no !in db.orders then db
    else
      var o := db.orders[no];
      db.(orders := db.orders[no := o.(status := status, paid := paid,
          paidAt := if paidAt.Some? then paidAt else o.paidAt,
          channelNo := if channelNo != "" then channelNo else o.channelNo)])
  }

  predicate OrderLapses(o: Order, before: int) { o.status == Pending && o.expireAt < before }

  function ExpireOrders(db: Db, before: int): Db {
    db.(orders := map no | no in db.orders ::
        if OrderLapses(db.orders[no], before) then db.orders[no].(status := Expired) else db.orders[no])
  }

  // ----- payments ------------------------------------------------------------------

  function FindActiveByOrder(db: Db, no: string, ch: Channel, now: int): (r: Option<nat>)
    ensures r.Some? ==> r.value < |db.payments|
    ensures r.Some? ==> db.payments[r.value].order == no && db.payments[r.value].channel == ch
    ensures r.Some? ==> db.payments[r.value].status == PayPending && db.payments[r.value].expireAt > now
  {
    LastMatch(db.payments, (p: Payment) => p.order == no && p.channel == ch && p.status == PayPending &&
        p.expireAt > now)
  }

  function FindByTradeNo(db: Db, ch: Channel, tradeNo: string): (r: Option<nat>)
    ensures r.Some? ==> r.value < |db.payments| && tradeNo != ""
    ensures r.Some? ==> db.payments[r.value].channel == ch && db.payments[r.value].tradeNo == tradeNo
  {
    if tradeNo == "" then None
    else FirstMatch(db.payments, (p: Payment) => p.channel == ch && p.tradeNo == tradeNo)
  }

  /** Newest pending payment of the address, narrowed by the token amount when one is given. */
  function FindByAddress(db: Db, ch: Channel, address: string, token: Option<int>): (r: Option<nat>)
    ensures r.Some? ==> r.value < |db.payments|
    ensures r.Some? ==> db.payments[r.value].channel == ch && db.payments[r.value].address == address
    ensures r.Some? ==> db.payments[r.value].status == PayPending
  {
    LastMatch(db.payments, (p: Payment) => p.channel == ch && p.address == address && p.status == PayPending
                                           && (token.None? || token.value == p.token))
  }

  /** Pending payments of the channel that have a trade number, newest first, at most limit of them. */
  function ListPending(rows: seq<Payment>, ch: Channel, limit: nat): (r: seq<Payment>)
    ensures |r| <= limit
    ensures forall i :: 0 <= i < |r| ==>
              r[i] in rows && r[i].channel == ch && r[i].status == PayPending && r[i].tradeNo != ""
  {
    if rows == [] || limit == 0 then []
    else
      var n := |rows| - 1;
      if rows[n].channel == ch && rows[n].status == PayPending && rows[n].tradeNo != ""
      then [rows[n]] + ListPending(rows[..n], ch, limit - 1)
      else ListPending(rows[..n], ch, limit)
  }

  /** The unique index on (channel, trade number): a row other than pid holds the entry. A trade number not yet assigned
      is stored as the empty text, not as NULL, so it takes part. */
  predicate TradeTaken(db: Db, pid: nat, ch: Channel, tradeNo: string) {
    exists i :: 0 <= i < |db.payments| && i != pid && db.payments[i].channel == ch && db.payments[i].tradeNo == tradeNo
  }

  /** Insert; refused by the unique index. */
  function InsertPayment(db: Db, p: Payment): Option<Db> {
    if TradeTaken(db, |db.payments|, p.channel, p.tradeNo) then None else Some(db.(payments := db.payments + [p]))
  }

  /** MarkPaid is guarded by the pending status; no row matching is not an error, an entry already taken is. */
  predicate MarkRefused(db: Db, pid: nat, tradeNo: string) {
    pid < |db.payments| && db.payments[pid].status == PayPending &&
    TradeTaken(db, pid, db.payments[pid].channel, tradeNo)
  }

  function MarkPaid(db: Db, pid: nat, tradeNo: string): Db {
    if pid < |db.payments| && db.payments[pid].status == PayPending && !MarkRefused(db, pid, tradeNo)
    then db.(payments := db.payments[pid := db.payments[pid].(status := PayPaid, tradeNo := tradeNo)])
    else db
  }

  /** UpdateTradeNo, whose error nobody reads; refused by the unique index. */
  function UpdateTradeNo(db: Db, pid: nat, tradeNo: string): Db {
    if pid < |db.payments| && !TradeTaken(db, pid, db.payments[pid].channel, tradeNo)
    then db.(payments := db.payments[pid := db.payments[pid].(tradeNo := tradeNo)])
    else db
  }

  predicate PaymentLapses(p: Payment, before: int) { p.status == PayPending && p.expireAt <= before }

  function ExpirePayments(db: Db, before: int): Db {
    db.(payments := seq(|db.payments|, i requires 0 <= i < |db.payments| =>
        if PaymentLapses(db.payments[i], before) then db.payments[i].(status := PayExpired) else db.payments[i]))
  }

  // ----- address pool ---------------------------------------------------------------

  /** The free lease with the lowest id, if any. */
  function NextFree(db: Db): (r: Option<nat>)
    ensures r.Some? ==> r.value < |db.pool| && db.pool[r.value].status == Free
  {
    FirstMatch(db.pool, (l: Lease) => l.status == Free)
  }

  function Allocate(db: Db, i: nat, no: string): Db
    requires i < |db.pool|
  {
    db.(pool := db.pool[i := db.pool[i].(status := Allocated, order := no)])
  }

  /** MarkUsed: by address alone, whatever the present status. */
  function MarkUsed(db: Db, address: string): Db {
    db.(pool := seq(|db.pool|, i requires 0 <= i < |db.pool| =>
        if db.pool[i].address == address then db.pool[i].(status := Used) else db.pool[i]))
  }

  predicate InPool(db: Db, address: string) { exists i :: 0 <= i < |db.pool| && db.pool[i].address == address }

  /** Seed: addresses already there are skipped. */
  function Seed(db: Db, addrs: seq<string>): Db
    decreases |addrs|
  {
    if addrs == [] then db
    else Seed(SeedOne(db, addrs[0]), addrs[1..])
  }

  function SeedOne(db: Db, address: string): Db {
    if InPool(db, address) then db else db.(pool := db.pool + [Lease(address, Free, "")])
  }

  // ----- coupons and users --------------------------------------------------------------

  /** FindByCode then IncrementUsage, which refuses an exhausted quota. */
  function BumpCoupon(db: Db, code: string): Db {
    if code in db.coupons && (db.coupons[code].quota == 0 || db.coupons[code].used < db.coupons[code].quota)
    then db.(coupons := db.coupons[code := db.coupons[code].(used := db.coupons[code].used + 1)])
    else db
  }

  function DaySeconds(days: nat): int { days * 86400 }

  function GibBytes(gb: nat): nat { gb * 1073741824 }

  /** Stack on an expiry that is still ahead, otherwise start now. */
  function Base(expire: Option<int>, now: int): int {
    if expire.Some? && expire.value > now then expire.value else now
  }

  /** ApplyPlan / ApplyPack / ApplyTopup on a user row. */
  function Applied(u: User, item: Item, cents: int, now: int): User {
    match item
    case PlanItem(plan, days, gb, devices) =>
      var base := if u.plan == Some(plan) then Base(u.planExpire, now) else now;
      u.(plan := Some(plan), planExpire := Some(base + DaySeconds(days)), total := GibBytes(gb), used := 0,
          devices := devices)
    case PackItem(gb, days, mode) =>
      var v := u.(total := u.total + GibBytes(gb));
      if mode == 2 then v.(planExpire := Some(Base(u.planExpire, now) + DaySeconds(days))) else v
    case TopupItem => u.(balance := u.balance + cents)
  }

  function ApplyEffects(m: Money, db: Db, o: Order, now: int): Db {
    if o.user in db.users
    then db.(users := db.users[o.user := Applied(db.users[o.user], o.item, m.cents(Net(m, o)), now)])
    else db
  }
}
