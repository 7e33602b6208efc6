/** CreateOrder is idempotent over (user, key): any number of concurrent calls, interleaved at every lookup,
    insert and refetch, with lookup errors swallowed and inserts that may fail or be misreported. */
module Idempotency {
  import opened Wrappers
  import opened Tables
  import opened Machine
  import opened Growth

  /** The unique index and the rows describe each other. */
  ghost predicate Indexed(db: Db) {
    && (forall k :: k in db.idem ==>
          db.idem[k] in db.orders && (db.orders[db.idem[k]].user, db.orders[db.idem[k]].key) == k)
    && (forall no :: no in db.orders ==>
          (db.orders[no].user, db.orders[no].key) in db.idem && db.idem[(db.orders[no].user, db.orders[no].key)] == no)
  }

  /** Entries of the index stay. */
  ghost predicate IndexGrows(a: Db, b: Db) {
    forall k :: k in a.idem ==> k in b.idem && b.idem[k] == a.idem[k]
  }

  /** A call that returned an order returned the indexed one. */
  predicate Answered(db: Db, th: Thread) {
    th.CreateDone? && th.result.Some? ==> (th.user, th.key) in db.idem && db.idem[(th.user, th.key)] == th.result.value
  }

  ghost predicate Sound(w: World) {
    Indexed(w.s.db) && forall t :: t in w.threads ==> Answered(w.s.db, w.threads[t])
  }

  lemma CreateSound(cfg: Config, s: Shared, th: Thread, out: Outcome)
    requires th.CreateLookup? || th.CreateClock? || th.CreateInsert? || th.CreateRefetch?
    requires Indexed(s.db)
    ensures var (s', th') := AdvanceCreate(cfg, s, th, out);
            Indexed(s'.db) && IndexGrows(s.db, s'.db) && Answered(s'.db, th')
  {
  }

  lemma UpdateKeepsIndex(db: Db, no: string, status: OrderStatus, paidAt: Option<int>, paid: string, channelNo: string)
    requires Indexed(db)
    ensures Indexed(UpdateOrder(db, no, status, paidAt, paid, channelNo))
    ensures UpdateOrder(db, no, status, paidAt, paid, channelNo).idem == db.idem
  {
  }

  lemma PaidSound(cfg: Config, s: Shared, tid: nat, th: Thread, out: Outcome)
    requires PaidPhase(th) && Indexed(s.db)
    ensures var (s', th') := AdvancePaid(cfg, s, tid, th, out);
            Indexed(s'.db) && IndexGrows(s.db, s'.db) && Answered(s'.db, th')
  {
    hide UpdateOrder;
    if th.PaidUpdate? { UpdateKeepsIndex(s.db, th.no, Paid, Some(th.paidAt), Net(cfg.money, th.order), th.tradeNo); }
  }

  lemma OtherSound(s: Shared, th: Thread, out: Outcome)
    requires OtherPhase(th) && Indexed(s.db)
    ensures var (s', th') := AdvanceOther(s, th, out);
            Indexed(s'.db) && IndexGrows(s.db, s'.db) && Answered(s'.db, th')
  {
    hide UpdateOrder;
    if th.CancelUpdate? { UpdateKeepsIndex(s.db, th.no, Cancelled, None, th.order.paid, ""); }
  }

  lemma AdvanceSound(cfg: Config, s: Shared, tid: nat, th: Thread, out: Outcome)
    requires Indexed(s.db) && Answered(s.db, th)
    ensures var (s', th') := Advance(cfg, s, tid, th, out);
            Indexed(s'.db) && IndexGrows(s.db, s'.db) && Answered(s'.db, th')
  {
    hide AdvanceCreate, AdvancePay, AdvanceVerify, AdvancePaid, AdvanceOther;
    if th.CreateLookup? || th.CreateClock? || th.CreateInsert? || th.CreateRefetch? { CreateSound(cfg, s, th, out); }
    else if PayPhase(th) || VerifyPhase(th) { PaymentSideKeepsOrders(cfg, s, tid, th, out); }
    else if PaidPhase(th) { PaidSound(cfg, s, tid, th, out); }
    else if OtherPhase(th) { OtherSound(s, th, out); }
  }

  lemma StepSound(w: World, e: Event)
    requires Sound(w)
    ensures Sound(Step(w, e)) && IndexGrows(w.s.db, Step(w, e).s.db)
  {
    hide Advance;
    match e
    case AddAddresses(addrs) => SeedFrame(w.s.db, addrs);
    case Run(tid, out) => if tid in w.threads { AdvanceSound(w.cfg, w.s, tid, w.threads[tid], out); }
    case _ =>
  }

  lemma {:induction false} RunSound(w: World, evs: seq<Event>)
    requires Sound(w)
    ensures Sound(RunAll(w, evs)) && IndexGrows(w.s.db, RunAll(w, evs).s.db)
    decreases |evs|
  {
    if evs != [] {
      StepSound(w, evs[0]);
      RunSound(Step(w, evs[0]), evs[1..]);
    }
  }

  /** Two orders never share a user and key. */
  lemma AtMostOneOrderPerKey(cfg: Config, evs: seq<Event>, a: string, b: string)
    requires var db := RunAll(Init(cfg), evs).s.db;
             a in db.orders && b in db.orders && db.orders[a].user == db.orders[b].user &&
                 db.orders[a].key == db.orders[b].key
    ensures a == b
  {
    RunSound(Init(cfg), evs);
  }

  /** Every call that ever returns an order for a user and key, at whatever two points of the run,
      returns one and the same order, and it is that user's order under that key. */
  lemma CallsAgree(cfg: Config, evs: seq<Event>, more: seq<Event>, t: nat, u: nat)
    requires var w := RunAll(Init(cfg), evs);
             t in w.threads && w.threads[t].CreateDone? && w.threads[t].result.Some?
    requires var w' := RunAll(RunAll(Init(cfg), evs), more);
             u in w'.threads && w'.threads[u].CreateDone? && w'.threads[u].result.Some?
    requires var th := RunAll(Init(cfg), evs).threads[t]; var th' := RunAll(RunAll(Init(cfg), evs), more).threads[u];
             th.user == th'.user && th.key == th'.key
    ensures var th := RunAll(Init(cfg), evs).threads[t]; var w' := RunAll(RunAll(Init(cfg), evs), more);
            th.result == w'.threads[u].result && th.result.value in w'.s.db.orders
            && w'.s.db.orders[th.result.value].user == th.user && w'.s.db.orders[th.result.value].key == th.key
  {
    RunSound(Init(cfg), evs);
    RunSound(RunAll(Init(cfg), evs), more);
  }
}
