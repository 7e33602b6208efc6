/** USDT transfers and the orders they settle: a transfer settles the order its own address was leased to, on every
    run, exactly when no transaction pays two addresses. */
module Routing {
  import opened Wrappers
  import opened Tables
  import opened Machine
  import opened Growth
  import opened Scenario
  import opened Addresses
  import Ttl

  /** A transfer to an address, observed under a transaction that pays it, on a thread of its own. */
  datatype Transfer = Transfer(tid: nat, address: string, token: Option<int>, tx: string)

  function Observed(x: Transfer): Event { Spawn(x.tid, TransferLookup(x.address, x.token, x.tx)) }

  ghost predicate Observable(cfg: Config, before: seq<Event>, x: Transfer) {
    x.tid !in RunAll(Init(cfg), before).threads && CanStart(cfg, TransferLookup(x.address, x.token, x.tx))
  }

  function Afterwards(cfg: Config, before: seq<Event>, x: Transfer, after: seq<Event>): World {
    RunAll(Step(RunAll(Init(cfg), before), Observed(x)), after)
  }

  /** If the transfer's thread is about to settle an order, the transfer's address was leased to that very order. */
  ghost predicate SettlesItsLease(cfg: Config, before: seq<Event>, x: Transfer, after: seq<Event>) {
    Observable(cfg, before, x) ==>
      var w := Afterwards(cfg, before, x, after);
      x.tid in w.threads && w.threads[x.tid].PaidUpdate? ==> LeasedTo(w.s.db, x.address, w.threads[x.tid].no)
  }

  ghost predicate AlwaysOnLease(cfg: Config) { forall before, x, after :: SettlesItsLease(cfg, before, x, after) }

  /** No transaction pays two addresses: distinct transfers have distinct transaction hashes. */
  ghost predicate OneAddressEach(cfg: Config) {
    forall tx, a, b :: tx != "" && a in PaysTo(cfg, tx) && b in PaysTo(cfg, tx) ==> a == b
  }

  // ----- what a transfer's thread carries ------------------------------------------------------

  predicate OfTransfer(ch: Channel, n: Notify, tx: string) { ch == Usdt && n.tradeNo == tx }

  predicate ViaTransfer(via: Via, tx: string) { via.Through? && OfTransfer(via.channel, via.n, tx) }

  predicate Carries(th: Thread, tx: string) {
    match th
    case TransferLookup(_, _, x) => x == tx
    case VerifyTrade(ch, n) => OfTransfer(ch, n, tx)
    case VerifyActive(ch, n) => OfTransfer(ch, n, tx)
    case VerifySetTrade(ch, n, _, _) => OfTransfer(ch, n, tx)
    case VerifyMark(ch, n, _, _) => OfTransfer(ch, n, tx)
    case VerifyUse(ch, n, _, _) => OfTransfer(ch, n, tx)
    case PaidLookup(_, _, via) => ViaTransfer(via, tx)
    case PaidCheck(_, _, via, _) => ViaTransfer(via, tx)
    case PaidUpdate(_, _, via, _, _) => ViaTransfer(via, tx)
    case PaidCoupon(_, _) => true
    case PaidApply(_, _) => true
    case Finished(_) => true
    case _ => false
  }

  lemma LookupCarries(cfg: Config, s: Shared, th: Thread, out: Outcome, tx: string)
    requires (th.TransferLookup? || th.VerifyTrade? || th.VerifyActive?) && Carries(th, tx)
    ensures Carries(AdvanceVerify(cfg, s, th, out).1, tx)
  {
    hide FindByAddress, FindByTradeNo, FindActiveByOrder;
  }

  lemma MarkCarries(cfg: Config, s: Shared, th: Thread, out: Outcome, tx: string)
    requires (th.VerifySetTrade? || th.VerifyMark? || th.VerifyUse?) && Carries(th, tx)
    ensures Carries(AdvanceVerify(cfg, s, th, out).1, tx)
  {
  }

  lemma PaidCarries(cfg: Config, s: Shared, tid: nat, th: Thread, out: Outcome, tx: string)
    requires PaidPhase(th) && Carries(th, tx)
    ensures Carries(AdvancePaid(cfg, s, tid, th, out).1, tx)
  {
  }

  lemma StepCarries(w: World, e: Event, t: nat, tx: string)
    requires t in w.threads && Carries(w.threads[t], tx)
    ensures t in Step(w, e).threads && Carries(Step(w, e).threads[t], tx)
  {
    hide AdvanceCreate, AdvancePay, AdvanceVerify, AdvancePaid, AdvanceOther;
    if e.Run? && e.tid == t {
      var th := w.threads[t];
      if th.TransferLookup? || th.VerifyTrade? || th.VerifyActive? { LookupCarries(w.cfg, w.s, th, e.out, tx); }
      else if VerifyPhase(th) { MarkCarries(w.cfg, w.s, th, e.out, tx); }
      else if PaidPhase(th) { PaidCarries(w.cfg, w.s, t, th, e.out, tx); }
    }
  }

  lemma {:induction false} RunCarries(w: World, evs: seq<Event>, t: nat, tx: string)
    requires t in w.threads && Carries(w.threads[t], tx)
    ensures t in RunAll(w, evs).threads && Carries(RunAll(w, evs).threads[t], tx)
    decreases |evs|
  {
    hide Step, Carries;
    if evs != [] {
      StepCarries(w, evs[0], t, tx);
      RunCarries(Step(w, evs[0]), evs[1..], t, tx);
    }
  }

  lemma TransferCarries(cfg: Config, before: seq<Event>, x: Transfer, after: seq<Event>)
    requires Observable(cfg, before, x)
    ensures var w := Afterwards(cfg, before, x, after); x.tid in w.threads && Carries(w.threads[x.tid], x.tx)
  {
    RunGrows(Init(cfg), before);
    RunCarries(Step(RunAll(Init(cfg), before), Observed(x)), after, x.tid, x.tx);
  }

  // ----- one address per transaction -------------------------------------------------------------

  /** When every transaction pays one address, a transfer settles an order only if its address was leased to that order,
      and to no other, whichever attempt of the order gets credited. */
  lemma TransferSettlesItsLease(cfg: Config, before: seq<Event>, x: Transfer, after: seq<Event>, other: string)
    requires OneAddressEach(cfg) && Observable(cfg, before, x)
    requires var w := Afterwards(cfg, before, x, after); x.tid in w.threads && w.threads[x.tid].PaidUpdate?
    ensures var w := Afterwards(cfg, before, x, after);
            && LeasedTo(w.s.db, x.address, w.threads[x.tid].no)
            && (LeasedTo(w.s.db, x.address, other) ==> other == w.threads[x.tid].no)
  {
    var w := Afterwards(cfg, before, x, after);
    TransferCarries(cfg, before, x, after);
    RunIsolated(Init(cfg), before);
    StepIsolated(RunAll(Init(cfg), before), Observed(x));
    RunIsolated(Step(RunAll(Init(cfg), before), Observed(x)), after);
    assert ThreadOk(cfg, w.s, x.tid, w.threads[x.tid]);
    var no := w.threads[x.tid].no;
    var a :| a in PaysTo(cfg, x.tx) && LeasedTo(w.s.db, a, no);
    assert a == x.address;
    if LeasedTo(w.s.db, x.address, other) { LeaseUnique(w.s.db, x.address, other, no); }
  }

  // ----- deployments in which no USDT payment is ever live ------------------------------------------

  predicate Unreached(s: Shared, th: Thread) {
    match th
    case PayMint(_, _, _, _, _, expireAt) => expireAt <= s.now
    case PayInsert(row) => row.expireAt <= s.now && (row.channel == Usdt ==> row.tradeNo == "")
    case VerifySetTrade(ch, _, pid, _) => ch != Usdt && pid < |s.db.payments| && s.db.payments[pid].channel == ch
    case VerifyMark(ch, _, pid, _) => ch != Usdt && pid < |s.db.payments| && s.db.payments[pid].channel == ch
    case VerifyUse(ch, _, _, _) => ch != Usdt
    case PaidLookup(_, _, via) => via.Through? ==> via.channel != Usdt
    case PaidCheck(_, _, via, _) => via.Through? ==> via.channel != Usdt
    case PaidUpdate(_, _, via, _, _) => via.Through? ==> via.channel != Usdt
    case _ => true
  }

  predicate Untraded(s: Shared, p: Payment) { p.expireAt <= s.now && (p.channel == Usdt ==> p.tradeNo == "") }

  ghost predicate RowsUntraded(s: Shared) { forall i :: 0 <= i < |s.db.payments| ==> Untraded(s, s.db.payments[i]) }

  ghost predicate Stale(w: World) {
    RowsUntraded(w.s) && forall t :: t in w.threads ==> Unreached(w.s, w.threads[t])
  }

  lemma PayStale(cfg: Config, s: Shared, tid: nat, th: Thread, out: Outcome)
    requires cfg.payTtl <= 0 && PayPhase(th) && RowsUntraded(s) && Unreached(s, th)
    ensures var (s', th') := AdvancePay(cfg, s, tid, th, out); RowsUntraded(s') && Unreached(s', th')
  {
  }

  lemma VerifyRowsStale(cfg: Config, s: Shared, th: Thread, out: Outcome)
    requires VerifyPhase(th) && RowsUntraded(s) && Unreached(s, th)
    ensures RowsUntraded(AdvanceVerify(cfg, s, th, out).0)
  {
  }

  lemma LookupStale(cfg: Config, s: Shared, th: Thread, out: Outcome)
    requires (th.TransferLookup? || th.VerifyTrade? || th.VerifyActive?) && RowsUntraded(s)
    ensures var (s', th') := AdvanceVerify(cfg, s, th, out); Unreached(s', th')
  {
  }

  lemma MarkStale(cfg: Config, s: Shared, th: Thread, out: Outcome)
    requires (th.VerifySetTrade? || th.VerifyMark? || th.VerifyUse?) && Unreached(s, th)
    ensures var (s', th') := AdvanceVerify(cfg, s, th, out); Unreached(s', th')
  {
  }

  lemma PaidStale(cfg: Config, s: Shared, tid: nat, th: Thread, out: Outcome)
    requires PaidPhase(th) && RowsUntraded(s) && Unreached(s, th)
    ensures var (s', th') := AdvancePaid(cfg, s, tid, th, out); RowsUntraded(s') && Unreached(s', th')
  {
  }

  lemma OtherStale(s: Shared, th: Thread, out: Outcome)
    requires OtherPhase(th) && RowsUntraded(s)
    ensures var (s', th') := AdvanceOther(s, th, out); RowsUntraded(s') && Unreached(s', th')
  {
  }

  lemma CreateStale(cfg: Config, s: Shared, th: Thread, out: Outcome)
    requires th.CreateLookup? || th.CreateClock? || th.CreateInsert? || th.CreateRefetch?
    requires RowsUntraded(s)
    ensures var (s', th') := AdvanceCreate(cfg, s, th, out); RowsUntraded(s') && Unreached(s', th')
  {
  }

  lemma AdvanceStale(cfg: Config, s: Shared, tid: nat, th: Thread, out: Outcome)
    requires cfg.payTtl <= 0 && RowsUntraded(s) && Unreached(s, th)
    ensures var (s', th') := Advance(cfg, s, tid, th, out); RowsUntraded(s') && Unreached(s', th')
  {
    hide AdvanceCreate, AdvancePay, AdvanceVerify, AdvancePaid, AdvanceOther;
    if th.CreateLookup? || th.CreateClock? || th.CreateInsert? || th.CreateRefetch? { CreateStale(cfg, s, th, out); }
    else if PayPhase(th) { PayStale(cfg, s, tid, th, out); }
    else if VerifyPhase(th) {
      VerifyRowsStale(cfg, s, th, out);
      if th.TransferLookup? || th.VerifyTrade? || th.VerifyActive? { LookupStale(cfg, s, th, out); }
      else { MarkStale(cfg, s, th, out); }
    }
    else if PaidPhase(th) { PaidStale(cfg, s, tid, th, out); }
    else if OtherPhase(th) { OtherStale(s, th, out); }
  }

  lemma UnreachedStays(s: Shared, s': Shared, th: Thread)
    requires Grows(s, s') && Unreached(s, th)
    ensures Unreached(s', th)
  {
  }

  lemma StepStale(w: World, e: Event)
    requires w.cfg.payTtl <= 0 && Stale(w)
    ensures Stale(Step(w, e)) && Step(w, e).cfg == w.cfg
  {
    hide Advance;
    var w' := Step(w, e);
    StepGrows(w, e);
    match e {
      case AddAddresses(addrs) => SeedFrame(w.s.db, addrs);
      case Run(tid, out) => if tid in w.threads { AdvanceStale(w.cfg, w.s, tid, w.threads[tid], out); }
      case _ =>
    }
    forall t | t in w'.threads ensures Unreached(w'.s, w'.threads[t]) {
      if t in w.threads && w.threads[t] == w'.threads[t] { UnreachedStays(w.s, w'.s, w.threads[t]); }
    }
  }

  lemma {:induction false} RunStale(w: World, evs: seq<Event>)
    requires w.cfg.payTtl <= 0 && Stale(w)
    ensures Stale(RunAll(w, evs)) && RunAll(w, evs).cfg == w.cfg
    decreases |evs|
  {
    hide Step, Stale;
    if evs != [] {
      StepStale(w, evs[0]);
      RunStale(Step(w, evs[0]), evs[1..]);
    }
  }

  /** Payments that are dead when minted: no transfer ever settles anything. */
  lemma StaleSettlesNothing(cfg: Config, before: seq<Event>, x: Transfer, after: seq<Event>)
    requires cfg.payTtl <= 0
    ensures SettlesItsLease(cfg, before, x, after)
  {
    if Observable(cfg, before, x) {
      TransferCarries(cfg, before, x, after);
      RunStale(Init(cfg), before);
      StepStale(RunAll(Init(cfg), before), Observed(x));
      RunStale(Step(RunAll(Init(cfg), before), Observed(x)), after);
      assert Unreached(Afterwards(cfg, before, x, after).s, Afterwards(cfg, before, x, after).threads[x.tid]);
    }
  }

  lemma DormantSettlesNothing(cfg: Config, before: seq<Event>, x: Transfer, after: seq<Event>)
    requires cfg.orderTtl <= 0 || cfg.users == map[]
    ensures SettlesItsLease(cfg, before, x, after)
  {
    hide Step;
    var evs := before + ([Observed(x)] + after);
    RunAllAppend(Init(cfg), before, [Observed(x)] + after);
    assert ([Observed(x)] + after)[1..] == after;
    Ttl.NeverPayable(Init(cfg), evs);
  }

  // ----- one transaction, two addresses ---------------------------------------------------------------
  // Order a's payment holds a lease. A transfer to it notes the transaction and then fails to mark it paid. Only now,
  // with no USDT payment waiting for its trade number, does the unique index admit b's payment. The transaction's other
  // transfer, to b's address, is looked up by the transaction first and settles a.

  const TOKEN := 136986

  function Leased(cfg: Config, u: nat, no: string, address: string): Payment {
    Payment(no, u, Usdt, "", Due(cfg), TOKEN, PayPending, address, cfg.payTtl)
  }

  /** What both orders come to. */
  function Due(cfg: Config): string { cfg.money.net("1.00", "0.00") }

  function OrderOf(cfg: Config, u: nat, no: string): Order { NewRow(Request(no, u, no, TopupItem), cfg.orderTtl) }

  lemma TwoOrders(cfg: Config, u: nat, x: string, y: string) returns (evs: seq<Event>, w: World)
    requires u in cfg.users && x != y
    ensures w == RunAll(Init(cfg), evs) && w.cfg == cfg && w.threads.Keys == {0, 1} && w.s.now == 0
    ensures w.s.db.orders == map["a" := OrderOf(cfg, u, "a"), "b" := OrderOf(cfg, u, "b")]
    ensures w.s.db.payments == [] && w.s.db.pool == [Lease(x, Free, ""), Lease(y, Free, "")]
  {
    hide Advance, RunAll;
    NothingRun(cfg);
    evs, w := Then(Init(cfg), [], Init(cfg), AddAddresses([x, y]));
    TwoSeeded(Init(cfg).s.db, x, y);
    evs, w := Place(cfg, evs, w, 0, Request("a", u, "a", TopupItem));
    evs, w := Place(cfg, evs, w, 1, Request("b", u, "b", TopupItem));
  }

  lemma NothingRun(cfg: Config)
    ensures RunAll(Init(cfg), []) == Init(cfg)
  {
  }

  lemma TwoSeeded(db: Db, x: string, y: string)
    requires db.pool == [] && x != y
    ensures Seed(db, [x, y]) == db.(pool := [Lease(x, Free, ""), Lease(y, Free, "")])
  {
    assert [x, y][1..] == [y] && [y][1..] == [];
    var one := SeedOne(db, x);
    assert !InPool(db, x);
    assert one.pool == [Lease(x, Free, "")];
    assert !InPool(one, y);
    assert Seed(one, [y]) == Seed(SeedOne(one, y), []);
  }

  lemma NextFreeIs(db: Db, i: nat)
    requires i < |db.pool| && db.pool[i].status == Free && forall j :: 0 <= j < i ==> db.pool[j].status != Free
    ensures NextFree(db) == Some(i)
  {
  }

  lemma FoundAt(db: Db, address: string, token: int, i: nat)
    requires i < |db.payments| && db.payments[i].status == PayPending && db.payments[i].token == token
    requires forall j :: 0 <= j < |db.payments| ==>
              db.payments[j].channel == Usdt && (db.payments[j].address == address <==> j == i)
    ensures FindByAddress(db, Usdt, address, Some(token)) == Some(i)
  {
  }

  lemma TradeAt(db: Db, tx: string, i: nat)
    requires i < |db.payments| && tx != "" && db.payments[i].channel == Usdt
    requires forall j :: 0 <= j < |db.payments| ==> (db.payments[j].tradeNo == tx <==> j == i)
    ensures FindByTradeNo(db, Usdt, tx) == Some(i)
  {
  }

  lemma NoTrade(db: Db, tx: string)
    requires forall j :: 0 <= j < |db.payments| ==> db.payments[j].tradeNo != tx
    ensures FindByTradeNo(db, Usdt, tx) == None
  {
  }

  lemma ActiveAt(db: Db, no: string, i: nat, now: int)
    requires i < |db.payments| && db.payments[i].channel == Usdt && db.payments[i].status == PayPending &&
              db.payments[i].expireAt > now
    requires forall j :: 0 <= j < |db.payments| ==> (db.payments[j].order == no <==> j == i)
    ensures FindActiveByOrder(db, no, Usdt, now) == Some(i)
  {
  }

  lemma NoActive(db: Db, no: string, now: int)
    requires forall j :: 0 <= j < |db.payments| ==> db.payments[j].order != no
    ensures FindActiveByOrder(db, no, Usdt, now) == None
  {
  }

  /** CreatePayment for one of them, up to asking for an address. */
  lemma Asked(cfg: Config, evs: seq<Event>, w: World, tid: nat, u: nat, no: string)
    returns (evs': seq<Event>, w': World)
    requires w == RunAll(Init(cfg), evs) && w.cfg == cfg && tid !in w.threads && w.s.now == 0
    requires no in w.s.db.orders && w.s.db.orders[no] == OrderOf(cfg, u, no)
    requires forall i :: 0 <= i < |w.s.db.payments| ==> w.s.db.payments[i].order != no
    ensures w' == RunAll(Init(cfg), evs') && w'.cfg == cfg && w'.s == w.s
    ensures w'.threads == w.threads[tid := PayMint(no, Usdt, Mint("", TOKEN), u, Due(cfg), cfg.payTtl)]
  {
    hide AdvanceCreate, AdvanceVerify, AdvancePaid, AdvanceOther, RunAll, Step;
    var mint := Mint("", TOKEN);
    NoActive(w.s.db, no, 0);
    hide FindActiveByOrder, NextFree, Allocate;
    evs', w' := Start(Init(cfg), evs, w, tid, PayAmount(no, Usdt, mint));
    evs', w' := Turn(Init(cfg), evs', w', tid, w'.s, PayLookup(no, Usdt, mint, u, Due(cfg)));
    evs', w' := Turn(Init(cfg), evs', w', tid, w'.s, PayClock(no, Usdt, mint, u, Due(cfg), None, 0));
    evs', w' := Turn(Init(cfg), evs', w', tid, w'.s, PayMint(no, Usdt, mint, u, Due(cfg), cfg.payTtl));
  }

  /** The whole call, leasing the next address, while no USDT payment waits for its trade number. */
  lemma Attempted(cfg: Config, evs: seq<Event>, w: World, tid: nat, u: nat, no: string, lease: nat)
    returns (evs': seq<Event>, w': World)
    requires w == RunAll(Init(cfg), evs) && w.cfg == cfg && tid !in w.threads && w.s.now == 0
    requires no in w.s.db.orders && w.s.db.orders[no] == OrderOf(cfg, u, no)
    requires forall i :: 0 <= i < |w.s.db.payments| ==>
              w.s.db.payments[i].order != no && w.s.db.payments[i].tradeNo != ""
    requires NextFree(w.s.db) == Some(lease)
    ensures w' == RunAll(Init(cfg), evs') && w'.cfg == cfg && w'.threads.Keys == w.threads.Keys + {tid} && w'.s.now == 0
    ensures w'.s.db.orders == w.s.db.orders
    ensures w'.s.db.pool == Allocate(w.s.db, lease, no).pool
    ensures w'.s.db.payments == w.s.db.payments + [Leased(cfg, u, no, w.s.db.pool[lease].address)]
  {
    hide AdvanceCreate, AdvanceVerify, AdvancePaid, AdvanceOther, RunAll, Step, NextFree, FindActiveByOrder;
    evs', w' := Asked(cfg, evs, w, tid, u, no);
    var row := Leased(cfg, u, no, w.s.db.pool[lease].address);
    evs', w' := Turn(Init(cfg), evs', w', tid, AdvancePay(cfg, w'.s, tid, w'.threads[tid], Ok).0, PayInsert(row));
    evs', w' := Turn(Init(cfg), evs', w', tid, AdvancePay(cfg, w'.s, tid, w'.threads[tid], Ok).0,
        PayDone(Some(|w.s.db.payments|)));
  }

  predicate BothOrdered(cfg: Config, u: nat, s: Shared) {
    s.now == 0 && s.db.orders == map["a" := OrderOf(cfg, u, "a"), "b" := OrderOf(cfg, u, "b")]
  }

  lemma FirstLeased(cfg: Config, u: nat, x: string, y: string) returns (evs: seq<Event>, w: World)
    requires u in cfg.users && x != y
    ensures w == RunAll(Init(cfg), evs) && w.cfg == cfg && w.threads.Keys == {0, 1, 2} && BothOrdered(cfg, u, w.s)
    ensures w.s.db.pool == [Lease(x, Allocated, "a"), Lease(y, Free, "")]
    ensures w.s.db.payments == [Leased(cfg, u, "a", x)]
  {
    hide Advance, RunAll, Step;
    evs, w := TwoOrders(cfg, u, x, y);
    NextFreeIs(w.s.db, 0);
    evs, w := Attempted(cfg, evs, w, 2, u, "a", 0);
  }

  /** The first transfer notes its transaction on a's payment; marking the payment paid then fails. */
  lemma Noted(cfg: Config, u: nat, x: string, y: string, tx: string) returns (evs: seq<Event>, w: World)
    requires u in cfg.users && x != y && tx != "" && x in PaysTo(cfg, tx) && cfg.payTtl > 0 && Ttl.Reflexive(cfg.money)
    ensures w == RunAll(Init(cfg), evs) && w.cfg == cfg && w.threads.Keys == {0, 1, 2, 3} && BothOrdered(cfg, u, w.s)
    ensures w.s.db.pool == [Lease(x, Allocated, "a"), Lease(y, Free, "")]
    ensures w.s.db.payments == [Leased(cfg, u, "a", x).(tradeNo := tx)]
  {
    hide AdvanceCreate, AdvancePay, AdvancePaid, AdvanceOther, RunAll, Quiet;
    evs, w := FirstLeased(cfg, u, x, y);
    var pay, n := Leased(cfg, u, "a", x), Notify("a", tx, Due(cfg));
    FoundAt(w.s.db, x, TOKEN, 0);
    NoTrade(w.s.db, tx);
    ActiveAt(w.s.db, "a", 0, 0);
    hide FindByAddress, FindByTradeNo, FindActiveByOrder;
    evs, w := Start(Init(cfg), evs, w, 3, TransferLookup(x, Some(TOKEN), tx));
    evs, w := Turn(Init(cfg), evs, w, 3, w.s, VerifyTrade(Usdt, n));
    evs, w := Turn(Init(cfg), evs, w, 3, w.s, VerifyActive(Usdt, n));
    evs, w := Turn(Init(cfg), evs, w, 3, w.s, VerifySetTrade(Usdt, n, 0, pay));
    evs, w := Turn(Init(cfg), evs, w, 3, w.s.(db := UpdateTradeNo(w.s.db, 0, tx)), VerifyMark(Usdt, n, 0, pay));
    evs, w := Then(Init(cfg), evs, w, Run(3, Failed));
  }

  /** With the transaction noted, the index admits b's payment. */
  lemma BothLeased(cfg: Config, u: nat, x: string, y: string, tx: string) returns (evs: seq<Event>, w: World)
    requires u in cfg.users && x != y && tx != "" && x in PaysTo(cfg, tx) && cfg.payTtl > 0 && Ttl.Reflexive(cfg.money)
    ensures w == RunAll(Init(cfg), evs) && w.cfg == cfg && w.threads.Keys == {0, 1, 2, 3, 4} && BothOrdered(cfg, u, w.s)
    ensures w.s.db.pool == [Lease(x, Allocated, "a"), Lease(y, Allocated, "b")]
    ensures w.s.db.payments == [Leased(cfg, u, "a", x).(tradeNo := tx), Leased(cfg, u, "b", y)]
  {
    hide Advance, RunAll, Step;
    evs, w := Noted(cfg, u, x, y, tx);
    NextFreeIs(w.s.db, 1);
    evs, w := Attempted(cfg, evs, w, 4, u, "b", 1);
  }

  /** The second transfer, up to a's payment being paid. */
  lemma Misread(cfg: Config, u: nat, x: string, y: string, tx: string)
    returns (before: seq<Event>, evs: seq<Event>, w: World)
    requires u in cfg.users && x != y && tx != "" && {x, y} <= PaysTo(cfg, tx) && cfg.payTtl > 0 &&
              Ttl.Reflexive(cfg.money)
    requires x != ""
    ensures w == RunAll(Init(cfg), evs) && w.cfg == cfg && w.threads.Keys == {0, 1, 2, 3, 4, 5}
    ensures Observable(cfg, before, Transfer(5, y, Some(TOKEN), tx))
    ensures before + [Observed(Transfer(5, y, Some(TOKEN), tx))] <= evs
    ensures BothOrdered(cfg, u, w.s)
    ensures w.s.db.pool == [Lease(x, Allocated, "a"), Lease(y, Allocated, "b")]
    ensures w.threads[5].VerifyUse? && w.threads[5].pay == Leased(cfg, u, "a", x).(tradeNo := tx) &&
            w.threads[5].n.tradeNo == tx
  {
    hide AdvanceCreate, AdvancePay, AdvancePaid, AdvanceOther, RunAll, Step;
    before, w := BothLeased(cfg, u, x, y, tx);
    var a, n := w.s.db.payments[0], Notify("b", tx, Due(cfg));
    FoundAt(w.s.db, y, TOKEN, 1);
    TradeAt(w.s.db, tx, 0);
    hide FindByAddress, FindByTradeNo;
    evs, w := Start(Init(cfg), before, w, 5, TransferLookup(y, Some(TOKEN), tx));
    evs, w := Turn(Init(cfg), evs, w, 5, w.s, VerifyTrade(Usdt, n));
    evs, w := Turn(Init(cfg), evs, w, 5, w.s, VerifyMark(Usdt, n, 0, a));
    evs, w := Turn(Init(cfg), evs, w, 5, w.s.(db := MarkPaid(w.s.db, 0, tx)), VerifyUse(Usdt, n, 0, a));
  }

  lemma Misrouted(cfg: Config, u: nat, x: string, y: string, tx: string)
    returns (before: seq<Event>, evs: seq<Event>, w: World)
    requires u in cfg.users && x != y && tx != "" && {x, y} <= PaysTo(cfg, tx) && cfg.payTtl > 0 &&
              Ttl.Reflexive(cfg.money)
    requires x != "" && cfg.orderTtl > 0
    ensures w == RunAll(Init(cfg), evs) && 5 in w.threads
    ensures Observable(cfg, before, Transfer(5, y, Some(TOKEN), tx))
    ensures before + [Observed(Transfer(5, y, Some(TOKEN), tx))] <= evs
    ensures w.s.db.pool == [Lease(x, Used, "a"), Lease(y, Allocated, "b")]
    ensures w.threads[5].PaidUpdate? && w.threads[5].no == "a"
  {
    hide AdvanceCreate, AdvancePay, AdvanceOther, RunAll, Step;
    before, evs, w := Misread(cfg, u, x, y, tx);
    var th := w.threads[5];
    var via := Through(th.pid, th.channel, th.n);
    assert MarkUsed(w.s.db, x).pool == [Lease(x, Used, "a"), Lease(y, Allocated, "b")];
    evs, w := Turn(Init(cfg), evs, w, 5, w.s.(db := MarkUsed(w.s.db, th.pay.address)), PaidLookup("a", tx, via));
    evs, w := Turn(Init(cfg), evs, w, 5, w.s, PaidCheck("a", tx, via, OrderOf(cfg, u, "a")));
    evs, w := Turn(Init(cfg), evs, w, 5, w.s, PaidUpdate("a", tx, via, OrderOf(cfg, u, "a"), 0));
  }

  /** A transaction that pays two addresses has a run on which the transfer to one settles the order of the other. */
  lemma SharedTransactionMisroutes(cfg: Config, u: nat, x: string, y: string, tx: string)
      returns (before: seq<Event>, t: Transfer, after: seq<Event>)
    requires u in cfg.users && cfg.orderTtl > 0 && cfg.payTtl > 0 && Ttl.Reflexive(cfg.money)
    requires tx != "" && x in PaysTo(cfg, tx) && y in PaysTo(cfg, tx) && x != "" && x != y
    ensures !SettlesItsLease(cfg, before, t, after)
  {
    var evs, w;
    t := Transfer(5, y, Some(TOKEN), tx);
    before, evs, w := Misrouted(cfg, u, x, y, tx);
    after := evs[|before| + 1..];
    Rejoin(cfg, before, t, evs);
    hide RunAll, Step;
    assert !LeasedTo(w.s.db, y, "a");
  }

  lemma Rejoin(cfg: Config, before: seq<Event>, x: Transfer, evs: seq<Event>)
    requires before + [Observed(x)] <= evs
    ensures Afterwards(cfg, before, x, evs[|before| + 1..]) == RunAll(Init(cfg), evs)
  {
    hide Step;
    var after := evs[|before| + 1..];
    assert evs == before + ([Observed(x)] + after);
    RunAllAppend(Init(cfg), before, [Observed(x)] + after);
    assert ([Observed(x)] + after)[1..] == after;
  }

  /** Transfers settle only the orders their own addresses were leased to, on every run with any failures, exactly when
      no transaction pays two addresses, or nothing is ever settled: payments dead when minted, orders never payable, or
      no users. */
  lemma OnLeaseIff(cfg: Config)
    requires Ttl.Reflexive(cfg.money)
    ensures AlwaysOnLease(cfg) <==> OneAddressEach(cfg) || cfg.payTtl <= 0 || cfg.orderTtl <= 0 || cfg.users == map[]
  {
    hide SettlesItsLease;
    if OneAddressEach(cfg) || cfg.payTtl <= 0 || cfg.orderTtl <= 0 || cfg.users == map[] {
      forall before, x, after ensures SettlesItsLease(cfg, before, x, after) { Settles(cfg, before, x, after); }
    } else {
      var tx, a, b :| tx != "" && a in PaysTo(cfg, tx) && b in PaysTo(cfg, tx) && a != b;
      var u :| u in cfg.users;
      var before, t, after :=
        SharedTransactionMisroutes(cfg, u, if a == "" then b else a, if a == "" then a else b, tx);
    }
  }

  lemma Settles(cfg: Config, before: seq<Event>, x: Transfer, after: seq<Event>)
    requires OneAddressEach(cfg) || cfg.payTtl <= 0 || cfg.orderTtl <= 0 || cfg.users == map[]
    ensures SettlesItsLease(cfg, before, x, after)
  {
    if cfg.payTtl <= 0 { StaleSettlesNothing(cfg, before, x, after); }
    else if cfg.orderTtl <= 0 || cfg.users == map[] { DormantSettlesNothing(cfg, before, x, after); }
    else if Observable(cfg, before, x) {
      var w := Afterwards(cfg, before, x, after);
      if x.tid in w.threads && w.threads[x.tid].PaidUpdate? { TransferSettlesItsLease(cfg, before, x, after, ""); }
    }
  }

  /** With the services' own amount functions. */
  lemma SourceOnLeaseIff(cfg: Config)
    requires cfg.money == SourceMoney()
    ensures AlwaysOnLease(cfg) <==> OneAddressEach(cfg) || cfg.payTtl <= 0 || cfg.orderTtl <= 0 || cfg.users == map[]
  {
    Ttl.SourceReflexive();
    OnLeaseIff(cfg);
  }
}
