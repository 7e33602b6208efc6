/** Continuations: from any state, what notifies and transfers that have not arrived yet can still settle. */
module Settling {
  import opened Wrappers
  import opened Tables
  import opened Machine
  import opened Growth
  import opened TradeIndex
  import opened Addresses
  import Ttl

  /** A trade number no payment bears: longer than all of theirs. */
  lemma {:induction false} Unborne(ps: seq<Payment>) returns (t: string)
    ensures t != "" && forall i :: 0 <= i < |ps| ==> |ps[i].tradeNo| < |t|
  {
    if ps == [] {
      t := "x";
    } else {
      t := Unborne(ps[..|ps| - 1]);
      t := t + ps[|ps| - 1].tradeNo;
    }
  }

  /** Payments stay as they were, but for some of this order and channel that are now paid. */
  predicate PaidSome(a: seq<Payment>, b: seq<Payment>, no: string, ch: Channel) {
    && |b| == |a|
    && forall i :: 0 <= i < |a| && b[i] != a[i] ==>
         a[i].order == no && a[i].channel == ch && b[i].tradeNo != "" &&
         b[i] == a[i].(status := PayPaid, tradeNo := b[i].tradeNo)
  }

  // ----- the last step --------------------------------------------------------------------------

  lemma Marks(w: World, tid: nat, pid: nat) returns (w': World)
    requires tid in w.threads && w.threads[tid].VerifyMark? && w.threads[tid].pid == pid
    requires pid < |w.s.db.payments| && w.s.db.payments[pid].status == PayPending
    requires !TradeTaken(w.s.db, pid, w.s.db.payments[pid].channel, w.threads[tid].n.tradeNo)
    ensures w' == Step(w, Run(tid, Ok)) && w'.cfg == w.cfg && w'.s.now == w.s.now
    ensures w'.s.db == w.s.db.(payments := w.s.db.payments[pid := w.s.db.payments[pid].(status := PayPaid,
              tradeNo := w.threads[tid].n.tradeNo)])
  {
    hide AdvanceCreate, AdvancePay, AdvancePaid, AdvanceOther;
    w' := Step(w, Run(tid, Ok));
  }

  // ----- a notify by trade number -----------------------------------------------------------------

  lemma TradeFound(db: Db, i: nat)
    requires i < |db.payments| && TradesUnique(db) && db.payments[i].tradeNo != ""
    ensures FindByTradeNo(db, db.payments[i].channel, db.payments[i].tradeNo) == Some(i)
    ensures !TradeTaken(db, i, db.payments[i].channel, db.payments[i].tradeNo)
  {
  }

  lemma NotifyPays(w: World, i: nat) returns (evs: seq<Event>, w': World)
    requires TradesUnique(w.s.db) && Ttl.Reflexive(w.cfg.money) && i < |w.s.db.payments|
    requires var p := w.s.db.payments[i]; p.status == PayPending && p.channel != Usdt && p.tradeNo != ""
    ensures w' == RunAll(w, evs) && w'.cfg == w.cfg && w'.s.now == w.s.now
    ensures w'.s.db == w.s.db.(payments := w.s.db.payments[i := w.s.db.payments[i].(status := PayPaid)])
  {
    hide AdvanceCreate, AdvancePay, AdvancePaid, AdvanceOther, Step;
    TradeFound(w.s.db, i);
    hide FindByTradeNo, TradeTaken;
    var p := w.s.db.payments[i];
    var tid := Above(w.threads.Keys);
    var n := Notify(p.order, p.tradeNo, p.amount);
    evs, w' := Start(w, [], w, tid, VerifyTrade(p.channel, n));
    evs, w' := Turn(w, evs, w', tid, w'.s, VerifyMark(p.channel, n, i, p));
    var marked := Marks(w', tid, i);
    evs, w' := Then(w, evs, w', Run(tid, Ok));
  }

  // ----- a notify by order number -------------------------------------------------------------------

  predicate IsActive(p: Payment, no: string, ch: Channel, now: int) {
    p.order == no && p.channel == ch && p.status == PayPending && p.expireAt > now
  }

  /** FindActiveByOrder takes the newest. */
  lemma ActiveFound(db: Db, no: string, ch: Channel, now: int)
    ensures var k := FindActiveByOrder(db, no, ch, now);
            && (forall j :: (if k.Some? then k.value else -1) < j < |db.payments| ==>
                  !IsActive(db.payments[j], no, ch, now))
            && (k.Some? ==> IsActive(db.payments[k.value], no, ch, now))
  {
  }

  /** Noting the trade number and marking the payment paid, for the payment the order's number finds. */
  lemma ActiveMarked(w: World, tid: nat, ch: Channel, n: Notify, k: nat) returns (evs: seq<Event>, w': World)
    requires tid in w.threads && w.threads[tid] == VerifyActive(ch, n) && Ttl.Reflexive(w.cfg.money)
    requires FindActiveByOrder(w.s.db, n.order, ch, w.s.now) == Some(k) && n.amount == w.s.db.payments[k].amount
    requires !TradeTaken(w.s.db, k, ch, n.tradeNo)
    ensures w' == RunAll(w, evs) && w'.cfg == w.cfg && w'.s.now == w.s.now
    ensures w'.s.db == w.s.db.(payments := w.s.db.payments[k := w.s.db.payments[k].(status := PayPaid,
              tradeNo := n.tradeNo)])
  {
    hide AdvanceCreate, AdvancePay, AdvancePaid, AdvanceOther, Step;
    var p := w.s.db.payments[k];
    hide FindActiveByOrder;
    evs, w' := Turn(w, [], w, tid, w.s, VerifySetTrade(ch, n, k, p));
    evs, w' := Turn(w, evs, w', tid, w'.s.(db := UpdateTradeNo(w'.s.db, k, n.tradeNo)), VerifyMark(ch, n, k, p));
    assert !TradeTaken(w'.s.db, k, ch, n.tradeNo);
    var marked := Marks(w', tid, k);
    evs, w' := Then(w, evs, w', Run(tid, Ok));
  }

  lemma OrderNotifyPays(w: World, no: string, ch: Channel, k: nat, tradeNo: string)
    returns (evs: seq<Event>, w': World)
    requires Ttl.Reflexive(w.cfg.money) && ch != Usdt && no != ""
    requires FindActiveByOrder(w.s.db, no, ch, w.s.now) == Some(k)
    requires forall j :: 0 <= j < |w.s.db.payments| ==> w.s.db.payments[j].tradeNo != tradeNo
    ensures w' == RunAll(w, evs) && w'.cfg == w.cfg && w'.s.now == w.s.now
    ensures w'.s.db == w.s.db.(payments := w.s.db.payments[k := w.s.db.payments[k].(status := PayPaid,
              tradeNo := tradeNo)])
  {
    hide AdvanceCreate, AdvancePay, AdvancePaid, AdvanceOther, Step, RunAll;
    hide FindActiveByOrder;
    var n := Notify(no, tradeNo, w.s.db.payments[k].amount);
    var tid := Above(w.threads.Keys);
    assert FindByTradeNo(w.s.db, ch, tradeNo) == None;
    assert !TradeTaken(w.s.db, k, ch, tradeNo);
    hide FindByTradeNo, TradeTaken;
    assert RunAll(w, []) == w by { NothingRun(w); }
    evs, w' := Start(w, [], w, tid, VerifyTrade(ch, n));
    evs, w' := Turn(w, evs, w', tid, w'.s, VerifyActive(ch, n));
    var more;
    var u := w';
    more, w' := ActiveMarked(u, tid, ch, n, k);
    RunAllAppend(w, evs, more);
    evs := evs + more;
  }

  lemma NothingRun(w: World)
    ensures RunAll(w, []) == w
  {
  }

  /** An attempt still active can be paid, though newer active attempts of the order may have to be paid first. */
  lemma {:induction false} ActivePays(w: World, i: nat, k: nat) returns (evs: seq<Event>, w': World)
    requires Ttl.Reflexive(w.cfg.money) && i < |w.s.db.payments|
    requires var p := w.s.db.payments[i];
             && p.channel != Usdt && p.order != "" && IsActive(p, p.order, p.channel, w.s.now)
             && FindActiveByOrder(w.s.db, p.order, p.channel, w.s.now) == Some(k)
    ensures w' == RunAll(w, evs) && w'.cfg == w.cfg && w'.s.now == w.s.now
    ensures w'.s.db == w.s.db.(payments := w'.s.db.payments)
    ensures var p := w.s.db.payments[i]; PaidSome(w.s.db.payments, w'.s.db.payments, p.order, p.channel)
    ensures w'.s.db.payments[i].status == PayPaid && w'.s.db.payments[i].tradeNo != ""
    decreases k
  {
    hide Step, RunAll, FindActiveByOrder, Advance;
    var p, ps := w.s.db.payments[i], w.s.db.payments;
    var t := Unborne(ps);
    ActiveFound(w.s.db, p.order, p.channel, w.s.now);
    evs, w' := OrderNotifyPays(w, p.order, p.channel, k, t);
    if k != i {
      var u := w';
      ActiveFound(u.s.db, p.order, p.channel, u.s.now);
      var next := FindActiveByOrder(u.s.db, p.order, p.channel, u.s.now);
      assert IsActive(u.s.db.payments[i], p.order, p.channel, u.s.now);
      var more;
      more, w' := ActivePays(u, i, next.value);
      RunAllAppend(w, evs, more);
      evs := evs + more;
    }
  }

  // ----- a transfer -------------------------------------------------------------------------------------

  /** A transfer under tx to the payment's address finds it: it already bears tx, or nothing does and it is the newest
      active attempt of its order. */
  ghost predicate Awaits(cfg: Config, s: Shared, i: nat, tx: string)
    requires i < |s.db.payments|
  {
    var p := s.db.payments[i];
    && p.channel == Usdt && tx != "" && p.address in PaysTo(cfg, tx)
    && (p.tradeNo == tx
        || (p.order != "" && FindActiveByOrder(s.db, p.order, Usdt, s.now) == Some(i)
            && forall j :: 0 <= j < |s.db.payments| && s.db.payments[j].channel == Usdt ==>
                 s.db.payments[j].tradeNo != tx))
  }

  lemma AddressFound(cfg: Config, s: Shared, i: nat)
    requires PaymentsOk(cfg, s) && i < |s.db.payments|
    requires s.db.payments[i].channel == Usdt && s.db.payments[i].status == PayPending
    ensures FindByAddress(s.db, Usdt, s.db.payments[i].address, Some(s.db.payments[i].token)) == Some(i)
  {
    hide LeasedTo, TxNames;
    var hit := FindByAddress(s.db, Usdt, s.db.payments[i].address, Some(s.db.payments[i].token));
    assert hit.Some?;
    assert PaymentOk(cfg, s, hit.value, s.db.payments[hit.value]) && PaymentOk(cfg, s, i, s.db.payments[i]);
  }

  lemma TransferRead(w: World, i: nat, tx: string) returns (evs: seq<Event>, w': World, tid: nat)
    requires PaymentsOk(w.cfg, w.s) && i < |w.s.db.payments|
    requires var p := w.s.db.payments[i];
             p.channel == Usdt && p.status == PayPending && tx != "" && p.address in PaysTo(w.cfg, tx)
    ensures w' == RunAll(w, evs) && w'.cfg == w.cfg && w'.s == w.s && tid in w'.threads
    ensures w'.threads[tid] == VerifyTrade(Usdt, Notify(w.s.db.payments[i].order, tx, w.s.db.payments[i].amount))
  {
    hide AdvanceCreate, AdvancePay, AdvancePaid, AdvanceOther, Step, RunAll;
    var p := w.s.db.payments[i];
    AddressFound(w.cfg, w.s, i);
    hide PaymentsOk, FindByAddress;
    NothingRun(w);
    tid := Above(w.threads.Keys);
    evs, w' := Start(w, [], w, tid, TransferLookup(p.address, Some(p.token), tx));
    evs, w' := Turn(w, evs, w', tid, w'.s, VerifyTrade(Usdt, Notify(p.order, tx, p.amount)));
  }

  lemma TransferPays(w: World, i: nat, tx: string) returns (evs: seq<Event>, w': World)
    requires PaymentsOk(w.cfg, w.s) && TradesUnique(w.s.db) && Ttl.Reflexive(w.cfg.money)
    requires i < |w.s.db.payments| && w.s.db.payments[i].status == PayPending && Awaits(w.cfg, w.s, i, tx)
    ensures w' == RunAll(w, evs) && w'.cfg == w.cfg && w'.s.now == w.s.now
    ensures w'.s.db == w.s.db.(payments := w.s.db.payments[i := w.s.db.payments[i].(status := PayPaid, tradeNo := tx)])
  {
    hide AdvanceCreate, AdvancePay, AdvancePaid, AdvanceOther, Step, RunAll, PaymentsOk;
    var p, tid := w.s.db.payments[i], 0;
    var n := Notify(p.order, tx, p.amount);
    if p.tradeNo == tx { TradeFound(w.s.db, i); } else {
      assert FindByTradeNo(w.s.db, Usdt, tx) == None && !TradeTaken(w.s.db, i, Usdt, tx);
    }
    hide TradesUnique, FindByTradeNo, FindActiveByOrder, TradeTaken;
    evs, w', tid := TransferRead(w, i, tx);
    if p.tradeNo == tx {
      evs, w' := Turn(w, evs, w', tid, w'.s, VerifyMark(Usdt, n, i, p));
      var marked := Marks(w', tid, i);
      evs, w' := Then(w, evs, w', Run(tid, Ok));
    } else {
      evs, w' := Turn(w, evs, w', tid, w'.s, VerifyActive(Usdt, n));
      var more;
      var u := w';
      more, w' := ActiveMarked(u, tid, Usdt, n, i);
      RunAllAppend(w, evs, more);
      evs := evs + more;
    }
  }

  // ----- one more attempt -----------------------------------------------------------------------------------

  function NewAttempt(cfg: Config, s: Shared, no: string, ch: Channel, mint: Mint): Payment
    requires no in s.db.orders
  {
    Payment(no, s.db.orders[no].user, ch, TradeAtMint(ch, mint), Net(cfg.money, s.db.orders[no]), mint.token,
            PayPending, "", s.now + cfg.payTtl)
  }

  /** CreatePayment up to its insert: the lookup finds nothing, or fails and nobody minds. */
  lemma Asked(w: World, no: string, ch: Channel, mint: Mint, lookup: Outcome)
    returns (evs: seq<Event>, w': World, tid: nat)
    requires no in w.s.db.orders && ch != Usdt
    requires lookup == Ok ==> FindActiveByOrder(w.s.db, no, ch, w.s.now) == None
    ensures w' == RunAll(w, evs) && w'.cfg == w.cfg && w'.s == w.s
    ensures tid !in w.threads && w'.threads == w.threads[tid := PayInsert(NewAttempt(w.cfg, w.s, no, ch, mint))]
  {
    hide AdvanceCreate, AdvanceVerify, AdvancePaid, AdvanceOther, Step, RunAll, Net, FindActiveByOrder;
    var user, amount := w.s.db.orders[no].user, Net(w.cfg.money, w.s.db.orders[no]);
    var expireAt := w.s.now + w.cfg.payTtl;
    NothingRun(w);
    tid := Above(w.threads.Keys);
    evs, w' := Start(w, [], w, tid, PayAmount(no, ch, mint));
    evs, w' := Turn(w, evs, w', tid, w'.s, PayLookup(no, ch, mint, user, amount));
    evs, w' := LookedUp(w, evs, w', tid, lookup);
    evs, w' := Turn(w, evs, w', tid, w'.s, PayMint(no, ch, mint, user, amount, expireAt));
    evs, w' := Turn(w, evs, w', tid, w'.s, PayInsert(NewAttempt(w.cfg, w.s, no, ch, mint)));
  }

  lemma LookedUp(w0: World, evs: seq<Event>, w: World, tid: nat, lookup: Outcome)
    returns (evs': seq<Event>, w': World)
    requires w == RunAll(w0, evs) && tid in w.threads && w.threads[tid].PayLookup?
    requires var th := w.threads[tid];
             lookup == Ok ==> FindActiveByOrder(w.s.db, th.no, th.channel, w.s.now) == None
    ensures w' == RunAll(w0, evs')
    ensures var th := w.threads[tid];
            w' == w.(threads := w.threads[tid := PayClock(th.no, th.channel, th.mint, th.user, th.amount, None, 0)])
  {
    hide AdvanceCreate, AdvanceVerify, AdvancePaid, AdvanceOther, RunAll, FindActiveByOrder;
    evs', w' := Then(w0, evs, w, Run(tid, lookup));
  }

  /** The whole call, which the index admits. */
  lemma Minted(w: World, no: string, ch: Channel, mint: Mint, lookup: Outcome) returns (evs: seq<Event>, w': World)
    requires no in w.s.db.orders && ch != Usdt
    requires lookup == Ok ==> FindActiveByOrder(w.s.db, no, ch, w.s.now) == None
    requires !TradeTaken(w.s.db, |w.s.db.payments|, ch, TradeAtMint(ch, mint))
    ensures w' == RunAll(w, evs) && w'.cfg == w.cfg && w'.s.now == w.s.now
    ensures w'.s.db == w.s.db.(payments := w.s.db.payments + [NewAttempt(w.cfg, w.s, no, ch, mint)])
    ensures forall t :: t in w'.threads ==> Ended(w'.threads[t]) || (t in w.threads && w'.threads[t] == w.threads[t])
  {
    hide AdvanceCreate, AdvanceVerify, AdvancePaid, AdvanceOther, RunAll, TradeTaken, FindActiveByOrder;
    var tid;
    evs, w', tid := Asked(w, no, ch, mint, lookup);
    evs, w' := Then(w, evs, w', Run(tid, Ok));
  }
}
