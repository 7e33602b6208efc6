/** Payments that wait for their trade number: each channel holds at most one, and while it is there the unique index
    refuses every other. One that can no longer be found by its order closes the channel for ever. */
module Waiting {
  import opened Wrappers
  import opened Tables
  import opened Machine
  import opened Growth
  import opened TradeIndex
  import opened Settling
  import opened Addresses
  import Ttl
  import Scenario
  import Routing

  // ----- what every run keeps --------------------------------------------------------------------

  /** Orders of payments exist, payments are stored pending, only the mock channel mints trade numbers, and the fallback
      has an order to look for. */
  predicate Regular(s: Shared, th: Thread) {
    match th
    case PayLookup(no, _, _, _, _) => no in s.db.orders
    case PayClock(no, _, _, _, _, _, _) => no in s.db.orders
    case PayMint(no, _, _, _, _, _) => no in s.db.orders
    case PayInsert(row) =>
      row.order in s.db.orders && row.status == PayPending && (row.channel != Mock ==> row.tradeNo == "")
    case VerifyActive(_, n) => n.order != ""
    case _ => true
  }

  ghost predicate RowsOrdered(s: Shared) {
    forall i :: 0 <= i < |s.db.payments| ==> s.db.payments[i].order in s.db.orders
  }

  ghost predicate AllRegular(w: World) {
    RowsOrdered(w.s) && forall t :: t in w.threads ==> Regular(w.s, w.threads[t])
  }

  lemma RegularStays(s: Shared, s': Shared, th: Thread)
    requires Grows(s, s') && Regular(s, th)
    ensures Regular(s', th)
  {
  }

  lemma PayRegular(cfg: Config, s: Shared, tid: nat, th: Thread, out: Outcome)
    requires PayPhase(th) && Regular(s, th) && RowsOrdered(s)
    ensures var (s', th') := AdvancePay(cfg, s, tid, th, out); RowsOrdered(s') && Regular(s', th')
  {
    hide FindActiveByOrder, NextFree;
  }

  lemma VerifyRegular(cfg: Config, s: Shared, th: Thread, out: Outcome)
    requires VerifyPhase(th) && RowsOrdered(s)
    ensures var (s', th') := AdvanceVerify(cfg, s, th, out); RowsOrdered(s') && Regular(s', th')
  {
    hide FindByAddress, FindByTradeNo, FindActiveByOrder;
  }

  lemma OtherRegular(s: Shared, th: Thread, out: Outcome)
    requires OtherPhase(th) && RowsOrdered(s)
    ensures var (s', th') := AdvanceOther(s, th, out); RowsOrdered(s') && Regular(s', th')
  {
  }

  lemma PaidRegular(cfg: Config, s: Shared, tid: nat, th: Thread, out: Outcome)
    requires PaidPhase(th) && RowsOrdered(s)
    ensures var (s', th') := AdvancePaid(cfg, s, tid, th, out); RowsOrdered(s') && Regular(s', th')
  {
  }

  lemma CreateRegular(cfg: Config, s: Shared, th: Thread, out: Outcome)
    requires th.CreateLookup? || th.CreateClock? || th.CreateInsert? || th.CreateRefetch?
    requires RowsOrdered(s)
    ensures var (s', th') := AdvanceCreate(cfg, s, th, out); RowsOrdered(s') && Regular(s', th')
  {
  }

  lemma AdvanceRegular(cfg: Config, s: Shared, tid: nat, th: Thread, out: Outcome)
    requires Regular(s, th) && RowsOrdered(s)
    ensures var (s', th') := Advance(cfg, s, tid, th, out); RowsOrdered(s') && Regular(s', th')
  {
    hide AdvanceCreate, AdvancePay, AdvanceVerify, AdvancePaid, AdvanceOther;
    if th.CreateLookup? || th.CreateClock? || th.CreateInsert? || th.CreateRefetch? { CreateRegular(cfg, s, th, out); }
    else if PayPhase(th) { PayRegular(cfg, s, tid, th, out); }
    else if VerifyPhase(th) { VerifyRegular(cfg, s, th, out); }
    else if PaidPhase(th) { PaidRegular(cfg, s, tid, th, out); }
    else if OtherPhase(th) { OtherRegular(s, th, out); }
  }

  lemma StepRegular(w: World, e: Event)
    requires AllRegular(w)
    ensures AllRegular(Step(w, e))
  {
    hide Advance;
    var w' := Step(w, e);
    StepGrows(w, e);
    match e {
      case AddAddresses(addrs) => SeedFrame(w.s.db, addrs);
      case Run(tid, out) => if tid in w.threads { AdvanceRegular(w.cfg, w.s, tid, w.threads[tid], out); }
      case _ =>
    }
    forall t | t in w'.threads ensures Regular(w'.s, w'.threads[t]) {
      if t in w.threads && w.threads[t] == w'.threads[t] { RegularStays(w.s, w'.s, w.threads[t]); }
    }
  }

  lemma {:induction false} RunRegular(w: World, evs: seq<Event>)
    requires AllRegular(w)
    ensures AllRegular(RunAll(w, evs))
    decreases |evs|
  {
    hide Step, AllRegular;
    if evs != [] {
      StepRegular(w, evs[0]);
      RunRegular(Step(w, evs[0]), evs[1..]);
    }
  }

  // ----- a row that can no longer be found --------------------------------------------------------------

  /** No handler is about to write this payment. */
  predicate OffRow(th: Thread, i: nat) { th.VerifySetTrade? || th.VerifyMark? ==> th.pid != i }

  ghost predicate Idle(w: World, i: nat) { forall t :: t in w.threads ==> OffRow(w.threads[t], i) }

  /** Without a trade number, and not to be found by its order either. */
  predicate Unfindable(p: Payment, now: int) {
    p.tradeNo == "" && !(p.order != "" && p.status == PayPending && p.expireAt > now)
  }

  /** The row as it was, or swept. */
  predicate Untouched(p: Payment, p': Payment) {
    p' == p || (p.status == PayPending && p' == p.(status := PayExpired))
  }

  ghost predicate Stuck(w: World, i: nat) {
    AllRegular(w) && Idle(w, i) && i < |w.s.db.payments| && Unfindable(w.s.db.payments[i], w.s.now)
  }

  lemma PayKeepsRow(cfg: Config, s: Shared, tid: nat, th: Thread, out: Outcome, i: nat)
    requires PayPhase(th) && i < |s.db.payments|
    ensures var (s', th') := AdvancePay(cfg, s, tid, th, out);
            i < |s'.db.payments| && s'.db.payments[i] == s.db.payments[i] && OffRow(th', i)
  {
    hide FindActiveByOrder, NextFree;
  }

  lemma VerifyKeepsRow(cfg: Config, s: Shared, th: Thread, out: Outcome, i: nat)
    requires VerifyPhase(th) && Regular(s, th) && OffRow(th, i)
    requires i < |s.db.payments| && Unfindable(s.db.payments[i], s.now)
    ensures var (s', th') := AdvanceVerify(cfg, s, th, out);
            |s'.db.payments| == |s.db.payments| && s'.db.payments[i] == s.db.payments[i] && OffRow(th', i)
  {
  }

  lemma OtherKeepsRow(s: Shared, th: Thread, out: Outcome, i: nat)
    requires OtherPhase(th) && i < |s.db.payments|
    ensures var (s', th') := AdvanceOther(s, th, out);
            |s'.db.payments| == |s.db.payments| && Untouched(s.db.payments[i], s'.db.payments[i]) && OffRow(th', i)
  {
  }

  lemma PaidKeepsRow(cfg: Config, s: Shared, tid: nat, th: Thread, out: Outcome, i: nat)
    requires PaidPhase(th)
    ensures var (s', th') := AdvancePaid(cfg, s, tid, th, out); s'.db.payments == s.db.payments && OffRow(th', i)
  {
  }

  lemma CreateKeepsRow(cfg: Config, s: Shared, th: Thread, out: Outcome, i: nat)
    requires th.CreateLookup? || th.CreateClock? || th.CreateInsert? || th.CreateRefetch?
    ensures var (s', th') := AdvanceCreate(cfg, s, th, out); s'.db.payments == s.db.payments && OffRow(th', i)
  {
  }

  lemma AdvanceKeepsRow(cfg: Config, s: Shared, tid: nat, th: Thread, out: Outcome, i: nat)
    requires Regular(s, th) && OffRow(th, i) && i < |s.db.payments| && Unfindable(s.db.payments[i], s.now)
    ensures var (s', th') := Advance(cfg, s, tid, th, out);
            i < |s'.db.payments| && Untouched(s.db.payments[i], s'.db.payments[i]) && OffRow(th', i)
  {
    hide AdvanceCreate, AdvancePay, AdvanceVerify, AdvancePaid, AdvanceOther;
    if th.CreateLookup? || th.CreateClock? || th.CreateInsert? || th.CreateRefetch? {
      CreateKeepsRow(cfg, s, th, out, i);
    }
    else if PayPhase(th) { PayKeepsRow(cfg, s, tid, th, out, i); }
    else if VerifyPhase(th) { VerifyKeepsRow(cfg, s, th, out, i); }
    else if PaidPhase(th) { PaidKeepsRow(cfg, s, tid, th, out, i); }
    else if OtherPhase(th) { OtherKeepsRow(s, th, out, i); }
  }

  lemma StepStuck(w: World, e: Event, i: nat)
    requires Stuck(w, i)
    ensures Stuck(Step(w, e), i) && Untouched(w.s.db.payments[i], Step(w, e).s.db.payments[i])
  {
    hide Advance, Regular;
    StepRegular(w, e);
    StepGrows(w, e);
    match e
    case AddAddresses(addrs) => SeedFrame(w.s.db, addrs);
    case Run(tid, out) =>
      if tid in w.threads {
        assert Regular(w.s, w.threads[tid]) && OffRow(w.threads[tid], i);
        AdvanceKeepsRow(w.cfg, w.s, tid, w.threads[tid], out, i);
      }
    case _ =>
  }

  lemma {:induction false} RunStuck(w: World, evs: seq<Event>, i: nat)
    requires Stuck(w, i)
    ensures Stuck(RunAll(w, evs), i) && Untouched(w.s.db.payments[i], RunAll(w, evs).s.db.payments[i])
    decreases |evs|
  {
    if evs != [] {
      StepStuck(w, evs[0], i);
      hide Step, AllRegular, Idle;
      RunStuck(Step(w, evs[0]), evs[1..], i);
    }
  }

  // ----- the channel it closes ------------------------------------------------------------------------------

  /** No payment of this channel after the first n. */
  ghost predicate NoneSince(db: Db, n: nat, ch: Channel) {
    n <= |db.payments| && forall k :: n <= k < |db.payments| ==> db.payments[k].channel != ch
  }

  lemma PayStoresNone(cfg: Config, s: Shared, tid: nat, th: Thread, out: Outcome, i: nat, n: nat, ch: Channel)
    requires PayPhase(th) && Regular(s, th) && NoneSince(s.db, n, ch) && ch != Mock
    requires i < |s.db.payments| && s.db.payments[i].channel == ch && s.db.payments[i].tradeNo == ""
    ensures NoneSince(AdvancePay(cfg, s, tid, th, out).0.db, n, ch)
  {
    hide FindActiveByOrder, NextFree;
    assert th.PayInsert? && th.row.channel == ch ==> TradeTaken(s.db, |s.db.payments|, ch, "");
  }

  lemma StepStoresNone(w: World, e: Event, i: nat, n: nat, ch: Channel)
    requires Stuck(w, i) && NoneSince(w.s.db, n, ch) && ch != Mock && w.s.db.payments[i].channel == ch
    ensures NoneSince(Step(w, e).s.db, n, ch)
  {
    hide Advance, Idle;
    StepGrows(w, e);
    match e
    case AddAddresses(addrs) => SeedFrame(w.s.db, addrs);
    case Run(tid, out) =>
      if tid in w.threads {
        var th := w.threads[tid];
        assert Regular(w.s, th);
        if PayPhase(th) {
          PayStoresNone(w.cfg, w.s, tid, th, out, i, n, ch);
          PayStep(w.cfg, w.s, tid, th, out);
        } else {
          StoresNone(w.cfg, w.s, tid, th, out);
        }
      }
    case _ =>
  }

  lemma PayStep(cfg: Config, s: Shared, tid: nat, th: Thread, out: Outcome)
    requires PayPhase(th)
    ensures Advance(cfg, s, tid, th, out) == AdvancePay(cfg, s, tid, th, out)
  {
    hide AdvanceCreate, AdvancePay, AdvanceVerify, AdvancePaid, AdvanceOther;
  }

  /** Only CreatePayment adds payments. */
  lemma StoresNone(cfg: Config, s: Shared, tid: nat, th: Thread, out: Outcome)
    requires !PayPhase(th)
    ensures |Advance(cfg, s, tid, th, out).0.db.payments| == |s.db.payments|
  {
    hide AdvanceCreate, AdvancePay, AdvanceVerify, AdvancePaid, AdvanceOther;
    if th.CreateLookup? || th.CreateClock? || th.CreateInsert? || th.CreateRefetch? {
      CreateKeepsPayments(cfg, s, th, out);
    }
    else if VerifyPhase(th) { VerifyStoresNone(cfg, s, th, out); }
    else if PaidPhase(th) { PaidKeepsPayments(cfg, s, tid, th, out); }
    else if OtherPhase(th) { OtherStoresNone(s, th, out); }
  }

  lemma VerifyStoresNone(cfg: Config, s: Shared, th: Thread, out: Outcome)
    requires VerifyPhase(th)
    ensures |AdvanceVerify(cfg, s, th, out).0.db.payments| == |s.db.payments|
  {
    hide FindByAddress, FindByTradeNo, FindActiveByOrder, AfterLookup;
  }

  lemma OtherStoresNone(s: Shared, th: Thread, out: Outcome)
    requires OtherPhase(th)
    ensures |AdvanceOther(s, th, out).0.db.payments| == |s.db.payments|
  {
  }

  lemma {:induction false} RunStoresNone(w: World, evs: seq<Event>, i: nat, n: nat, ch: Channel)
    requires Stuck(w, i) && NoneSince(w.s.db, n, ch) && ch != Mock && w.s.db.payments[i].channel == ch
    ensures NoneSince(RunAll(w, evs).s.db, n, ch)
    decreases |evs|
  {
    if evs != [] {
      StepStuck(w, evs[0], i);
      StepStoresNone(w, evs[0], i, n, ch);
      hide Step, AllRegular, Idle, NoneSince;
      RunStoresNone(Step(w, evs[0]), evs[1..], i, n, ch);
    }
  }

  /** A payment without a trade number that is no longer pending, or whose deadline has come, and that no handler is
      about to write, keeps its channel closed for ever: whatever is called, no payment is stored on it again. */
  lemma ClosedForEver(cfg: Config, before: seq<Event>, after: seq<Event>, i: nat)
    requires var w := RunAll(Init(cfg), before);
             && i < |w.s.db.payments| && w.s.db.payments[i].channel != Mock
             && Unfindable(w.s.db.payments[i], w.s.now) && Idle(w, i)
    ensures var w := RunAll(Init(cfg), before);
            NoneSince(RunAll(w, after).s.db, |w.s.db.payments|, w.s.db.payments[i].channel)
  {
    var w := RunAll(Init(cfg), before);
    RunRegular(Init(cfg), before);
    RunStoresNone(w, after, i, |w.s.db.payments|, w.s.db.payments[i].channel);
  }

  ghost predicate Closed(w: World, ch: Channel) {
    forall after :: NoneSince(RunAll(w, after).s.db, |w.s.db.payments|, ch)
  }

  /** While it can still be found by its order, a notify gives it a trade number and the next attempt is stored. */
  lemma Reopens(w: World, i: nat) returns (evs: seq<Event>)
    requires TradesUnique(w.s.db) && RowsOrdered(w.s) && Ttl.Reflexive(w.cfg.money) && i < |w.s.db.payments|
    requires var p := w.s.db.payments[i];
             p.channel != Mock && p.channel != Usdt && p.tradeNo == "" && !Unfindable(p, w.s.now)
    ensures !NoneSince(RunAll(w, evs).s.db, |w.s.db.payments|, w.s.db.payments[i].channel)
  {
    hide Step, RunAll, Advance;
    var p := w.s.db.payments[i];
    var k := FindActiveByOrder(w.s.db, p.order, p.channel, w.s.now);
    ActiveFound(w.s.db, p.order, p.channel, w.s.now);
    hide FindActiveByOrder;
    var w', more, w'';
    evs, w' := ActivePays(w, i, k.value);
    assert !TradeTaken(w'.s.db, |w'.s.db.payments|, p.channel, "");
    more, w'' := Minted(w', p.order, p.channel, Mint("", 0), Failed);
    RunAllAppend(w, evs, more);
    evs := evs + more;
    assert w''.s.db.payments[|w.s.db.payments|].channel == p.channel;
  }

  /** Alipay and WeChat: a payment waiting for its trade number, with no handler about to write it, closes its channel
      for ever exactly when it can no longer be found by its order. */
  lemma ClosedIff(cfg: Config, before: seq<Event>, i: nat)
    requires Ttl.Reflexive(cfg.money)
    requires var w := RunAll(Init(cfg), before);
             && i < |w.s.db.payments| && w.s.db.payments[i].channel in {Alipay, Wechat}
             && w.s.db.payments[i].tradeNo == "" && Idle(w, i)
    ensures var w := RunAll(Init(cfg), before); var p := w.s.db.payments[i];
            Closed(w, p.channel) <==> Unfindable(p, w.s.now)
  {
    var w := RunAll(Init(cfg), before);
    var p := w.s.db.payments[i];
    if Unfindable(p, w.s.now) {
      forall after ensures NoneSince(RunAll(w, after).s.db, |w.s.db.payments|, p.channel) {
        ClosedForEver(cfg, before, after, i);
      }
    } else {
      RunRegular(Init(cfg), before);
      RunKeepsIndex(Init(cfg), before);
      RunKeepsConfig(Init(cfg), before);
      var evs := Reopens(w, i);
    }
  }

  // ----- addresses lost to refused inserts --------------------------------------------------------------------

  /** Leased, and neither a payment nor a handler about to store one has the address. */
  ghost predicate Lost(w: World, a: string, no: string) {
    && a != "" && LeasedTo(w.s.db, a, no)
    && (forall i :: 0 <= i < |w.s.db.payments| ==> w.s.db.payments[i].address != a)
    && (forall t :: t in w.threads && w.threads[t].PayInsert? ==> w.threads[t].row.address != a)
  }

  lemma MintLeasesAnother(cfg: Config, s: Shared, tid: nat, th: Thread, out: Outcome, a: string, no: string)
    requires PayPhase(th) && PoolOk(s) && a != "" && LeasedTo(s.db, a, no)
    requires th.PayInsert? ==> th.row.address != a
    ensures var (s', th') := AdvancePay(cfg, s, tid, th, out);
            && (th'.PayInsert? ==> th'.row.address != a)
            && forall i :: |s.db.payments| <= i < |s'.db.payments| ==> s'.db.payments[i].address != a
  {
    hide FindActiveByOrder;
  }

  lemma StepLost(w: World, e: Event, a: string, no: string)
    requires Isolated(w) && Lost(w, a, no)
    ensures Isolated(Step(w, e)) && Lost(Step(w, e), a, no)
  {
    hide Advance, ThreadOk, RowsOk;
    var w' := Step(w, e);
    StepIsolated(w, e);
    StepGrows(w, e);
    StepKeepsLeases(w, e);
    LeaseStays(w.s.db, w'.s.db, a, no);
    match e
    case AddAddresses(addrs) => SeedFrame(w.s.db, addrs);
    case Run(tid, out) =>
      if tid in w.threads {
        var th := w.threads[tid];
        if PayPhase(th) {
          assert PoolOk(w.s) by { PoolIsOk(w); }
          MintLeasesAnother(w.cfg, w.s, tid, th, out, a, no);
          PayStep(w.cfg, w.s, tid, th, out);
        } else {
          StoresNone(w.cfg, w.s, tid, th, out);
          NoMint(w.cfg, w.s, tid, th, out);
        }
        forall i | 0 <= i < |w'.s.db.payments| ensures w'.s.db.payments[i].address != a {
          if i < |w.s.db.payments| { assert SamePayment(w.s.db.payments[i], w'.s.db.payments[i]); }
        }
      }
    case _ =>
  }

  lemma PoolIsOk(w: World)
    requires Isolated(w)
    ensures PoolOk(w.s)
  {
  }

  lemma StepKeepsLeases(w: World, e: Event)
    requires Isolated(w)
    ensures PoolGrows(w.s.db.pool, Step(w, e).s.db.pool)
  {
    StepIsolated(w, e);
  }

  /** Only CreatePayment comes to an insert. */
  lemma NoMint(cfg: Config, s: Shared, tid: nat, th: Thread, out: Outcome)
    requires !PayPhase(th)
    ensures !Advance(cfg, s, tid, th, out).1.PayInsert?
  {
    hide FindByAddress, FindByTradeNo, FindActiveByOrder, UpdateOrder, InsertOrder, AdvancePay;
  }

  lemma {:induction false} RunLost(w: World, evs: seq<Event>, a: string, no: string)
    requires Isolated(w) && Lost(w, a, no)
    ensures Lost(RunAll(w, evs), a, no)
    decreases |evs|
  {
    hide Step, Isolated, Lost;
    if evs != [] {
      StepLost(w, evs[0], a, no);
      RunLost(Step(w, evs[0]), evs[1..], a, no);
    }
  }

  /** While a payment of the channel waits for its trade number, the insert of any other stores nothing. */
  lemma WaitingRefuses(w: World, tid: nat, out: Outcome, i: nat)
    requires AllRegular(w) && tid in w.threads && w.threads[tid].PayInsert? && w.threads[tid].row.channel != Mock
    requires i < |w.s.db.payments| && w.s.db.payments[i].tradeNo == "" &&
              w.s.db.payments[i].channel == w.threads[tid].row.channel
    ensures Step(w, Run(tid, out)) == w.(threads := w.threads[tid := PayDone(None)])
  {
    hide AdvanceCreate, AdvanceVerify, AdvancePaid, AdvanceOther;
    var row := w.threads[tid].row;
    assert Regular(w.s, w.threads[tid]);
    assert TradeTaken(w.s.db, |w.s.db.payments|, row.channel, "");
  }

  /** So while a USDT payment waits for its transaction, every other CreatePayment leases an address and then fails, and
      that address stays leased to its order, on no payment, for ever. */
  lemma RefusedInsertLosesAddress(cfg: Config, before: seq<Event>, tid: nat, out: Outcome, i: nat, after: seq<Event>)
    requires var w := RunAll(Init(cfg), before);
             && tid in w.threads && w.threads[tid].PayInsert? && w.threads[tid].row.channel == Usdt
             && w.threads[tid].row.address != ""
             && i < |w.s.db.payments| && w.s.db.payments[i].channel == Usdt && w.s.db.payments[i].tradeNo == ""
    ensures var w := RunAll(Init(cfg), before); var row := w.threads[tid].row;
            var w' := RunAll(Step(w, Run(tid, out)), after);
            LeasedTo(w'.s.db, row.address, row.order) &&
            forall k :: 0 <= k < |w'.s.db.payments| ==> w'.s.db.payments[k].address != row.address
  {
    var w := RunAll(Init(cfg), before);
    var row := w.threads[tid].row;
    RunRegular(Init(cfg), before);
    RunIsolated(Init(cfg), before);
    RunKeepsConfig(Init(cfg), before);
    WaitingRefuses(w, tid, out, i);
    StepIsolated(w, Run(tid, out));
    OnlyItsOwn(w, tid);
    hide Step, RunAll, AllRegular, Isolated;
    RunLost(Step(w, Run(tid, out)), after, row.address, row.order);
  }

  lemma OnlyItsOwn(w: World, tid: nat)
    requires Isolated(w) && tid in w.threads && w.threads[tid].PayInsert?
    requires var row := w.threads[tid].row; row.channel == Usdt && row.address != ""
    ensures var row := w.threads[tid].row;
            Lost(w.(threads := w.threads[tid := PayDone(None)]), row.address, row.order)
  {
    hide TxNames, LeasedTo;
    var row := w.threads[tid].row;
    assert ThreadOk(w.cfg, w.s, tid, w.threads[tid]);
    forall i | 0 <= i < |w.s.db.payments| ensures w.s.db.payments[i].address != row.address {
      assert PaymentOk(w.cfg, w.s, i, w.s.db.payments[i]);
    }
    forall t | t in w.threads && t != tid && w.threads[t].PayInsert? ensures w.threads[t].row.address != row.address {
      assert ThreadOk(w.cfg, w.s, t, w.threads[t]);
    }
  }

  /** Such a run, every call succeeding but for the refused insert: two orders, two addresses, the second one lost. */
  lemma AddressIsLost(cfg: Config, u: nat, x: string, y: string, after: seq<Event>) returns (before: seq<Event>)
    requires u in cfg.users && x != y && y != ""
    ensures var w := RunAll(RunAll(Init(cfg), before), after);
            LeasedTo(w.s.db, y, "b") && forall k :: 0 <= k < |w.s.db.payments| ==> w.s.db.payments[k].address != y
  {
    hide AdvanceCreate, AdvanceVerify, AdvancePaid, AdvanceOther, RunAll, Step;
    var evs, w := Routing.FirstLeased(cfg, u, x, y);
    Routing.NextFreeIs(w.s.db, 1);
    evs, w := Routing.Asked(cfg, evs, w, 3, u, "b");
    hide NextFree;
    var row := Routing.Leased(cfg, u, "b", y);
    evs, w := Turn(Init(cfg), evs, w, 3, AdvancePay(cfg, w.s, 3, w.threads[3], Ok).0, PayInsert(row));
    assert w.s.db.payments[0].tradeNo == "" && w.s.db.payments[0].channel == Usdt;
    RefusedInsertLosesAddress(cfg, evs, 3, Ok, 0, after);
    before, w := Then(Init(cfg), evs, w, Run(3, Ok));
  }

  lemma Waited(w: World, d: nat)
    ensures Step(w, Tick(d)) == w.(s := w.s.(now := w.s.now + d))
  {
  }

  /** And one that closes a channel: an order, an attempt nobody pays, and the deadline. */
  lemma AbandonedAttemptCloses(cfg: Config, u: nat, ch: Channel) returns (before: seq<Event>)
    requires u in cfg.users && ch in {Alipay, Wechat}
    ensures Closed(RunAll(Init(cfg), before), ch)
    ensures |RunAll(Init(cfg), before).s.db.payments| == 1
  {
    hide Advance, RunAll, Step;
    var wait := if cfg.payTtl > 0 then cfg.payTtl else 0;
    var evs, w := Scenario.Buy(cfg, u);
    var more, w1, w2;
    more, w1 := Minted(w, Scenario.NO, ch, Mint("", 0), Ok);
    RunAllAppend(Init(cfg), evs, more);
    Waited(w1, wait);
    before, w2 := Then(Init(cfg), evs + more, w1, Tick(wait));
    forall after ensures NoneSince(RunAll(w2, after).s.db, 1, ch) {
      ClosedForEver(cfg, before, after, 0);
    }
  }
}
