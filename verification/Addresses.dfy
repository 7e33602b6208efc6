/** The USDT address pool under arbitrary interleaving: one payment per address for ever, and a transfer to an
    address settles only the order that address was leased to. */
module Addresses {
  import opened Wrappers
  import opened Tables
  import opened Machine
  import opened Growth

  // ----- the pool ---------------------------------------------------------------

  ghost predicate DistinctPool(pool: seq<Lease>) {
    forall i, j :: 0 <= i < j < |pool| ==> pool[i].address != pool[j].address
  }

  /** The address is out of the free list, leased to this order. */
  ghost predicate LeasedTo(db: Db, address: string, no: string) {
    exists i :: 0 <= i < |db.pool| && db.pool[i].address == address && db.pool[i].status != Free &&
        db.pool[i].order == no
  }

  /** Addresses stay; a lease keeps its order and never becomes free again; used stays used. */
  ghost predicate PoolGrows(a: seq<Lease>, b: seq<Lease>) {
    |a| <= |b| && forall i :: 0 <= i < |a| ==> SameLease(a[i], b[i])
  }

  predicate SameLease(l: Lease, l': Lease) {
    l'.address == l.address && (l.status != Free ==> l'.status != Free && l'.order == l.order)
    && (l.status == Used ==> l'.status == Used)
  }

  lemma LeaseStays(a: Db, b: Db, address: string, no: string)
    requires PoolGrows(a.pool, b.pool) && LeasedTo(a, address, no)
    ensures LeasedTo(b, address, no)
  {
    var i :| 0 <= i < |a.pool| && a.pool[i].address == address && a.pool[i].status != Free && a.pool[i].order == no;
    assert SameLease(a.pool[i], b.pool[i]);
  }

  lemma LeaseUnique(db: Db, address: string, a: string, b: string)
    requires DistinctPool(db.pool) && LeasedTo(db, address, a) && LeasedTo(db, address, b)
    ensures a == b
  {
  }

  // ----- the invariant -----------------------------------------------------------

  /** Free addresses were never leased; only leased addresses are on payments. */
  ghost predicate PoolOk(s: Shared) {
    && DistinctPool(s.db.pool)
    && (forall i :: 0 <= i < |s.db.pool| && s.db.pool[i].status == Free ==> s.db.pool[i].address !in s.hist.holder)
    && (forall a :: a in s.hist.bound ==> a in s.hist.holder)
    && (forall a :: a in s.hist.holder ==> InPool(s.db, a))
  }

  ghost predicate SeededOk(s: Shared) {
    forall a :: a in s.hist.seeded <==> InPool(s.db, a)
  }

  /** A transaction names this order: one of the addresses it pays to was leased to it. */
  ghost predicate TxNames(cfg: Config, db: Db, tx: string, no: string) {
    exists a :: a in PaysTo(cfg, tx) && LeasedTo(db, a, no)
  }

  ghost predicate PaymentOk(cfg: Config, s: Shared, pid: nat, p: Payment) {
    if p.channel == Usdt then
      p.address in s.hist.bound && s.hist.bound[p.address] == pid
      && LeasedTo(s.db, p.address, p.order)
      && (p.tradeNo != "" ==> TxNames(cfg, s.db, p.tradeNo, p.order))
    else p.address == ""
  }

  ghost predicate PaymentsOk(cfg: Config, s: Shared) {
    forall i :: 0 <= i < |s.db.payments| ==> PaymentOk(cfg, s, i, s.db.payments[i])
  }

  /** On the USDT channel, the notify and the payment it found are for the order the transaction names. */
  ghost predicate OnTx(cfg: Config, s: Shared, ch: Channel, n: Notify) {
    ch == Usdt ==> TxNames(cfg, s.db, n.tradeNo, n.order)
  }

  ghost predicate OnPay(cfg: Config, s: Shared, ch: Channel, n: Notify, pid: nat, pay: Payment) {
    pid < |s.db.payments| && SamePayment(pay, s.db.payments[pid]) && pay.channel == ch
    && (ch == Usdt ==> TxNames(cfg, s.db, n.tradeNo, pay.order))
    && (ch != Usdt ==> pay.address == "")
  }

  ghost predicate OnVia(cfg: Config, s: Shared, no: string, via: Via) {
    via.Through? && via.channel == Usdt ==> TxNames(cfg, s.db, via.n.tradeNo, no)
  }

  ghost predicate ThreadOk(cfg: Config, s: Shared, tid: nat, th: Thread) {
    match th
    case PayInsert(row) =>
      if row.channel == Usdt then
        row.tradeNo == "" && LeasedTo(s.db, row.address, row.order)
        && row.address in s.hist.holder && s.hist.holder[row.address] == tid && row.address !in s.hist.bound
      else row.address == ""
    case TransferLookup(address, _, tx) => tx != "" && address in PaysTo(cfg, tx)
    case VerifyTrade(ch, n) => OnTx(cfg, s, ch, n)
    case VerifyActive(ch, n) => OnTx(cfg, s, ch, n)
    case VerifySetTrade(ch, n, pid, pay) => OnPay(cfg, s, ch, n, pid, pay)
    case VerifyMark(ch, n, pid, pay) => OnPay(cfg, s, ch, n, pid, pay)
    case VerifyUse(ch, n, pid, pay) => OnPay(cfg, s, ch, n, pid, pay)
    case PaidLookup(no, _, via) => OnVia(cfg, s, no, via)
    case PaidCheck(no, _, via, _) => OnVia(cfg, s, no, via)
    case PaidUpdate(no, _, via, _, _) => OnVia(cfg, s, no, via)
    case _ => true
  }

  ghost predicate RowsOk(cfg: Config, s: Shared) { PoolOk(s) && SeededOk(s) && PaymentsOk(cfg, s) }

  ghost predicate Isolated(w: World) {
    RowsOk(w.cfg, w.s) && forall t :: t in w.threads ==> ThreadOk(w.cfg, w.s, t, w.threads[t])
  }

  // ----- what a step of one thread leaves to the others ------------------------------

  /** Leases and holders stay, and only the moving thread's own addresses become bound. */
  ghost predicate PoolStep(s: Shared, s': Shared, mover: nat) {
    && Grows(s, s')
    && PoolGrows(s.db.pool, s'.db.pool)
    && (forall a :: a in s.hist.holder ==> a in s'.hist.holder && s'.hist.holder[a] == s.hist.holder[a])
    && (forall a :: a in s'.hist.bound ==> a in s.hist.bound || (a in s.hist.holder && s.hist.holder[a] == mover))
  }

  lemma TxStays(cfg: Config, a: Db, b: Db, tx: string, no: string)
    requires PoolGrows(a.pool, b.pool) && TxNames(cfg, a, tx, no)
    ensures TxNames(cfg, b, tx, no)
  {
    var x :| x in PaysTo(cfg, tx) && LeasedTo(a, x, no);
    LeaseStays(a, b, x, no);
  }

  lemma OthersKeep(cfg: Config, s: Shared, s': Shared, mover: nat, tid: nat, th: Thread)
    requires PoolStep(s, s', mover) && tid != mover && ThreadOk(cfg, s, tid, th)
    ensures ThreadOk(cfg, s', tid, th)
  {
    forall tx, no | TxNames(cfg, s.db, tx, no)
        ensures TxNames(cfg, s'.db, tx, no) { TxStays(cfg, s.db, s'.db, tx, no); }
    if th.PayInsert? && th.row.channel == Usdt { LeaseStays(s.db, s'.db, th.row.address, th.row.order); }
  }

  // ----- preservation, step by step ----------------------------------------------------

  predicate SamePoolHistory(s: Shared, s': Shared) {
    s'.db.pool == s.db.pool && s'.hist.seeded == s.hist.seeded && s'.hist.holder == s.hist.holder &&
        s'.hist.bound == s.hist.bound
  }

  predicate SameBut(p: Payment, p': Payment) {
    p'.channel == p.channel && p'.address == p.address && p'.order == p.order && p'.tradeNo == p.tradeNo
  }

  /** Steps that touch neither the pool nor what payments say about addresses and trades. */
  lemma QuietStep(cfg: Config, s: Shared, s': Shared, mover: nat)
    requires RowsOk(cfg, s) && Grows(s, s') && SamePoolHistory(s, s') && |s'.db.payments| == |s.db.payments|
    requires forall i :: 0 <= i < |s.db.payments| ==> SameBut(s.db.payments[i], s'.db.payments[i])
    ensures RowsOk(cfg, s') && PoolStep(s, s', mover)
  {
    forall i | 0 <= i < |s'.db.payments| ensures PaymentOk(cfg, s', i, s'.db.payments[i]) {
      assert PaymentOk(cfg, s, i, s.db.payments[i]);
      SamePoolSameFacts(cfg, s, s');
    }
    assert SeededOk(s') by { assert forall a :: InPool(s'.db, a) <==> InPool(s.db, a); }
  }

  lemma SamePoolSameFacts(cfg: Config, s: Shared, s': Shared)
    requires s'.db.pool == s.db.pool
    ensures forall a, no :: LeasedTo(s.db, a, no) ==> LeasedTo(s'.db, a, no)
    ensures forall tx, no :: TxNames(cfg, s.db, tx, no) ==> TxNames(cfg, s'.db, tx, no)
  {
  }

  lemma CreateOk(cfg: Config, s: Shared, tid: nat, th: Thread, out: Outcome)
    requires th.CreateLookup? || th.CreateClock? || th.CreateInsert? || th.CreateRefetch?
    requires RowsOk(cfg, s)
    ensures var (s', th') := AdvanceCreate(cfg, s, th, out);
            RowsOk(cfg, s') && PoolStep(s, s', tid) && ThreadOk(cfg, s', tid, th')
  {
    CreateGrows(cfg, s, th, out);
    QuietStep(cfg, s, AdvanceCreate(cfg, s, th, out).0, tid);
  }

  lemma OtherOk(cfg: Config, s: Shared, tid: nat, th: Thread, out: Outcome)
    requires OtherPhase(th) && RowsOk(cfg, s)
    ensures var (s', th') := AdvanceOther(s, th, out);
            RowsOk(cfg, s') && PoolStep(s, s', tid) && ThreadOk(cfg, s', tid, th')
  {
    OtherGrows(s, th, out);
    QuietStep(cfg, s, AdvanceOther(s, th, out).0, tid);
  }

  lemma PaidKeepsPool(cfg: Config, s: Shared, tid: nat, th: Thread, out: Outcome)
    requires PaidPhase(th)
    ensures var s' := AdvancePaid(cfg, s, tid, th, out).0; SamePoolHistory(s, s') && s'.db.payments == s.db.payments
  {
  }

  lemma PaidNext(cfg: Config, s: Shared, tid: nat, th: Thread, out: Outcome)
    requires PaidPhase(th) && ThreadOk(cfg, s, tid, th)
    ensures var (s', th') := AdvancePaid(cfg, s, tid, th, out); ThreadOk(cfg, s, tid, th') && s'.db.pool == s.db.pool
  {
    hide TxNames;
  }

  lemma PaidOk(cfg: Config, s: Shared, tid: nat, th: Thread, out: Outcome)
    requires PaidPhase(th) && RowsOk(cfg, s) && ThreadOk(cfg, s, tid, th)
    ensures var (s', th') := AdvancePaid(cfg, s, tid, th, out);
            RowsOk(cfg, s') && PoolStep(s, s', tid) && ThreadOk(cfg, s', tid, th')
  {
    PaidGrows(cfg, s, tid, th, out);
    PaidKeepsPool(cfg, s, tid, th, out);
    PaidNext(cfg, s, tid, th, out);
    hide AdvancePaid;
    QuietStep(cfg, s, AdvancePaid(cfg, s, tid, th, out).0, tid);
  }

  /** Allocation takes a free address, so one nobody ever held. */
  lemma MintOk(cfg: Config, s: Shared, tid: nat, th: Thread, out: Outcome)
    requires th.PayMint? && th.channel == Usdt && NextFree(s.db).Some? && Took(out)
    requires RowsOk(cfg, s)
    ensures var (s', th') := AdvancePay(cfg, s, tid, th, out);
            RowsOk(cfg, s') && PoolStep(s, s', tid) && ThreadOk(cfg, s', tid, th')
  {
    var s' := AdvancePay(cfg, s, tid, th, out).0;
    var i := NextFree(s.db).value;
    assert SameLease(s.db.pool[i], s'.db.pool[i]);
    assert PoolStep(s, s', tid);
    assert s'.db.pool[i].address == s.db.pool[i].address && LeasedTo(s'.db, s'.db.pool[i].address, th.no);
    forall k | 0 <= k < |s'.db.payments| ensures PaymentOk(cfg, s', k, s'.db.payments[k]) {
      PaymentStays(cfg, s, s', k);
    }
    SamePoolAddresses(s, s');
  }

  lemma SamePoolAddresses(s: Shared, s': Shared)
    requires SeededOk(s) && s'.hist.seeded == s.hist.seeded && |s'.db.pool| == |s.db.pool|
    requires forall i :: 0 <= i < |s.db.pool| ==> s'.db.pool[i].address == s.db.pool[i].address
    ensures SeededOk(s') && forall a :: InPool(s.db, a) <==> InPool(s'.db, a)
  {
    forall a ensures InPool(s.db, a) <==> InPool(s'.db, a) {
      if InPool(s.db, a) {
        var i :| 0 <= i < |s.db.pool| && s.db.pool[i].address == a;
        assert s'.db.pool[i].address == a;
      }
    }
  }

  /** A payment the step leaves alone keeps its facts while the pool grows. */
  lemma PaymentStays(cfg: Config, s: Shared, s': Shared, k: nat)
    requires PoolGrows(s.db.pool, s'.db.pool) && k < |s.db.payments| && k < |s'.db.payments|
    requires PaymentOk(cfg, s, k, s.db.payments[k]) && SameBut(s.db.payments[k], s'.db.payments[k])
    requires forall a :: a in s.hist.bound ==> a in s'.hist.bound && s'.hist.bound[a] == s.hist.bound[a]
    ensures PaymentOk(cfg, s', k, s'.db.payments[k])
  {
    var p := s.db.payments[k];
    if p.channel == Usdt {
      LeaseStays(s.db, s'.db, p.address, p.order);
      if p.tradeNo != "" { TxStays(cfg, s.db, s'.db, p.tradeNo, p.order); }
    }
  }

  /** The stored payment, with its address bound to it. */
  function Stored(s: Shared, row: Payment): Shared {
    s.(db := s.db.(payments := s.db.payments + [row]),
       hist := if row.channel == Usdt then s.hist.(bound := s.hist.bound[row.address := |s.db.payments|]) else s.hist)
  }

  lemma StoredRows(cfg: Config, s: Shared, tid: nat, row: Payment)
    requires PaymentsOk(cfg, s) && ThreadOk(cfg, s, tid, PayInsert(row))
    ensures PaymentsOk(cfg, Stored(s, row))
  {
    hide TxNames, LeasedTo;
    var s' := Stored(s, row);
    SamePoolSameFacts(cfg, s, s');
    forall k | 0 <= k < |s'.db.payments| ensures PaymentOk(cfg, s', k, s'.db.payments[k]) {
      if k < |s.db.payments| { PaymentStays(cfg, s, s', k); }
    }
  }

  lemma StoredPool(cfg: Config, s: Shared, tid: nat, row: Payment)
    requires PoolOk(s) && SeededOk(s) && ThreadOk(cfg, s, tid, PayInsert(row))
    ensures var s' := Stored(s, row); PoolOk(s') && SeededOk(s') && PoolStep(s, s', tid)
  {
    hide TxNames;
    SamePoolAddresses(s, Stored(s, row));
  }

  lemma InsertOk(cfg: Config, s: Shared, tid: nat, th: Thread, out: Outcome)
    requires th.PayInsert? && Took(out)
    requires RowsOk(cfg, s) && ThreadOk(cfg, s, tid, th)
    ensures var (s', th') := AdvancePay(cfg, s, tid, th, out);
            RowsOk(cfg, s') && PoolStep(s, s', tid) && ThreadOk(cfg, s', tid, th')
  {
    var s' := AdvancePay(cfg, s, tid, th, out).0;
    if InsertPayment(s.db, th.row).Some? {
      StoredRows(cfg, s, tid, th.row);
      StoredPool(cfg, s, tid, th.row);
      assert s' == Stored(s, th.row);
    } else {
      assert s' == s;
    }
    hide PaymentsOk, PoolOk, SeededOk, TradeTaken;
  }

  lemma PayOk(cfg: Config, s: Shared, tid: nat, th: Thread, out: Outcome)
    requires PayPhase(th) && RowsOk(cfg, s) && ThreadOk(cfg, s, tid, th)
    ensures var (s', th') := AdvancePay(cfg, s, tid, th, out);
            RowsOk(cfg, s') && PoolStep(s, s', tid) && ThreadOk(cfg, s', tid, th')
  {
    if th.PayMint? && th.channel == Usdt && NextFree(s.db).Some? && Took(out) {
      MintOk(cfg, s, tid, th, out);
    } else if th.PayInsert? && Took(out) {
      InsertOk(cfg, s, tid, th, out);
    } else {
      QuietStep(cfg, s, AdvancePay(cfg, s, tid, th, out).0, tid);
    }
  }

  /** Giving one payment a trade number its order may carry. */
  lemma Retrade(cfg: Config, s: Shared, s': Shared, mover: nat, pid: nat, tradeNo: string)
    requires RowsOk(cfg, s) && Grows(s, s') && SamePoolHistory(s, s')
    requires |s'.db.payments| == |s.db.payments| && pid < |s.db.payments|
    requires s.db.payments[pid].channel == Usdt ==> TxNames(cfg, s.db, tradeNo, s.db.payments[pid].order)
    requires s'.db.payments[pid].tradeNo == s.db.payments[pid].tradeNo || s'.db.payments[pid].tradeNo == tradeNo
    requires forall i :: 0 <= i < |s.db.payments| && i != pid ==> SameBut(s.db.payments[i], s'.db.payments[i])
    ensures RowsOk(cfg, s') && PoolStep(s, s', mover)
  {
    SamePoolSameFacts(cfg, s, s');
    SamePoolAddresses(s, s');
    forall i | 0 <= i < |s'.db.payments| ensures PaymentOk(cfg, s', i, s'.db.payments[i]) {
      assert PaymentOk(cfg, s, i, s.db.payments[i]);
      assert SamePayment(s.db.payments[i], s'.db.payments[i]);
    }
  }

  lemma UseOk(cfg: Config, s: Shared, address: string, mover: nat)
    requires RowsOk(cfg, s)
    ensures var s' := s.(db := MarkUsed(s.db, address)); RowsOk(cfg, s') && PoolStep(s, s', mover)
  {
    var s' := s.(db := MarkUsed(s.db, address));
    SamePoolAddresses(s, s');
    assert PoolGrows(s.db.pool, s'.db.pool);
    forall k | 0 <= k < |s'.db.payments| ensures PaymentOk(cfg, s', k, s'.db.payments[k]) {
      PaymentStays(cfg, s, s', k);
    }
  }

  lemma TransferLookupOk(cfg: Config, s: Shared, tid: nat, th: Thread, out: Outcome)
    requires th.TransferLookup? && RowsOk(cfg, s) && ThreadOk(cfg, s, tid, th)
    ensures var (s', th') := AdvanceVerify(cfg, s, th, out); s' == s && ThreadOk(cfg, s', tid, th')
  {
    var hit := FindByAddress(s.db, Usdt, th.address, th.token);
    if hit.Some? { assert PaymentOk(cfg, s, hit.value, s.db.payments[hit.value]); }
  }

  lemma TradeLookupOk(cfg: Config, s: Shared, tid: nat, th: Thread, out: Outcome)
    requires th.VerifyTrade? && RowsOk(cfg, s) && ThreadOk(cfg, s, tid, th)
    ensures var (s', th') := AdvanceVerify(cfg, s, th, out); s' == s && ThreadOk(cfg, s', tid, th')
  {
    hide TxNames, PoolOk, SeededOk, LeasedTo;
    var hit := FindByTradeNo(s.db, th.channel, th.n.tradeNo);
    if hit.Some? { assert PaymentOk(cfg, s, hit.value, s.db.payments[hit.value]); }
  }

  lemma ActiveLookupOk(cfg: Config, s: Shared, tid: nat, th: Thread, out: Outcome)
    requires th.VerifyActive? && RowsOk(cfg, s) && ThreadOk(cfg, s, tid, th)
    ensures var (s', th') := AdvanceVerify(cfg, s, th, out); s' == s && ThreadOk(cfg, s', tid, th')
  {
    hide TxNames, PoolOk, SeededOk, LeasedTo;
    var hit := FindActiveByOrder(s.db, th.n.order, th.channel, s.now);
    if hit.Some? { assert PaymentOk(cfg, s, hit.value, s.db.payments[hit.value]); }
  }

  lemma SetTradeOk(cfg: Config, s: Shared, tid: nat, th: Thread, out: Outcome)
    requires th.VerifySetTrade? || th.VerifyMark?
    requires RowsOk(cfg, s) && ThreadOk(cfg, s, tid, th)
    ensures var (s', th') := AdvanceVerify(cfg, s, th, out); RowsOk(cfg, s') && PoolStep(s, s', tid)
  {
    VerifyGrows(cfg, s, th, out);
    Retrade(cfg, s, AdvanceVerify(cfg, s, th, out).0, tid, th.pid, th.n.tradeNo);
  }

  /** The facts a thread past its lookup carries hold where the pool has grown. */
  lemma OnPayStays(cfg: Config, s: Shared, s': Shared, ch: Channel, n: Notify, pid: nat, pay: Payment)
    requires Grows(s, s') && PoolGrows(s.db.pool, s'.db.pool) && OnPay(cfg, s, ch, n, pid, pay)
    ensures OnPay(cfg, s', ch, n, pid, pay)
  {
    hide TxNames;
    if ch == Usdt { TxStays(cfg, s.db, s'.db, n.tradeNo, pay.order); }
  }

  /** The moved thread's facts pass to its next stage. */
  lemma VerifyNext(cfg: Config, s: Shared, tid: nat, th: Thread, out: Outcome)
    requires th.VerifySetTrade? || th.VerifyMark? || th.VerifyUse?
    requires ThreadOk(cfg, s, tid, th)
    requires PoolStep(s, AdvanceVerify(cfg, s, th, out).0, tid)
    ensures var (s', th') := AdvanceVerify(cfg, s, th, out); ThreadOk(cfg, s', tid, th')
  {
    OnPayStays(cfg, s, AdvanceVerify(cfg, s, th, out).0, th.channel, th.n, th.pid, th.pay);
    hide TxNames, MarkPaid, UpdateTradeNo, MarkUsed, Grows, PoolGrows;
  }

  lemma VerifyOk(cfg: Config, s: Shared, tid: nat, th: Thread, out: Outcome)
    requires VerifyPhase(th) && RowsOk(cfg, s) && ThreadOk(cfg, s, tid, th)
    ensures var (s', th') := AdvanceVerify(cfg, s, th, out);
            RowsOk(cfg, s') && PoolStep(s, s', tid) && ThreadOk(cfg, s', tid, th')
  {
    if th.VerifySetTrade? || th.VerifyMark? {
      SetTradeOk(cfg, s, tid, th, out);
      VerifyNext(cfg, s, tid, th, out);
    } else if th.VerifyUse? {
      UseOk(cfg, s, th.pay.address, tid);
      QuietStep(cfg, s, s, tid);
      VerifyNext(cfg, s, tid, th, out);
    } else {
      QuietStep(cfg, s, s, tid);
      if th.TransferLookup? { TransferLookupOk(cfg, s, tid, th, out); }
      else if th.VerifyTrade? { TradeLookupOk(cfg, s, tid, th, out); }
      else { ActiveLookupOk(cfg, s, tid, th, out); }
    }
  }

  lemma AdvanceOk(cfg: Config, s: Shared, tid: nat, th: Thread, out: Outcome)
    requires RowsOk(cfg, s) && ThreadOk(cfg, s, tid, th)
    ensures var (s', th') := Advance(cfg, s, tid, th, out);
            RowsOk(cfg, s') && PoolStep(s, s', tid) && ThreadOk(cfg, s', tid, th')
  {
    hide AdvanceCreate, AdvancePay, AdvanceVerify, AdvancePaid, AdvanceOther;
    if th.CreateLookup? || th.CreateClock? || th.CreateInsert? || th.CreateRefetch? { CreateOk(cfg, s, tid, th, out); }
    else if PayPhase(th) { PayOk(cfg, s, tid, th, out); }
    else if VerifyPhase(th) { VerifyOk(cfg, s, tid, th, out); }
    else if PaidPhase(th) { PaidOk(cfg, s, tid, th, out); }
    else if OtherPhase(th) { OtherOk(cfg, s, tid, th, out); }
  }

  lemma SeedOneAddresses(db: Db, address: string)
    ensures forall a :: InPool(SeedOne(db, address), a) <==> InPool(db, a) || a == address
  {
    var db' := SeedOne(db, address);
    forall a ensures InPool(db', a) <==> InPool(db, a) || a == address {
      if InPool(db, a) {
        var i :| 0 <= i < |db.pool| && db.pool[i].address == a;
        assert db'.pool[i].address == a;
      }
      if !InPool(db, address) { assert db'.pool[|db.pool|].address == address; }
    }
  }

  lemma SeedOnePoolOk(s: Shared, address: string)
    requires PoolOk(s)
    ensures var db := SeedOne(s.db, address); PoolOk(s.(db := db)) && PoolGrows(s.db.pool, db.pool)
  {
    SeedOneAddresses(s.db, address);
    assert PoolGrows(s.db.pool, SeedOne(s.db, address).pool);
  }

  lemma SeedOneOk(cfg: Config, s: Shared, address: string) returns (s': Shared)
    requires RowsOk(cfg, s)
    ensures s' == s.(db := SeedOne(s.db, address), hist := s.hist.(seeded := s.hist.seeded + {address}))
    ensures RowsOk(cfg, s') && PoolGrows(s.db.pool, s'.db.pool)
  {
    s' := s.(db := SeedOne(s.db, address), hist := s.hist.(seeded := s.hist.seeded + {address}));
    SeedOnePoolOk(s, address);
    assert PoolOk(s.(db := s'.db)) ==> PoolOk(s');
    SeedOneAddresses(s.db, address);
    forall k | 0 <= k < |s'.db.payments| ensures PaymentOk(cfg, s', k, s'.db.payments[k]) {
      PaymentStays(cfg, s, s', k);
    }
  }

  lemma {:induction false} SeedOk(cfg: Config, s: Shared, addrs: seq<string>) returns (s': Shared)
    requires RowsOk(cfg, s)
    ensures s' == s.(db := Seed(s.db, addrs), hist := s.hist.(seeded := s.hist.seeded + (set a | a in addrs)))
    ensures RowsOk(cfg, s') && PoolGrows(s.db.pool, s'.db.pool)
    decreases |addrs|
  {
    if addrs == [] {
      assert s.hist.seeded + (set a | a in addrs) == s.hist.seeded;
      return s;
    }
    var m := SeedOneOk(cfg, s, addrs[0]);
    s' := SeedOk(cfg, m, addrs[1..]);
    assert addrs == [addrs[0]] + addrs[1..];
    assert s.hist.seeded + {addrs[0]} + (set a | a in addrs[1..]) == s.hist.seeded + (set a | a in addrs);
    PoolGrowsTransitive(s.db.pool, m.db.pool, s'.db.pool);
  }

  lemma PoolGrowsTransitive(a: seq<Lease>, b: seq<Lease>, c: seq<Lease>)
    requires PoolGrows(a, b) && PoolGrows(b, c)
    ensures PoolGrows(a, c)
  {
    forall i | 0 <= i < |a| ensures SameLease(a[i], c[i]) {
      assert SameLease(a[i], b[i]) && SameLease(b[i], c[i]);
    }
  }

  // ----- over any run ----------------------------------------------------------------------

  lemma SeedStepIsolated(w: World, addrs: seq<string>)
    requires Isolated(w)
    ensures Isolated(Step(w, AddAddresses(addrs)))
    ensures PoolGrows(w.s.db.pool, Step(w, AddAddresses(addrs)).s.db.pool)
  {
    var s' := SeedOk(w.cfg, w.s, addrs);
    SeedFrame(w.s.db, addrs);
    assert s' == Step(w, AddAddresses(addrs)).s;
    forall t | t in w.threads ensures ThreadOk(w.cfg, s', t, w.threads[t]) {
      OthersKeep(w.cfg, w.s, s', t + 1, t, w.threads[t]);
    }
  }

  lemma StepIsolated(w: World, e: Event)
    requires Isolated(w)
    ensures Isolated(Step(w, e)) && PoolGrows(w.s.db.pool, Step(w, e).s.db.pool)
  {
    hide Advance;
    var w' := Step(w, e);
    match e
    case Tick(d) =>
      assert PoolGrows(w.s.db.pool, w'.s.db.pool);
      QuietStep(w.cfg, w.s, w'.s, 0);
      forall t | t in w'.threads ensures ThreadOk(w.cfg, w'.s, t, w'.threads[t]) {
        OthersKeep(w.cfg, w.s, w'.s, t + 1, t, w.threads[t]);
      }
    case AddAddresses(addrs) => SeedStepIsolated(w, addrs);
    case Spawn(tid, th) =>
    case Run(tid, out) =>
      if tid in w.threads {
        AdvanceOk(w.cfg, w.s, tid, w.threads[tid], out);
        forall t | t in w'.threads && t != tid ensures ThreadOk(w.cfg, w'.s, t, w'.threads[t]) {
          OthersKeep(w.cfg, w.s, w'.s, tid, t, w.threads[t]);
        }
      }
  }

  lemma {:induction false} RunIsolated(w: World, evs: seq<Event>)
    requires Isolated(w)
    ensures Isolated(RunAll(w, evs)) && PoolGrows(w.s.db.pool, RunAll(w, evs).s.db.pool)
    ensures RunAll(w, evs).cfg == w.cfg
    decreases |evs|
  {
    if evs != [] {
      var w' := Step(w, evs[0]);
      StepIsolated(w, evs[0]);
      RunIsolated(w', evs[1..]);
      PoolGrowsTransitive(w.s.db.pool, w'.s.db.pool, RunAll(w', evs[1..]).s.db.pool);
    }
  }

  // ----- the theorems -------------------------------------------------------------------------

  /** No two USDT payments ever carry the same address. */
  lemma AddressesNeverShared(cfg: Config, evs: seq<Event>, i: nat, j: nat)
    requires var ps := RunAll(Init(cfg), evs).s.db.payments;
             i < j < |ps| && ps[i].channel == Usdt && ps[j].channel == Usdt
    ensures var ps := RunAll(Init(cfg), evs).s.db.payments; ps[i].address != ps[j].address
  {
    RunIsolated(Init(cfg), evs);
    var s := RunAll(Init(cfg), evs).s;
    assert PaymentOk(cfg, s, i, s.db.payments[i]) && PaymentOk(cfg, s, j, s.db.payments[j]);
  }

  function CountStatus(pool: seq<Lease>, st: LeaseStatus): nat {
    if pool == [] then 0
    else CountStatus(pool[..|pool| - 1], st) + if pool[|pool| - 1].status == st then 1 else 0
  }

  function AddressSet(pool: seq<Lease>): set<string> {
    if pool == [] then {} else AddressSet(pool[..|pool| - 1]) + {pool[|pool| - 1].address}
  }

  lemma {:induction false} AddressSetIs(pool: seq<Lease>)
    ensures forall i :: 0 <= i < |pool| ==> pool[i].address in AddressSet(pool)
    ensures forall a :: a in AddressSet(pool) ==> exists i :: 0 <= i < |pool| && pool[i].address == a
  {
    if pool != [] {
      var n := |pool| - 1;
      AddressSetIs(pool[..n]);
      forall i | 0 <= i < |pool| ensures pool[i].address in AddressSet(pool) {
        if i < n { assert pool[..n][i].address in AddressSet(pool[..n]); }
      }
      forall a | a in AddressSet(pool) ensures exists i :: 0 <= i < |pool| && pool[i].address == a {
        if a in AddressSet(pool[..n]) {
          var i :| 0 <= i < n && pool[..n][i].address == a;
          assert pool[i].address == a;
        }
      }
    }
  }

  lemma {:induction false} DistinctPoolSize(pool: seq<Lease>)
    requires DistinctPool(pool)
    ensures |AddressSet(pool)| == |pool|
  {
    if pool != [] {
      var n := |pool| - 1;
      DistinctPoolSize(pool[..n]);
      AddressSetIs(pool[..n]);
    }
  }

  lemma {:induction false} StatusesPartition(pool: seq<Lease>)
    ensures CountStatus(pool, Free) + CountStatus(pool, Allocated) + CountStatus(pool, Used) == |pool|
  {
    if pool != [] { StatusesPartition(pool[..|pool| - 1]); }
  }

  /** Free, allocated and used addresses always add up to the distinct addresses ever seeded. */
  lemma PoolIsConserved(cfg: Config, evs: seq<Event>)
    ensures var s := RunAll(Init(cfg), evs).s;
            CountStatus(s.db.pool, Free) + CountStatus(s.db.pool, Allocated) + CountStatus(s.db.pool, Used)
            == |s.hist.seeded|
  {
    RunIsolated(Init(cfg), evs);
    var s := RunAll(Init(cfg), evs).s;
    AddressSetIs(s.db.pool);
    DistinctPoolSize(s.db.pool);
    StatusesPartition(s.db.pool);
    forall a ensures a in AddressSet(s.db.pool) <==> a in s.hist.seeded {
      assert InPool(s.db, a) <==> a in s.hist.seeded;
    }
    assert AddressSet(s.db.pool) == s.hist.seeded;
  }

  /** Used is absorbing, and a lease never changes hands, from any reachable state on. */
  lemma LeasesAreForEver(cfg: Config, evs: seq<Event>, more: seq<Event>, i: nat)
    requires i < |RunAll(Init(cfg), evs).s.db.pool|
    ensures var a := RunAll(Init(cfg), evs).s.db.pool; var b := RunAll(RunAll(Init(cfg), evs), more).s.db.pool;
            i < |b| && b[i].address == a[i].address
            && (a[i].status == Used ==> b[i].status == Used)
            && (a[i].status != Free ==> b[i].status != Free && b[i].order == a[i].order)
  {
    RunIsolated(Init(cfg), evs);
    var w := RunAll(Init(cfg), evs);
    RunIsolated(w, more);
    assert SameLease(w.s.db.pool[i], RunAll(w, more).s.db.pool[i]);
  }
}
