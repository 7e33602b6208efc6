/** Runs that show what the guards and disciplines are for: handlers that overlap on one order or on one user. And, for
    each of them, exactly which deployments can do without. */
module Overlaps {
  import opened Wrappers
  import opened Tables
  import opened Machine
  import opened Scenario
  import opened Effects
  import opened Stamps
  import opened Accounting
  import Ttl

  // ----- two HandlePaid calls on one order ----------------------------------------------------

  lemma BothRead(cfg: Config, u: nat) returns (evs: seq<Event>, w: World)
    requires u in cfg.users && cfg.orderTtl > 0
    ensures w == RunAll(Init(cfg), evs) && w.cfg == cfg && w.s.now == 0 && w.s.db.users == cfg.users
    ensures w.s.hist.effects == [] && 1 in w.threads && 2 in w.threads
    ensures w.threads[1] == PaidCheck(NO, "m", Direct, Row(cfg, u)) && w.threads[2] == w.threads[1]
    ensures w.s.db.orders == map[NO := Row(cfg, u)]
  {
    hide AdvanceCreate, AdvancePay, AdvanceVerify, AdvanceOther, RunAll, Step;
    evs, w := Buy(cfg, u);
    var read := PaidCheck(NO, "m", Direct, Row(cfg, u));
    evs, w := Start(Init(cfg), evs, w, 1, PaidLookup(NO, "m", Direct));
    evs, w := Start(Init(cfg), evs, w, 2, PaidLookup(NO, "m", Direct));
    evs, w := Turn(Init(cfg), evs, w, 1, w.s, read);
    evs, w := Turn(Init(cfg), evs, w, 2, w.s, read);
  }

  /** The top-up's row once paid through the mock channel. */
  function PaidRow(cfg: Config, o: Order, paidAt: int): Order {
    o.(status := Paid, paidAt := Some(paidAt), paid := Net(cfg.money, o), channelNo := "m")
  }

  lemma BothWrite(cfg: Config, u: nat) returns (evs: seq<Event>, w: World)
    requires u in cfg.users && cfg.orderTtl > 0
    ensures w == RunAll(Init(cfg), evs) && w.cfg == cfg && w.s.now == 0 && w.s.db.users == cfg.users
    ensures w.s.hist.effects == [] && 1 in w.threads && 2 in w.threads
    ensures w.threads[1] == w.threads[2] == PaidApply(NO, Row(cfg, u))
  {
    hide AdvanceCreate, AdvancePay, AdvanceVerify, AdvanceOther, RunAll, Step;
    evs, w := BothRead(cfg, u);
    var check := PaidUpdate(NO, "m", Direct, Row(cfg, u), 0);
    evs, w := Turn(Init(cfg), evs, w, 1, w.s, check);
    evs, w := Turn(Init(cfg), evs, w, 2, w.s, check);
    evs, w := Turn(Init(cfg), evs, w, 1, AdvancePaid(cfg, w.s, 1, check, Ok).0, PaidApply(NO, Row(cfg, u)));
    evs, w := Turn(Init(cfg), evs, w, 2, AdvancePaid(cfg, w.s, 2, check, Ok).0, PaidApply(NO, Row(cfg, u)));
  }

  /** UpdateStatus has no guard, so two overlapping HandlePaid calls credit a top-up twice, with every call
      succeeding. */
  lemma OverlappingCallsCreditTwice(cfg: Config, u: nat) returns (evs: seq<Event>)
    requires u in cfg.users && cfg.orderTtl > 0
    ensures var w := RunAll(Init(cfg), evs);
            !Distinct(w.s.hist.effects) && u in w.s.db.users &&
            w.s.db.users[u].balance == cfg.users[u].balance + 2 * cfg.money.cents(Net(cfg.money, Row(cfg, u)))
  {
    hide AdvanceCreate, AdvancePay, AdvanceVerify, AdvanceOther, RunAll, Step;
    var w;
    evs, w := BothWrite(cfg, u);
    evs, w := Turn(Init(cfg), evs, w, 1, AdvancePaid(cfg, w.s, 1, w.threads[1], Ok).0, Finished(false));
    assert w.s.hist.effects == [Effect(NO, 0, 1)];
    evs, w := Turn(Init(cfg), evs, w, 2, AdvancePaid(cfg, w.s, 2, w.threads[2], Ok).0, Finished(false));
    assert w.s.hist.effects[0].no == w.s.hist.effects[1].no;
  }

  // ----- HandlePaid and CancelOrder on one order -------------------------------------------------

  /** The owner's cancellation has read the order pending. */
  lemma CancelRead(cfg: Config, u: nat) returns (evs: seq<Event>, w: World)
    requires u in cfg.users
    ensures w == RunAll(Init(cfg), evs) && w.cfg == cfg && w.threads.Keys == {0, 1} && w.s.now == 0
    ensures w.threads[1] == CancelUpdate(NO, Row(cfg, u)) && w.s.db.orders == map[NO := Row(cfg, u)]
  {
    hide AdvanceCreate, AdvancePay, AdvanceVerify, AdvancePaid, RunAll, Step;
    evs, w := Buy(cfg, u);
    evs, w := Start(Init(cfg), evs, w, 1, CancelLookup(NO, u));
    evs, w := Turn(Init(cfg), evs, w, 1, w.s, CancelUpdate(NO, Row(cfg, u)));
  }

  /** Then HandlePaid pays it. */
  lemma PaidMeanwhile(cfg: Config, u: nat) returns (evs: seq<Event>, w: World)
    requires u in cfg.users && cfg.orderTtl > 0
    ensures w == RunAll(Init(cfg), evs) && w.cfg == cfg && 1 in w.threads
    ensures w.threads[1] == CancelUpdate(NO, Row(cfg, u))
    ensures w.s.db.orders == map[NO := PaidRow(cfg, Row(cfg, u), 0)]
  {
    hide AdvanceCreate, AdvancePay, AdvanceVerify, AdvanceOther, RunAll, Step;
    evs, w := CancelRead(cfg, u);
    var check := PaidUpdate(NO, "m", Direct, Row(cfg, u), 0);
    evs, w := Start(Init(cfg), evs, w, 2, PaidLookup(NO, "m", Direct));
    evs, w := Turn(Init(cfg), evs, w, 2, w.s, PaidCheck(NO, "m", Direct, Row(cfg, u)));
    evs, w := Turn(Init(cfg), evs, w, 2, w.s, check);
    evs, w := Turn(Init(cfg), evs, w, 2, AdvancePaid(cfg, w.s, 2, check, Ok).0, PaidApply(NO, Row(cfg, u)));
  }

  /** A CancelOrder call that overlaps turns a paid order cancelled, with every call succeeding and HandlePaid calls
      not overlapping at all. */
  lemma PaidThenCancelled(cfg: Config, u: nat) returns (before: seq<Event>, after: seq<Event>)
    requires u in cfg.users && cfg.orderTtl > 0
    ensures IsPaid(RunAll(Init(cfg), before).s, NO)
    ensures var o := RunAll(Init(cfg), before + after).s.db.orders; NO in o && o[NO].status == Cancelled
  {
    hide AdvanceCreate, AdvancePay, AdvanceVerify, AdvancePaid, RunAll, Step;
    var w, evs;
    before, w := PaidMeanwhile(cfg, u);
    evs, w := Turn(Init(cfg), before, w, 1, AdvanceOther(w.s, w.threads[1], Ok).0, Finished(false));
    after := [Run(1, Ok)];
  }

  // ----- two orders of one user ----------------------------------------------------------------

  /** Handlers on one order do not overlap, and every call succeeds. */
  ghost predicate Fair(cfg: Config, evs: seq<Event>) { Serial(Init(cfg), evs) && AllFaultless(evs) }

  lemma FairEvent(cfg: Config, evs: seq<Event>, w: World, e: Event)
    requires w == RunAll(Init(cfg), evs) && Fair(cfg, evs) && Exclusive(w, e) && Faultless(e)
    ensures Fair(cfg, evs + [e])
  {
    hide Exclusive, Step;
    assert [e][1..] == [];
    SerialJoins(Init(cfg), evs, [e]);
  }

  lemma FairTurn(cfg: Config, evs: seq<Event>, w: World, tid: nat, s: Shared, th: Thread)
    returns (evs': seq<Event>, w': World)
    requires w == RunAll(Init(cfg), evs) && tid in w.threads && Fair(cfg, evs) && Exclusive(w, Run(tid, Ok))
    requires Advance(w.cfg, w.s, tid, w.threads[tid], Ok) == (s, th)
    ensures w' == World(w.cfg, s, w.threads[tid := th]) && w' == RunAll(Init(cfg), evs') && Fair(cfg, evs')
  {
    hide Advance;
    FairEvent(cfg, evs, w, Run(tid, Ok));
    evs', w' := Turn(Init(cfg), evs, w, tid, s, th);
  }

  lemma FairStart(cfg: Config, evs: seq<Event>, w: World, tid: nat, th: Thread) returns (evs': seq<Event>, w': World)
    requires w == RunAll(Init(cfg), evs) && tid !in w.threads && CanStart(w.cfg, th) && Fair(cfg, evs)
    ensures w' == World(w.cfg, w.s, w.threads[tid := th]) && w' == RunAll(Init(cfg), evs') && Fair(cfg, evs')
  {
    hide Advance;
    FairEvent(cfg, evs, w, Spawn(tid, th));
    evs', w' := Start(Init(cfg), evs, w, tid, th);
  }

  lemma FairPlace(cfg: Config, evs: seq<Event>, w: World, tid: nat, input: NewOrder)
    returns (evs': seq<Event>, w': World)
    requires w == RunAll(Init(cfg), evs) && w.cfg == cfg && tid !in w.threads && Fair(cfg, evs)
    requires input.user in cfg.users && input.key != ""
    requires input.no !in w.s.db.orders && (input.user, input.key) !in w.s.db.idem
    ensures w' == RunAll(Init(cfg), evs') && Fair(cfg, evs')
    ensures w' == World(cfg, Placed(w.s, input, w.s.now + cfg.orderTtl),
                        w.threads[tid := CreateDone(input.user, input.key, Some(input.no))])
  {
    hide AdvancePay, AdvanceVerify, AdvancePaid, AdvanceOther, RunAll, Step, Fair;
    evs', w' := FairStart(cfg, evs, w, tid, CreateLookup(input));
    evs', w' := FairTurn(cfg, evs', w', tid, w'.s, CreateClock(input));
    evs', w' := FairTurn(cfg, evs', w', tid, w'.s, CreateInsert(input, w'.s.now + cfg.orderTtl));
    evs', w' := FairTurn(cfg, evs', w', tid, Placed(w'.s, input, w'.s.now + cfg.orderTtl),
                         CreateDone(input.user, input.key, Some(input.no)));
  }

  /** HandlePaid through the mock channel up to, not including, its status write. */
  lemma FairCheck(cfg: Config, evs: seq<Event>, w: World, tid: nat, no: string) returns (evs': seq<Event>, w': World)
    requires w == RunAll(Init(cfg), evs) && w.cfg == cfg && tid !in w.threads && Fair(cfg, evs)
    requires no in w.s.db.orders && IsPayable(w.s.db.orders[no], w.s.now)
    requires forall t :: t in w.threads ==> !Window(w.threads[t], no)
    ensures w' == RunAll(Init(cfg), evs') && Fair(cfg, evs')
    ensures w' == World(cfg, w.s, w.threads[tid := PaidUpdate(no, "m", Direct, w.s.db.orders[no], w.s.now)])
  {
    hide AdvanceCreate, AdvancePay, AdvanceVerify, AdvanceOther, RunAll, Step, Fair, UpdateOrder, BumpCoupon,
      ApplyEffects;
    var o := w.s.db.orders[no];
    evs', w' := FairStart(cfg, evs, w, tid, PaidLookup(no, "m", Direct));
    evs', w' := FairTurn(cfg, evs', w', tid, w'.s, PaidCheck(no, "m", Direct, o));
    evs', w' := FairTurn(cfg, evs', w', tid, w'.s, PaidUpdate(no, "m", Direct, o, w'.s.now));
  }

  /** And up to, not including, its effects. */
  lemma FairPay(cfg: Config, evs: seq<Event>, w: World, tid: nat, no: string) returns (evs': seq<Event>, w': World)
    requires w == RunAll(Init(cfg), evs) && w.cfg == cfg && tid !in w.threads && Fair(cfg, evs)
    requires no in w.s.db.orders && IsPayable(w.s.db.orders[no], w.s.now) && w.s.db.orders[no].coupon == ""
    requires forall t :: t in w.threads ==> !Window(w.threads[t], no)
    ensures w' == RunAll(Init(cfg), evs') && Fair(cfg, evs')
    ensures w'.cfg == cfg && w'.threads == w.threads[tid := PaidApply(no, w.s.db.orders[no])]
    ensures w'.s.now == w.s.now && w'.s.db == w.s.db.(orders := w'.s.db.orders) && w'.s.hist.effects == w.s.hist.effects
    ensures w'.s.db.orders == w.s.db.orders[no := PaidRow(cfg, w.s.db.orders[no], w.s.now)]
  {
    hide AdvanceCreate, AdvancePay, AdvanceVerify, AdvanceOther, RunAll, Step, Fair;
    evs', w' := FairCheck(cfg, evs, w, tid, no);
    evs', w' := FairTurn(cfg, evs', w', tid, AdvancePaid(cfg, w'.s, tid, w'.threads[tid], Ok).0,
        PaidApply(no, w.s.db.orders[no]));
  }

  const FIRST := PlanItem(1, 0, 0, 0)
  const SECOND := PlanItem(2, 0, 0, 0)

  lemma NoEvents(cfg: Config)
    ensures Fair(cfg, []) && RunAll(Init(cfg), []) == Init(cfg)
  {
  }

  function PlanRow(cfg: Config, u: nat, no: string, key: string, item: Item, at: int): Order {
    NewRow(Request(no, u, key, item), at + cfg.orderTtl)
  }

  lemma FirstPaid(cfg: Config, u: nat) returns (evs: seq<Event>, w: World)
    requires u in cfg.users && cfg.orderTtl > 0
    ensures w == RunAll(Init(cfg), evs) && Fair(cfg, evs) && w.cfg == cfg && w.threads.Keys == {0, 1}
    ensures w.s.now == 0 && w.s.db.users == cfg.users && w.s.hist.effects == [] && w.s.db.idem == map[(u, "x") := "a"]
    ensures var a := PlanRow(cfg, u, "a", "x", FIRST, 0);
            w.s.db.orders == map["a" := PaidRow(cfg, a, 0)] && w.threads[1] == PaidApply("a", a)
    ensures Ended(w.threads[0])
  {
    hide Advance, RunAll, Step, Fair;
    evs, w := [], Init(cfg);
    NoEvents(cfg);
    evs, w := FairPlace(cfg, evs, w, 0, Request("a", u, "x", FIRST));
    evs, w := FairPay(cfg, evs, w, 1, "a");
  }

  lemma SecondPlaced(cfg: Config, u: nat) returns (evs: seq<Event>, w: World)
    requires u in cfg.users && cfg.orderTtl > 0
    ensures w == RunAll(Init(cfg), evs) && Fair(cfg, evs) && w.cfg == cfg && w.threads.Keys == {0, 1, 2}
    ensures w.s.now == 1 && w.s.db.users == cfg.users && w.s.hist.effects == []
    ensures var a, b := PlanRow(cfg, u, "a", "x", FIRST, 0), PlanRow(cfg, u, "b", "y", SECOND, 1);
            w.s.db.orders == map["a" := PaidRow(cfg, a, 0), "b" := b] && w.threads[1] == PaidApply("a", a)
    ensures Ended(w.threads[0]) && Ended(w.threads[2])
  {
    hide Advance, RunAll, Fair;
    evs, w := FirstPaid(cfg, u);
    FairEvent(cfg, evs, w, Tick(1));
    evs, w := TimePasses(cfg, evs, w, 1);
    hide Step;
    evs, w := FairPlace(cfg, evs, w, 2, Request("b", u, "y", SECOND));
  }

  lemma BothPaid(cfg: Config, u: nat) returns (evs: seq<Event>, w: World)
    requires u in cfg.users && cfg.orderTtl > 0
    ensures w == RunAll(Init(cfg), evs) && Fair(cfg, evs) && w.cfg == cfg && w.threads.Keys == {0, 1, 2, 3}
    ensures w.s.now == 1 && w.s.db.users == cfg.users && w.s.hist.effects == []
    ensures var a, b := PlanRow(cfg, u, "a", "x", FIRST, 0), PlanRow(cfg, u, "b", "y", SECOND, 1);
            && w.s.db.orders == map["a" := PaidRow(cfg, a, 0), "b" := PaidRow(cfg, b, 1)]
            && w.threads[1] == PaidApply("a", a) && w.threads[3] == PaidApply("b", b)
    ensures Ended(w.threads[0]) && Ended(w.threads[2])
  {
    hide Advance, RunAll, Fair;
    hide Step;
    evs, w := SecondPlaced(cfg, u);
    evs, w := FairPay(cfg, evs, w, 3, "b");
  }

  /** Two plans of one user, paid a and then b but credited b and then a, on a fault-free run in which handlers on one
      order never overlap: the user ends on the plan paid first. */
  lemma PlansInverted(cfg: Config, u: nat) returns (evs: seq<Event>)
    requires u in cfg.users && cfg.orderTtl > 0
    ensures Serial(Init(cfg), evs) && AllFaultless(evs) && Settled(RunAll(Init(cfg), evs))
    ensures var s := RunAll(Init(cfg), evs).s;
            && PaidBy(s, "a", 0) && IsPaid(s, "b") && s.db.orders["b"].paidAt == Some(1)
            && |s.hist.effects| == 2 && s.hist.effects[0].no == "b" && s.hist.effects[1].no == "a"
            && s.db.orders["a"].user == s.db.orders["b"].user == u
            && u in s.db.users && s.db.users[u].plan == Some(1)
  {
    hide AdvanceCreate, AdvancePay, AdvanceVerify, AdvanceOther, RunAll, Step, Serial, AllFaultless;
    var w;
    evs, w := BothPaid(cfg, u);
    evs, w := FairTurn(cfg, evs, w, 3, AdvancePaid(cfg, w.s, 3, w.threads[3], Ok).0, Finished(false));
    evs, w := FairTurn(cfg, evs, w, 1, AdvancePaid(cfg, w.s, 1, w.threads[1], Ok).0, Finished(false));
  }

  // ----- CancelOrder and the sweep on one order ---------------------------------------------------

  lemma TimePasses(cfg: Config, evs: seq<Event>, w: World, d: nat) returns (evs': seq<Event>, w': World)
    requires w == RunAll(Init(cfg), evs)
    ensures w' == RunAll(Init(cfg), evs') && w' == w.(s := w.s.(now := w.s.now + d)) && evs' == evs + [Tick(d)]
  {
    hide RunAll;
    evs', w' := Then(Init(cfg), evs, w, Tick(d));
  }

  lemma ExpiresOne(db: Db, o: Order, before: int)
    requires db.orders == map[NO := o] && OrderLapses(o, before)
    ensures ExpireOrders(db, before).orders == map[NO := o.(status := Expired)]
  {
  }

  lemma Swept(cfg: Config, evs: seq<Event>, w: World, tid: nat) returns (evs': seq<Event>, w': World)
    requires w == RunAll(Init(cfg), evs) && tid !in w.threads
    ensures w' == RunAll(Init(cfg), evs') && w'.cfg == w.cfg && w'.threads == w.threads[tid := Finished(false)]
    ensures w'.s == w.s.(db := ExpireOrders(w.s.db, w.s.now))
  {
    hide AdvanceCreate, AdvancePay, AdvanceVerify, AdvancePaid, RunAll, Step, ExpireOrders;
    evs', w' := Start(Init(cfg), evs, w, tid, OrderSweepClock);
    evs', w' := Turn(Init(cfg), evs', w', tid, w'.s, OrderSweepRun(w.s.now));
    evs', w' := Turn(Init(cfg), evs', w', tid, w.s.(db := ExpireOrders(w.s.db, w.s.now)), Finished(false));
  }

  /** The owner's cancellation has read the order pending; its deadline passes, and the sweep marks it expired. */
  lemma SweptMeanwhile(cfg: Config, u: nat) returns (evs: seq<Event>, w: World)
    requires u in cfg.users
    ensures w == RunAll(Init(cfg), evs) && w.cfg == cfg && 1 in w.threads
    ensures w.threads[1] == CancelUpdate(NO, Row(cfg, u))
    ensures w.s.db.orders == map[NO := Row(cfg, u).(status := Expired)]
  {
    hide Advance, RunAll, Step;
    evs, w := CancelRead(cfg, u);
    var wait := if cfg.orderTtl < 0 then 0 else cfg.orderTtl + 1;
    evs, w := TimePasses(cfg, evs, w, wait);
    ExpiresOne(w.s.db, Row(cfg, u), wait);
    hide ExpireOrders;
    evs, w := Swept(cfg, evs, w, 2);
  }

  /** The cancellation then turns an expired order cancelled, whatever the lifetimes. */
  lemma ExpiredThenCancelled(cfg: Config, u: nat) returns (before: seq<Event>, after: seq<Event>)
    requires u in cfg.users
    ensures var o := RunAll(Init(cfg), before).s.db.orders; NO in o && o[NO].status == Expired
    ensures var o := RunAll(Init(cfg), before + after).s.db.orders; NO in o && o[NO].status == Cancelled
  {
    hide AdvanceCreate, AdvancePay, AdvanceVerify, AdvancePaid, RunAll, Step;
    var w, evs;
    before, w := SweptMeanwhile(cfg, u);
    evs, w := Turn(Init(cfg), before, w, 1, AdvanceOther(w.s, w.threads[1], Ok).0, Finished(false));
    after := [Run(1, Ok)];
  }

  // ----- exactly when no discipline is needed -----------------------------------------------------------

  ghost predicate AlwaysAtMostOnce(cfg: Config) { forall evs :: Distinct(RunAll(Init(cfg), evs).s.hist.effects) }

  ghost predicate KeepsFinished(cfg: Config, before: seq<Event>, after: seq<Event>) {
    var o, o' := RunAll(Init(cfg), before).s.db.orders, RunAll(Init(cfg), before + after).s.db.orders;
    forall no :: no in o && o[no].status != Pending ==> no in o' && o'[no].status == o[no].status
  }

  ghost predicate AlwaysKeepsFinished(cfg: Config) { forall before, after :: KeepsFinished(cfg, before, after) }

  /** Credited as paid, on every fault-free run in which handlers on one order do not overlap. */
  ghost predicate AlwaysInOrder(cfg: Config) {
    forall evs :: Fair(cfg, evs) ==> LogInPaidOrder(RunAll(Init(cfg), evs).s)
  }

  /** Nothing is payable, so nothing is credited. */
  lemma {:induction false} NothingCredited(w: World, evs: seq<Event>)
    requires (w.cfg.orderTtl <= 0 || w.cfg.users == map[]) && Ttl.Dormant(w) && w.s.hist.effects == []
    ensures RunAll(w, evs).s.hist.effects == []
    decreases |evs|
  {
    hide Advance;
    if evs != [] {
      var e := evs[0];
      Ttl.StepDormant(w, e);
      match e {
        case AddAddresses(addrs) =>
        case Run(tid, out) =>
          if tid in w.threads {
            assert Ttl.DormantThread(w.cfg, w.s, w.threads[tid]);
            WinnerStep(w.cfg, w.s, tid, w.threads[tid], out);
          }
        case _ =>
      }
      NothingCredited(Step(w, e), evs[1..]);
    }
  }

  /** Effects are applied at most once, on every run whatever overlaps and fails, exactly when no order is ever payable
      or there are no users. */
  lemma AtMostOnceIff(cfg: Config)
    ensures AlwaysAtMostOnce(cfg) <==> cfg.orderTtl <= 0 || cfg.users == map[]
  {
    hide RunAll;
    if cfg.orderTtl <= 0 || cfg.users == map[] {
      forall evs ensures Distinct(RunAll(Init(cfg), evs).s.hist.effects) { NothingCredited(Init(cfg), evs); }
    } else {
      var u :| u in cfg.users;
      var evs := OverlappingCallsCreditTwice(cfg, u);
    }
  }

  lemma NoOrders(cfg: Config, evs: seq<Event>, no: string)
    requires cfg.users == map[]
    ensures no !in RunAll(Init(cfg), evs).s.db.orders
  {
    Ttl.RunDormant(Init(cfg), evs);
    RunKeepsConfig(Init(cfg), evs);
    hide RunAll;
    assert Ttl.DormantRows(cfg, RunAll(Init(cfg), evs).s);
  }

  /** Finished orders keep their status, on every run whatever overlaps and fails, exactly when there are no users. */
  lemma FinishedIff(cfg: Config)
    ensures AlwaysKeepsFinished(cfg) <==> cfg.users == map[]
  {
    hide RunAll;
    if cfg.users == map[] {
      forall before, after ensures KeepsFinished(cfg, before, after) {
        forall no | no in RunAll(Init(cfg), before).s.db.orders ensures false { NoOrders(cfg, before, no); }
      }
    } else {
      var u :| u in cfg.users;
      var before, after := ExpiredThenCancelled(cfg, u);
      assert !KeepsFinished(cfg, before, after);
    }
  }

  /** A user's orders are credited as they were paid, on every fault-free run in which handlers on one order do not
      overlap, exactly when no order is ever payable or there are no users. */
  lemma InOrderIff(cfg: Config)
    ensures AlwaysInOrder(cfg) <==> cfg.orderTtl <= 0 || cfg.users == map[]
  {
    if cfg.orderTtl <= 0 || cfg.users == map[] {
      forall evs ensures LogInPaidOrder(RunAll(Init(cfg), evs).s) { NothingCredited(Init(cfg), evs); }
    } else {
      var u :| u in cfg.users;
      var evs := PlansInverted(cfg, u);
      hide RunAll, Serial, AllFaultless;
      var s := RunAll(Init(cfg), evs).s;
      LogIsStamped(cfg, evs);
      InversionShows(s, u);
    }
  }

  lemma InversionShows(s: Shared, u: nat)
    requires LogStamped(s) && |s.hist.effects| == 2
    requires PaidBy(s, "a", 0) && IsPaid(s, "b") && s.db.orders["b"].paidAt == Some(1)
    requires s.hist.effects[0].no == "b" && s.hist.effects[1].no == "a"
    requires s.db.orders["a"].user == s.db.orders["b"].user == u
    ensures !LogInPaidOrder(s)
  {
    var f, g := s.hist.effects[0], s.hist.effects[1];
    assert PaidBy(s, f.no, f.at) && PaidBy(s, g.no, g.at) && Buys(s, f, u);
  }
}
