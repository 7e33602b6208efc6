/** Each user's row as the fold of plan, pack and top-up effects over that user's paid orders, in payment order. */
module PaymentOrder {
  import opened Wrappers
  import opened Tables
  import opened Machine
  import opened Effects
  import opened Stamps
  import opened Accounting
  import opened Entitlement

  // ----- one user's part of the log ------------------------------------------------------

  function Mine(orders: map<string, Order>, fs: seq<Effect>, user: nat): seq<Effect> {
    if fs == [] then []
    else
      var f := fs[|fs| - 1];
      Mine(orders, fs[..|fs| - 1], user) + if f.no in orders && orders[f.no].user == user then [f] else []
  }

  /** A user after the effects of these orders, one after the other. */
  ghost function Fold(m: Money, u: User, orders: map<string, Order>, fs: seq<Effect>): User {
    if fs == [] then u
    else
      var v, f := Fold(m, u, orders, fs[..|fs| - 1]), fs[|fs| - 1];
      if f.no in orders then Applied(v, orders[f.no].item, m.cents(Net(m, orders[f.no])), f.at) else v
  }

  lemma FoldAppends(m: Money, u: User, orders: map<string, Order>, fs: seq<Effect>, f: Effect)
    requires f.no in orders
    ensures Fold(m, u, orders, fs + [f])
            == Applied(Fold(m, u, orders, fs), orders[f.no].item, m.cents(Net(m, orders[f.no])), f.at)
  {
    assert (fs + [f])[..|fs|] == fs;
  }

  /** Replaying the whole log leaves each user what folding that user's part leaves. */
  lemma {:induction false} ReplayIsFold(m: Money, users: map<nat, User>, orders: map<string, Order>, fs: seq<Effect>,
                                        user: nat)
    requires user in users
    ensures user in Replay(m, users, orders, fs)
    ensures Replay(m, users, orders, fs)[user] == Fold(m, users[user], orders, Mine(orders, fs, user))
  {
    ReplayKeys(m, users, orders, fs);
    if fs != [] {
      var p, f := fs[..|fs| - 1], fs[|fs| - 1];
      ReplayIsFold(m, users, orders, p, user);
      ReplayKeys(m, users, orders, p);
      assert Replay(m, users, orders, fs) == Credit(m, Replay(m, users, orders, p), orders, f);
      if f.no in orders && orders[f.no].user == user {
        assert Mine(orders, fs, user) == Mine(orders, p, user) + [f];
        FoldAppends(m, users[user], orders, Mine(orders, p, user), f);
      } else {
        assert Mine(orders, fs, user) == Mine(orders, p, user);
      }
    }
  }

  /** The part keeps the log's order: its entries are found at increasing positions. */
  lemma {:induction false} MineAt(orders: map<string, Order>, fs: seq<Effect>, user: nat) returns (at: seq<nat>)
    ensures |at| == |Mine(orders, fs, user)|
    ensures forall i :: 0 <= i < |at| ==> at[i] < |fs| && fs[at[i]] == Mine(orders, fs, user)[i]
                                          && fs[at[i]].no in orders && orders[fs[at[i]].no].user == user
    ensures forall i, j :: 0 <= i < j < |at| ==> at[i] < at[j]
    ensures forall k :: 0 <= k < |fs| && fs[k].no in orders && orders[fs[k].no].user == user ==> k in at
  {
    if fs == [] {
      at := [];
    } else {
      var n := |fs| - 1;
      at := MineAt(orders, fs[..n], user);
      if fs[n].no in orders && orders[fs[n].no].user == user {
        at := at + [n];
      }
    }
  }

  // ----- the theorem ------------------------------------------------------------------------

  /** These entries are exactly a user's paid orders, each once, and each was paid and credited before the next. */
  ghost predicate PaidInTurn(s: Shared, fs: seq<Effect>, user: nat) {
    && Distinct(fs)
    && (forall no :: IsPaid(s, no) && s.db.orders[no].user == user <==> exists i :: 0 <= i < |fs| && fs[i].no == no)
    && (forall i :: 0 <= i < |fs| ==> PaidBy(s, fs[i].no, fs[i].at))
    && (forall i, j :: 0 <= i < j < |fs| && PaidBy(s, fs[j].no, fs[j].at) ==>
        fs[i].at <= s.db.orders[fs[j].no].paidAt.value)
  }

  /** At any settled point of a fault-free run in which handlers on one order and HandlePaid calls of one user do not
      overlap, each user is the fold of the effects of that user's paid orders, each once, in payment order. */
  lemma UserIsFoldInPaymentOrder(cfg: Config, evs: seq<Event>, user: nat) returns (mine: seq<Effect>)
    requires Serial(Init(cfg), evs) && UserSerial(Init(cfg), evs) && AllFaultless(evs) &&
              Settled(RunAll(Init(cfg), evs))
    requires user in cfg.users
    ensures var s := RunAll(Init(cfg), evs).s;
            && user in s.db.users && s.db.users[user] == Fold(cfg.money, cfg.users[user], s.db.orders, mine)
            && PaidInTurn(s, mine, user)
  {
    var w := RunAll(Init(cfg), evs);
    UsersAreReplayOfPaidOrders(cfg, evs);
    LogInOrder(cfg, evs);
    hide Serial, UserSerial, AllFaultless, Settled, RunAll;
    mine := Mine(w.s.db.orders, w.s.hist.effects, user);
    ReplayIsFold(cfg.money, cfg.users, w.s.db.orders, w.s.hist.effects, user);
    MineInTurn(w, user);
  }

  lemma LogInOrder(cfg: Config, evs: seq<Event>)
    requires Serial(Init(cfg), evs) && UserSerial(Init(cfg), evs)
    ensures LogInPaidOrder(RunAll(Init(cfg), evs).s)
  {
    var s := RunAll(Init(cfg), evs).s;
    var fs := s.hist.effects;
    forall i, j | 0 <= i < j < |fs| && PaidBy(s, fs[j].no, fs[j].at) && Buys(s, fs[i], s.db.orders[fs[j].no].user)
      ensures fs[i].at <= s.db.orders[fs[j].no].paidAt.value
    {
      assert Buys(s, fs[j], s.db.orders[fs[j].no].user);
      LogFollowsPayments(cfg, evs, i, j);
    }
  }

  lemma MineInTurn(w: World, user: nat)
    requires Distinct(w.s.hist.effects) && LogStamped(w.s) && LogInPaidOrder(w.s)
    requires forall no :: IsPaid(w.s, no) <==> Credited(w, no)
    ensures PaidInTurn(w.s, Mine(w.s.db.orders, w.s.hist.effects, user), user)
  {
    var s, fs := w.s, w.s.hist.effects;
    var mine := Mine(s.db.orders, fs, user);
    var at := MineAt(s.db.orders, fs, user);
    hide Mine, LogStamped, LogInPaidOrder;
    forall no ensures IsPaid(s, no) && s.db.orders[no].user == user <==>
        exists i :: 0 <= i < |mine| && mine[i].no == no {
      if IsPaid(s, no) && s.db.orders[no].user == user {
        assert Credited(w, no);
        var k :| 0 <= k < |fs| && fs[k].no == no;
        assert k in at;
        var i :| 0 <= i < |at| && at[i] == k;
        assert mine[i].no == no;
      }
      if exists i :: 0 <= i < |mine| && mine[i].no == no {
        var i :| 0 <= i < |mine| && mine[i].no == no;
        assert fs[at[i]].no == no && Credited(w, no);
      }
    }
    MineOrdered(s, mine, user, at);
  }

  lemma MineOrdered(s: Shared, mine: seq<Effect>, user: nat, at: seq<nat>)
    requires Distinct(s.hist.effects) && LogStamped(s) && LogInPaidOrder(s) && |at| == |mine|
    requires forall i :: 0 <= i < |at| ==>
              at[i] < |s.hist.effects| && s.hist.effects[at[i]] == mine[i] && Buys(s, mine[i], user)
    requires forall i, j :: 0 <= i < j < |at| ==> at[i] < at[j]
    ensures Distinct(mine) && forall i :: 0 <= i < |mine| ==> PaidBy(s, mine[i].no, mine[i].at)
    ensures forall i, j :: 0 <= i < j < |mine| && PaidBy(s, mine[j].no, mine[j].at) ==>
              mine[i].at <= s.db.orders[mine[j].no].paidAt.value
  {
  }

  /** Under the same discipline, and even with failing calls, the plan a user holds is the one paid last: no plan of the
      user's credited so far was paid later. */
  lemma LastPlanIsLastPaid(cfg: Config, evs: seq<Event>, user: nat, i: nat)
    requires Serial(Init(cfg), evs) && UserSerial(Init(cfg), evs)
    requires var s := RunAll(Init(cfg), evs).s; LastPlan(s.db.orders, s.hist.effects, user) == Some(i)
    ensures var s := RunAll(Init(cfg), evs).s; var fs := s.hist.effects;
            && PaidBy(s, fs[i].no, fs[i].at)
            && forall k :: 0 <= k < |fs| && IsPlan(Given(s.db.orders, fs[k], user)) ==>
                 PaidBy(s, fs[k].no, fs[k].at) &&
                 s.db.orders[fs[k].no].paidAt.value <= s.db.orders[fs[i].no].paidAt.value
  {
    LogIsStamped(cfg, evs);
    LogInOrder(cfg, evs);
    var s := RunAll(Init(cfg), evs).s;
    var fs := s.hist.effects;
    forall k | 0 <= k < |fs| && IsPlan(Given(s.db.orders, fs[k], user))
      ensures PaidBy(s, fs[k].no, fs[k].at)
      ensures s.db.orders[fs[k].no].paidAt.value <= s.db.orders[fs[i].no].paidAt.value
    {
      assert k <= i;
      assert Buys(s, fs[k], user) && Buys(s, fs[i], user);
    }
  }
}
