/** What the replay of a user's paid orders leaves the user with, in closed form. */
module Entitlement {
  import opened Wrappers
  import opened Tables
  import opened Machine
  import opened Effects
  import opened Accounting

  /** What an effect gave this user; nothing when it was another user's. */
  function Given(orders: map<string, Order>, f: Effect, user: nat): Option<Item> {
    if f.no in orders && orders[f.no].user == user then Some(orders[f.no].item) else None
  }

  // ----- traffic, devices, plan ---------------------------------------------------------

  predicate IsPlan(g: Option<Item>) { g.Some? && g.value.PlanItem? }

  /** The last plan among the effects. */
  function LastPlan(orders: map<string, Order>, fs: seq<Effect>, user: nat): (r: Option<nat>)
    ensures r.Some? ==> r.value < |fs| && IsPlan(Given(orders, fs[r.value], user))
    ensures forall i :: (if r.Some? then r.value + 1 else 0) <= i < |fs| ==>
              !IsPlan(Given(orders, fs[i], user))
  {
    if fs == [] then None
    else
      var g := Given(orders, fs[|fs| - 1], user);
      if g.Some? && g.value.PlanItem? then Some(|fs| - 1) else LastPlan(orders, fs[..|fs| - 1], user)
  }

  /** Bytes of the packs from a position on. */
  function PackBytes(orders: map<string, Order>, fs: seq<Effect>, user: nat, from: nat): nat {
    if |fs| <= from then 0
    else
      var g := Given(orders, fs[|fs| - 1], user);
      PackBytes(orders, fs[..|fs| - 1], user, from) + if g.Some? && g.value.PackItem? then 1073741824 * g.value.packGb
          else 0
  }

  /** The user holds the last plan bought, with its device limit, a fresh usage count, and as quota the plan's bytes and
      those of every pack bought after it; without a plan, what there was and the bytes of every pack. */
  ghost predicate HoldsLastPlan(u: User, v: User, orders: map<string, Order>, fs: seq<Effect>, user: nat) {
    match LastPlan(orders, fs, user)
    case None =>
      v.plan == u.plan && v.devices == u.devices && v.used == u.used &&
          v.total == u.total + PackBytes(orders, fs, user, 0)
    case Some(i) =>
      var p := Given(orders, fs[i], user).value;
      v.plan == Some(p.plan) && v.devices == p.devices && v.used == 0
      && v.total == 1073741824 * p.gb + PackBytes(orders, fs, user, i + 1)
  }

  lemma {:induction false} QuotaIsLastPlanAndPacks(m: Money, users: map<nat, User>, orders: map<string, Order>,
                                                   fs: seq<Effect>, user: nat)
    requires user in users
    ensures user in Replay(m, users, orders, fs)
    ensures HoldsLastPlan(users[user], Replay(m, users, orders, fs)[user], orders, fs, user)
  {
    ReplayKeys(m, users, orders, fs);
    if fs != [] {
      var p, f := fs[..|fs| - 1], fs[|fs| - 1];
      QuotaIsLastPlanAndPacks(m, users, orders, p, user);
      ReplayKeys(m, users, orders, p);
      var g := Given(orders, f, user);
      if g.Some? && g.value.PlanItem? {
        assert PackBytes(orders, fs, user, |fs|) == 0;
      } else {
        assert LastPlan(orders, fs, user) == LastPlan(orders, p, user);
      }
    }
  }

  // ----- expiry -----------------------------------------------------------------------------

  /** Days an effect adds to the user's expiry: a plan's, or those of a pack with its own expiry. */
  function DaysOf(orders: map<string, Order>, f: Effect, user: nat): Option<nat> {
    match Given(orders, f, user)
    case Some(PlanItem(_, days, _, _)) => Some(days)
    case Some(PackItem(_, days, mode)) => if mode == 2 then Some(days) else None
    case _ => None
  }

  function DaysFrom(orders: map<string, Order>, fs: seq<Effect>, user: nat, from: nat): nat {
    if |fs| <= from then 0
    else
      var d := DaysOf(orders, fs[|fs| - 1], user);
      DaysFrom(orders, fs[..|fs| - 1], user, from) + if d.Some? then d.value else 0
  }

  /** Every plan the user bought is this one. */
  predicate OnlyPlan(orders: map<string, Order>, fs: seq<Effect>, user: nat, plan: nat) {
    forall i :: 0 <= i < |fs| && Given(orders, fs[i], user).Some? && Given(orders, fs[i], user).value.PlanItem? ==>
      Given(orders, fs[i], user).value.plan == plan
  }

  /** The i-th effect extends the expiry. */
  predicate Extends(orders: map<string, Order>, fs: seq<Effect>, user: nat, i: nat) {
    i < |fs| && DaysOf(orders, fs[i], user).Some?
  }

  /** e is the latest of: the opening expiry with all days added, and each purchase's instant with the days bought from
      it on. */
  ghost predicate LatestOf(e: int, opening: int, orders: map<string, Order>, fs: seq<Effect>, user: nat) {
    && e >= opening + DaySeconds(DaysFrom(orders, fs, user, 0))
    && (forall i: nat :: Extends(orders, fs, user, i) ==> e >= fs[i].at + DaySeconds(DaysFrom(orders, fs, user, i)))
    && (e == opening + DaySeconds(DaysFrom(orders, fs, user, 0))
        || exists i: nat :: Extends(orders, fs, user, i) && e == fs[i].at + DaySeconds(DaysFrom(orders, fs, user, i)))
  }

  /** The rule one effect follows: extend the later of the expiry and the present. */
  function Extended(e: int, orders: map<string, Order>, f: Effect, user: nat): int {
    match DaysOf(orders, f, user)
    case None => e
    case Some(d) => Base(Some(e), f.at) + DaySeconds(d)
  }

  lemma CreditExtends(m: Money, users: map<nat, User>, orders: map<string, Order>, f: Effect, user: nat, plan: nat)
    requires user in users && users[user].plan == Some(plan) && users[user].planExpire.Some?
    requires Given(orders, f, user).Some? && Given(orders, f, user).value.PlanItem? ==>
              Given(orders, f, user).value.plan == plan
    ensures var v := Credit(m, users, orders, f);
            user in v && v[user].plan == Some(plan)
            && v[user].planExpire == Some(Extended(users[user].planExpire.value, orders, f, user))
  {
  }

  /** No paid day is lost and none is given away: for a user who keeps one plan, whatever the instants of the purchases,
      the expiry is the latest that any of them, or the opening one, accounts for. */
  lemma {:induction false} ExpiryIsLatest(m: Money, users: map<nat, User>, orders: map<string, Order>, fs: seq<Effect>,
                                          user: nat, plan: nat, opening: int)
    requires user in users && users[user].plan == Some(plan) && users[user].planExpire == Some(opening)
    requires OnlyPlan(orders, fs, user, plan)
    ensures user in Replay(m, users, orders, fs)
    ensures var v := Replay(m, users, orders, fs)[user];
            v.plan == Some(plan) && v.planExpire.Some? && LatestOf(v.planExpire.value, opening, orders, fs, user)
  {
    if fs == [] {
      assert DaysFrom(orders, fs, user, 0) == 0;
    } else {
      var n := |fs| - 1;
      FewerPlans(orders, fs, user, plan);
      ExpiryIsLatest(m, users, orders, fs[..n], user, plan, opening);
      var before := Replay(m, users, orders, fs[..n]);
      CreditExtends(m, before, orders, fs[n], user, plan);
      OneMoreEffect(before[user].planExpire.value, opening, orders, fs, user);
    }
  }

  lemma FewerPlans(orders: map<string, Order>, fs: seq<Effect>, user: nat, plan: nat)
    requires fs != [] && OnlyPlan(orders, fs, user, plan)
    ensures OnlyPlan(orders, fs[..|fs| - 1], user, plan)
  {
  }

  lemma OneMoreEffect(e: int, opening: int, orders: map<string, Order>, fs: seq<Effect>, user: nat)
    requires fs != [] && LatestOf(e, opening, orders, fs[..|fs| - 1], user)
    ensures LatestOf(Extended(e, orders, fs[|fs| - 1], user), opening, orders, fs, user)
  {
    var n := |fs| - 1;
    var p := fs[..n];
    var d := DaysOf(orders, fs[n], user);
    var added := if d.Some? then d.value else 0;
    assert forall i :: 0 <= i < n ==> DaysFrom(orders, fs, user, i) == DaysFrom(orders, p, user, i) + added;
    assert DaysFrom(orders, fs, user, 0) == DaysFrom(orders, p, user, 0) + added;
    assert forall i: nat :: i < n ==> (Extends(orders, fs, user, i) <==> Extends(orders, p, user, i));
    assert DaysFrom(orders, p, user, n) == 0;
    assert DaysFrom(orders, fs, user, n) == added;
    var x := Extended(e, orders, fs[n], user);
    if x != e + DaySeconds(added) {
      assert Extends(orders, fs, user, n);
      assert x == fs[n].at + DaySeconds(DaysFrom(orders, fs, user, n));
    } else if e != opening + DaySeconds(DaysFrom(orders, p, user, 0)) {
      var i: nat :| Extends(orders, p, user, i) && e == p[i].at + DaySeconds(DaysFrom(orders, p, user, i));
      assert Extends(orders, fs, user, i) && x == fs[i].at + DaySeconds(DaysFrom(orders, fs, user, i));
    }
  }

  // ----- expiry under any changes of plan ---------------------------------------------------------

  /** The plan held before the i-th effect: the last one bought, or the opening one. */
  function HeldBefore(u: User, orders: map<string, Order>, fs: seq<Effect>, user: nat, i: nat): Option<nat>
    requires i <= |fs|
  {
    match LastPlan(orders, fs[..i], user)
    case None => u.plan
    case Some(k) => Some(Given(orders, fs[k], user).value.plan)
  }

  /** The i-th effect is a plan other than the one held. */
  predicate Switches(u: User, orders: map<string, Order>, fs: seq<Effect>, user: nat, i: nat)
    requires i < |fs|
  {
    IsPlan(Given(orders, fs[i], user)) &&
    HeldBefore(u, orders, fs, user, i) != Some(Given(orders, fs[i], user).value.plan)
  }

  /** No effect after the first n changes the plan; n is 0, or the n-th was the last that did. */
  ghost predicate LastSwitch(u: User, orders: map<string, Order>, fs: seq<Effect>, user: nat, n: nat) {
    && n <= |fs| && (n > 0 ==> Switches(u, orders, fs, user, n - 1))
    && forall i :: n <= i < |fs| ==> !Switches(u, orders, fs, user, i)
  }

  /** One of the purchases from the last change of plan on, that one included, with the days bought from it on; or, with
      no change of plan, the opening expiry with all days. */
  ghost predicate Accounts(x: int, u: User, orders: map<string, Order>, fs: seq<Effect>, user: nat, n: nat) {
    || (n == 0 && u.planExpire.Some? && x == u.planExpire.value + 86400 * DaysFrom(orders, fs, user, 0))
    || exists i: nat :: n <= i + 1 && Extends(orders, fs, user, i) &&
         x == fs[i].at + 86400 * DaysFrom(orders, fs, user, i)
  }

  /** The expiry is the latest of those, and there is none exactly when nothing accounts for one. */
  ghost predicate ExpiryIs(e: Option<int>, u: User, orders: map<string, Order>, fs: seq<Effect>, user: nat, n: nat) {
    && (e.Some? ==> Accounts(e.value, u, orders, fs, user, n))
    && forall x :: Accounts(x, u, orders, fs, user, n) ==> e.Some? && x <= e.value
  }

  lemma OneMoreDay(orders: map<string, Order>, fs: seq<Effect>, user: nat, i: nat)
    requires fs != [] && i < |fs|
    ensures var d := DaysOf(orders, fs[|fs| - 1], user);
            DaysFrom(orders, fs, user, i) == DaysFrom(orders, fs[..|fs| - 1], user, i) + if d.Some? then d.value else 0
  {
  }

  /** One more effect moves what accounted for the expiry by its days, and accounts for its own instant. */
  lemma AccountsStep(x: int, u: User, orders: map<string, Order>, fs: seq<Effect>, user: nat, n: nat)
    requires fs != [] && n < |fs|
    ensures var last, p := |fs| - 1, fs[..|fs| - 1];
            var d := DaysOf(orders, fs[last], user);
            Accounts(x, u, orders, fs, user, n) <==>
            Accounts(x - if d.Some? then 86400 * d.value else 0, u, orders, p, user, n) ||
            (d.Some? && x == fs[last].at + 86400 * d.value)
  {
    var last, p := |fs| - 1, fs[..|fs| - 1];
    var d := DaysOf(orders, fs[last], user);
    var y := x - if d.Some? then 86400 * d.value else 0;
    assert DaysFrom(orders, p, user, last) == 0;
    OneMoreDay(orders, fs, user, 0);
    OneMoreDay(orders, fs, user, last);
    hide DaysFrom, DaysOf;
    if Accounts(x, u, orders, fs, user, n) && !(d.Some? && x == fs[last].at + 86400 * d.value) {
      if !(n == 0 && u.planExpire.Some? && x == u.planExpire.value + 86400 * DaysFrom(orders, fs, user, 0)) {
        var i: nat :| n <= i + 1 && Extends(orders, fs, user, i) &&
          x == fs[i].at + 86400 * DaysFrom(orders, fs, user, i);
        OneMoreDay(orders, fs, user, i);
        assert Extends(orders, p, user, i) && y == p[i].at + 86400 * DaysFrom(orders, p, user, i);
      }
    }
    if d.Some? && x == fs[last].at + 86400 * d.value { assert Extends(orders, fs, user, last); }
    if Accounts(y, u, orders, p, user, n) &&
       !(n == 0 && u.planExpire.Some? && y == u.planExpire.value + 86400 * DaysFrom(orders, p, user, 0)) {
      var i: nat :| n <= i + 1 && Extends(orders, p, user, i) && y == p[i].at + 86400 * DaysFrom(orders, p, user, i);
      OneMoreDay(orders, fs, user, i);
      assert Extends(orders, fs, user, i) && x == fs[i].at + 86400 * DaysFrom(orders, fs, user, i);
    }
  }

  /** What one effect does to the expiry of a user who holds some plan or none. */
  lemma CreditExpiry(m: Money, users: map<nat, User>, orders: map<string, Order>, f: Effect, user: nat)
    requires user in users
    ensures var u, v, g, d := users[user], Credit(m, users, orders, f), Given(orders, f, user), DaysOf(orders, f, user);
            && user in v
            && (d.None? ==> v[user].planExpire == u.planExpire)
            && (d.Some? && IsPlan(g) && u.plan != Some(g.value.plan) ==>
                  v[user].planExpire == Some(f.at + 86400 * d.value))
            && (d.Some? && !(IsPlan(g) && u.plan != Some(g.value.plan)) ==>
                  var later := if u.planExpire.Some? && u.planExpire.value > f.at then u.planExpire.value else f.at;
                  v[user].planExpire == Some(86400 * d.value + later))
  {
  }

  lemma SwitchesOfPrefix(u: User, orders: map<string, Order>, fs: seq<Effect>, user: nat, i: nat)
    requires i + 1 < |fs|
    ensures Switches(u, orders, fs[..|fs| - 1], user, i) <==> Switches(u, orders, fs, user, i)
  {
    assert fs[..|fs| - 1][..i] == fs[..i];
  }

  lemma LastSwitchStep(u: User, orders: map<string, Order>, fs: seq<Effect>, user: nat, n: nat) returns (k: nat)
    requires fs != [] && LastSwitch(u, orders, fs[..|fs| - 1], user, n)
    ensures LastSwitch(u, orders, fs, user, k)
    ensures k == if Switches(u, orders, fs, user, |fs| - 1) then |fs| else n
  {
    k := if Switches(u, orders, fs, user, |fs| - 1) then |fs| else n;
    if k > 0 && k < |fs| { SwitchesOfPrefix(u, orders, fs, user, k - 1); }
    forall i | k <= i < |fs| ensures !Switches(u, orders, fs, user, i) {
      if i < |fs| - 1 { SwitchesOfPrefix(u, orders, fs, user, i); }
    }
  }

  lemma ExpiryStep(e: Option<int>, e': Option<int>, u: User, orders: map<string, Order>, fs: seq<Effect>, user: nat,
                   n: nat)
    requires fs != [] && n < |fs| && ExpiryIs(e, u, orders, fs[..|fs| - 1], user, n)
    requires var f := fs[|fs| - 1]; var d := DaysOf(orders, f, user);
             e' == match d
                   case None => e
                   case Some(days) => Some(86400 * days + if e.Some? && e.value > f.at then e.value else f.at)
    ensures ExpiryIs(e', u, orders, fs, user, n)
  {
    var f, p := fs[|fs| - 1], fs[..|fs| - 1];
    var d := DaysOf(orders, f, user);
    var shift := if d.Some? then 86400 * d.value else 0;
    hide Accounts, DaysOf;
    forall x | Accounts(x, u, orders, fs, user, n) ensures e'.Some? && x <= e'.value {
      AccountsStep(x, u, orders, fs, user, n);
    }
    if e'.Some? { AccountsStep(e'.value, u, orders, fs, user, n); }
  }

  lemma SwitchExpiry(u: User, orders: map<string, Order>, fs: seq<Effect>, user: nat)
    requires fs != [] && DaysOf(orders, fs[|fs| - 1], user).Some?
    ensures var f := fs[|fs| - 1];
            ExpiryIs(Some(f.at + 86400 * DaysOf(orders, f, user).value), u, orders, fs, user, |fs|)
  {
    var last := |fs| - 1;
    assert DaysFrom(orders, fs[..last], user, last) == 0;
    OneMoreDay(orders, fs, user, last);
    assert Extends(orders, fs, user, last);
  }

  lemma HeldIsReplayed(m: Money, users: map<nat, User>, orders: map<string, Order>, fs: seq<Effect>, user: nat)
    requires user in users && fs != []
    ensures var p := fs[..|fs| - 1];
            user in Replay(m, users, orders, p) &&
            Replay(m, users, orders, p)[user].plan == HeldBefore(users[user], orders, fs, user, |p|)
  {
    QuotaIsLastPlanAndPacks(m, users, orders, fs[..|fs| - 1], user);
  }

  /** For every user and every log of effects: a plan other than the one held sets the expiry to its own instant and
      days, whatever was left of the old one; every other purchase extends the later of the expiry and its own
      instant. So the expiry is the latest that the purchases since the last change of plan account for. */
  lemma {:induction false} ExpiryFollowsSwitches(m: Money, users: map<nat, User>, orders: map<string, Order>,
                                                 fs: seq<Effect>, user: nat) returns (n: nat)
    requires user in users
    ensures user in Replay(m, users, orders, fs) && LastSwitch(users[user], orders, fs, user, n)
    ensures ExpiryIs(Replay(m, users, orders, fs)[user].planExpire, users[user], orders, fs, user, n)
  {
    ReplayKeys(m, users, orders, fs);
    if fs == [] {
      n := 0;
      assert DaysFrom(orders, fs, user, 0) == 0;
    } else {
      var p, f := fs[..|fs| - 1], fs[|fs| - 1];
      var k := ExpiryFollowsSwitches(m, users, orders, p, user);
      var before := Replay(m, users, orders, p);
      CreditExpiry(m, before, orders, f, user);
      HeldIsReplayed(m, users, orders, fs, user);
      n := LastSwitchStep(users[user], orders, fs, user, k);
      hide ExpiryIs, Credit, LastSwitch, HeldBefore;
      if Switches(users[user], orders, fs, user, |fs| - 1) {
        SwitchExpiry(users[user], orders, fs, user);
      } else {
        var after := Replay(m, users, orders, fs)[user].planExpire;
        ExpiryStep(before[user].planExpire, after, users[user], orders, fs, user, n);
      }
    }
  }

  // ----- over whole runs --------------------------------------------------------------------

  /** At any point of a fault-free serial run, quota and expiry of every user are those closed forms of the effects
      applied so far, the simpler one for a user who keeps one plan. */
  lemma EntitlementsAddUp(cfg: Config, evs: seq<Event>, user: nat, plan: nat, opening: int)
    requires Serial(Init(cfg), evs) && AllFaultless(evs) && user in cfg.users
    ensures var s := RunAll(Init(cfg), evs).s;
            && user in s.db.users && HoldsLastPlan(cfg.users[user], s.db.users[user], s.db.orders, s.hist.effects, user)
            && (exists n :: LastSwitch(cfg.users[user], s.db.orders, s.hist.effects, user, n) &&
                  ExpiryIs(s.db.users[user].planExpire, cfg.users[user], s.db.orders, s.hist.effects, user, n))
            && (cfg.users[user].plan == Some(plan) && cfg.users[user].planExpire == Some(opening)
                && OnlyPlan(s.db.orders, s.hist.effects, user, plan) ==>
                  s.db.users[user].planExpire.Some?
                  && LatestOf(s.db.users[user].planExpire.value, opening, s.db.orders, s.hist.effects, user))
  {
    RunBooked(Init(cfg), evs);
    var s := RunAll(Init(cfg), evs).s;
    QuotaIsLastPlanAndPacks(cfg.money, cfg.users, s.db.orders, s.hist.effects, user);
    var n := ExpiryFollowsSwitches(cfg.money, cfg.users, s.db.orders, s.hist.effects, user);
    if cfg.users[user].plan == Some(plan) && cfg.users[user].planExpire == Some(opening)
       && OnlyPlan(s.db.orders, s.hist.effects, user, plan) {
      ExpiryIsLatest(cfg.money, cfg.users, s.db.orders, s.hist.effects, user, plan, opening);
    }
  }
}
