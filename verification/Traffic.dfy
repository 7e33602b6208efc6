/** Usage reports from the nodes, the quota table, the daily roll-up, the event sink and the ban cache. */
module Traffic {
  import opened Wrappers

  datatype Account = Account(total: nat, used: nat, planExpire: Option<int>, banned: bool)

  type Users = map<nat, Account>

  datatype Event = Event(user: nat, up: nat, down: nat)

  /** daily is keyed by user and day. */
  datatype Books = Books(users: Users, daily: Daily, sink: seq<Event>, cache: set<nat>)

  datatype Item = Item(token: string, user: nat, up: nat, down: nat)

  /** An increment that went through, was refused, or went through before its read-back failed. */
  datatype Increment = Counted | Refused | CountedBlindly

  /** Which calls work while one item is processed. */
  datatype Luck = Luck(resolve: bool, incr: Increment, daily: bool, quota: bool, flag: bool, add: bool)

  const FINE := Luck(true, Counted, true, true, true, true)

  /** What the service is wired with: a token resolver, a ban cache, a sink. */
  datatype Wiring = Wiring(subs: Option<map<string, nat>>, bans: bool, sink: bool)

  // ----- one item ------------------------------------------------------------------------

  /** The user an item is charged to; 0 when there is none. A user id in the item wins over its token. */
  function Owner(w: Wiring, it: Item, l: Luck): nat {
    if it.user != 0 then it.user
    else if it.token != "" && w.subs.Some? && l.resolve && it.token in w.subs.value then w.subs.value[it.token]
    else 0
  }

  /** Unsigned 64-bit sum of an item's bytes. */
  function Delta(it: Item): nat { (it.up + it.down) % 0x1_0000_0000_0000_0000 }

  /** IncrTrafficUsed: the row after, and the new total read back; a missing row reads back as 0, a sum beyond
      the unsigned column is refused. */
  function Incremented(users: Users, u: nat, delta: nat, how: Increment): (Users, Option<nat>) {
    if how == Refused then (users, None)
    else if u !in users then (users, if how == Counted then Some(0) else None)
    else
      var n := users[u].used + delta;
      if n >= 0x1_0000_0000_0000_0000 then (users, None)
      else (users[u := users[u].(used := n)], if how == Counted then Some(n) else None)
  }

  type Daily = map<(nat, int), (nat, nat)>

  function Upsert(daily: Daily, u: nat, day: int, up: nat, down: nat): Daily {
    var had := Day(daily, u, day);
    daily[(u, day) := (had.0 + up, had.1 + down)]
  }

  function Day(daily: Daily, u: nat, day: int): (nat, nat) {
    if (u, day) in daily then daily[(u, day)] else (0, 0)
  }

  function Flagged(users: Users, u: nat): Users {
    if u in users then users[u := users[u].(banned := true)] else users
  }

  /** The ban check: crossed a positive quota and not flagged yet. */
  predicate Crossed(users: Users, u: nat, newUsed: nat, l: Luck) {
    l.quota && u in users && users[u].total > 0 && newUsed >= users[u].total && !users[u].banned
  }

  /** The tables after one item with an owner, and whether it was accepted. */
  function Charged(w: Wiring, b: Books, u: nat, it: Item, day: int, l: Luck): (Books, bool) {
    var r := Incremented(b.users, u, Delta(it), l.incr);
    var users, read := r.0, r.1;
    if read.None? then (b.(users := users), false)
    else
      var daily := if l.daily then Upsert(b.daily, u, day, it.up, it.down) else b.daily;
      if Crossed(users, u, read.value, l)
      then (Books(if l.flag then Flagged(users, u) else users, daily, b.sink,
                  if w.bans && l.add then b.cache + {u} else b.cache), true)
      else (b.(users := users, daily := daily), true)
  }

  // ----- a batch ---------------------------------------------------------------------------

  /** A batch in progress: the tables, the events collected so far, and the two counters. */
  datatype Progress = Progress(books: Books, events: seq<Event>, accepted: nat, rejected: nat)

  function Processed(w: Wiring, p: Progress, it: Item, day: int, l: Luck): Progress {
    var u := Owner(w, it, l);
    if u == 0 then p.(rejected := p.rejected + 1)
    else
      var r := Charged(w, p.books, u, it, day, l);
      var b, ok := r.0, r.1;
      Progress(b, p.events + [Event(u, it.up, it.down)],
               p.accepted + if ok then 1 else 0, p.rejected + if ok then 0 else 1)
  }

  function Batch(w: Wiring, b: Books, items: seq<Item>, day: int, ls: seq<Luck>): (p: Progress)
    requires |ls| == |items|
    ensures p.accepted + p.rejected == |items|
    ensures p.books.sink == b.sink
  {
    if items == [] then Progress(b, [], 0, 0)
    else
      var n := |items| - 1;
      Processed(w, Batch(w, b, items[..n], day, ls[..n]), items[n], day, ls[n])
  }

  /** The tables after a whole report: the events go to the sink in one write. */
  function Reported(w: Wiring, b: Books, items: seq<Item>, day: int, ls: seq<Luck>, sinkOk: bool): Books
    requires |ls| == |items|
  {
    var p := Batch(w, b, items, day, ls);
    if w.sink && sinkOk then p.books.(sink := b.sink + p.events) else p.books
  }

  // ----- conservation --------------------------------------------------------------------------

  function Bytes(events: seq<Event>, u: nat): nat {
    if events == [] then 0
    else
      var e := events[|events| - 1];
      Bytes(events[..|events| - 1], u) + if e.user == u then e.up + e.down else 0
  }

  /** Bytes of the items charged to u. */
  function Owed(w: Wiring, items: seq<Item>, u: nat): nat {
    if items == [] then 0
    else
      var it := items[|items| - 1];
      Owed(w, items[..|items| - 1], u) + if Owner(w, it, FINE) == u then it.up + it.down else 0
  }

  /** Their upward part. */
  function OwedUp(w: Wiring, items: seq<Item>, u: nat): nat {
    if items == [] then 0
    else
      var it := items[|items| - 1];
      OwedUp(w, items[..|items| - 1], u) + if Owner(w, it, FINE) == u then it.up else 0
  }

  function DayBytes(b: Books, u: nat, day: int): nat {
    Day(b.daily, u, day).0 + Day(b.daily, u, day).1
  }

  predicate AllFine(ls: seq<Luck>) { forall i :: 0 <= i < |ls| ==> ls[i] == FINE }

  /** No item and no account leaves the unsigned 64-bit range. */
  predicate Fits(w: Wiring, b: Books, items: seq<Item>) {
    && (forall it :: it in items ==> it.up + it.down < 0x1_0000_0000_0000_0000)
    && (forall u :: u in b.users ==> b.users[u].used + Owed(w, items, u) < 0x1_0000_0000_0000_0000)
  }

  predicate SameOwners(b: Books, c: Books) { b.users.Keys == c.users.Keys }

  /** One charged item counts the same bytes on the account, in the day and in the events. */
  lemma ChargeCounts(w: Wiring, b: Books, u: nat, it: Item, day: int)
    requires u in b.users && it.up + it.down < 0x1_0000_0000_0000_0000
    requires b.users[u].used + it.up + it.down < 0x1_0000_0000_0000_0000
    ensures var r := Charged(w, b, u, it, day, FINE);
            var c := r.0;
            && r.1 && SameOwners(b, c)
            && c.users[u].used == b.users[u].used + it.up + it.down
            && c.users[u].total == b.users[u].total
            && DayBytes(c, u, day) == DayBytes(b, u, day) + it.up + it.down
            && Day(c.daily, u, day).0 == Day(b.daily, u, day).0 + it.up
            && (c.users[u].total > 0 && c.users[u].used >= c.users[u].total ==> c.users[u].banned)
  {
  }

  /** An item leaves every other account and day as it was. */
  lemma ChargeFrames(w: Wiring, b: Books, u: nat, it: Item, day: int, l: Luck, v: nat)
    requires v != u
    ensures var c := Charged(w, b, u, it, day, l).0;
            && (v in c.users <==> v in b.users) && (v in b.users ==> c.users[v] == b.users[v])
            && Day(c.daily, v, day) == Day(b.daily, v, day)
  {
  }

  /** In a fault-free batch over known users the account, the day and the events all grow by what was charged. */
  lemma {:induction false} BatchConserves(w: Wiring, b: Books, items: seq<Item>, day: int, ls: seq<Luck>, u: nat)
    requires |ls| == |items| && AllFine(ls) && Fits(w, b, items) && u in b.users && u != 0
    ensures var p := Batch(w, b, items, day, ls);
            && u in p.books.users
            && p.books.users[u].total == b.users[u].total
            && p.books.users[u].used == b.users[u].used + Owed(w, items, u)
            && DayBytes(p.books, u, day) == DayBytes(b, u, day) + Owed(w, items, u)
            && Day(p.books.daily, u, day).0 == Day(b.daily, u, day).0 + OwedUp(w, items, u)
            && Bytes(p.events, u) == Owed(w, items, u)
  {
    if items != [] {
      var n := |items| - 1;
      var it := items[n];
      assert it in items;
      Shorter(w, b, items, ls);
      BatchConserves(w, b, items[..n], day, ls[..n], u);
      var p := Batch(w, b, items[..n], day, ls[..n]);
      var o := Owner(w, it, FINE);
      if o == u {
        assert b.users[u].used + Owed(w, items, u) < 0x1_0000_0000_0000_0000;
        ChargeCounts(w, p.books, u, it, day);
      } else if o != 0 {
        ChargeFrames(w, p.books, o, it, day, FINE, u);
      }
      var q := Batch(w, b, items, day, ls);
      assert o != 0 ==> q.events[..|q.events| - 1] == p.events;
    }
  }

  // ----- the sink against the accounts ---------------------------------------------------------

  /** Bytes of the items whose owner, as far as the calls work, is u. */
  function Charges(w: Wiring, items: seq<Item>, ls: seq<Luck>, u: nat): nat
    requires |ls| == |items|
  {
    if items == [] then 0
    else
      var n := |items| - 1;
      Charges(w, items[..n], ls[..n], u) + if Owner(w, items[n], ls[n]) == u then items[n].up + items[n].down else 0
  }

  /** Those of them whose increment was refused. */
  function Missed(w: Wiring, items: seq<Item>, ls: seq<Luck>, u: nat): nat
    requires |ls| == |items|
  {
    if items == [] then 0
    else
      var n := |items| - 1;
      Missed(w, items[..n], ls[..n], u) +
        if Owner(w, items[n], ls[n]) == u && ls[n].incr == Refused then items[n].up + items[n].down else 0
  }

  predicate SmallItems(items: seq<Item>) {
    forall i :: 0 <= i < |items| ==> items[i].up + items[i].down < 0x1_0000_0000_0000_0000
  }

  lemma ChargeGrows(w: Wiring, b: Books, u: nat, it: Item, day: int, l: Luck)
    requires u in b.users && it.up + it.down < 0x1_0000_0000_0000_0000
    requires b.users[u].used + it.up + it.down < 0x1_0000_0000_0000_0000
    ensures var c := Charged(w, b, u, it, day, l).0;
            u in c.users && c.users[u].used == b.users[u].used + if l.incr == Refused then 0 else it.up + it.down
  {
  }

  /** Whatever calls fail, the events of a batch hold the bytes its user's account gained and the bytes of refused
      increments. */
  lemma {:induction false} SinkIsAccountAndMissed(w: Wiring, b: Books, items: seq<Item>, day: int, ls: seq<Luck>,
                                                  u: nat)
    requires |ls| == |items| && SmallItems(items) && u in b.users && u != 0
    requires b.users[u].used + Charges(w, items, ls, u) < 0x1_0000_0000_0000_0000
    ensures var p := Batch(w, b, items, day, ls);
            && u in p.books.users
            && p.books.users[u].used + Missed(w, items, ls, u) == b.users[u].used + Bytes(p.events, u)
            && Bytes(p.events, u) == Charges(w, items, ls, u)
  {
    if items != [] {
      var n := |items| - 1;
      SinkIsAccountAndMissed(w, b, items[..n], day, ls[..n], u);
      var p, o := Batch(w, b, items[..n], day, ls[..n]), Owner(w, items[n], ls[n]);
      if o == u { ChargeGrows(w, p.books, u, items[n], day, ls[n]); }
      else if o != 0 { ChargeFrames(w, p.books, o, items[n], day, ls[n], u); }
      var q := Batch(w, b, items, day, ls);
      assert o != 0 ==> q.events[..|q.events| - 1] == p.events;
    }
  }

  lemma {:induction false} MissedIff(w: Wiring, items: seq<Item>, ls: seq<Luck>, u: nat)
    requires |ls| == |items|
    ensures Missed(w, items, ls, u) == 0 <==>
            forall i :: 0 <= i < |items| && Owner(w, items[i], ls[i]) == u && ls[i].incr == Refused ==>
              items[i].up + items[i].down == 0
  {
    if items != [] {
      var n := |items| - 1;
      MissedIff(w, items[..n], ls[..n], u);
      assert forall i :: 0 <= i < n ==> items[..n][i] == items[i] && ls[..n][i] == ls[i];
    }
  }

  /** A user's events and account agree exactly when no item of the user that carries bytes had its increment refused:
      the event of such an item goes to the sink although the item is rejected. */
  lemma SinkAgreesIff(w: Wiring, b: Books, items: seq<Item>, day: int, ls: seq<Luck>, u: nat)
    requires |ls| == |items| && SmallItems(items) && u in b.users && u != 0
    requires b.users[u].used + Charges(w, items, ls, u) < 0x1_0000_0000_0000_0000
    ensures var p := Batch(w, b, items, day, ls);
            && u in p.books.users
            && (p.books.users[u].used == b.users[u].used + Bytes(p.events, u) <==>
                forall i :: 0 <= i < |items| && Owner(w, items[i], ls[i]) == u && ls[i].incr == Refused ==>
                  items[i].up + items[i].down == 0)
  {
    SinkIsAccountAndMissed(w, b, items, day, ls, u);
    MissedIff(w, items, ls, u);
  }

  lemma Shorter(w: Wiring, b: Books, items: seq<Item>, ls: seq<Luck>)
    requires items != [] && |ls| == |items| && Fits(w, b, items) && AllFine(ls)
    ensures Fits(w, b, items[..|items| - 1]) && AllFine(ls[..|items| - 1])
  {
    var p := items[..|items| - 1];
    forall u | u in b.users ensures b.users[u].used + Owed(w, p, u) < 0x1_0000_0000_0000_0000 {
      assert Owed(w, p, u) <= Owed(w, items, u);
    }
  }

  // ----- whom an item is charged to --------------------------------------------------------------

  /** The user the item names; or, when it names none, the one its token belongs to; or nobody. */
  lemma OwnerIs(w: Wiring, it: Item, l: Luck, u: nat)
    requires u != 0
    ensures Owner(w, it, l) == u <==>
            it.user == u || (it.user == 0 && it.token != "" && w.subs.Some? && l.resolve && it.token in w.subs.value &&
                             w.subs.value[it.token] == u)
  {
  }

  /** One item, whatever calls fail. It is accepted exactly when its increment is read back; the account grows by its
      bytes whenever the increment went through; the day by its bytes in each direction when it is accepted and the
      day's write works; and the user is flagged, or put in the cache, when accepted, at or over a positive quota and
      not banned yet, as far as those calls work. */
  lemma ItemCharges(w: Wiring, b: Books, u: nat, it: Item, day: int, l: Luck)
    requires it.up + it.down < 0x1_0000_0000_0000_0000
    ensures var (c, accepted) := Charged(w, b, u, it, day, l);
            var bytes, known := it.up + it.down, u in b.users;
            var fits := known ==> b.users[u].used + bytes < 0x1_0000_0000_0000_0000;
            && (accepted <==> l.incr == Counted && fits)
            && (known ==>
                  && u in c.users && c.users[u].total == b.users[u].total
                  && c.users[u].planExpire == b.users[u].planExpire
                  && c.users[u].used == b.users[u].used + if fits && l.incr != Refused then bytes else 0)
            && Day(c.daily, u, day).0 == Day(b.daily, u, day).0 + (if accepted && l.daily then it.up else 0)
            && Day(c.daily, u, day).1 == Day(b.daily, u, day).1 + (if accepted && l.daily then it.down else 0)
            && var over := known && accepted && l.quota && b.users[u].total > 0 &&
                             b.users[u].used + bytes >= b.users[u].total && !b.users[u].banned;
               && (known ==> (c.users[u].banned <==> b.users[u].banned || (over && l.flag)))
               && c.cache == (if over && w.bans && l.add then b.cache + {u} else b.cache) && c.sink == b.sink
  {
  }

  // ----- the sink after a report --------------------------------------------------------------------

  function UpIn(events: seq<Event>, u: nat): nat {
    if events == [] then 0
    else UpIn(events[..|events| - 1], u) + if events[|events| - 1].user == u then events[|events| - 1].up else 0
  }

  function DownIn(events: seq<Event>, u: nat): nat {
    if events == [] then 0
    else DownIn(events[..|events| - 1], u) + if events[|events| - 1].user == u then events[|events| - 1].down else 0
  }

  /** Upward bytes of the items whose owner, as far as the calls work, is u. */
  function UpOf(w: Wiring, items: seq<Item>, ls: seq<Luck>, u: nat): nat
    requires |ls| == |items|
  {
    if items == [] then 0
    else
      var n := |items| - 1;
      UpOf(w, items[..n], ls[..n], u) + if Owner(w, items[n], ls[n]) == u then items[n].up else 0
  }

  function DownOf(w: Wiring, items: seq<Item>, ls: seq<Luck>, u: nat): nat
    requires |ls| == |items|
  {
    if items == [] then 0
    else
      var n := |items| - 1;
      DownOf(w, items[..n], ls[..n], u) + if Owner(w, items[n], ls[n]) == u then items[n].down else 0
  }

  lemma {:induction false} UpJoins(a: seq<Event>, b: seq<Event>, u: nat)
    ensures UpIn(a + b, u) == UpIn(a, u) + UpIn(b, u) && DownIn(a + b, u) == DownIn(a, u) + DownIn(b, u)
  {
    if b == [] {
      assert a + b == a;
    } else {
      UpJoins(a, b[..|b| - 1], u);
      assert (a + b)[..|a + b| - 1] == a + b[..|b| - 1];
    }
  }

  /** Each item with an owner leaves one event, in the order of the items, with its own bytes. */
  lemma {:induction false} EventsInOrder(w: Wiring, b: Books, items: seq<Item>, day: int, ls: seq<Luck>)
    returns (at: seq<nat>)
    requires |ls| == |items|
    ensures var es := Batch(w, b, items, day, ls).events;
            && |at| == |es|
            && (forall k :: 0 <= k < |at| ==> at[k] < |items|)
            && (forall k :: 0 <= k < |at| ==>
                  var i := at[k]; es[k] == Event(Owner(w, items[i], ls[i]), items[i].up, items[i].down))
            && (forall k, l :: 0 <= k < l < |at| ==> at[k] < at[l])
            && (forall i :: 0 <= i < |items| ==> (i in at <==> Owner(w, items[i], ls[i]) != 0))
  {
    if items == [] {
      at := [];
    } else {
      var n := |items| - 1;
      at := EventsInOrder(w, b, items[..n], day, ls[..n]);
      hide Charged, Batch, Owner;
      BatchEvents(w, b, items, day, ls);
      if Owner(w, items[n], ls[n]) != 0 { at := at + [n]; }
    }
  }

  lemma BatchEvents(w: Wiring, b: Books, items: seq<Item>, day: int, ls: seq<Luck>)
    requires |ls| == |items| && items != []
    ensures var n := |items| - 1; var u := Owner(w, items[n], ls[n]);
            Batch(w, b, items, day, ls).events == Batch(w, b, items[..n], day, ls[..n]).events +
              if u == 0 then [] else [Event(u, items[n].up, items[n].down)]
  {
  }

  lemma {:induction false} EventBytes(w: Wiring, b: Books, items: seq<Item>, day: int, ls: seq<Luck>, u: nat)
    requires |ls| == |items| && u != 0
    ensures var es := Batch(w, b, items, day, ls).events;
            UpIn(es, u) == UpOf(w, items, ls, u) && DownIn(es, u) == DownOf(w, items, ls, u)
  {
    if items != [] {
      var n := |items| - 1;
      EventBytes(w, b, items[..n], day, ls[..n], u);
      BatchEvents(w, b, items, day, ls);
      hide Charged, Batch, Owner;
      var es := Batch(w, b, items, day, ls).events;
      if Owner(w, items[n], ls[n]) != 0 {
        assert es[..|es| - 1] == Batch(w, b, items[..n], day, ls[..n]).events;
      }
    }
  }

  /** After a report, whatever calls fail: with a sink wired and its write working, each user's bytes in the sink
      have grown, in each direction, by those of the user's items, and what was there before comes first; otherwise
      the sink is as it was. */
  lemma SinkAfterReport(w: Wiring, b: Books, items: seq<Item>, day: int, ls: seq<Luck>, sinkOk: bool, u: nat)
    requires |ls| == |items| && u != 0
    ensures var sink := Reported(w, b, items, day, ls, sinkOk).sink;
            if w.sink && sinkOk then
              && b.sink <= sink
              && UpIn(sink, u) == UpIn(b.sink, u) + UpOf(w, items, ls, u)
              && DownIn(sink, u) == DownIn(b.sink, u) + DownOf(w, items, ls, u)
            else sink == b.sink
  {
    EventBytes(w, b, items, day, ls, u);
    UpJoins(b.sink, Batch(w, b, items, day, ls).events, u);
  }

  lemma {:induction false} OwedSplits(w: Wiring, items: seq<Item>, ls: seq<Luck>, u: nat)
    requires |ls| == |items| && AllFine(ls)
    ensures Owed(w, items, u) == UpOf(w, items, ls, u) + DownOf(w, items, ls, u)
    ensures OwedUp(w, items, u) == UpOf(w, items, ls, u)
  {
    if items != [] {
      var n := |items| - 1;
      assert AllFine(ls[..n]) && ls[n] == FINE;
      OwedSplits(w, items[..n], ls[..n], u);
    }
  }

  lemma BatchCounts(w: Wiring, b: Books, items: seq<Item>, day: int, ls: seq<Luck>, u: nat)
    requires |ls| == |items| && AllFine(ls) && Fits(w, b, items) && u in b.users && u != 0
    ensures var c, up, down := Batch(w, b, items, day, ls).books, UpOf(w, items, ls, u), DownOf(w, items, ls, u);
            && u in c.users && c.users[u].used == b.users[u].used + up + down
            && Day(c.daily, u, day).0 == Day(b.daily, u, day).0 + up
            && Day(c.daily, u, day).1 == Day(b.daily, u, day).1 + down
  {
    BatchConserves(w, b, items, day, ls, u);
    OwedSplits(w, items, ls, u);
    hide Batch, Owed, OwedUp, UpOf, DownOf, Owner, Fits, AllFine, Day;
  }

  /** After a fault-free report through a wired sink, a known user's account, day and sink have all grown by the
      bytes of the user's items, the day and the sink in each direction. */
  lemma ReportConserves(w: Wiring, b: Books, items: seq<Item>, day: int, ls: seq<Luck>, u: nat)
    requires |ls| == |items| && AllFine(ls) && w.sink && Fits(w, b, items) && u in b.users && u != 0
    ensures var c, up, down := Reported(w, b, items, day, ls, true), UpOf(w, items, ls, u), DownOf(w, items, ls, u);
            && u in c.users && c.users[u].used == b.users[u].used + up + down
            && Day(c.daily, u, day).0 == Day(b.daily, u, day).0 + up
            && Day(c.daily, u, day).1 == Day(b.daily, u, day).1 + down
            && UpIn(c.sink, u) == UpIn(b.sink, u) + up && DownIn(c.sink, u) == DownIn(b.sink, u) + down
  {
    BatchCounts(w, b, items, day, ls, u);
    ReportedTables(w, b, items, day, ls, true);
    SinkAfterReport(w, b, items, day, ls, true, u);
    hide Batch, Reported, UpIn, DownIn, UpOf, DownOf, Owner, Fits, AllFine, Day;
  }

  lemma ReportedTables(w: Wiring, b: Books, items: seq<Item>, day: int, ls: seq<Luck>, sinkOk: bool)
    requires |ls| == |items|
    ensures var c, p := Reported(w, b, items, day, ls, sinkOk), Batch(w, b, items, day, ls).books;
            c.users == p.users && c.daily == p.daily && c.cache == p.cache
  {
    hide Batch;
  }

  // ----- nobody else is banned ---------------------------------------------------------------------------

  /** Newly banned, or newly in the cache, only at or over a positive quota. */
  predicate BannedRightly(b: Books, c: Books, u: nat) {
    (u in c.users && c.users[u].banned && !(u in b.users && b.users[u].banned)) || (u in c.cache && u !in b.cache) ==>
      u in c.users && c.users[u].total > 0 && c.users[u].used >= c.users[u].total
  }

  lemma ChargeBansRightly(w: Wiring, b: Books, u: nat, it: Item, day: int, l: Luck, v: nat)
    ensures var c := Charged(w, b, u, it, day, l).0;
            BannedRightly(b, c, v) && (v in c.users <==> v in b.users) &&
            (v in b.users ==> c.users[v].total == b.users[v].total && c.users[v].used >= b.users[v].used)
  {
  }

  /** Whatever calls fail, a report bans, and puts in the cache, only users at or over a positive quota. */
  lemma {:induction false} ReportBansRightly(w: Wiring, b: Books, items: seq<Item>, day: int, ls: seq<Luck>, u: nat)
    requires |ls| == |items|
    ensures var c := Batch(w, b, items, day, ls).books;
            BannedRightly(b, c, u) && (u in c.users <==> u in b.users) &&
            (u in b.users ==> c.users[u].total == b.users[u].total && c.users[u].used >= b.users[u].used)
  {
    if items != [] {
      var n := |items| - 1;
      ReportBansRightly(w, b, items[..n], day, ls[..n], u);
      var p, o := Batch(w, b, items[..n], day, ls[..n]), Owner(w, items[n], ls[n]);
      if o != 0 { ChargeBansRightly(w, p.books, o, items[n], day, ls[n], u); }
    }
  }

  /** Items that name no user the service can find. */
  function Ownerless(w: Wiring, items: seq<Item>): nat {
    if items == [] then 0
    else Ownerless(w, items[..|items| - 1]) + if Owner(w, items[|items| - 1], FINE) == 0 then 1 else 0
  }

  /** Without faults only items without an owner are rejected; an unknown user id is accepted. */
  lemma {:induction false} OnlyOwnerlessRejected(w: Wiring, b: Books, items: seq<Item>, day: int, ls: seq<Luck>)
    requires |ls| == |items| && AllFine(ls) && Fits(w, b, items)
    ensures var p := Batch(w, b, items, day, ls);
            && SameOwners(p.books, b)
            && p.rejected == Ownerless(w, items) && p.accepted == |items| - Ownerless(w, items)
  {
    if items != [] {
      var n := |items| - 1;
      var it := items[n];
      assert it in items;
      Shorter(w, b, items, ls);
      OnlyOwnerlessRejected(w, b, items[..n], day, ls[..n]);
      var u := Owner(w, it, FINE);
      if u != 0 && u in b.users {
        BatchConserves(w, b, items[..n], day, ls[..n], u);
        assert b.users[u].used + Owed(w, items, u) < 0x1_0000_0000_0000_0000;
        ChargeCounts(w, Batch(w, b, items[..n], day, ls[..n]).books, u, it, day);
      }
    }
  }

  /** The account is flagged if it reached a positive quota. */
  predicate Caught(users: Users, u: nat) {
    u in users && users[u].total > 0 && users[u].used >= users[u].total ==> users[u].banned
  }

  /** Without faults every user charged in the batch who is at or over a positive quota is banned when it ends. */
  lemma {:induction false} OverQuotaIsBanned(w: Wiring, b: Books, items: seq<Item>, day: int, ls: seq<Luck>, u: nat)
    requires |ls| == |items| && AllFine(ls) && Fits(w, b, items) && u != 0
    requires exists it :: it in items && Owner(w, it, FINE) == u
    ensures Caught(Batch(w, b, items, day, ls).books.users, u)
  {
    var n := |items| - 1;
    var it := items[n];
    var p := Batch(w, b, items[..n], day, ls[..n]);
    var o := Owner(w, it, FINE);
    assert it in items;
    Shorter(w, b, items, ls);
    OnlyOwnerlessRejected(w, b, items[..n], day, ls[..n]);
    if o == u && u in b.users {
      BatchConserves(w, b, items[..n], day, ls[..n], u);
      assert b.users[u].used + Owed(w, items, u) < 0x1_0000_0000_0000_0000;
      ChargeCounts(w, p.books, u, it, day);
    } else if o != u {
      OverQuotaIsBanned(w, b, items[..n], day, ls[..n], u);
      if o != 0 {
        ChargeFrames(w, p.books, o, it, day, FINE, u);
      }
    }
  }

  // ----- ban flags -------------------------------------------------------------------------------

  /** Over a positive quota, or past the plan's end. */
  predicate Due(a: Account, now: int) {
    (a.total > 0 && a.used >= a.total) || (a.planExpire.Some? && a.planExpire.value < now)
  }

  /** Not over a quota, and no plan end or one still to come. */
  predicate Clear(a: Account, now: int) {
    (a.total == 0 || a.used < a.total) && (a.planExpire.None? || a.planExpire.value > now)
  }

  function BanCandidates(users: Users, now: int): set<nat> {
    set u | u in users && !users[u].banned && Due(users[u], now)
  }

  function UnbanCandidates(users: Users, now: int): set<nat> {
    set u | u in users && users[u].banned && Clear(users[u], now)
  }

  function SetFlags(users: Users, ids: seq<nat>, banned: bool): Users {
    map u | u in users :: if u in ids then users[u].(banned := banned) else users[u]
  }

  function Min(a: nat, b: nat): nat { if a < b then a else b }

  predicate Distinct(ids: seq<nat>) { forall i, j :: 0 <= i < j < |ids| ==> ids[i] != ids[j] }

  /** What SELECT ... LIMIT may return: as many of the candidates as the limit allows, each once, in any choice. */
  predicate Listing(ids: seq<nat>, candidates: set<nat>, limit: nat) {
    Distinct(ids) && |ids| == Min(limit, |candidates|) && forall u :: u in ids ==> u in candidates
  }

  function Limit(batch: int): (n: nat)
    ensures n > 0
  {
    if batch <= 0 then 200 else batch
  }

  function Members(ids: seq<nat>): set<nat> { set u | u in ids }

  lemma {:induction false} MembersCount(ids: seq<nat>)
    requires Distinct(ids)
    ensures |Members(ids)| == |ids|
  {
    if ids != [] {
      var p := ids[..|ids| - 1];
      MembersCount(p);
      assert Members(ids) == Members(p) + {ids[|ids| - 1]};
    }
  }

  lemma CandidatesShrink(ids: seq<nat>, candidates: set<nat>, limit: nat)
    requires Listing(ids, candidates, limit)
    ensures |candidates - Members(ids)| == |candidates| - Min(limit, |candidates|)
  {
    MembersCount(ids);
    assert Members(ids) <= candidates;
  }

  /** One round on the flags. */
  function Round(users: Users, bans: seq<nat>, unbans: seq<nat>): Users {
    SetFlags(SetFlags(users, bans, true), unbans, false)
  }

  /** What the two queries of a round may list: the second one runs after the writes of the first list. */
  predicate Listed(users: Users, now: int, batch: int, bans: seq<nat>, written: seq<nat>, unbans: seq<nat>) {
    && Listing(bans, BanCandidates(users, now), Limit(batch))
    && Listing(unbans, UnbanCandidates(SetFlags(users, written, true), now), Limit(batch))
  }

  /** A round in which every flag write works. */
  predicate IsRound(users: Users, now: int, batch: int, bans: seq<nat>, unbans: seq<nat>) {
    Listed(users, now, batch, bans, bans, unbans)
  }

  /** Nobody is both due and clear, so banning the first list leaves the second query's answer alone. */
  lemma BansLeaveUnbans(users: Users, now: int, written: seq<nat>)
    requires forall u :: u in written ==> u in BanCandidates(users, now)
    ensures UnbanCandidates(SetFlags(users, written, true), now) == UnbanCandidates(users, now)
  {
  }

  /** A round changes flags only: no correct flag is flipped, no user is both banned and unbanned, and exactly
      min(batch, k) of the k wrong flags of each kind are put right. */
  lemma RoundRepairs(users: Users, now: int, batch: int, bans: seq<nat>, unbans: seq<nat>)
    requires IsRound(users, now, batch, bans, unbans)
    ensures var after := Round(users, bans, unbans);
            && after.Keys == users.Keys
            && (forall u :: u in users ==> after[u] == users[u].(banned := after[u].banned))
            && (forall u :: u in users && after[u].banned && !users[u].banned ==> Due(users[u], now))
            && (forall u :: u in users && !after[u].banned && users[u].banned ==> Clear(users[u], now))
            && (forall u :: u in bans ==> u !in unbans)
            && (var limit, k := if batch <= 0 then 200 else batch, |BanCandidates(users, now)|;
                |BanCandidates(after, now)| == if k <= limit then 0 else k - limit)
            && (var limit, k := if batch <= 0 then 200 else batch, |UnbanCandidates(users, now)|;
                |UnbanCandidates(after, now)| == if k <= limit then 0 else k - limit)
  {
    var after := Round(users, bans, unbans);
    BansLeaveUnbans(users, now, bans);
    CandidatesShrink(bans, BanCandidates(users, now), Limit(batch));
    CandidatesShrink(unbans, UnbanCandidates(users, now), Limit(batch));
    assert BanCandidates(after, now) == BanCandidates(users, now) - Members(bans);
    assert UnbanCandidates(after, now) == UnbanCandidates(users, now) - Members(unbans);
  }

  // ----- convergence ----------------------------------------------------------------------------

  /** Rounds one after the other, each with any choice its limit allows. */
  predicate AreRounds(users: Users, now: int, batch: int, rs: seq<(seq<nat>, seq<nat>)>) {
    rs == [] || (IsRound(users, now, batch, rs[0].0, rs[0].1)
                 && AreRounds(Round(users, rs[0].0, rs[0].1), now, batch, rs[1..]))
  }

  function AfterRounds(users: Users, rs: seq<(seq<nat>, seq<nat>)>): Users {
    if rs == [] then users else AfterRounds(Round(users, rs[0].0, rs[0].1), rs[1..])
  }

  function Less(k: nat, n: nat): nat { if k < n then 0 else k - n }

  /** k with n times as much as b allows taken off. */
  function Remaining(k: nat, n: nat, b: nat): nat {
    if n == 0 then k else Remaining(k - Min(b, k), n - 1, b)
  }

  lemma {:induction false} RemainingIs(k: nat, n: nat, b: nat)
    ensures Remaining(k, n, b) == Less(k, n * b)
  {
    if n > 0 {
      RemainingIs(k - Min(b, k), n - 1, b);
      assert n * b == (n - 1) * b + b;
    }
  }

  lemma {:induction false} RoundsTakeOff(users: Users, now: int, batch: int, rs: seq<(seq<nat>, seq<nat>)>)
    requires AreRounds(users, now, batch, rs)
    ensures var after := AfterRounds(users, rs);
            && |BanCandidates(after, now)| == Remaining(|BanCandidates(users, now)|, |rs|, Limit(batch))
            && |UnbanCandidates(after, now)| == Remaining(|UnbanCandidates(users, now)|, |rs|, Limit(batch))
    decreases |rs|
  {
    if rs != [] {
      RoundRepairs(users, now, batch, rs[0].0, rs[0].1);
      RoundsTakeOff(Round(users, rs[0].0, rs[0].1), now, batch, rs[1..]);
    }
  }

  /** After n rounds k wrong flags are k - n * batch, stopping at none. */
  lemma RoundsRepair(users: Users, now: int, batch: int, rs: seq<(seq<nat>, seq<nat>)>)
    requires AreRounds(users, now, batch, rs)
    ensures var after := AfterRounds(users, rs);
            && |BanCandidates(after, now)| == Less(|BanCandidates(users, now)|, |rs| * Limit(batch))
            && |UnbanCandidates(after, now)| == Less(|UnbanCandidates(users, now)|, |rs| * Limit(batch))
  {
    RoundsTakeOff(users, now, batch, rs);
    RemainingIs(|BanCandidates(users, now)|, |rs|, Limit(batch));
    RemainingIs(|UnbanCandidates(users, now)|, |rs|, Limit(batch));
  }

  /** Nothing left to do: the next round reports (0, 0). */
  predicate Settled(users: Users, now: int) { BanCandidates(users, now) == {} && UnbanCandidates(users, now) == {} }

  /** n rounds reach both numbers of wrong flags. */
  predicate Enough(users: Users, now: int, batch: int, n: nat) {
    n * Limit(batch) >= |BanCandidates(users, now)| && n * Limit(batch) >= |UnbanCandidates(users, now)|
  }

  /** The flags settle exactly when the rounds times the batch reach the larger number of wrong flags. */
  lemma SettlesIff(users: Users, now: int, batch: int, rs: seq<(seq<nat>, seq<nat>)>)
    requires AreRounds(users, now, batch, rs)
    ensures var limit := if batch <= 0 then 200 else batch;
            Settled(AfterRounds(users, rs), now) <==>
            |rs| * limit >= |BanCandidates(users, now)| && |rs| * limit >= |UnbanCandidates(users, now)|
  {
    RoundsRepair(users, now, batch, rs);
  }

  /** Once settled, a round changes nothing and reports (0, 0). */
  lemma SettledStays(users: Users, now: int, batch: int, bans: seq<nat>, unbans: seq<nat>)
    requires Settled(users, now) && IsRound(users, now, batch, bans, unbans)
    ensures |bans| == 0 && |unbans| == 0 && Round(users, bans, unbans) == users
  {
    BansLeaveUnbans(users, now, bans);
  }

  /** Settled flags say exactly who is due, except for banned users below quota whose plan ends at this very instant:
      neither query lists them. */
  lemma SettledFlags(users: Users, now: int)
    requires Settled(users, now)
    ensures (forall u :: u in users ==> (users[u].banned <==> Due(users[u], now)))
            <==> (forall u :: u in users && users[u].banned && users[u].planExpire == Some(now) ==> Due(users[u], now))
  {
    forall u | u in users ensures (Due(users[u], now) ==> users[u].banned) &&
        (Clear(users[u], now) ==> !users[u].banned) {
      assert u !in BanCandidates(users, now) && u !in UnbanCandidates(users, now);
    }
  }

  /** Banned, below quota, with a plan ending at this very instant. */
  predicate AtExpiry(a: Account, now: int) { a.banned && a.planExpire == Some(now) && !Due(a, now) }

  /** Rounds change nothing but flags, and not those of users whose plan ends at this very instant. */
  lemma {:induction false} RoundsChangeFlags(users: Users, now: int, batch: int, rs: seq<(seq<nat>, seq<nat>)>, u: nat)
    requires AreRounds(users, now, batch, rs) && u in users
    ensures var after := AfterRounds(users, rs);
            && u in after && after[u] == users[u].(banned := after[u].banned)
            && (users[u].planExpire == Some(now) && !Due(users[u], now) ==> after[u] == users[u])
    decreases |rs|
  {
    if rs != [] {
      RoundRepairs(users, now, batch, rs[0].0, rs[0].1);
      RoundsChangeFlags(Round(users, rs[0].0, rs[0].1), now, batch, rs[1..], u);
    }
  }

  lemma {:induction false} RoundsKeepUsers(users: Users, rs: seq<(seq<nat>, seq<nat>)>)
    ensures AfterRounds(users, rs).Keys == users.Keys
    decreases |rs|
  {
    if rs != [] { RoundsKeepUsers(Round(users, rs[0].0, rs[0].1), rs[1..]); }
  }

  /** Once the rounds times the batch reach both numbers of wrong flags, exactly the due users are banned, unless some
      user was banned, below quota, with a plan ending at this very instant: no number of rounds unbans that one. */
  lemma RoundsSetRight(users: Users, now: int, batch: int, rs: seq<(seq<nat>, seq<nat>)>)
    requires AreRounds(users, now, batch, rs)
    requires Enough(users, now, batch, |rs|)
    ensures var after := AfterRounds(users, rs);
            (forall u :: u in after ==> var a := after[u];
               a.banned <==> (a.total > 0 && a.used >= a.total) || (a.planExpire.Some? && a.planExpire.value < now))
            <==> !exists u :: u in users && users[u].banned && users[u].planExpire == Some(now) &&
                   (users[u].total == 0 || users[u].used < users[u].total)
  {
    var after := AfterRounds(users, rs);
    SettlesIff(users, now, batch, rs);
    SettledFlags(after, now);
    RoundsKeepUsers(users, rs);
    forall u | u in users
      ensures u in after && (AtExpiry(users[u], now) <==> AtExpiry(after[u], now))
    {
      RoundsChangeFlags(users, now, batch, rs, u);
    }
  }

  /** A user left banned at the end of the plan although below quota: no round, whatever it lists, changes that. */
  lemma StuckAtExpiry(users: Users, now: int, batch: int, rs: seq<(seq<nat>, seq<nat>)>)
    requires users == map[7 := Account(100, 0, Some(now), true)] && AreRounds(users, now, batch, rs)
    ensures AfterRounds(users, rs) == users && users[7].banned && !Due(users[7], now)
  {
    RoundsKeepUsers(users, rs);
    RoundsChangeFlags(users, now, batch, rs, 7);
  }

  // ----- the ban cache -------------------------------------------------------------------------------

  /** The cache lists exactly the banned users. */
  predicate Agreed(b: Books) { b.cache == set u | u in b.users && b.users[u].banned }

  /** Fault-free reports through a service with a cache keep the cache equal to the flags. */
  lemma {:induction false} ReportsKeepCache(w: Wiring, b: Books, items: seq<Item>, day: int, ls: seq<Luck>)
    requires |ls| == |items| && AllFine(ls) && w.bans && Agreed(b)
    ensures Agreed(Batch(w, b, items, day, ls).books)
  {
    if items != [] {
      var n := |items| - 1;
      ReportsKeepCache(w, b, items[..n], day, ls[..n]);
      var p := Batch(w, b, items[..n], day, ls[..n]);
      ChargeKeepsCache(w, p.books, Owner(w, items[n], FINE), items[n], day);
    }
  }

  lemma ChargeKeepsCache(w: Wiring, b: Books, u: nat, it: Item, day: int)
    requires w.bans && Agreed(b)
    ensures Agreed(Charged(w, b, u, it, day, FINE).0)
  {
    var r := Charged(w, b, u, it, day, FINE).0;
    var counted := Incremented(b.users, u, Delta(it), Counted).0;
    assert forall v :: v in counted <==> v in b.users;
    assert forall v :: v in counted ==> counted[v].banned == b.users[v].banned;
  }

  /** The tables after a round in which every call works. */
  function Recomputed(w: Wiring, b: Books, bans: seq<nat>, unbans: seq<nat>): Books {
    b.(users := Round(b.users, bans, unbans),
       cache := if w.bans then b.cache + Members(bans) - Members(unbans) else b.cache)
  }

  lemma RecomputedAgreesIff(w: Wiring, b: Books, now: int, batch: int, bans: seq<nat>, unbans: seq<nat>)
    requires Agreed(b) && IsRound(b.users, now, batch, bans, unbans)
    ensures Agreed(Recomputed(w, b, bans, unbans)) <==> w.bans || (bans == [] && unbans == [])
  {
    var c := Recomputed(w, b, bans, unbans);
    BansLeaveUnbans(b.users, now, bans);
    if w.bans {
      assert forall u :: u in c.users ==> (c.users[u].banned <==> (b.users[u].banned || u in bans) && u !in unbans);
    } else if bans != [] {
      assert bans[0] in BanCandidates(b.users, now);
      assert bans[0] !in unbans;
      assert c.users[bans[0]].banned && bans[0] !in c.cache;
    } else if unbans != [] {
      assert unbans[0] in UnbanCandidates(b.users, now);
      assert !c.users[unbans[0]].banned && unbans[0] in c.cache;
    }
  }

  /** Whatever flag writes fail, a flag that changes was wrong. */
  lemma FlipsAreRepairs(users: Users, now: int, batch: int, bans: seq<nat>, unbans: seq<nat>, works: nat -> bool)
    requires Listed(users, now, batch, bans, Kept(bans, works), unbans)
    ensures var after := Round(users, Kept(bans, works), Kept(unbans, works));
            forall u :: u in users && after[u].banned != users[u].banned
                        ==> works(u) && if after[u].banned then Due(users[u], now) else Clear(users[u], now)
  {
    var after := Round(users, Kept(bans, works), Kept(unbans, works));
    forall u | u in Kept(bans, works) ensures u in BanCandidates(users, now) { KeptIff(bans, works, u); }
    BansLeaveUnbans(users, now, Kept(bans, works));
    forall u | u in users && after[u].banned != users[u].banned
      ensures works(u) && if after[u].banned then Due(users[u], now) else Clear(users[u], now)
    {
      KeptIff(bans, works, u);
      KeptIff(unbans, works, u);
      if after[u].banned {
        assert u in bans && u in BanCandidates(users, now);
      } else {
        assert u in unbans && u in UnbanCandidates(users, now);
      }
    }
  }

  /** The ids whose flag write works. */
  function Kept(ids: seq<nat>, works: nat -> bool): seq<nat> {
    if ids == [] then []
    else
      var u := ids[|ids| - 1];
      Kept(ids[..|ids| - 1], works) + if works(u) then [u] else []
  }

  lemma {:induction false} KeptIff(ids: seq<nat>, works: nat -> bool, u: nat)
    ensures u in Kept(ids, works) <==> u in ids && works(u)
  {
    if ids != [] {
      KeptIff(ids[..|ids| - 1], works, u);
      assert ids == ids[..|ids| - 1] + [ids[|ids| - 1]];
    }
  }

  lemma {:induction false} AllKept(ids: seq<nat>, works: nat -> bool)
    requires forall u :: u in ids ==> works(u)
    ensures Kept(ids, works) == ids
  {
    if ids != [] {
      AllKept(ids[..|ids| - 1], works);
    }
  }

  /** Which calls of a round work. */
  datatype RoundLuck = RoundLuck(listBans: bool, listUnbans: bool, works: nat -> bool, add: bool, remove: bool)

  /** The tables after a round: flags whose writes work, and the cache as far as its calls work and it is wired. */
  function AfterRound(w: Wiring, b: Books, bans: seq<nat>, unbans: seq<nat>, l: RoundLuck): Books {
    var listed, ok := l.listBans, l.listBans && l.listUnbans;
    b.(users := Round(b.users, if listed then Kept(bans, l.works) else [], if ok then Kept(unbans, l.works) else []),
       cache := b.cache + (if listed && w.bans && l.add then Members(bans) else {})
                        - (if ok && w.bans && l.remove then Members(unbans) else {}))
  }

  ghost predicate AllWork(l: RoundLuck) { l.listBans && l.listUnbans && l.add && l.remove && forall u :: l.works(u) }

  /** When every call works the round is the fault-free one. */
  lemma WithoutFaults(w: Wiring, b: Books, now: int, batch: int, bans: seq<nat>, unbans: seq<nat>, l: RoundLuck)
    requires AllWork(l)
    requires Listed(b.users, now, batch, bans, Kept(bans, l.works), unbans)
    ensures IsRound(b.users, now, batch, bans, unbans) &&
            AfterRound(w, b, bans, unbans, l) == Recomputed(w, b, bans, unbans)
  {
    AllKept(bans, l.works);
    AllKept(unbans, l.works);
  }

  /** A fault-free round keeps the cache equal to the flags exactly when the service running it is wired with the
      cache or the round has nothing to do. */
  lemma RoundKeepsCacheIff(w: Wiring, b: Books, now: int, batch: int, bans: seq<nat>, unbans: seq<nat>, l: RoundLuck)
    requires AllWork(l) && Agreed(b) && Listed(b.users, now, batch, bans, Kept(bans, l.works), unbans)
    ensures Agreed(AfterRound(w, b, bans, unbans, l)) <==> w.bans || (bans == [] && unbans == [])
  {
    WithoutFaults(w, b, now, batch, bans, unbans, l);
    RecomputedAgreesIff(w, b, now, batch, bans, unbans);
  }

  /** A round, whatever calls fail: a listed user's flag is set, or cleared, when the listing and that flag's write
      work, and the cache follows its own two calls. */
  lemma RoundIs(w: Wiring, b: Books, bans: seq<nat>, unbans: seq<nat>, l: RoundLuck, u: nat)
    requires forall v :: v in bans ==> v !in unbans
    ensures var c := AfterRound(w, b, bans, unbans, l);
            && (u in c.users <==> u in b.users)
            && (u in b.users ==> c.users[u] == b.users[u].(banned := c.users[u].banned))
            && (u in b.users ==> (c.users[u].banned <==>
                  if l.listBans && l.works(u) && u in bans then true
                  else if l.listBans && l.listUnbans && l.works(u) && u in unbans then false
                  else b.users[u].banned))
            && (u in c.cache <==> if l.listBans && l.listUnbans && w.bans && l.remove && u in unbans then false
                                  else u in b.cache || (l.listBans && w.bans && l.add && u in bans))
            && c.daily == b.daily && c.sink == b.sink
  {
    KeptIff(bans, l.works, u);
    KeptIff(unbans, l.works, u);
  }

  lemma NothingToFlag(users: Users)
    ensures SetFlags(users, [], true) == users && SetFlags(users, [], false) == users
  {
  }

  // ----- the service ------------------------------------------------------------------------------------

  class Service {
    const wiring: Wiring
    var users: Users
    var daily: Daily
    var sink: seq<Event>
    var cache: set<nat>

    constructor (wiring: Wiring, b: Books)
      ensures this.wiring == wiring && Ledger() == b
    {
      this.wiring := wiring;
      users, daily, sink, cache := b.users, b.daily, b.sink, b.cache;
    }

    ghost function Ledger(): Books
      reads this
    {
      Books(users, daily, sink, cache)
    }

    method IncrTrafficUsed(u: nat, delta: nat, how: Increment) returns (read: Option<nat>)
      modifies this`users
      ensures (users, read) == Incremented(old(users), u, delta, how)
    {
      if how == Refused { return None; }
      if u !in users {
        read := if how == Counted then Some(0) else None;
        return;
      }
      var n := users[u].used + delta;
      if n >= 0x1_0000_0000_0000_0000 { return None; }
      users := users[u := users[u].(used := n)];
      read := if how == Counted then Some(n) else None;
    }

    /** The body of the report loop behind the owner's resolution. */
    method Charge(u: nat, it: Item, day: int, l: Luck) returns (ok: bool)
      modifies this
      ensures (Ledger(), ok) == Charged(wiring, old(Ledger()), u, it, day, l)
    {
      var read := IncrTrafficUsed(u, Delta(it), l.incr);
      if read.None? { return false; }
      if l.daily { daily := Upsert(daily, u, day, it.up, it.down); }
      if l.quota && u in users && users[u].total > 0 && read.value >= users[u].total && !users[u].banned {
        if l.flag { users := Flagged(users, u); }
        if wiring.bans && l.add { cache := cache + {u}; }
      }
      ok := true;
    }

    /** ReportUsage: every item is either accepted or rejected, whatever fails, and the tables are those of the
        item-by-item specification. */
    method ReportUsage(items: seq<Item>, day: int, ls: seq<Luck>, sinkOk: bool) returns (accepted: nat, rejected: nat)
      requires |ls| == |items|
      modifies this
      ensures accepted + rejected == |items|
      ensures accepted == Batch(wiring, old(Ledger()), items, day, ls).accepted
      ensures Ledger() == Reported(wiring, old(Ledger()), items, day, ls, sinkOk)
    {
      accepted, rejected := 0, 0;
      var events: seq<Event> := [];
      var i := 0;
      while i < |items|
        invariant i <= |items|
        invariant Progress(Ledger(), events, accepted, rejected)
                  == Batch(wiring, old(Ledger()), items[..i], day, ls[..i])
      {
        assert items[..i + 1][..i] == items[..i] && ls[..i + 1][..i] == ls[..i];
        var it, l := items[i], ls[i];
        i := i + 1;
        var u := Owner(wiring, it, l);
        if u == 0 {
          rejected := rejected + 1;
          continue;
        }
        events := events + [Event(u, it.up, it.down)];
        var ok := Charge(u, it, day, l);
        if !ok {
          rejected := rejected + 1;
          continue;
        }
        accepted := accepted + 1;
      }
      assert items[..|items|] == items && ls[..|ls|] == ls;
      if |events| > 0 && wiring.sink && sinkOk {
        sink := sink + events;
      }
    }

    method SetBanned(ids: seq<nat>, banned: bool, works: nat -> bool)
      modifies this`users
      ensures users == SetFlags(old(users), Kept(ids, works), banned)
    {
      var i := 0;
      while i < |ids|
        invariant i <= |ids|
        invariant users == SetFlags(old(users), Kept(ids[..i], works), banned)
      {
        assert ids[..i + 1][..i] == ids[..i];
        var u := ids[i];
        if works(u) && u in users {
          users := users[u := users[u].(banned := banned)];
        }
        i := i + 1;
      }
      assert ids[..|ids|] == ids;
    }

    /** RecomputeBans with what its two queries list; a query that fails ends the round. */
    method RecomputeBans(now: int, batch: int, bans: seq<nat>, unbans: seq<nat>, l: RoundLuck)
        returns (added: nat, removed: nat, ok: bool)
      requires l.listBans ==> Listing(bans, BanCandidates(users, now), Limit(batch))
      requires l.listBans && l.listUnbans ==> Listed(users, now, batch, bans, Kept(bans, l.works), unbans)
      modifies this`users, this`cache
      ensures ok == (l.listBans && l.listUnbans)
      ensures added == (if l.listBans then |bans| else 0) && removed == if ok then |unbans| else 0
      ensures Ledger() == AfterRound(wiring, old(Ledger()), bans, unbans, l)
    {
      hide SetFlags, Listing, Listed, Kept;
      added, removed, ok := 0, 0, false;
      NothingToFlag(users);
      if !l.listBans { return; }
      SetBanned(bans, true, l.works);
      if |bans| > 0 && wiring.bans && l.add { cache := cache + Members(bans); }
      added := |bans|;
      NothingToFlag(users);
      if !l.listUnbans { return; }
      SetBanned(unbans, false, l.works);
      if |unbans| > 0 && wiring.bans && l.remove { cache := cache - Members(unbans); }
      removed, ok := |unbans|, true;
    }
  }
}
