/** Opening moves of the counterexample runs: placing an order, and a run that lists one top-up order. */
module Scenario {
  import opened Wrappers
  import opened Tables
  import opened Machine

  const NO := "o"

  /** An order for one yuan. */
  function Request(no: string, u: nat, key: string, item: Item): NewOrder {
    NewOrder(no, u, key, item, "1.00", "0.00", "")
  }

  function Buyer(u: nat): NewOrder { Request(NO, u, "k", TopupItem) }

  function Row(cfg: Config, u: nat): Order { NewRow(Buyer(u), cfg.orderTtl) }

  /** One more order, placed by a thread of its own. */
  function Placed(s: Shared, input: NewOrder, expireAt: int): Shared {
    s.(db := s.db.(orders := s.db.orders[input.no := NewRow(input, expireAt)],
                   idem := s.db.idem[(input.user, input.key) := input.no]))
  }

  function Placing(tid: nat, input: NewOrder): seq<Event> {
    [Spawn(tid, CreateLookup(input)), Run(tid, Ok), Run(tid, Ok), Run(tid, Ok)]
  }

  lemma Place(cfg: Config, evs: seq<Event>, w: World, tid: nat, input: NewOrder) returns (evs': seq<Event>, w': World)
    requires w == RunAll(Init(cfg), evs) && w.cfg == cfg && tid !in w.threads
    requires input.user in cfg.users && input.key != ""
    requires input.no !in w.s.db.orders && (input.user, input.key) !in w.s.db.idem
    ensures evs' == evs + Placing(tid, input) && w' == RunAll(Init(cfg), evs')
    ensures w' == World(cfg, Placed(w.s, input, w.s.now + cfg.orderTtl),
                        w.threads[tid := CreateDone(input.user, input.key, Some(input.no))])
  {
    hide AdvancePay, AdvanceVerify, AdvancePaid, AdvanceOther, RunAll, Step;
    evs', w' := Start(Init(cfg), evs, w, tid, CreateLookup(input));
    evs', w' := Turn(Init(cfg), evs', w', tid, w'.s, CreateClock(input));
    evs', w' := Turn(Init(cfg), evs', w', tid, w'.s, CreateInsert(input, w'.s.now + cfg.orderTtl));
    evs', w' := Turn(Init(cfg), evs', w', tid, Placed(w'.s, input, w'.s.now + cfg.orderTtl),
                     CreateDone(input.user, input.key, Some(input.no)));
  }

  lemma Buy(cfg: Config, u: nat) returns (evs: seq<Event>, w: World)
    requires u in cfg.users
    ensures w == RunAll(Init(cfg), evs) && w.cfg == cfg && w.threads.Keys == {0}
    ensures w.s.now == 0 && w.s.db.orders == map[NO := Row(cfg, u)] && w.s.db.payments == []
    ensures w.s.db.users == cfg.users && w.s.hist == Init(cfg).s.hist && Ended(w.threads[0])
  {
    evs, w := Place(cfg, [], Init(cfg), 0, Buyer(u));
  }
}
