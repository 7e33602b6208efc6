/** The on-chain scanner: block ranges, a stored cursor, and the transfers handed to the payment service. */
module Scanner {
  import opened Wrappers

  datatype Transfer = Transfer(txHash: string, to: string, amountToken: string)

  /** What each confirmed block holds. */
  type Chain = int -> seq<Transfer>

  /** A cursor write: stored, refused, or stored although an error came back. */
  datatype Write = Stored | Lost | StoredWithError

  /** What one step meets: the chain head (none when the call fails), the cursor read, the listing, the observer's
      verdict on each transfer, and the cursor write. */
  datatype Weather = Weather(head: Option<int>, readOk: bool, listOk: bool, accepts: Transfer -> bool, write: Write)

  datatype State = State(cursor: int, handed: seq<Transfer>)

  /** Transfers of blocks first..last, in block order. */
  function Range(chain: Chain, from: int, last: int): seq<Transfer>
    decreases last - from
  {
    if from > last then [] else Range(chain, from, last - 1) + chain(last)
  }

  /** Blocks per step: 50 when none or a negative number is configured. */
  function Batch(configured: int): (b: int)
    ensures b > 0
  {
    if configured <= 0 then 50 else configured
  }

  function Min(a: int, b: int): int { if a < b then a else b }

  /** The last block a step covers, when it covers any. */
  function Target(cursor: int, tip: int, configured: int): (t: Option<int>)
    ensures t.Some? ==> cursor < t.value <= tip && t.value <= cursor + Batch(configured)
  {
    if tip <= 0 || cursor == 0 || cursor >= tip then None
    else Some(Min(cursor + Batch(configured), tip))
  }

  /** One step on the stored cursor and on what the observer has been handed. */
  function Next(chain: Chain, confirmations: int, configured: int, s: State, w: Weather): State {
    if w.head.None? || !w.readOk then s
    else match Target(s.cursor, w.head.value - confirmations, configured)
      case None => s
      case Some(last) =>
        if !w.listOk then s
        else State(if w.write == Lost then s.cursor else last, s.handed + Range(chain, s.cursor + 1, last))
  }

  function Run(chain: Chain, confirmations: int, configured: int, s: State, ws: seq<Weather>): State {
    if ws == [] then s
    else Next(chain, confirmations, configured, Run(chain, confirmations, configured, s, ws[..|ws| - 1]), ws[|ws| - 1])
  }

  function Count(txs: seq<Transfer>, accepts: Transfer -> bool): (n: nat)
    ensures n <= |txs|
  {
    if txs == [] then 0
    else Count(txs[..|txs| - 1], accepts) + if accepts(txs[|txs| - 1]) then 1 else 0
  }

  class Scanner {
    const chain: Chain
    const confirmations: int
    const batchBlocks: int
    var cursor: int
    var handed: seq<Transfer>

    constructor (chain: Chain, confirmations: int, batchBlocks: int, cursor: int)
      ensures this.chain == chain && this.confirmations == confirmations && this.batchBlocks == batchBlocks
      ensures Present() == State(cursor, [])
    {
      this.chain, this.confirmations, this.batchBlocks := chain, confirmations, batchBlocks;
      this.cursor, this.handed := cursor, [];
    }

    ghost function Present(): State
      reads this
    {
      State(cursor, handed)
    }

    /** Hand every listed transfer to the observer, counting those it takes. */
    method HandOver(txs: seq<Transfer>, accepts: Transfer -> bool) returns (matched: nat)
      modifies this`handed
      ensures handed == old(handed) + txs
      ensures handed[|old(handed)|..] == txs && matched == Count(txs, accepts)
    {
      matched := 0;
      var i := 0;
      while i < |txs|
        invariant i <= |txs|
        invariant handed == old(handed) + txs[..i]
        invariant matched == Count(txs[..i], accepts)
      {
        assert txs[..i + 1][..i] == txs[..i];
        handed := handed + [txs[i]];
        if accepts(txs[i]) { matched := matched + 1; }
        i := i + 1;
      }
      assert txs[..|txs|] == txs;
    }

    /** Step: the present state becomes the next one; the count is that of the transfers the observer took. */
    method Step(w: Weather) returns (matched: nat, ok: bool)
      modifies this
      ensures Present() == Next(chain, confirmations, batchBlocks, old(Present()), w)
      ensures handed == old(handed) + handed[|old(handed)|..]
      ensures matched == Count(handed[|old(handed)|..], w.accepts)
      ensures ok && handed != old(handed) ==> cursor > old(cursor)
    {
      matched, ok := 0, false;
      if w.head.None? { return; }
      var tip := w.head.value - confirmations;
      if tip <= 0 { return 0, true; }
      if !w.readOk { return; }
      var from := cursor;
      if from == 0 { from := tip; }
      from := from + 1;
      if from > tip { return 0, true; }
      var batch := batchBlocks;
      if batch <= 0 { batch := 50; }
      var last := from + batch - 1;
      if last > tip { last := tip; }
      if !w.listOk { return; }
      matched := HandOver(Range(chain, from, last), w.accepts);
      if w.write != Lost { cursor := last; }
      ok := w.write == Stored;
    }
  }

  // ----- one step --------------------------------------------------------------------------

  lemma {:induction false} RangeSplits(chain: Chain, from: int, mid: int, last: int)
    requires from <= mid + 1 && mid <= last
    ensures Range(chain, from, last) == Range(chain, from, mid) + Range(chain, mid + 1, last)
    decreases last - mid
  {
    if mid < last {
      RangeSplits(chain, from, mid, last - 1);
    } else {
      assert Range(chain, mid + 1, last) == [];
    }
  }

  /** The cursor never goes back, never passes head less confirmations, and moves at most one batch; a step hands
      over the blocks right behind the cursor up to some last one, not above the tip and within a batch, and the
      cursor is left where it was or put there. */
  lemma StepIsBounded(chain: Chain, confirmations: int, configured: int, s: State, w: Weather) returns (last: int)
    ensures var t := Next(chain, confirmations, configured, s, w);
            && s.cursor <= last <= s.cursor + (if configured <= 0 then 50 else configured)
            && (last == s.cursor || (w.head.Some? && last <= w.head.value - confirmations && s.cursor != 0))
            && t.handed == s.handed + Range(chain, s.cursor + 1, last)
            && t.cursor in {s.cursor, last}
  {
    if Next(chain, confirmations, configured, s, w) == s {
      last := s.cursor;
    } else {
      last := Target(s.cursor, w.head.value - confirmations, configured).value;
    }
  }

  lemma KeepUp(passed: seq<Transfer>, handed: seq<Transfer>, more: seq<Transfer>)
    requires multiset(passed) <= multiset(handed)
    ensures multiset(passed + more) <= multiset(handed + more)
    ensures multiset(passed) <= multiset(handed + more)
  {
  }

  // ----- every run ---------------------------------------------------------------------------

  /** Everything in the blocks after c0 that the cursor has passed was handed over, repeated transfers as often as
      the chain holds them. */
  predicate Covers(chain: Chain, c0: int, s: State) {
    s.cursor >= c0 && multiset(Range(chain, c0 + 1, s.cursor)) <= multiset(s.handed)
  }

  lemma StepCovers(chain: Chain, confirmations: int, configured: int, c0: int, s: State, w: Weather)
    requires Covers(chain, c0, s)
    ensures Covers(chain, c0, Next(chain, confirmations, configured, s, w))
  {
    var last := StepIsBounded(chain, confirmations, configured, s, w);
    RangeSplits(chain, c0 + 1, s.cursor, last);
    KeepUp(Range(chain, c0 + 1, s.cursor), s.handed, Range(chain, s.cursor + 1, last));
  }

  /** From any cursor, over any heads (also ones that go back) and any failures, the cursor never falls back
      behind its start and nothing it passed was skipped. */
  lemma {:induction false} NothingIsSkipped(chain: Chain, confirmations: int, configured: int, s: State,
                                            ws: seq<Weather>)
    requires s.handed == []
    ensures Covers(chain, s.cursor, Run(chain, confirmations, configured, s, ws))
  {
    if ws != [] {
      NothingIsSkipped(chain, confirmations, configured, s, ws[..|ws| - 1]);
      StepCovers(chain, confirmations, configured, s.cursor,
                 Run(chain, confirmations, configured, s, ws[..|ws| - 1]), ws[|ws| - 1]);
    }
  }

  lemma Joined(chain: Chain, handed: seq<Transfer>, from: int, mid: int, last: int)
    requires from <= mid + 1 && mid <= last
    ensures handed + Range(chain, from, mid) + Range(chain, mid + 1, last) == handed + Range(chain, from, last)
  {
    RangeSplits(chain, from, mid, last);
  }

  lemma StepExactly(chain: Chain, confirmations: int, configured: int, s: State, w: Weather)
    requires w.write != Lost
    ensures var t := Next(chain, confirmations, configured, s, w);
            t.cursor >= s.cursor && t.handed == s.handed + Range(chain, s.cursor + 1, t.cursor)
  {
    if Next(chain, confirmations, configured, s, w) == s { assert Range(chain, s.cursor + 1, s.cursor) == []; }
  }

  /** From any state on, when no cursor write fails, the observer is handed exactly the transfers of the blocks passed
      meanwhile, each once and in block order: nothing behind the cursor is ever handed over again. */
  lemma {:induction false} ExactlyOnce(chain: Chain, confirmations: int, configured: int, s: State, ws: seq<Weather>)
    requires forall w :: w in ws ==> w.write != Lost
    ensures var t := Run(chain, confirmations, configured, s, ws);
            t.cursor >= s.cursor && t.handed == s.handed + Range(chain, s.cursor + 1, t.cursor)
  {
    var n := |ws| - 1;
    if ws == [] {
      assert Range(chain, s.cursor + 1, s.cursor) == [];
    } else {
      ExactlyOnce(chain, confirmations, configured, s, ws[..n]);
      assert ws[n] in ws;
      hide Next, Range;
      var mid := Run(chain, confirmations, configured, s, ws[..n]);
      StepExactly(chain, confirmations, configured, mid, ws[n]);
      var t := Next(chain, confirmations, configured, mid, ws[n]);
      assert t == Run(chain, confirmations, configured, s, ws);
      hide Run;
      Joined(chain, s.handed, s.cursor + 1, mid.cursor, t.cursor);
    }
  }

  /** A step with working calls under a given head. */
  predicate Calm(w: Weather, head: int) {
    w.head == Some(head) && w.readOk && w.listOk && w.write != Lost
  }

  lemma Distributes(n: nat, b: int)
    ensures (n + 1) * b == n * b + b
  {
  }

  /** Under a steady head, n steps bring a cursor above 0 n batches on, stopping at the tip. */
  lemma {:induction false} CatchesUp(chain: Chain, confirmations: int, configured: int, s: State, ws: seq<Weather>,
                                     head: int)
    requires 0 < s.cursor <= head - confirmations
    requires forall w :: w in ws ==> Calm(w, head)
    ensures Run(chain, confirmations, configured, s, ws).cursor
            == var batch := if configured <= 0 then 50 else configured;
               if s.cursor + |ws| * batch <= head - confirmations then s.cursor + |ws| * batch
               else head - confirmations
  {
    if ws != [] {
      var n := |ws| - 1;
      CatchesUp(chain, confirmations, configured, s, ws[..n], head);
      Distributes(n, Batch(configured));
      assert ws[n] in ws && Calm(ws[n], head);
    }
  }

  /** The number of steps that is enough, and one fewer is not. */
  lemma StepsToTip(chain: Chain, confirmations: int, configured: int, s: State, ws: seq<Weather>, head: int)
    requires 0 < s.cursor <= head - confirmations
    requires forall w :: w in ws ==> Calm(w, head)
    ensures Run(chain, confirmations, configured, s, ws).cursor == head - confirmations
            <==> |ws| * (if configured <= 0 then 50 else configured) >= head - confirmations - s.cursor
  {
    CatchesUp(chain, confirmations, configured, s, ws, head);
  }

  /** A scanner whose cursor was never stored hands over nothing and never moves, whatever happens. */
  lemma {:induction false} StuckAtZero(chain: Chain, confirmations: int, configured: int, s: State, ws: seq<Weather>)
    requires s.cursor == 0
    ensures Run(chain, confirmations, configured, s, ws) == s
  {
    if ws != [] {
      StuckAtZero(chain, confirmations, configured, s, ws[..|ws| - 1]);
    }
  }

  /** A non-negative cursor can be moved at all exactly when it is not 0. */
  lemma MovesIffStarted(chain: Chain, confirmations: int, configured: int, s: State)
    requires s.cursor >= 0
    ensures (exists ws :: Run(chain, confirmations, configured, s, ws).cursor > s.cursor) <==> s.cursor > 0
  {
    if s.cursor == 0 {
      forall ws ensures Run(chain, confirmations, configured, s, ws) == s {
        StuckAtZero(chain, confirmations, configured, s, ws);
      }
    } else {
      var w := Weather(Some(s.cursor + 1 + confirmations), true, true, (t: Transfer) => true, Stored);
      assert Run(chain, confirmations, configured, s, [w][..0]) == s;
      assert Run(chain, confirmations, configured, s, [w]).cursor > s.cursor;
    }
  }
}
