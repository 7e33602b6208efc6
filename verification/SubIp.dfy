/** The rolling set of addresses per subscription token, kept in a Redis sorted set, and the guard that revokes a
    token shared too widely. */
module SubIp {
  import opened Wrappers

  /** A sorted set of addresses scored by the second they were last seen, and the second its key may be dropped. */
  datatype Zset = Zset(scores: map<string, int>, deadline: int)

  /** One call to Touch; evict says whether Redis has dropped the key, if its time was up. */
  datatype Touched = Touched(token: string, ip: string, at: int, evict: bool)

  type Sets = map<string, Zset>

  function Present(sets: Sets, e: Touched): map<string, int> {
    if e.token in sets && !(e.evict && e.at >= sets[e.token].deadline) then sets[e.token].scores else map[]
  }

  /** ZREMRANGEBYSCORE -inf..cutoff. */
  function Trimmed(scores: map<string, int>, cutoff: int): map<string, int> {
    map ip | ip in scores && scores[ip] > cutoff :: scores[ip]
  }

  /** Trim, ZADD, EXPIRE. */
  function After(sets: Sets, e: Touched, window: int): Sets {
    sets[e.token := Zset(Trimmed(Present(sets, e), e.at - window)[e.ip := e.at], e.at + window + 60)]
  }

  function Run(h: seq<Touched>, window: int): Sets {
    if h == [] then map[] else After(Run(h[..|h| - 1], window), h[|h| - 1], window)
  }

  /** What the last touch of a history returns: ZCARD. */
  function Answer(h: seq<Touched>, window: int): nat
    requires h != []
  {
    |Run(h, window)[h[|h| - 1].token].scores|
  }

  // ----- against the full log -------------------------------------------------------------

  /** The addresses a token was used from in (now - window, now]. */
  function Recent(h: seq<Touched>, token: string, now: int, window: int): set<string> {
    set j | 0 <= j < |h| && h[j].token == token && now - window < h[j].at <= now :: h[j].ip
  }

  predicate Ordered(h: seq<Touched>) { forall i, j :: 0 <= i < j < |h| ==> h[i].at <= h[j].at }

  /** When a token was last used from an address. */
  function Latest(h: seq<Touched>, token: string, ip: string): Option<int> {
    if h == [] then None
    else
      var e := h[|h| - 1];
      if e.token == token && e.ip == ip then Some(e.at) else Latest(h[..|h| - 1], token, ip)
  }

  /** When a token was last used at all. */
  function LastUse(h: seq<Touched>, token: string): Option<int> {
    if h == [] then None
    else
      var e := h[|h| - 1];
      if e.token == token then Some(e.at) else LastUse(h[..|h| - 1], token)
  }

  lemma {:induction false} LatestIsMaximum(h: seq<Touched>, token: string, ip: string)
    requires Ordered(h)
    ensures var l := Latest(h, token, ip);
            && (l.Some? ==> exists j :: 0 <= j < |h| && h[j].token == token && h[j].ip == ip && h[j].at == l.value)
            && (forall j :: 0 <= j < |h| && h[j].token == token && h[j].ip == ip ==> l.Some? && h[j].at <= l.value)
            && (l.Some? ==> LastUse(h, token).Some? && l.value <= LastUse(h, token).value)
    ensures LastUse(h, token).Some? ==>
              exists j :: 0 <= j < |h| && h[j].token == token && h[j].at == LastUse(h, token).value
  {
    if h != [] {
      LatestIsMaximum(h[..|h| - 1], token, ip);
    }
  }

  /** The stored key of a token holds each address used less than a window before the token's last use, scored by its
      own last use, and would be dropped only a minute after all of those have left the window. */
  ghost predicate Mirrors(sets: Sets, h: seq<Touched>, token: string, window: int) {
    match LastUse(h, token)
    case None => token !in sets
    case Some(last) =>
      && token in sets && sets[token].deadline == last + window + 60
      && (forall ip :: ip in sets[token].scores ==>
            Latest(h, token, ip) == Some(sets[token].scores[ip]) && sets[token].scores[ip] > last - window)
      && (forall ip :: Latest(h, token, ip).Some? && Latest(h, token, ip).value > last - window ==>
          ip in sets[token].scores)
  }

  lemma {:induction false} RunMirrors(h: seq<Touched>, token: string, window: int)
    requires Ordered(h) && window >= 1
    ensures Mirrors(Run(h, window), h, token, window)
  {
    if h != [] {
      var p, e := h[..|h| - 1], h[|h| - 1];
      RunMirrors(p, token, window);
      if e.token == token {
        TouchMirrors(Run(p, window), h, window);
      } else {
        assert forall ip :: Latest(h, token, ip) == Latest(p, token, ip);
      }
    }
  }

  lemma TouchMirrors(sets: Sets, h: seq<Touched>, window: int)
    requires h != [] && Ordered(h) && window >= 1
    requires Mirrors(sets, h[..|h| - 1], h[|h| - 1].token, window)
    ensures Mirrors(After(sets, h[|h| - 1], window), h, h[|h| - 1].token, window)
  {
    var p, e := h[..|h| - 1], h[|h| - 1];
    var z := After(sets, e, window)[e.token];
    forall ip | ip in z.scores
      ensures Latest(h, e.token, ip) == Some(z.scores[ip]) && z.scores[ip] > e.at - window
    {
    }
    forall ip | Latest(h, e.token, ip).Some? && Latest(h, e.token, ip).value > e.at - window ensures ip in z.scores {
      LatestIsMaximum(p, e.token, ip);
      if ip != e.ip {
        assert Latest(h, e.token, ip) == Latest(p, e.token, ip);
        assert ip in sets[e.token].scores;
      }
    }
  }

  /** Under a monotone clock and a window of at least a second, each touch returns the number of distinct addresses
      its token was used from within the window, whenever keys are evicted. */
  lemma TouchCountsRecent(h: seq<Touched>, window: int)
    requires h != [] && Ordered(h) && window >= 1
    ensures var e := h[|h| - 1];
            Answer(h, window) == |Recent(h, e.token, e.at, window)|
  {
    var e := h[|h| - 1];
    RunMirrors(h, e.token, window);
    var scores := Run(h, window)[e.token].scores;
    forall ip ensures ip in scores <==> ip in Recent(h, e.token, e.at, window) {
      LatestIsMaximum(h, e.token, ip);
    }
    assert scores.Keys == Recent(h, e.token, e.at, window);
  }

  /** A window below one second reaches the store as 0: every touch then returns 1. */
  lemma ZeroWindowSeesOne(h: seq<Touched>)
    requires h != [] && Ordered(h)
    ensures Answer(h, 0) == 1
  {
    var p, e := h[..|h| - 1], h[|h| - 1];
    NoScoreAhead(p, e.token, e.at);
    var scores := Run(h, 0)[e.token].scores;
    assert scores.Keys == {e.ip};
  }

  lemma {:induction false} NoScoreAhead(h: seq<Touched>, token: string, now: int)
    requires forall e :: e in h ==> e.at <= now
    ensures token in Run(h, 0) ==> forall ip :: ip in Run(h, 0)[token].scores ==> Run(h, 0)[token].scores[ip] <= now
  {
    if h != [] {
      assert h[|h| - 1] in h;
      NoScoreAhead(h[..|h| - 1], token, now);
    }
  }

  /** The count is right for every history exactly when the window is at least one second. */
  lemma CountsIffWholeSeconds(window: int)
    requires window >= 0
    ensures (forall h: seq<Touched> :: h != [] && Ordered(h) ==>
              Answer(h, window) == |Recent(h, h[|h| - 1].token, h[|h| - 1].at, window)|)
            <==> window >= 1
  {
    if window >= 1 {
      forall h: seq<Touched> | h != [] && Ordered(h)
        ensures Answer(h, window) == |Recent(h, h[|h| - 1].token, h[|h| - 1].at, window)|
      {
        TouchCountsRecent(h, window);
      }
    } else {
      var h := [Touched("t", "a", 0, false)];
      ZeroWindowSeesOne(h);
      assert Recent(h, "t", 0, 0) == {};
    }
  }

  // ----- store and guard ---------------------------------------------------------------------

  class Tracker {
    var sets: Sets
    ghost var log: seq<Touched>
    const window: int

    ghost predicate Valid()
      reads this
    {
      sets == Run(log, window)
    }

    constructor (window: int)
      ensures Valid() && log == [] && this.window == window
    {
      sets, log, this.window := map[], [], window;
    }

    /** Touch: drop what has left the window, add the address, push the key's deadline, count. */
    method Touch(e: Touched, millis: nat) returns (n: nat)
      requires Valid() && window == millis / 1000
      modifies this
      ensures Valid() && log == old(log) + [e]
      ensures n == Answer(log, window)
    {
      hide Trimmed, Run;
      var scores: map<string, int> := map[];
      if e.token in sets && !(e.evict && e.at >= sets[e.token].deadline) {
        scores := sets[e.token].scores;
      }
      var cutoff := e.at - millis / 1000;
      scores := Trimmed(scores, cutoff);
      scores := scores[e.ip := e.at];
      sets := sets[e.token := Zset(scores, e.at + millis / 1000 + 60)];
      n := |scores|;
      log := log + [e];
      LastTouch(old(log), e, window);
    }
  }

  lemma LastTouch(h: seq<Touched>, e: Touched, window: int)
    ensures Run(h + [e], window) == After(Run(h, window), e, window)
  {
    assert (h + [e])[..|h|] == h;
  }

  /** Seconds of window for a configured number of milliseconds: an hour when none is set, fractions cut off. */
  function WindowSeconds(millis: int): (w: int)
    ensures w >= 0 && (w >= 1 <==> millis <= 0 || millis >= 1000)
  {
    if millis <= 0 then 3600 else millis / 1000
  }

  class Guard {
    const enabled: bool
    const threshold: int
    const windowMillis: int
    const users: bool
    const store: Tracker?

    /** The store's history was built under this guard's window. */
    ghost predicate Wired()
      reads store
    {
      store != null ==> store.Valid() && store.window == WindowSeconds(windowMillis)
    }

    constructor (enabled: bool, threshold: int, windowMillis: int, users: bool, store: Tracker?)
      ensures this.enabled == enabled && this.threshold == threshold && this.windowMillis == windowMillis
      ensures this.users == users && this.store == store
    {
      this.enabled, this.threshold, this.windowMillis := enabled, threshold, windowMillis;
      this.users, this.store := users, store;
    }

    /** SubGuard: revoke when the count of distinct addresses within the window, an hour by default, has reached the
        threshold; a window below one second counts only the present address; a failing store allows. */
    method SubGuard(e: Touched, storeOk: bool) returns (allowed: bool, revoked: bool)
      requires Wired()
      modifies store
      ensures Wired() && allowed == !revoked
      ensures revoked ==> enabled && users && store != null && threshold > 0 && storeOk
      ensures enabled && store != null && storeOk ==> store.log == old(store.log) + [e]
      ensures enabled && users && store != null && storeOk && threshold > 0 && Ordered(store.log) ==>
                (revoked <==> threshold <= if 0 < windowMillis < 1000 then 1
                                           else if windowMillis <= 0 then |Recent(store.log, e.token, e.at, 3600)|
                                           else |Recent(store.log, e.token, e.at, windowMillis / 1000)|)
    {
      if !enabled || store == null { return true, false; }
      var window := windowMillis;
      if window <= 0 { window := 3600000; }
      if !storeOk { return true, false; }
      var unique := store.Touch(e, window);
      if threshold > 0 && unique >= threshold && users {
        allowed, revoked := false, true;
      } else {
        allowed, revoked := true, false;
      }
      if Ordered(store.log) {
        if store.window >= 1 {
          TouchCountsRecent(store.log, store.window);
        } else {
          ZeroWindowSeesOne(store.log);
        }
      }
    }
  }
}
