/** The in-memory sliding-window rate limiter: per client, the times of the
    requests it let through within the last `windowSeconds`; a request is let
    through while fewer than `maxRequests` such times remain. The clock is
    passed in (seconds). */
module RateLimiting {

  const DefaultMaxRequests := 30
  const DefaultWindowSeconds := 60

  /** The times strictly after `windowStart`, in their original order. */
  function Prune(times: seq<real>, windowStart: real): (r: seq<real>)
    ensures |r| <= |times|
    ensures forall t :: t in r <==> t in times && t > windowStart
  {
    if times == [] then []
    else (if times[0] > windowStart then [times[0]] else []) + Prune(times[1..], windowStart)
  }

  /** Pruning keeps a list whose times are all inside the window as it is. */
  lemma {:induction false} PruneKeepsRecent(times: seq<real>, windowStart: real)
    requires forall i :: 0 <= i < |times| ==> times[i] > windowStart
    ensures Prune(times, windowStart) == times
  {
    if times != [] {
      PruneKeepsRecent(times[1..], windowStart);
    }
  }

  /** Pruning empties a list whose times are all at or before the window's
      start. */
  lemma {:induction false} PruneDropsOld(times: seq<real>, windowStart: real)
    requires forall i :: 0 <= i < |times| ==> times[i] <= windowStart
    ensures Prune(times, windowStart) == []
  {
    if times != [] {
      PruneDropsOld(times[1..], windowStart);
    }
  }

  /** What one request decides, and the times the client is left with. */
  datatype Decision = Decision(allowed: bool, kept: seq<real>)

  /** One `is_allowed` call at `now` on a client's times: prune to the window,
      refuse at `maxRequests` or more, otherwise record `now`. */
  function Decide(times: seq<real>, now: real, maxRequests: int, windowSeconds: int): Decision {
    var pruned := Prune(times, now - windowSeconds as real);
    if |pruned| >= maxRequests then Decision(false, pruned) else Decision(true, pruned + [now])
  }

  /** A request is let through exactly when fewer than `maxRequests` times
      remain in the window; the kept times are the window's, plus `now` when
      it was let through, and never more than `maxRequests` of them. */
  lemma DecideSpec(times: seq<real>, now: real, maxRequests: int, windowSeconds: int)
    requires |times| <= maxRequests
    ensures var d := Decide(times, now, maxRequests, windowSeconds);
      var pruned := Prune(times, now - windowSeconds as real);
      && (d.allowed <==> |pruned| < maxRequests)
      && d.kept == (if d.allowed then pruned + [now] else pruned)
      && |d.kept| <= maxRequests
      && (forall t :: t in d.kept && t != now ==> t > now - windowSeconds as real)
  {
  }

  /** The answers to successive requests at `calls`, starting from `times`. */
  function Replay(times: seq<real>, calls: seq<real>, maxRequests: int, windowSeconds: int): (r: seq<bool>)
    ensures |r| == |calls|
    decreases |calls|
  {
    if calls == [] then []
    else
      var d := Decide(times, calls[0], maxRequests, windowSeconds);
      [d.allowed] + Replay(d.kept, calls[1..], maxRequests, windowSeconds)
  }

  /** Requests in time order and all within one window (the last less than
      `windowSeconds` after the first). */
  predicate Burst(calls: seq<real>, windowSeconds: int) {
    && (forall i, j :: 0 <= i <= j < |calls| ==> calls[i] <= calls[j])
    && (|calls| > 0 ==> calls[|calls| - 1] - calls[0] < windowSeconds as real)
  }

  /** Within one window, the first `maxRequests` requests of a new client are
      let through and the next one is refused. */
  lemma BurstLimit(calls: seq<real>, maxRequests: nat, windowSeconds: int)
    requires |calls| == maxRequests + 1 && Burst(calls, windowSeconds)
    ensures Replay([], calls, maxRequests, windowSeconds) == seq(maxRequests, _ => true) + [false]
  {
    BurstFrom(calls, maxRequests, windowSeconds, 0);
    assert calls[..0] == [] && calls[0..] == calls;
  }

  /** Once a whole window has passed since a client's last recorded request,
      its next request is let through and starts a fresh window holding only
      itself. */
  lemma WindowPassedAllows(times: seq<real>, now: real, maxRequests: int, windowSeconds: int)
    requires maxRequests > 0
    requires forall i :: 0 <= i < |times| ==> times[i] <= now - windowSeconds as real
    ensures Decide(times, now, maxRequests, windowSeconds).allowed
    ensures Decide(times, now, maxRequests, windowSeconds).kept == [now]
  {
    PruneDropsOld(times, now - windowSeconds as real);
  }

  lemma {:induction false} BurstFrom(calls: seq<real>, maxRequests: nat, windowSeconds: int, k: nat)
    requires |calls| == maxRequests + 1 && Burst(calls, windowSeconds) && k <= maxRequests
    ensures Replay(calls[..k], calls[k..], maxRequests, windowSeconds)
        == seq(maxRequests - k, _ => true) + [false]
    decreases maxRequests - k
  {
    var now := calls[k];
    forall i | 0 <= i < k
      ensures calls[..k][i] > now - windowSeconds as real
    {
      assert calls[0] <= calls[i] && now <= calls[maxRequests];
    }
    PruneKeepsRecent(calls[..k], now - windowSeconds as real);
    assert calls[k..][0] == now && calls[k..][1..] == calls[k + 1..];
    if k < maxRequests {
      assert calls[..k] + [now] == calls[..k + 1];
      BurstFrom(calls, maxRequests, windowSeconds, k + 1);
    } else {
      assert calls[k + 1..] == [];
    }
  }

  class RateLimiter {
    const maxRequests: int
    const windowSeconds: int
    /** The times kept per client; a client never seen has none. */
    var requests: map<string, seq<real>>

    /** No client holds more than `maxRequests` times. */
    ghost predicate Bounded()
      reads this
    {
      forall c :: c in requests ==> |requests[c]| <= maxRequests
    }

    constructor(maxRequests: int := DefaultMaxRequests, windowSeconds: int := DefaultWindowSeconds)
      ensures this.maxRequests == maxRequests && this.windowSeconds == windowSeconds
      ensures requests == map[] && Bounded()
    {
      this.maxRequests := maxRequests;
      this.windowSeconds := windowSeconds;
      requests := map[];
    }

    function Requests(clientId: string): seq<real>
      reads this
    {
      if clientId in requests then requests[clientId] else []
    }

    /** `is_allowed(client_id)` at time `now`: only this client's entry
        changes, to the decision's kept times. */
    method IsAllowed(clientId: string, now: real) returns (allowed: bool)
      modifies this
      ensures var d := Decide(old(Requests(clientId)), now, maxRequests, windowSeconds);
        allowed == d.allowed && requests == old(requests)[clientId := d.kept]
      ensures old(Bounded()) && maxRequests >= 0 ==> Bounded()
    {
      var pruned := Prune(Requests(clientId), now - windowSeconds as real);
      requests := requests[clientId := pruned];
      if |requests[clientId]| >= maxRequests {
        return false;
      }
      requests := requests[clientId := requests[clientId] + [now]];
      return true;
    }
  }
}
