// crossing/abuse.py: the sliding-window limiter, in seconds of a monotonic clock.
module RateLimit {
  import opened Model

  const WINDOW := 60.0

  /** The readings later than the cutoff, in order. */
  function Since(readings: seq<real>, cutoff: real): seq<real>
  {
    if readings == [] then []
    else
      var last := readings[|readings| - 1];
      Since(readings[..|readings| - 1], cutoff) + (if last > cutoff then [last] else [])
  }

  /** The readings in the half-open window of sixty seconds after `start`. */
  function Within(readings: seq<real>, start: real): seq<real>
  {
    if readings == [] then []
    else
      var last := readings[|readings| - 1];
      Within(readings[..|readings| - 1], start) + (if start < last <= start + WINDOW then [last] else [])
  }

  /** One call: prune, then accept if the window has room. */
  function Check(window: seq<real>, limit: int, now: real): (seq<real>, bool)
  {
    if limit <= 0 then (window, true)
    else
      var pruned := Since(window, now - WINDOW);
      if |pruned| >= limit then (pruned, false) else (pruned + [now], true)
  }

  class Limiter {
    var hits: map<string, seq<real>>

    constructor ()
      ensures hits == map[]
    {
      hits := map[];
    }

    function Window(key: string): seq<real>
      reads this
    {
      if key in hits then hits[key] else []
    }

    /** Updates the caller's own window in place and no other key's. */
    method CheckRateLimit(key: string, limit: int, now: real) returns (denied: Option<Reason>)
      modifies this
      ensures (Window(key), denied.None?) == Check(old(Window(key)), limit, now)
      ensures forall other :: other != key ==> (other in hits <==> other in old(hits)) && Window(other) == old(Window(other))
    {
      if limit <= 0 {
        return None;
      }
      var window := Since(Window(key), now - WINDOW);
      hits := hits[key := window];
      if |window| >= limit {
        return Some(RateLimited);
      }
      hits := hits[key := window + [now]];
      return None;
    }
  }

  /** A key's window, and everything ever accepted for it. */
  datatype Record = Record(window: seq<real>, accepted: seq<real>)

  function After(r: Record, limit: int, now: real): Record
  {
    var (window, ok) := Check(r.window, limit, now);
    Record(window, if ok then r.accepted + [now] else r.accepted)
  }

  function Run(limit: int, calls: seq<real>): Record
  {
    if calls == [] then Record([], [])
    else After(Run(limit, calls[..|calls| - 1]), limit, calls[|calls| - 1])
  }

  predicate Ascending(calls: seq<real>)
  {
    forall i, j :: 0 <= i < j < |calls| ==> calls[i] <= calls[j]
  }

  lemma SinceAppend(readings: seq<real>, x: real, cutoff: real)
    ensures Since(readings + [x], cutoff) == Since(readings, cutoff) + (if x > cutoff then [x] else [])
    ensures Within(readings + [x], cutoff) == Within(readings, cutoff) + (if cutoff < x <= cutoff + WINDOW then [x] else [])
  {
  }

  /** Pruning twice is pruning to the later cutoff. */
  lemma {:induction false} SinceTwice(readings: seq<real>, early: real, late: real)
    requires early <= late
    ensures Since(Since(readings, early), late) == Since(readings, late)
  {
    if readings != [] {
      var front, last := readings[..|readings| - 1], readings[|readings| - 1];
      SinceTwice(front, early, late);
      if last > early {
        SinceAppend(Since(front, early), last, late);
      } else {
        assert Since(readings, early) == Since(front, early);
      }
    }
  }

  lemma {:induction false} LaterWindowIsSmaller(readings: seq<real>, start: real, cutoff: real)
    requires start >= cutoff
    ensures |Within(readings, start)| <= |Since(readings, cutoff)|
  {
    if readings != [] {
      LaterWindowIsSmaller(readings[..|readings| - 1], start, cutoff);
    }
  }

  /** The pruned list is the accepted history cut to the last sixty seconds. */
  lemma {:induction false} WindowIsRecentHistory(limit: int, calls: seq<real>)
    requires limit > 0 && Ascending(calls)
    ensures calls != [] ==> Run(limit, calls).window == Since(Run(limit, calls).accepted, calls[|calls| - 1] - WINDOW)
  {
    if calls != [] {
      var front, now := calls[..|calls| - 1], calls[|calls| - 1];
      var before := Run(limit, front);
      WindowIsRecentHistory(limit, front);
      if front != [] {
        SinceTwice(before.accepted, front[|front| - 1] - WINDOW, now - WINDOW);
      }
      SinceAppend(before.accepted, now, now - WINDOW);
    }
  }

  /** What the next call prunes to is the accepted history of the last sixty seconds. */
  lemma NextPruned(limit: int, calls: seq<real>)
    requires limit > 0 && Ascending(calls) && calls != []
    ensures var before, now := Run(limit, calls[..|calls| - 1]), calls[|calls| - 1];
            Since(before.window, now - WINDOW) == Since(before.accepted, now - WINDOW)
  {
    var front, now := calls[..|calls| - 1], calls[|calls| - 1];
    WindowIsRecentHistory(limit, front);
    if front != [] {
      SinceTwice(Run(limit, front).accepted, front[|front| - 1] - WINDOW, now - WINDOW);
    }
  }

  /** No half-open window of sixty seconds, wherever it starts, holds more than `limit` accepted calls. */
  lemma {:induction false} NoWindowOverflows(limit: int, calls: seq<real>, start: real)
    requires limit > 0 && Ascending(calls)
    ensures |Within(Run(limit, calls).accepted, start)| <= limit
  {
    if calls != [] {
      var front, now := calls[..|calls| - 1], calls[|calls| - 1];
      var accepted := Run(limit, front).accepted;
      NoWindowOverflows(limit, front, start);
      NextPruned(limit, calls);
      SinceAppend(accepted, now, start);
      if start + WINDOW >= now {
        LaterWindowIsSmaller(accepted, start, now - WINDOW);
      }
    }
  }

  /** The window holds every reading in it, as often as it was read, and no other. */
  lemma {:induction false} WithinHoldsTheWindow(readings: seq<real>, start: real, x: real)
    ensures multiset(Within(readings, start))[x] == if start < x <= start + 60.0 then multiset(readings)[x] else 0
  {
    if readings != [] {
      var front, last := readings[..|readings| - 1], readings[|readings| - 1];
      WithinHoldsTheWindow(front, start, x);
      assert readings == front + [last];
    }
  }

  lemma {:induction false} AcceptedBefore(limit: int, calls: seq<real>, now: real)
    requires Ascending(calls) && (calls != [] ==> calls[|calls| - 1] <= now)
    ensures forall k :: 0 <= k < |Run(limit, calls).accepted| ==> Run(limit, calls).accepted[k] <= now
  {
    if calls != [] {
      AcceptedBefore(limit, calls[..|calls| - 1], now);
    }
  }

  lemma {:induction false} SinceIsWithin(readings: seq<real>, start: real)
    requires forall k :: 0 <= k < |readings| ==> readings[k] <= start + WINDOW
    ensures Since(readings, start) == Within(readings, start)
  {
    if readings != [] {
      SinceIsWithin(readings[..|readings| - 1], start);
    }
  }

  lemma OneCallMore(limit: int, calls: seq<real>, now: real)
    ensures Run(limit, calls + [now]) == After(Run(limit, calls), limit, now)
  {
    assert (calls + [now])[..|calls|] == calls;
  }

  lemma AscendingUpTo(calls: seq<real>, now: real)
    requires Ascending(calls + [now])
    ensures Ascending(calls) && (calls != [] ==> calls[|calls| - 1] <= now)
  {
    assert forall k :: 0 <= k < |calls| ==> (calls + [now])[k] == calls[k];
    assert (calls + [now])[|calls|] == now;
  }

  lemma PrunedIsTheWindow(limit: int, calls: seq<real>, now: real)
    requires limit > 0 && Ascending(calls + [now])
    ensures Since(Run(limit, calls).window, now - WINDOW) == Within(Run(limit, calls).accepted, now - WINDOW)
  {
    assert (calls + [now])[..|calls|] == calls;
    NextPruned(limit, calls + [now]);
    AscendingUpTo(calls, now);
    AcceptedBefore(limit, calls, now);
    SinceIsWithin(Run(limit, calls).accepted, now - WINDOW);
  }

  /** A call is accepted exactly if fewer than `limit` calls were accepted in the sixty seconds before it. */
  lemma AcceptedExactlyWithRoom(limit: int, calls: seq<real>, now: real)
    requires limit > 0 && Ascending(calls + [now])
    ensures var accepted := Run(limit, calls).accepted;
            Run(limit, calls + [now]).accepted
            == if |Within(accepted, now - 60.0)| < limit then accepted + [now] else accepted
  {
    OneCallMore(limit, calls, now);
    PrunedIsTheWindow(limit, calls, now);
  }

  /** A limit of nothing or less limits nothing. */
  lemma {:induction false} NoLimitAcceptsAll(limit: int, calls: seq<real>)
    requires limit <= 0
    ensures Run(limit, calls).accepted == calls
  {
    if calls != [] {
      NoLimitAcceptsAll(limit, calls[..|calls| - 1]);
      assert calls == calls[..|calls| - 1] + [calls[|calls| - 1]];
    }
  }
}
