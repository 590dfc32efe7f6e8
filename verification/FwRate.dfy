/** The sliding-window rate limit of one source. */
module FwRate {

  /** The tracked times once those that left the window are popped from the front. */
  function DropExpired(times: seq<real>, now: real, window: real): seq<real> {
    if times != [] && now - times[0] >= window then DropExpired(times[1..], now, window) else times
  }

  /** The packet at `now` passes. */
  predicate Passes(times: seq<real>, now: real, limit: int, window: real) {
    |DropExpired(times, now, window)| < limit
  }

  /** The tracked times after a packet at `now`. */
  function Track(times: seq<real>, now: real, limit: int, window: real): seq<real> {
    DropExpired(times, now, window) + if Passes(times, now, limit, window) then [now] else []
  }

  // ---------- a source's whole history ----------

  /** What remains tracked after packets at the given times, in order. */
  function Tracked(arrivals: seq<real>, limit: int, window: real): seq<real> {
    if arrivals == [] then []
    else Track(Tracked(arrivals[..|arrivals| - 1], limit, window), arrivals[|arrivals| - 1], limit, window)
  }

  /** Arrival `i` was let through. */
  predicate Accepted(arrivals: seq<real>, i: nat, limit: int, window: real)
    requires i < |arrivals|
  {
    Passes(Tracked(arrivals[..i], limit, window), arrivals[i], limit, window)
  }

  /** All times at which a packet was let through. */
  function History(arrivals: seq<real>, limit: int, window: real): seq<real> {
    if arrivals == [] then []
    else
      var before := arrivals[..|arrivals| - 1];
      History(before, limit, window)
      + if Accepted(arrivals, |arrivals| - 1, limit, window) then [arrivals[|arrivals| - 1]] else []
  }

  lemma OneMoreArrival(arrivals: seq<real>, now: real, limit: int, window: real)
    ensures Tracked(arrivals + [now], limit, window) == Track(Tracked(arrivals, limit, window), now, limit, window)
    ensures History(arrivals + [now], limit, window) ==
              History(arrivals, limit, window) + if Passes(Tracked(arrivals, limit, window), now, limit, window) then [now] else []
  {
    assert (arrivals + [now])[..|arrivals|] == arrivals;
  }

  predicate Ordered(times: seq<real>) {
    forall i, j | 0 <= i < j < |times| :: times[i] <= times[j]
  }

  /** The times of a history strictly within the last `window` before `now`. */
  function Recent(times: seq<real>, now: real, window: real): seq<real> {
    if times == [] then []
    else (if now - times[0] < window then [times[0]] else []) + Recent(times[1..], now, window)
  }

  lemma {:induction false} RecentAppend(s: seq<real>, x: real, now: real, window: real)
    ensures Recent(s + [x], now, window) == Recent(s, now, window) + if now - x < window then [x] else []
  {
    if s == [] {
      assert s + [x] == [x] && [x][1..] == [];
    } else {
      RecentAppend(s[1..], x, now, window);
      assert (s + [x])[1..] == s[1..] + [x];
    }
  }

  /** Of ordered times, popping from the front finds exactly the recent ones. */
  lemma {:induction false} PoppingIsRecounting(s: seq<real>, now: real, window: real)
    requires Ordered(s)
    ensures DropExpired(s, now, window) == Recent(s, now, window)
  {
    if s != [] {
      assert Ordered(s[1..]);
      PoppingIsRecounting(s[1..], now, window);
      if now - s[0] < window {
        AllRecent(s, now, window);
      }
    }
  }

  lemma {:induction false} AllRecent(s: seq<real>, now: real, window: real)
    requires forall i | 0 <= i < |s| :: now - s[i] < window
    ensures Recent(s, now, window) == s
  {
    if s != [] {
      AllRecent(s[1..], now, window);
    }
  }

  /** What has left a window stays out of later windows. */
  lemma {:induction false} RecentAgain(s: seq<real>, now: real, later: real, window: real)
    requires now <= later
    ensures Recent(Recent(s, now, window), later, window) == Recent(s, later, window)
  {
    if s != [] {
      RecentAgain(s[1..], now, later, window);
      var r := Recent(s[1..], now, window);
      if now - s[0] < window {
        assert ([s[0]] + r)[1..] == r;
      } else {
        assert [] + r == r;
      }
    }
  }

  lemma {:induction false} KeptInOrder(times: seq<real>, now: real, window: real)
    requires Ordered(times) && forall i | 0 <= i < |times| :: times[i] <= now
    ensures Ordered(DropExpired(times, now, window))
    ensures forall i | 0 <= i < |DropExpired(times, now, window)| :: DropExpired(times, now, window)[i] <= now
  {
    if times != [] && now - times[0] >= window {
      KeptInOrder(times[1..], now, window);
    }
  }

  lemma OneMoreTracked(times: seq<real>, history: seq<real>, now: real, limit: int, window: real, later: real)
    requires Ordered(times) && now <= later && forall i | 0 <= i < |times| :: times[i] <= now
    requires Recent(times, later, window) == Recent(history, later, window)
    ensures var times' := Track(times, now, limit, window);
            var history' := history + if Passes(times, now, limit, window) then [now] else [];
            && Ordered(times') && Recent(times', later, window) == Recent(history', later, window)
            && forall i | 0 <= i < |times'| :: times'[i] <= later
  {
    var kept := DropExpired(times, now, window);
    KeptInOrder(times, now, window);
    PoppingIsRecounting(times, now, window);
    RecentAgain(times, now, later, window);
    if Passes(times, now, limit, window) {
      RecentAppend(kept, now, later, window);
      RecentAppend(history, now, later, window);
    } else {
      assert kept + [] == kept && history + [] == history;
    }
  }

  /** The tracker holds what the whole history would give: a later packet is judged by all
      accepted packets within its window. */
  lemma {:induction false} TrackerKnowsHistory(arrivals: seq<real>, limit: int, window: real, later: real)
    requires Ordered(arrivals) && (arrivals != [] ==> arrivals[|arrivals| - 1] <= later)
    ensures Ordered(Tracked(arrivals, limit, window))
    ensures Recent(Tracked(arrivals, limit, window), later, window) == Recent(History(arrivals, limit, window), later, window)
    ensures forall i | 0 <= i < |Tracked(arrivals, limit, window)| :: Tracked(arrivals, limit, window)[i] <= later
    decreases |arrivals|
  {
    if arrivals != [] {
      var n := |arrivals| - 1;
      var now := arrivals[n];
      var before := arrivals[..n];
      TrackerKnowsHistory(before, limit, window, now);
      TrackerKnowsHistory(before, limit, window, later);
      OneMoreTracked(Tracked(before, limit, window), History(before, limit, window), now, limit, window, later);
    }
  }

  /** A packet is refused iff at least `limit` accepted ones lie strictly within the last window. */
  lemma RefusedIffWindowFull(arrivals: seq<real>, i: nat, limit: int, window: real)
    requires Ordered(arrivals) && i < |arrivals|
    ensures !Accepted(arrivals, i, limit, window) <==>
              |Recent(History(arrivals[..i], limit, window), arrivals[i], window)| >= limit
  {
    TrackerKnowsHistory(arrivals[..i], limit, window, arrivals[i]);
    PoppingIsRecounting(Tracked(arrivals[..i], limit, window), arrivals[i], window);
  }

  /** The times in the half-open interval from `from` of length `window`. */
  function Within(times: seq<real>, from: real, window: real): seq<real> {
    if times == [] then []
    else (if from <= times[0] < from + window then [times[0]] else []) + Within(times[1..], from, window)
  }

  lemma {:induction false} WithinAppend(s: seq<real>, x: real, from: real, window: real)
    ensures Within(s + [x], from, window) == Within(s, from, window) + if from <= x < from + window then [x] else []
  {
    if s == [] {
      assert s + [x] == [x] && [x][1..] == [];
    } else {
      WithinAppend(s[1..], x, from, window);
      assert (s + [x])[1..] == s[1..] + [x];
    }
  }

  /** An interval that reaches a time holds no more of the past than the window before that time. */
  lemma {:induction false} WithinIsRecent(s: seq<real>, from: real, now: real, window: real)
    requires now < from + window
    ensures |Within(s, from, window)| <= |Recent(s, now, window)|
  {
    if s != [] {
      WithinIsRecent(s[1..], from, now, window);
    }
  }

  /** No half-open interval as long as the window holds more than `limit` accepted packets. */
  lemma {:induction false} WindowLimit(arrivals: seq<real>, limit: int, window: real, from: real)
    requires Ordered(arrivals) && limit >= 0
    ensures |Within(History(arrivals, limit, window), from, window)| <= limit
    decreases |arrivals|
  {
    if arrivals != [] {
      var n := |arrivals| - 1;
      var before := arrivals[..n];
      WindowLimit(before, limit, window, from);
      if Accepted(arrivals, n, limit, window) {
        WithinAppend(History(before, limit, window), arrivals[n], from, window);
        if from <= arrivals[n] < from + window {
          RefusedIffWindowFull(arrivals, n, limit, window);
          WithinIsRecent(History(before, limit, window), from, arrivals[n], window);
        }
      } else {
        assert History(arrivals, limit, window) == History(before, limit, window);
      }
    }
  }
}
