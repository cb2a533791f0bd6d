/** Sliding-window admission, as used by backend restarts and renderer reloads. */
module SlidingWindow {
  import opened Common

  /** The attempts that are still inside the window at `now`. */
  function Recent(attempts: seq<int>, now: int, window: int): seq<int> {
    if attempts == [] then []
    else (if now - attempts[0] < window then [attempts[0]] else []) + Recent(attempts[1..], now, window)
  }

  /** The list a limiter is left with after it was offered each of `times` in turn. */
  function Kept(times: seq<int>, limit: nat, window: int): seq<int> {
    if times == [] then []
    else
      var now := times[|times| - 1];
      var kept := Recent(Kept(times[..|times| - 1], limit, window), now, window);
      if |kept| >= limit then kept else kept + [now]
  }

  /** Reference: the unpruned history of admitted attempts. */
  ghost function Admitted(times: seq<int>, limit: nat, window: int): seq<int> {
    if times == [] then []
    else
      var now := times[|times| - 1];
      var before := Admitted(times[..|times| - 1], limit, window);
      if |Recent(before, now, window)| >= limit then before else before + [now]
  }

  lemma {:induction false} RecentConcat(a: seq<int>, b: seq<int>, now: int, window: int)
    ensures Recent(a + b, now, window) == Recent(a, now, window) + Recent(b, now, window)
  {
    if a == [] {
      assert a + b == b;
    } else {
      RecentConcat(a[1..], b, now, window);
      assert (a + b)[1..] == a[1..] + b;
    }
  }

  lemma {:induction false} RecentTwice(s: seq<int>, earlier: int, now: int, window: int)
    requires earlier <= now
    ensures Recent(Recent(s, earlier, window), now, window) == Recent(s, now, window)
  {
    if s != [] {
      RecentTwice(s[1..], earlier, now, window);
      RecentConcat(if earlier - s[0] < window then [s[0]] else [], Recent(s[1..], earlier, window), now, window);
    }
  }

  /** Pruning forgets nothing a later decision could see. */
  lemma {:induction false} PruningIsExact(times: seq<int>, limit: nat, window: int, now: int)
    requires Nondecreasing(times + [now])
    ensures Recent(Kept(times, limit, window), now, window) == Recent(Admitted(times, limit, window), now, window)
  {
    if times != [] {
      var init, last := times[..|times| - 1], times[|times| - 1];
      assert last == (times + [now])[|times| - 1] && now == (times + [now])[|times|];
      assert Nondecreasing(init + [last]) by { assert init + [last] == (times + [now])[..|times|]; }
      PruningIsExact(init, limit, window, last);
      var kept, full := Kept(init, limit, window), Admitted(init, limit, window);
      RecentTwice(kept, last, now, window);
      RecentTwice(full, last, now, window);
      RecentConcat(Recent(kept, last, window), [last], now, window);
      RecentConcat(full, [last], now, window);
    }
  }

  /** One more call: with an orderly clock, the pruned list and the whole history take the same decision. */
  lemma OneMoreCall(times: seq<int>, limit: nat, window: int, now: int)
    ensures var kept := Recent(Kept(times, limit, window), now, window);
            Kept(times + [now], limit, window) == kept + if |kept| < limit then [now] else []
    ensures Nondecreasing(times + [now]) ==>
              var kept := Recent(Kept(times, limit, window), now, window);
              var history := Admitted(times, limit, window);
              && kept == Recent(history, now, window)
              && Admitted(times + [now], limit, window) == history + if |kept| < limit then [now] else []
  {
    assert (times + [now])[..|times|] == times;
    if Nondecreasing(times + [now]) {
      PruningIsExact(times, limit, window, now);
    }
  }

  /** In a nondecreasing history the recent attempts are exactly a suffix. */
  lemma {:induction false} RecentIsSuffix(h: seq<int>, now: int, window: int)
    requires Nondecreasing(h)
    ensures |Recent(h, now, window)| <= |h|
    ensures Recent(h, now, window) == h[|h| - |Recent(h, now, window)|..]
    ensures forall i :: 0 <= i < |h| - |Recent(h, now, window)| ==> now - h[i] >= window
  {
    if h != [] {
      RecentIsSuffix(h[1..], now, window);
      if now - h[0] < window {
        AllRecent(h, now, window);
      }
    }
  }

  lemma {:induction false} AllRecent(h: seq<int>, now: int, window: int)
    requires forall i :: 0 <= i < |h| ==> now - h[i] < window
    ensures Recent(h, now, window) == h
  {
    if h != [] {
      AllRecent(h[1..], now, window);
    }
  }

  /** Admitted attempts keep the clock's order, and `limit` of them span at least one window. */
  lemma {:induction false} AdmittedSpacing(times: seq<int>, limit: nat, window: int)
    requires Nondecreasing(times)
    ensures var h := Admitted(times, limit, window);
            && Nondecreasing(h)
            && (h != [] ==> times != [] && h[|h| - 1] <= times[|times| - 1])
            && forall i :: 0 <= i && i + limit < |h| ==> h[i + limit] - h[i] >= window
  {
    if times != [] {
      var init, now := times[..|times| - 1], times[|times| - 1];
      AdmittedSpacing(init, limit, window);
      var before := Admitted(init, limit, window);
      RecentIsSuffix(before, now, window);
      if |Recent(before, now, window)| < limit {
        SpacingOfOneMore(before, now, limit, window);
      }
    }
  }

  lemma SpacingOfOneMore(h: seq<int>, now: int, limit: nat, window: int)
    requires Nondecreasing(h) && (h != [] ==> h[|h| - 1] <= now) && |Recent(h, now, window)| < limit
    requires forall i :: 0 <= i && i + limit < |h| ==> h[i + limit] - h[i] >= window
    ensures Nondecreasing(h + [now])
    ensures forall i :: 0 <= i && i + limit < |h + [now]| ==> (h + [now])[i + limit] - (h + [now])[i] >= window
  {
    RecentIsSuffix(h, now, window);
    forall i | 0 <= i && i + limit < |h + [now]| ensures (h + [now])[i + limit] - (h + [now])[i] >= window {
      if i + limit == |h| {
        assert i < |h| - |Recent(h, now, window)|;
      }
    }
  }

  ghost function InWindow(h: seq<int>, start: int, window: int): set<int> {
    set i | 0 <= i < |h| && start <= h[i] < start + window
  }

  lemma {:induction false} RangeSize(s: set<int>, low: int, count: nat)
    requires forall i :: i in s ==> low <= i < low + count
    ensures |s| <= count
  {
    if count == 0 {
      assert forall i :: i !in s;
    } else {
      RangeSize(s - {low + count - 1}, low, count - 1);
      assert s <= (s - {low + count - 1}) + {low + count - 1};
    }
  }

  /** Main bound: however the calls are timed, every window of the configured length admits at most `limit`. */
  lemma EveryWindowIsBounded(times: seq<int>, limit: nat, window: int, start: int)
    requires Nondecreasing(times)
    ensures |InWindow(Admitted(times, limit, window), start, window)| <= limit
  {
    var h := Admitted(times, limit, window);
    AdmittedSpacing(times, limit, window);
    var inside, low := InWindow(h, start, window), FirstSince(h, start);
    assert forall i :: i in inside ==> low <= i && h[i] - h[low] < window;
    assert forall i :: low + limit <= i < |h| ==> h[i] - h[low] >= window by {
      assert forall i :: low + limit <= i < |h| ==> h[low + limit] <= h[i];
    }
    RangeSize(inside, low, limit);
  }

  /** The first admission at or after `start`. */
  ghost function FirstSince(h: seq<int>, start: int): (i: nat)
    ensures i <= |h| && (i < |h| ==> h[i] >= start) && forall j :: 0 <= j < i ==> h[j] < start
  {
    if h == [] || h[0] >= start then 0
    else
      assert forall j :: 1 <= j < |h| ==> h[j] == h[1..][j - 1];
      1 + FirstSince(h[1..], start)
  }

  /** Bounded automatic restarts of the backend process. */
  class BackendRecoveryPolicy {
    var attempts: seq<int>
    const delays: seq<int>
    const windowMs: int
    ghost var offered: seq<int>  // every time `NextDelay` was called, oldest first

    ghost predicate Valid()
      reads this
    {
      attempts == Kept(offered, |delays|, windowMs)
    }

    constructor (delays: seq<int>, windowMs: int)
      ensures Valid() && offered == [] && attempts == [] && this.delays == delays && this.windowMs == windowMs
    {
      attempts := [];
      this.delays := delays;
      this.windowMs := windowMs;
      offered := [];
    }

    /**
     The delay is indexed by the number of attempts still inside the window. By `OneMoreCall` that is
     the number of earlier admissions in the window, as long as the clock never runs backwards.
     */
    method NextDelay(now: int) returns (delay: Option<int>)
      requires Valid()
      modifies this
      ensures Valid() && offered == old(offered) + [now]
      ensures var kept := Recent(old(attempts), now, windowMs);
              && delay == (if |kept| < |delays| then Some(delays[|kept|]) else None)
              && attempts == kept + if delay.Some? then [now] else []
    {
      OneMoreCall(offered, |delays|, windowMs, now);
      attempts := Recent(attempts, now, windowMs);
      offered := offered + [now];
      if |attempts| >= |delays| {
        return None;
      }
      delay := Some(delays[|attempts|]);
      attempts := attempts + [now];
    }
  }
}
