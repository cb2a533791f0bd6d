/** The desktop window's crash recovery: bounded reloads, then a blocked screen until the user reloads. */
module RendererRecovery {
  import opened Common
  import opened SlidingWindow

  const WINDOW_MS := 60_000
  const RELOAD_LIMIT := 3

  class RendererRecoveryCircuitBreaker {
    var attempts: seq<int>
    ghost var offered: seq<int>  // times registered since the last reset

    ghost predicate Valid()
      reads this
    {
      Nondecreasing(offered) && attempts == Kept(offered, RELOAD_LIMIT, WINDOW_MS)
    }

    constructor ()
      ensures Valid() && offered == []
    {
      attempts := [];
      offered := [];
    }

    /** Admits exactly when fewer than three registrations were admitted within the last minute. */
    method Register(now: int) returns (admitted: bool)
      requires Valid() && Nondecreasing(offered + [now])
      modifies this
      ensures Valid() && offered == old(offered) + [now]
      ensures admitted <==> |Recent(Admitted(old(offered), RELOAD_LIMIT, WINDOW_MS), now, WINDOW_MS)| < RELOAD_LIMIT
      ensures Admitted(offered, RELOAD_LIMIT, WINDOW_MS)
           == Admitted(old(offered), RELOAD_LIMIT, WINDOW_MS) + if admitted then [now] else []
    {
      OneMoreCall(offered, RELOAD_LIMIT, WINDOW_MS, now);
      attempts := Recent(attempts, now, WINDOW_MS);
      offered := offered + [now];
      if |attempts| >= RELOAD_LIMIT {
        return false;
      }
      attempts := attempts + [now];
      admitted := true;
    }

    method Reset()
      modifies this
      ensures Valid() && offered == []
    {
      attempts := [];
      offered := [];
    }
  }

  datatype Reason = Crashed | Oom | AbnormalExit | OtherReason
  datatype Reaction = Ignored | Reloaded | Blocked

  /** The handlers `attachRendererRecovery` installs on one window. */
  class RendererSupervisor {
    const breaker: RendererRecoveryCircuitBreaker
    var stopped: bool
    var lastUrl: string
    ghost var reloads: seq<int>  // reload times since the breaker was last reset

    ghost predicate Valid()
      reads this, breaker
    {
      && breaker.Valid()
      && reloads <= Admitted(breaker.offered, RELOAD_LIMIT, WINDOW_MS)
      && (!stopped ==> reloads == Admitted(breaker.offered, RELOAD_LIMIT, WINDOW_MS))
    }

    constructor ()
      ensures Valid() && fresh(breaker) && !stopped && reloads == [] && breaker.offered == []
    {
      breaker := new RendererRecoveryCircuitBreaker();
      stopped := false;
      lastUrl := "";
      reloads := [];
    }

    method OnFinishLoad(url: string)
      requires Valid()
      modifies this
      ensures Valid() && stopped == old(stopped) && reloads == old(reloads)
      ensures lastUrl == if stopped then old(lastUrl) else url
    {
      if !stopped {
        lastUrl := url;
      }
    }

    /** Only navigating back to the page that was last loaded leaves the blocked screen. */
    method OnWillNavigate(target: string)
      requires Valid()
      modifies this, breaker
      ensures Valid() && lastUrl == old(lastUrl)
      ensures stopped <==> old(stopped) && target != lastUrl
      ensures if old(stopped) && !stopped then reloads == [] && breaker.offered == []
              else reloads == old(reloads) && breaker.offered == old(breaker.offered)
    {
      if stopped && target == lastUrl {
        breaker.Reset();
        stopped := false;
        reloads := [];
      }
    }

    /** A crash reloads the page only while it is not blocked and the breaker admits it; otherwise it blocks. */
    method OnProcessGone(reason: Reason, destroyed: bool, now: int, reloadThrows: bool) returns (reaction: Reaction)
      requires Valid() && Nondecreasing(breaker.offered + [now])
      modifies this, breaker
      ensures Valid() && lastUrl == old(lastUrl)
      ensures reaction.Ignored? <==> old(stopped) || destroyed || reason.OtherReason?
      ensures reaction.Ignored? ==> stopped == old(stopped) && breaker.offered == old(breaker.offered)
      ensures !reaction.Ignored? ==> stopped == reaction.Blocked? && breaker.offered == old(breaker.offered) + [now]
      ensures reloads == old(reloads) + if reaction.Reloaded? then [now] else []
      ensures !reaction.Ignored? ==>
                (reaction.Reloaded? <==>
                   !reloadThrows && |Recent(old(reloads), now, WINDOW_MS)| < RELOAD_LIMIT)
    {
      if stopped || destroyed || reason.OtherReason? {
        return Ignored;
      }
      var admitted := breaker.Register(now);
      if admitted {
        if !reloadThrows {
          reloads := reloads + [now];
          return Reloaded;
        }
      }
      stopped := true;
      reaction := Blocked;
    }

    /** Between resets every window of a minute contains at most three reloads. */
    lemma ReloadsAreBounded(start: int)
      requires Valid()
      ensures |InWindow(reloads, start, WINDOW_MS)| <= RELOAD_LIMIT
    {
      var admitted := Admitted(breaker.offered, RELOAD_LIMIT, WINDOW_MS);
      EveryWindowIsBounded(breaker.offered, RELOAD_LIMIT, WINDOW_MS, start);
      SubsetSize(InWindow(reloads, start, WINDOW_MS), InWindow(admitted, start, WINDOW_MS));
    }
  }

  lemma {:induction false} SubsetSize(a: set<int>, b: set<int>)
    requires a <= b
    ensures |a| <= |b|
  {
    assert b == a + (b - a);
  }
}
