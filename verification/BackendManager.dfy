/** The backend supervisor as the object its source declares, one method for each stretch between awaits. */
module BackendSupervisor {
  import opened Common
  import opened SlidingWindow
  import P = SupervisorProtocol

  class BackendManager {
    var process: Option<P.Child>
    var ownsProcess: bool
    var state: P.Lifecycle
    var intentionalStop: bool
    var restartTimer: Option<P.Timer>
    var healthTimer: Option<nat>
    var healthCheck: P.HealthCheck
    var terminatingProcesses: set<P.Child>
    const recovery: BackendRecoveryPolicy

    // Suspended calls and closures.
    var phase: P.StartPhase
    var waiting: nat
    var failing: nat
    var failures: seq<nat>

    // The event loop and the operating system.
    var liveTimers: set<P.Timer>
    var nextTimer: P.Timer
    var spawned: nat
    var exited: set<P.Child>
    var errored: set<P.Child>

    ghost function View(): P.View
      reads this, recovery
    {
      P.View(process, ownsProcess, state, intentionalStop, phase, waiting, failing,
             RestartView(),
             P.Health(healthTimer, healthCheck, failures),
             P.Children(spawned, terminatingProcesses, exited, errored))
    }

    ghost function RestartView(): P.Restart
      reads this`restartTimer, this`liveTimers, this`nextTimer, recovery
    {
      P.Restart(restartTimer, liveTimers, nextTimer, recovery.attempts, recovery.offered)
    }

    ghost function Limits(): P.Limits { P.Limits(recovery.delays, recovery.windowMs) }

    ghost predicate Valid()
      reads this, recovery
    {
      recovery.Valid() && P.Inv(View())
    }

    constructor (restartDelaysMs: seq<int>)
      ensures Valid() && fresh(recovery) && View() == P.INITIAL
      ensures Limits() == P.Limits(restartDelaysMs, 120_000)
    {
      process, ownsProcess, state, intentionalStop := None, false, P.Stopped, false;
      restartTimer, healthTimer, healthCheck := None, None, P.NoCheck;
      terminatingProcesses := {};
      recovery := new BackendRecoveryPolicy(restartDelaysMs, 120_000);
      phase, waiting, failing, failures := P.Idle, 0, 0, [];
      liveTimers, nextTimer, spawned, exited, errored := {}, 0, 0, {}, {};
    }

    /** `terminateOwnedProcess` up to the await for the child's exit. */
    method TerminateOwnedProcess()
      modifies this`process, this`ownsProcess, this`terminatingProcesses
      ensures View() == P.Terminate(old(View()))
    {
      if process.None? || !ownsProcess {
        process, ownsProcess := None, false;
        return;
      }
      terminatingProcesses := terminatingProcesses + {process.value};
      process, ownsProcess := None, false;
    }

    method ScheduleOwnedRestart(now: int)
      requires recovery.Valid()
      modifies this`healthTimer, this`restartTimer, this`liveTimers, this`nextTimer, recovery
      ensures recovery.Valid() && View() == P.ScheduleRestart(old(View()), Limits(), now)
    {
      if intentionalStop || restartTimer.Some? {
        return;
      }
      healthTimer := None;
      ArmRestart(now);
    }

    /** Asks the policy, and arms a timer if it grants a delay. */
    method ArmRestart(now: int)
      requires recovery.Valid()
      modifies this`restartTimer, this`liveTimers, this`nextTimer, recovery
      ensures recovery.Valid() && RestartView() == P.Arm(old(RestartView()), Limits(), now)
    {
      ghost var r := RestartView();
      ghost var kept := Recent(r.attempts, now, recovery.windowMs);
      var delay := recovery.NextDelay(now);
      if delay.Some? {
        restartTimer := Some(nextTimer);
        liveTimers, nextTimer := liveTimers + {nextTimer}, nextTimer + 1;
        P.ArmGrants(r, Limits(), now, kept);
      } else {
        P.ArmRefuses(r, Limits(), now, kept);
      }
    }

    method Start(byTimer: bool)
      modifies this`intentionalStop, this`waiting, this`phase
      ensures View() == P.Start(old(View()), byTimer)
    {
      var caller := if byTimer then 1 else 0;
      intentionalStop := false;
      if state.Ready? && ownsProcess && process.Some? {
        return;
      }
      if phase != P.Idle {
        waiting := waiting + caller;
        return;
      }
      phase, waiting := P.FirstProbe, caller;
    }

    method StartInternalAnswered(probe: P.Probe, python: bool, spawns: bool, expired: bool)
      modifies this
      ensures View() == P.FirstAnswer(old(View()), probe, python, spawns, expired)
    {
      if probe.Rejected? || intentionalStop {
        phase := P.Failed;
        return;
      }
      if probe.reachable {
        if !probe.forgeX || !probe.healthy || !probe.compatible {
          state, phase := P.Crashed, P.Failed;
          return;
        }
        state, ownsProcess, process := P.Ready, false, None;
        phase := P.Resolved;
        return;
      }
      if probe.timedOut {
        state, phase := P.Crashed, P.Failed;
        return;
      }
      state, ownsProcess := P.Starting, false;
      if !python {
        state, phase := P.Crashed, P.Failed;
        return;
      }
      if !spawns {
        state, process, ownsProcess := P.Crashed, None, false;
        phase := P.Failed;
        return;
      }
      process, spawned := Some(spawned), spawned + 1;
      ownsProcess := true;
      PollAgain(expired);
    }

    method PollAgain(expired: bool)
      modifies this`state, this`phase
      ensures View() == P.PollAgain(old(View()), expired)
    {
      if expired {
        state, phase := P.Crashed, P.ReadyFailed;
      } else if intentionalStop || (state.Crashed? && process.None?) {
        phase := P.ReadyFailed;
      } else {
        phase := P.Polling;
      }
    }

    method WaitForReadyAnswered(probe: P.Probe)
      modifies this
      ensures View() == P.PollAnswer(old(View()), probe)
    {
      if probe.Rejected? || intentionalStop {
        phase := P.ReadyFailed;
      } else if probe.reachable && !probe.forgeX {
        state, phase := P.Crashed, P.ReadyFailed;
      } else if probe.reachable && probe.healthy {
        if probe.compatible {
          state, phase := P.Ready, P.ReadySettled;
        } else {
          state, phase := P.Crashed, P.ReadyFailed;
        }
      } else {
        phase := P.Sleeping;
      }
    }

    method StartHealthSupervisor()
      modifies this`healthTimer, this`failures
      ensures View() == old(View()).(health := P.Health(Some(|old(failures)|), old(healthCheck), old(failures) + [0]))
    {
      healthTimer := Some(|failures|);
      failures := failures + [0];
    }

    method ContinueStart()
      modifies this
      ensures View() == P.Continue(old(View()))
    {
      match phase {
        case ReadySettled =>
          StartHealthSupervisor();
          phase := P.Resolved;
        case ReadyFailed =>
          TerminateOwnedProcess();
          phase := P.Terminating;
        case Terminating =>
          state, phase := P.Crashed, P.Failed;
        case Resolved =>
          phase, waiting := P.Idle, 0;
        case Failed =>
          phase, waiting, failing := P.Idle, 0, failing + waiting;
        case _ =>
      }
    }

    /** After a stop the object is quiet: what `DeliverAll` says about quiet objects holds until the next start. */
    method Stop()
      modifies this
      ensures View() == P.Stop(old(View()))
      ensures P.Inv(old(View())) ==> P.Quiet(View())
    {
      intentionalStop := true;
      if restartTimer.Some? {
        liveTimers := liveTimers - {restartTimer.value};
      }
      restartTimer := None;
      healthTimer := None;
      state := P.Stopped;
      assert View() == old(View()).(intentionalStop := true, state := P.Stopped,
                                    restart := P.Disarm(old(View()).restart),
                                    health := old(View()).health.(timer := None));
      TerminateOwnedProcess();
    }

    method OnExit(child: P.Child, now: int)
      requires recovery.Valid()
      modifies this, recovery
      ensures recovery.Valid() && View() == P.Exit(old(View()), child, Limits(), now)
    {
      exited := exited + {child};
      if process != Some(child) {
        return;
      }
      if state != P.Stopped {
        state := P.Crashed;
      }
      process, ownsProcess := None, false;
      if !intentionalStop {
        ScheduleOwnedRestart(now);
      }
    }

    method OnError(child: P.Child, now: int)
      requires recovery.Valid()
      modifies this, recovery
      ensures recovery.Valid() && View() == P.Error(old(View()), child, Limits(), now)
    {
      errored := errored + {child};
      if process != Some(child) {
        return;
      }
      state := P.Crashed;
      process, ownsProcess := None, false;
      if !intentionalStop {
        ScheduleOwnedRestart(now);
      }
    }

    method OnRestartTimer(timer: P.Timer)
      modifies this
      ensures View() == P.RestartFires(old(View()), timer)
    {
      liveTimers := liveTimers - {timer};
      restartTimer := None;
      if intentionalStop {
        return;
      }
      Start(true);
    }

    method OnHealthTick()
      modifies this
      ensures View() == P.HealthTick(old(View()))
    {
      if healthTimer.None? || intentionalStop || !ownsProcess || state != P.Ready || healthCheck != P.NoCheck {
        return;
      }
      healthCheck := P.Probing(process, healthTimer.value);
    }

    method OnHealthAnswer(probe: P.Probe)
      requires healthCheck.Probing? && healthCheck.supervisor < |failures|
      modifies this
      ensures View() == P.HealthAnswer(old(View()), probe)
    {
      var supervisor := healthCheck.supervisor;
      if process != healthCheck.child || intentionalStop {
        healthCheck := P.NoCheck;
        return;
      }
      if probe.Answer? && probe.healthy && probe.compatible {
        failures := failures[supervisor := 0];
        healthCheck := P.NoCheck;
        return;
      }
      failures := failures[supervisor := failures[supervisor] + 1];
      if failures[supervisor] < 2 {
        healthCheck := P.NoCheck;
        return;
      }
      state := P.Crashed;
      TerminateOwnedProcess();
      healthCheck := P.Ending;
    }

    method OnHealthEnded(now: int)
      requires recovery.Valid()
      modifies this, recovery
      ensures recovery.Valid() && View() == P.HealthEnded(old(View()), Limits(), now)
    {
      healthCheck := P.NoCheck;
      if !intentionalStop {
        ScheduleOwnedRestart(now);
      }
    }

    /** Deliveries that carry a start on. */
    method DeliverToStart(e: P.Event)
      requires recovery.Valid()
      modifies this
      ensures P.CarriesStart(e.action) ==> View() == P.Step(old(View()), Limits(), e)
      ensures !P.CarriesStart(e.action) ==> unchanged(this)
    {
      match e.action {
        case OnFirstAnswer(probe, python, spawns, expired) =>
          if phase == P.FirstProbe { StartInternalAnswered(probe, python, spawns, expired); }
        case OnPollAnswer(probe) => if phase == P.Polling { WaitForReadyAnswered(probe); }
        case OnPollDelay(expired) => if phase == P.Sleeping { PollAgain(expired); }
        case OnContinue => ContinueStart();
        case _ =>
      }
    }

    /** Deliveries after which an owned child may be gone. */
    method DeliverLoss(e: P.Event)
      requires recovery.Valid()
      modifies this, recovery
      ensures recovery.Valid() && (P.MayLose(e.action) ==> View() == P.Step(old(View()), Limits(), e))
      ensures !P.MayLose(e.action) ==> View() == old(View())
    {
      match e.action {
        case OnRestartFailed =>
          if failing > 0 {
            failing := failing - 1;
            ScheduleOwnedRestart(e.now);
          }
        case OnExit(child) => if child < spawned && child !in exited { OnExit(child, e.now); }
        case OnError(child) => if child < spawned { OnError(child, e.now); }
        case OnHealthEnded => if healthCheck.Ending? { OnHealthEnded(e.now); }
        case _ =>
      }
    }

    /**
     The event loop delivers one event to the object; the protocol's step says what that changes. A child is created
     only when none is held, no stop is in force, and every earlier child is gone.
     */
    method Deliver(e: P.Event)
      requires Valid()
      modifies this, recovery
      ensures Valid() && View() == P.Step(old(View()), Limits(), e)
      ensures P.Exclusive(old(View()), View())
    {
      P.StepKeepsInv(View(), Limits(), e);
      P.StepIsExclusive(View(), Limits(), e);
      if P.CarriesStart(e.action) {
        DeliverToStart(e);
      } else if P.MayLose(e.action) {
        DeliverLoss(e);
      } else {
        match e.action {
          case DoStart => Start(false);
          case DoStop => Stop();
          case OnRestartTimer(timer) => if timer in liveTimers { OnRestartTimer(timer); }
          case OnHealthTick => OnHealthTick();
          case OnHealthAnswer(probe) => if healthCheck.Probing? { OnHealthAnswer(probe); }
        }
      }
    }

    /**
     Any sequence of deliveries. Once stopped, the object creates no child, arms no timer and asks for no restart until
     somebody starts it again; from launch on, every window of the limiter arms at most as many restarts as there are
     delays, provided the clock does not run backwards.
     */
    method DeliverAll(events: seq<P.Event>)
      requires Valid()
      modifies this, recovery
      ensures Valid() && View() == P.Run(old(View()), Limits(), events)
      ensures P.Quiet(old(View())) && (forall i :: 0 <= i < |events| ==> !events[i].action.DoStart?) ==>
                && spawned == old(spawned) && process.None? && liveTimers == {} && nextTimer == old(nextTimer)
                && recovery.offered == old(recovery.offered)
      ensures old(View()) == P.INITIAL ==>
                forall start, from: int :: P.Timely(start, events) ==> P.Bounded(View().restart, Limits(), from)
    {
      ghost var before, limits := View(), Limits();
      for i := 0 to |events|
        invariant Valid() && View() == P.Run(before, limits, events[..i]) && Limits() == limits
      {
        P.RunOneMore(before, limits, events, i);
        Deliver(events[i]);
      }
      assert events[..|events|] == events;
      if P.Quiet(before) && forall i :: 0 <= i < |events| ==> !events[i].action.DoStart? {
        P.QuietRun(before, limits, events);
      }
      if before == P.INITIAL {
        forall start, from: int | P.Timely(start, events)
          ensures P.Bounded(P.Run(P.INITIAL, limits, events).restart, limits, from)
        {
          P.RestartsAreBounded(limits, events, start, from);
        }
      }
    }
  }
}
