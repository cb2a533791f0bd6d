/**
 The desktop supervisor of the backend process, as a protocol.

 Every `await` of the source splits a method into atomic steps. A step runs when the event loop
 delivers one event: a call of `start` or `stop`, an answered health request, a timer, or a child
 process reporting an exit or an error. Any order of deliveries is allowed.
 */
module SupervisorProtocol {
  import opened Common
  import opened SlidingWindow

  type Child = nat
  type Timer = nat

  datatype Lifecycle = Stopped | Starting | Ready | Crashed

  /** One health request: a rejected promise, or the fields of the answer that the supervisor reads. */
  datatype Probe = Rejected | Answer(reachable: bool, forgeX: bool, healthy: bool, compatible: bool, timedOut: bool)

  /** Where the only running `startInternal` call is suspended. */
  datatype StartPhase =
    | Idle            // `starting` is null
    | FirstProbe      // waiting for the first health answer
    | Polling         // `waitForReady` is waiting for a health answer
    | Sleeping        // `waitForReady` is waiting between two polls
    | ReadySettled    // `waitForReady` returned, its caller has not continued yet
    | ReadyFailed     // `waitForReady` threw, its caller has not continued yet
    | Terminating     // the failed start waits for its child to end
    | Resolved        // `startInternal` returned, `starting` is still set
    | Failed          // `startInternal` threw, `starting` is still set

  /** The health check that is running, if any; `supervisor` identifies the closure with its failure counter. */
  datatype HealthCheck = NoCheck | Probing(child: Option<Child>, supervisor: nat) | Ending

  datatype Limits = Limits(delays: seq<int>, windowMs: int)

  /** Restart timers: the field, the timers the event loop still holds, and the recovery policy. */
  datatype Restart = Restart(
    timer: Option<Timer>,
    live: set<Timer>,
    next: Timer,
    attempts: seq<int>,
    offered: seq<int>)         // when the recovery policy was asked for a delay

  datatype Health = Health(
    timer: Option<nat>,        // the supervisor closure that is being ticked
    check: HealthCheck,
    failures: seq<nat>)        // consecutive failures counted by each supervisor closure so far

  /** Children 0 .. spawned-1 were created; some reported an exit or an error, or were told to end. */
  datatype Children = Children(spawned: nat, terminating: set<Child>, exited: set<Child>, errored: set<Child>)

  datatype View = View(
    process: Option<Child>,
    ownsProcess: bool,
    state: Lifecycle,
    intentionalStop: bool,
    phase: StartPhase,
    waiting: nat,              // timer-driven `start` calls that share the running `startInternal`
    failing: nat,              // timer-driven `start` calls that failed and whose handler has not run yet
    restart: Restart,
    health: Health,
    children: Children)

  const INITIAL := View(None, false, Stopped, false, Idle, 0, 0,
                        Restart(None, {}, 0, [], []), Health(None, NoCheck, []), Children(0, {}, {}, {}))

  /** `terminateOwnedProcess` up to its first await. */
  function Terminate(s: View): View {
    if s.process.None? || !s.ownsProcess then s.(process := None, ownsProcess := false)
    else s.(process := None, ownsProcess := false,
            children := s.children.(terminating := s.children.terminating + {s.process.value}))
  }

  /** Asks the recovery policy for a delay and arms a timer when it grants one. */
  function Arm(r: Restart, limits: Limits, now: int): Restart {
    var kept := Recent(r.attempts, now, limits.windowMs);
    var asked := r.(attempts := kept, offered := r.offered + [now]);
    if |kept| >= |limits.delays| then asked
    else asked.(attempts := kept + [now], timer := Some(r.next), live := r.live + {r.next}, next := r.next + 1)
  }

  lemma ArmGrants(r: Restart, limits: Limits, now: int, kept: seq<int>)
    requires kept == Recent(r.attempts, now, limits.windowMs) && |kept| < |limits.delays|
    ensures Arm(r, limits, now)
         == Restart(Some(r.next), r.live + {r.next}, r.next + 1, kept + [now], r.offered + [now])
  {
  }

  lemma ArmRefuses(r: Restart, limits: Limits, now: int, kept: seq<int>)
    requires kept == Recent(r.attempts, now, limits.windowMs) && |kept| >= |limits.delays|
    ensures Arm(r, limits, now) == Restart(r.timer, r.live, r.next, kept, r.offered + [now])
  {
  }

  function ScheduleRestart(s: View, limits: Limits, now: int): View {
    if s.intentionalStop || s.restart.timer.Some? then s
    else s.(health := s.health.(timer := None), restart := Arm(s.restart, limits, now))
  }

  /** Losing the owned child: shared by the exit, error and health handlers. */
  function Lose(s: View, limits: Limits, now: int): View {
    var lost := s.(process := None, ownsProcess := false);
    if s.intentionalStop then lost else ScheduleRestart(lost, limits, now)
  }

  function Start(s: View, byTimer: bool): View {
    var s := s.(intentionalStop := false);
    var extra := if byTimer then 1 else 0;
    if s.state.Ready? && s.ownsProcess && s.process.Some? then s
    else if !s.phase.Idle? then s.(waiting := s.waiting + extra)
    else s.(phase := FirstProbe, waiting := extra)
  }

  /** The head of the loop in `waitForReady`. */
  function PollAgain(s: View, expired: bool): View {
    if expired then s.(state := Crashed, phase := ReadyFailed)
    else if s.intentionalStop || (s.state.Crashed? && s.process.None?) then s.(phase := ReadyFailed)
    else s.(phase := Polling)
  }

  function Spawn(s: View, expired: bool): View {
    PollAgain(s.(process := Some(s.children.spawned), ownsProcess := true,
                 children := s.children.(spawned := s.children.spawned + 1)), expired)
  }

  function FirstAnswer(s: View, probe: Probe, python: bool, spawns: bool, expired: bool): View {
    if probe.Rejected? || s.intentionalStop then s.(phase := Failed)
    else if probe.reachable then
      if !probe.forgeX || !probe.healthy || !probe.compatible then s.(state := Crashed, phase := Failed)
      else s.(state := Ready, ownsProcess := false, process := None, phase := Resolved)
    else if probe.timedOut then s.(state := Crashed, phase := Failed)
    else
      var s := s.(state := Starting, ownsProcess := false);
      if !python then s.(state := Crashed, phase := Failed)
      else if !spawns then s.(state := Crashed, process := None, ownsProcess := false, phase := Failed)
      else Spawn(s, expired)
  }

  function PollAnswer(s: View, probe: Probe): View {
    if probe.Rejected? || s.intentionalStop then s.(phase := ReadyFailed)
    else if probe.reachable && !probe.forgeX then s.(state := Crashed, phase := ReadyFailed)
    else if probe.reachable && probe.forgeX && probe.healthy then
      if probe.compatible then s.(state := Ready, phase := ReadySettled)
      else s.(state := Crashed, phase := ReadyFailed)
    else s.(phase := Sleeping)
  }

  /** What follows the two settled promises of a start: `waitForReady` and then `startInternal`. */
  function Continue(s: View): View {
    match s.phase
    case ReadySettled =>
      s.(health := s.health.(timer := Some(|s.health.failures|), failures := s.health.failures + [0]),
         phase := Resolved)
    case ReadyFailed => Terminate(s).(phase := Terminating)
    case Terminating => s.(state := Crashed, phase := Failed)
    case Resolved => s.(phase := Idle, waiting := 0)
    case Failed => s.(phase := Idle, waiting := 0, failing := s.failing + s.waiting)
    case _ => s
  }

  function Disarm(r: Restart): Restart {
    r.(timer := None, live := if r.timer.Some? then r.live - {r.timer.value} else r.live)
  }

  function Stop(s: View): View {
    Terminate(s.(intentionalStop := true, restart := Disarm(s.restart),
                 health := s.health.(timer := None), state := Stopped))
  }

  function Exit(s: View, child: Child, limits: Limits, now: int): View {
    var s := s.(children := s.children.(exited := s.children.exited + {child}));
    if s.process != Some(child) then s
    else Lose(if s.state.Stopped? then s else s.(state := Crashed), limits, now)
  }

  function Error(s: View, child: Child, limits: Limits, now: int): View {
    var s := s.(children := s.children.(errored := s.children.errored + {child}));
    if s.process != Some(child) then s else Lose(s.(state := Crashed), limits, now)
  }

  function RestartFires(s: View, timer: Timer): View {
    var s := s.(restart := s.restart.(live := s.restart.live - {timer}, timer := None));
    if s.intentionalStop then s else Start(s, true)
  }

  function HealthTick(s: View): View {
    if s.health.timer.None? || s.intentionalStop || !s.ownsProcess || !s.state.Ready? || !s.health.check.NoCheck? then s
    else s.(health := s.health.(check := Probing(s.process, s.health.timer.value)))
  }

  function HealthAnswer(s: View, probe: Probe): View
    requires s.health.check.Probing? && s.health.check.supervisor < |s.health.failures|
  {
    var Probing(child, supervisor) := s.health.check;
    var failures := s.health.failures;
    var idle := s.health.(check := NoCheck);
    if s.process != child || s.intentionalStop then s.(health := idle)
    else if probe.Answer? && probe.healthy && probe.compatible then
      s.(health := idle.(failures := failures[supervisor := 0]))
    else
      var counted := idle.(failures := failures[supervisor := failures[supervisor] + 1]);
      if failures[supervisor] + 1 < 2 then s.(health := counted)
      else Terminate(s.(state := Crashed, health := counted.(check := Ending)))
  }

  function HealthEnded(s: View, limits: Limits, now: int): View {
    var s := s.(health := s.health.(check := NoCheck));
    if s.intentionalStop then s else ScheduleRestart(s, limits, now)
  }

  datatype Action =
    | DoStart                                                              // somebody calls `start`
    | DoStop                                                               // somebody calls `stop`
    | OnFirstAnswer(probe: Probe, python: bool, spawns: bool, expired: bool)
    | OnPollAnswer(probe: Probe)
    | OnPollDelay(expired: bool)
    | OnContinue
    | OnRestartTimer(timer: Timer)
    | OnRestartFailed
    | OnExit(child: Child)
    | OnError(child: Child)
    | OnHealthTick
    | OnHealthAnswer(probe: Probe)
    | OnHealthEnded

  datatype Event = Event(now: int, action: Action)

  predicate CarriesStart(a: Action) { a.OnFirstAnswer? || a.OnPollAnswer? || a.OnPollDelay? || a.OnContinue? }

  predicate MayLose(a: Action) { a.OnRestartFailed? || a.OnExit? || a.OnError? || a.OnHealthEnded? }

  /** One delivery. An event nobody is waiting for changes nothing. */
  function Step(s: View, limits: Limits, e: Event): View {
    match e.action
    case DoStart => Start(s, false)
    case DoStop => Stop(s)
    case OnFirstAnswer(probe, python, spawns, expired) =>
      if s.phase.FirstProbe? then FirstAnswer(s, probe, python, spawns, expired) else s
    case OnPollAnswer(probe) => if s.phase.Polling? then PollAnswer(s, probe) else s
    case OnPollDelay(expired) => if s.phase.Sleeping? then PollAgain(s, expired) else s
    case OnContinue => Continue(s)
    case OnRestartTimer(timer) => if timer in s.restart.live then RestartFires(s, timer) else s
    case OnRestartFailed => if s.failing > 0 then ScheduleRestart(s.(failing := s.failing - 1), limits, e.now) else s
    case OnExit(child) => if child < s.children.spawned && child !in s.children.exited
      then Exit(s, child, limits, e.now) else s
    case OnError(child) => if child < s.children.spawned then Error(s, child, limits, e.now) else s
    case OnHealthTick => HealthTick(s)
    case OnHealthAnswer(probe) =>
      if s.health.check.Probing? && s.health.check.supervisor < |s.health.failures| then HealthAnswer(s, probe) else s
    case OnHealthEnded => if s.health.check.Ending? then HealthEnded(s, limits, e.now) else s
  }

  function Run(s: View, limits: Limits, events: seq<Event>): View
    decreases |events|
  {
    if events == [] then s else Run(Step(s, limits, events[0]), limits, events[1..])
  }

  lemma {:induction false} RunAppended(s: View, limits: Limits, a: seq<Event>, e: Event)
    ensures Run(s, limits, a + [e]) == Step(Run(s, limits, a), limits, e)
    decreases |a|
  {
    if a != [] {
      assert (a + [e])[1..] == a[1..] + [e];
      RunAppended(Step(s, limits, a[0]), limits, a[1..], e);
    }
  }

  lemma RunOneMore(s: View, limits: Limits, events: seq<Event>, i: nat)
    requires i < |events|
    ensures Run(s, limits, events[..i + 1]) == Step(Run(s, limits, events[..i]), limits, events[i])
  {
    assert events[..i + 1] == events[..i] + [events[i]];
    RunAppended(s, limits, events[..i], events[i]);
  }

  /** The child reported its end or was told to end. */
  predicate Gone(cs: Children, c: Child) { c in cs.exited || c in cs.errored || c in cs.terminating }

  /** One owned child at most; every other child created so far is gone. */
  ghost predicate ChildrenOk(process: Option<Child>, ownsProcess: bool, cs: Children) {
    && (process.Some? <==> ownsProcess)
    && (process.Some? ==> process.value < cs.spawned && !Gone(cs, process.value))
    && (forall c: Child :: c < cs.spawned ==>
          process == Some(c) || c in cs.exited || c in cs.errored || c in cs.terminating)
    && (forall c :: c in cs.exited ==> c < cs.spawned)
    && (forall c :: c in cs.errored ==> c < cs.spawned)
    && (forall c :: c in cs.terminating ==> c < cs.spawned)
  }

  /** Before a start spawns, and once it has failed, there is no child; a settled start owns one only while ready. */
  ghost predicate PhaseOk(process: Option<Child>, state: Lifecycle, phase: StartPhase) {
    match phase
    case Idle | ReadySettled | Resolved => process.Some? ==> state.Ready?
    case FirstProbe | Terminating | Failed => process.None?
    case Polling | Sleeping => process.Some? ==> state.Starting?
    case ReadyFailed => true
  }

  /** The event loop holds exactly the timer in the field, and none after an intentional stop. */
  ghost predicate RestartOk(intentionalStop: bool, r: Restart) {
    && (intentionalStop ==> r.timer.None?)
    && r.live == (if r.timer.Some? then {r.timer.value} else {})
    && (r.timer.Some? ==> r.timer.value < r.next)
  }

  ghost predicate HealthOk(h: Health) {
    && (h.timer.Some? ==> h.timer.value < |h.failures|)
    && (h.check.Probing? ==> h.check.supervisor < |h.failures|)
  }

  ghost predicate Inv(s: View) {
    && ChildrenOk(s.process, s.ownsProcess, s.children)
    && PhaseOk(s.process, s.state, s.phase)
    && RestartOk(s.intentionalStop, s.restart)
    && HealthOk(s.health)
  }

  lemma ScheduleKeepsInv(s: View, limits: Limits, now: int)
    requires Inv(s)
    ensures Inv(ScheduleRestart(s, limits, now))
  {
  }

  lemma StartKeepsInv(s: View, byTimer: bool)
    requires Inv(s)
    ensures Inv(Start(s, byTimer))
  {
  }

  lemma AnswersKeepInv(s: View, probe: Probe, python: bool, spawns: bool, expired: bool)
    requires Inv(s)
    ensures s.phase.FirstProbe? ==> Inv(FirstAnswer(s, probe, python, spawns, expired))
    ensures s.phase.Polling? ==> Inv(PollAnswer(s, probe))
    ensures s.phase.Sleeping? ==> Inv(PollAgain(s, expired))
  {
  }

  lemma ContinueAndStopKeepInv(s: View)
    requires Inv(s)
    ensures Inv(Continue(s)) && Inv(Stop(s))
  {
  }

  lemma LoseKeepsInv(s: View, limits: Limits, now: int)
    requires ChildrenOk(None, false, s.children) && RestartOk(s.intentionalStop, s.restart) && HealthOk(s.health)
    requires PhaseOk(None, s.state, s.phase)
    ensures Inv(Lose(s, limits, now))
  {
  }

  lemma ExitKeepsInv(s: View, child: Child, limits: Limits, now: int)
    requires Inv(s) && child < s.children.spawned
    ensures Inv(Exit(s, child, limits, now))
  {
    var s' := s.(children := s.children.(exited := s.children.exited + {child}));
    if s.process == Some(child) {
      LoseKeepsInv(if s.state.Stopped? then s' else s'.(state := Crashed), limits, now);
    }
  }

  lemma ErrorKeepsInv(s: View, child: Child, limits: Limits, now: int)
    requires Inv(s) && child < s.children.spawned
    ensures Inv(Error(s, child, limits, now))
  {
    if s.process == Some(child) {
      var s' := s.(children := s.children.(errored := s.children.errored + {child}));
      LoseKeepsInv(s'.(state := Crashed), limits, now);
    }
  }

  lemma HealthKeepsInv(s: View, probe: Probe)
    requires Inv(s)
    ensures Inv(HealthTick(s))
    ensures s.health.check.Probing? ==> Inv(HealthAnswer(s, probe))
  {
  }

  /** Every delivery keeps the invariant. */
  lemma StepKeepsInv(s: View, limits: Limits, e: Event)
    requires Inv(s)
    ensures Inv(Step(s, limits, e))
  {
    match e.action {
      case DoStart => StartKeepsInv(s, false);
      case DoStop | OnContinue => ContinueAndStopKeepInv(s);
      case OnFirstAnswer(probe, python, spawns, expired) => AnswersKeepInv(s, probe, python, spawns, expired);
      case OnPollAnswer(probe) => AnswersKeepInv(s, probe, true, true, true);
      case OnPollDelay(expired) => AnswersKeepInv(s, Rejected, true, true, expired);
      case OnRestartTimer(timer) =>
        if timer in s.restart.live {
          StartKeepsInv(s.(restart := s.restart.(live := s.restart.live - {timer}, timer := None)), true);
        }
      case OnRestartFailed => if s.failing > 0 { ScheduleKeepsInv(s.(failing := s.failing - 1), limits, e.now); }
      case OnExit(child) => if child < s.children.spawned { ExitKeepsInv(s, child, limits, e.now); }
      case OnError(child) => if child < s.children.spawned { ErrorKeepsInv(s, child, limits, e.now); }
      case OnHealthTick => HealthKeepsInv(s, Rejected);
      case OnHealthAnswer(probe) => HealthKeepsInv(s, probe);
      case OnHealthEnded => ScheduleKeepsInv(s.(health := s.health.(check := NoCheck)), limits, e.now);
    }
  }

  /** From launch on, in every order of deliveries, the invariant holds. */
  lemma {:induction false} RunKeepsInv(s: View, limits: Limits, events: seq<Event>)
    requires Inv(s)
    ensures Inv(Run(s, limits, events))
    decreases |events|
  {
    if events != [] {
      StepKeepsInv(s, limits, events[0]);
      RunKeepsInv(Step(s, limits, events[0]), limits, events[1..]);
    }
  }

  /** What a delivery that creates a child found, and what it left. */
  ghost predicate Exclusive(s: View, s': View) {
    s'.children.spawned != s.children.spawned ==>
      && s'.children.spawned == s.children.spawned + 1
      && s'.process == Some(s.children.spawned)
      && s.process.None? && !s.intentionalStop
      && forall c: Child :: c < s.children.spawned ==> Gone(s.children, c)
  }

  lemma StepIsExclusive(s: View, limits: Limits, e: Event)
    requires Inv(s)
    ensures Exclusive(s, Step(s, limits, e))
  {
  }

  /** Whenever a child is created nothing is owned, no stop is in force, and every earlier child is gone. */
  lemma SpawnsAreExclusive(limits: Limits, events: seq<Event>, e: Event)
    ensures var s := Run(INITIAL, limits, events); Exclusive(s, Step(s, limits, e))
  {
    RunKeepsInv(INITIAL, limits, events);
    StepIsExclusive(Run(INITIAL, limits, events), limits, e);
  }

  /** `process` and `ownsProcess` agree, and the event loop never holds two restart timers. */
  lemma OwnershipAndTimers(limits: Limits, events: seq<Event>)
    ensures var s := Run(INITIAL, limits, events);
            && (s.process.Some? <==> s.ownsProcess)
            && |s.restart.live| <= 1
            && (s.restart.timer.Some? ==> s.restart.live == {s.restart.timer.value})
  {
    RunKeepsInv(INITIAL, limits, events);
  }

  /** The state an intentional stop leaves behind until somebody starts again. */
  ghost predicate Quiet(s: View) {
    s.intentionalStop && s.process.None? && !s.ownsProcess && s.restart.timer.None? && s.restart.live == {}
  }

  lemma QuietStep(s: View, limits: Limits, e: Event)
    requires Quiet(s) && !e.action.DoStart?
    ensures var s' := Step(s, limits, e);
            Quiet(s') && s'.children.spawned == s.children.spawned && s'.restart == s.restart
  {
  }

  lemma {:induction false} QuietRun(s: View, limits: Limits, events: seq<Event>)
    requires Quiet(s) && forall i :: 0 <= i < |events| ==> !events[i].action.DoStart?
    ensures var s' := Run(s, limits, events);
            Quiet(s') && s'.children.spawned == s.children.spawned && s'.restart == s.restart
    decreases |events|
  {
    if events != [] {
      QuietStep(s, limits, events[0]);
      QuietRun(Step(s, limits, events[0]), limits, events[1..]);
    }
  }

  /** After `stop`, and until `start` is called again, nothing is spawned or scheduled, whatever was pending. */
  lemma StopIsFinal(limits: Limits, before: seq<Event>, stop: Event, after: seq<Event>)
    requires stop.action.DoStop? && forall i :: 0 <= i < |after| ==> !after[i].action.DoStart?
    ensures var s := Run(INITIAL, limits, before);
            var s' := Run(Step(s, limits, stop), limits, after);
            && s'.children.spawned == s.children.spawned
            && s'.process.None?
            && s'.restart.live == {}
            && s'.restart.offered == s.restart.offered
  {
    RunKeepsInv(INITIAL, limits, before);
    QuietRun(Step(Run(INITIAL, limits, before), limits, stop), limits, after);
  }

  predicate SameHistory(a: Restart, b: Restart) {
    a.attempts == b.attempts && a.offered == b.offered && a.next == b.next
  }

  /** A delivery touches the recovery policy only by asking it once, at that moment. */
  lemma StepAsksOnce(s: View, limits: Limits, e: Event)
    ensures var r := Step(s, limits, e).restart;
            SameHistory(r, s.restart) || SameHistory(r, Arm(s.restart, limits, e.now))
  {
  }

  /** The policy's list is the pruned history, and each admitted time armed exactly one timer. */
  ghost predicate HistoryOk(r: Restart, limits: Limits, now: int) {
    && Nondecreasing(r.offered)
    && (forall i :: 0 <= i < |r.offered| ==> r.offered[i] <= now)
    && r.attempts == Kept(r.offered, |limits.delays|, limits.windowMs)
    && r.next == |Admitted(r.offered, |limits.delays|, limits.windowMs)|
  }

  lemma ArmKeepsHistory(r: Restart, limits: Limits, now: int)
    requires HistoryOk(r, limits, now)
    ensures HistoryOk(Arm(r, limits, now), limits, now)
  {
    OneMoreCall(r.offered, |limits.delays|, limits.windowMs, now);
  }

  /** The clock never runs backwards while these events are delivered. */
  ghost predicate Timely(start: int, events: seq<Event>) {
    && (forall i :: 0 <= i < |events| ==> start <= events[i].now)
    && (forall i, j :: 0 <= i <= j < |events| ==> events[i].now <= events[j].now)
  }

  lemma {:induction false} RunKeepsHistory(s: View, limits: Limits, events: seq<Event>, start: int) returns (now: int)
    requires HistoryOk(s.restart, limits, start) && Timely(start, events)
    ensures HistoryOk(Run(s, limits, events).restart, limits, now)
    decreases |events|
  {
    if events == [] {
      now := start;
    } else {
      StepAsksOnce(s, limits, events[0]);
      ArmKeepsHistory(s.restart, limits, events[0].now);
      now := RunKeepsHistory(Step(s, limits, events[0]), limits, events[1..], events[0].now);
    }
  }

  /** Each timer armed so far was granted by the limiter, and the window from `from` on holds no more than there are
      delays. */
  ghost predicate Bounded(r: Restart, limits: Limits, from: int) {
    var armed := Admitted(r.offered, |limits.delays|, limits.windowMs);
    r.next == |armed| && |InWindow(armed, from, limits.windowMs)| <= |limits.delays|
  }

  /** While the clock never runs backwards, any window arms at most as many restarts as there are delays. */
  lemma RestartsAreBounded(limits: Limits, events: seq<Event>, start: int, from: int)
    requires Timely(start, events)
    ensures Bounded(Run(INITIAL, limits, events).restart, limits, from)
  {
    var now := RunKeepsHistory(INITIAL, limits, events, start);
    EveryWindowIsBounded(Run(INITIAL, limits, events).restart.offered, |limits.delays|, limits.windowMs, from);
  }
}
