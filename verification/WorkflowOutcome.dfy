/** What happens to an outcome after execution: build repair, then forgiving hardware that is not attached. */
module WorkflowOutcome {
  import opened Common
  import opened Coordinator

  /** One repair round: what regenerating and rebuilding would answer; `None` means that the call raises. */
  datatype Attempt = Attempt(generation: Option<Generation>, build: Option<BuildResult>)

  function FirstGeneration(results: seq<StepResult>): Value {
    if results == [] then NoValue
    else if results[0].step == GenerateCode && results[0].success then results[0].value
    else FirstGeneration(results[1..])
  }

  function LastBuild(results: seq<StepResult>): Value {
    if results == [] then NoValue
    else
      var last := results[|results| - 1];
      if last.step == BuildFirmware then last.value else LastBuild(results[..|results| - 1])
  }

  /** Only a generated firmware whose last build failed is repaired. */
  predicate Repairable(o: Outcome) {
    && o.status.Failed? && o.plan.taskType.FirmwareGeneration?
    && var generation, build := FirstGeneration(o.results), LastBuild(o.results);
       generation.Generated? && generation.generation.success && build.Built? && !build.build.success
  }

  predicate Regenerated(a: Attempt) { a.generation.Some? && a.generation.value.success }

  predicate Rebuilt(a: Attempt) { Regenerated(a) && a.build.Some? && a.build.value.success }

  predicate Breaks(a: Attempt) { a.generation.None? || (a.generation.value.success && a.build.None?) }

  /** The first round that ends the repair early. */
  function LastRound(attempts: seq<Attempt>): (n: nat)
    ensures n <= |attempts| && (forall i :: 0 <= i < n ==> !Rebuilt(attempts[i]) && !Breaks(attempts[i]))
    ensures n < |attempts| ==> Rebuilt(attempts[n]) || Breaks(attempts[n])
  {
    if attempts == [] || Rebuilt(attempts[0]) || Breaks(attempts[0]) then 0 else 1 + LastRound(attempts[1..])
  }

  /** How many of the first `n` rounds regenerated a project to build. */
  function Regenerations(attempts: seq<Attempt>, n: nat): (c: nat)
    requires n <= |attempts|
    ensures c <= n
  {
    if n == 0 then 0 else Regenerations(attempts, n - 1) + if Regenerated(attempts[n - 1]) then 1 else 0
  }

  function RebuildFailure(b: BuildResult): Failure {
    var category := if b.failure.Some? && b.failure.value.category.Some? then b.failure.value.category.value
                    else "BUILD_FAILED";
    Failure(BuildFirmware, if b.message != "" then b.message else REPAIR_MESSAGE,
            if category != "" then category else "BUILD_FAILED", false, true)
  }

  function GenerationFailure(g: Generation): Failure {
    Failure(GenerateCode, g.message, "GENERATION_REPAIR_FAILED", false, true)
  }

  function SingleFailure(plan: Plan, value: Value, failure: Failure): (o: Outcome) {
    Outcome(plan, Failed, [StepResult(failure.step, false, value, Some(failure))], [failure])
  }

  /** A repair raises when a call of the last round does, or when the final build supplied a blank text of its own. */
  predicate RepairRaises(attempts: seq<Attempt>)
    requires |attempts| == 3
  {
    var n := LastRound(attempts);
    || (n < 3 && Breaks(attempts[n]))
    || (n == 3 && Regenerated(attempts[2]) && !FailureOk(RebuildFailure(attempts[2].build.value)))
  }

  lemma OneFailure(r: StepResult)
    ensures Failures([r]) == if r.failure.Some? then [r.failure.value] else []
  {
    assert [r] == [] + [r];
    FailuresSnoc([], r);
  }

  lemma NoFailure(a: StepResult, b: StepResult)
    requires a.failure.None? && b.failure.None?
    ensures Failures([a, b]) == []
  {
    OneFailure(a);
    FailuresSnoc([a], b);
    assert [a] + [b] == [a, b];
  }

  /** At most three regenerations and three builds; a repaired outcome is a generation and a build, an unrepaired one
      a single failure. */
  method Repair(o: Outcome, attempts: seq<Attempt>) returns (execution: Execution, generations: nat, builds: nat)
    requires |attempts| == 3 && OutcomeOk(o)
    ensures generations <= 3 && builds == Regenerations(attempts, generations) <= generations
    ensures !Repairable(o) ==> execution == Ended(o) && generations == 0
    ensures Repairable(o) ==> generations == (if LastRound(attempts) < 3 then LastRound(attempts) + 1 else 3)
    ensures execution.Raised? <==> Repairable(o) && RepairRaises(attempts)
    ensures execution.Ended? && Repairable(o) ==>
              var repaired, n := execution.outcome, LastRound(attempts);
              && OutcomeOk(repaired) && repaired.plan == o.plan
              && (repaired.status.Completed? <==> n < 3)
              && (n < 3 ==>
                    repaired.results == [StepResult(GenerateCode, true, Generated(attempts[n].generation.value), None),
                                         StepResult(BuildFirmware, true, Built(attempts[n].build.value), None)])
              && (n == 3 ==> repaired == if Regenerated(attempts[2])
                                         then SingleFailure(o.plan, Built(attempts[2].build.value),
                                                            RebuildFailure(attempts[2].build.value))
                                         else SingleFailure(o.plan, Generated(attempts[2].generation.value),
                                                            GenerationFailure(attempts[2].generation.value)))
  {
    generations, builds := 0, 0;
    if !Repairable(o) {
      return Ended(o), generations, builds;
    }
    var last := LastBuild(o.results).build;
    for i := 0 to 3
      invariant i <= LastRound(attempts) && generations == i && builds == Regenerations(attempts, i)
      invariant i == 3 ==> Regenerated(attempts[2]) && attempts[2].build == Some(last)
    {
      var a := attempts[i];
      generations := generations + 1;
      if a.generation.None? {
        return Raised, generations, builds;
      }
      var generation := a.generation.value;
      if !generation.success {
        if i < 2 {
          continue;
        }
        var failed := SingleFailure(o.plan, Generated(generation), GenerationFailure(generation));
        OneFailure(failed.results[0]);
        return Ended(failed), generations, builds;
      }
      builds := builds + 1;
      if a.build.None? {
        return Raised, generations, builds;
      }
      last := a.build.value;
      if last.success {
        var made := StepResult(GenerateCode, true, Generated(generation), None);
        var built := StepResult(BuildFirmware, true, Built(last), None);
        NoFailure(made, built);
        return Ended(Outcome(o.plan, Completed, [made, built], [])), generations, builds;
      }
    }
    var failure := RebuildFailure(last);
    if !FailureOk(failure) {
      return Raised, generations, builds;
    }
    var failed := SingleFailure(o.plan, Built(last), failure);
    OneFailure(failed.results[0]);
    execution := Ended(failed);
  }

  predicate Hardware(s: Step) { s.DetectBoard? || s.FlashFirmware? || s.StartMonitor? }

  /** A failure that only says that no board is attached, in a run that did not ask for one. */
  predicate OptionalHardware(plan: Plan, step: Step, message: string, saysNoDevice: string -> bool) {
    && (plan.taskType.FirmwareGeneration? || plan.taskType.FirmwareModification?)
    && !plan.hardwareRequested && Hardware(step) && saysNoDevice(message)
  }

  /** Nothing generated or built failed, and something was built. */
  ghost predicate SoftwareSucceeded(results: seq<StepResult>) {
    && (forall i :: 0 <= i < |results| && (results[i].step.GenerateCode? || results[i].step.BuildFirmware?) ==>
          results[i].success)
    && exists i :: 0 <= i < |results| && results[i].step.BuildFirmware?
  }

  method SoftwareStepsSucceeded(results: seq<StepResult>) returns (ok: bool)
    ensures ok <==> SoftwareSucceeded(results)
  {
    var seen: set<Step> := {};
    for i := 0 to |results|
      invariant forall j :: 0 <= j < i && (results[j].step.GenerateCode? || results[j].step.BuildFirmware?) ==>
                results[j].success
      invariant BuildFirmware in seen <==> exists j :: 0 <= j < i && results[j].step.BuildFirmware?
    {
      var item := results[i];
      if item.step.GenerateCode? || item.step.BuildFirmware? {
        if !item.success {
          return false;
        }
        seen := seen + {item.step};
      }
    }
    ok := BuildFirmware in seen;
  }

  /** A failed outcome whose first failure may be forgiven. */
  ghost predicate Forgivable(o: Outcome, saysNoDevice: string -> bool) {
    && o.status.Failed? && o.failures != []
    && OptionalHardware(o.plan, o.failures[0].step, o.failures[0].message, saysNoDevice)
    && SoftwareSucceeded(o.results)
  }

  predicate Forgiven(item: StepResult, step: Step) { item.failure.Some? && item.step == step }

  /** Forgiving keeps every step in place, replaces only the failed hardware step, and needs no other step to have
      failed. */
  method Normalize(o: Outcome, saysNoDevice: string -> bool) returns (execution: Execution)
    requires OutcomeOk(o)
    ensures !Forgivable(o, saysNoDevice) ==> execution == Ended(o)
    ensures Forgivable(o, saysNoDevice) ==>
              (execution.Ended? <==> forall i :: 0 <= i < |o.results| && o.results[i].failure.Some? ==>
                 o.results[i].step == o.failures[0].step)
    ensures Forgivable(o, saysNoDevice) && execution.Ended? ==>
              var forgiven := execution.outcome;
              && OutcomeOk(forgiven) && forgiven.status.CompletedWithPendingHardware? && forgiven.plan == o.plan
              && |forgiven.results| == |o.results|
              && forall i :: 0 <= i < |o.results| ==>
                   forgiven.results[i] == if Forgiven(o.results[i], o.failures[0].step)
                                          then StepResult(o.results[i].step, true, PendingHardware, None)
                                            else o.results[i]
  {
    if !o.status.Failed? || o.failures == [] {
      return Ended(o);
    }
    var failure := o.failures[0];
    var ready := SoftwareStepsSucceeded(o.results);
    if !OptionalHardware(o.plan, failure.step, failure.message, saysNoDevice) || !ready {
      return Ended(o);
    }
    var converted: seq<StepResult> := [];
    for i := 0 to |o.results|
      invariant |converted| == i
      invariant forall j :: 0 <= j < i ==>
                  converted[j] == if Forgiven(o.results[j], failure.step)
                                  then StepResult(o.results[j].step, true, PendingHardware, None) else o.results[j]
    {
      var item := o.results[i];
      converted := converted
        + [if Forgiven(item, failure.step) then StepResult(item.step, true, PendingHardware, None) else item];
    }
    NoFailuresIff(converted);
    if Failures(converted) != [] {
      return Raised;
    }
    execution := Ended(Outcome(o.plan, CompletedWithPendingHardware, converted, []));
  }

  lemma {:induction false} NoFailuresIff(results: seq<StepResult>)
    ensures Failures(results) == [] <==> forall i :: 0 <= i < |results| ==> results[i].failure.None?
  {
    if results != [] {
      NoFailuresIff(results[..|results| - 1]);
    }
  }

  /** Build evidence in an outcome. */
  ghost predicate HasSuccessfulBuild(results: seq<StepResult>) {
    exists i :: 0 <= i < |results| && results[i].step.BuildFirmware? && results[i].success
  }

  lemma FailureNamesItsStep(step: Step, r: Response)
    ensures var failure := Record(step, r).failure; failure.Some? ==> failure.value.step == step
  {
  }

  /** A failed execution stopped at its first problem, with one failure that names that step. */
  lemma OnlyTheLastResultFailed(o: Outcome, plan: Plan, responses: seq<Response>)
    requires |responses| == |plan.steps| && OutcomeOk(o) && Describes(o, plan, responses, None) && o.status.Failed?
    ensures var n := FirstProblem(plan.steps, responses);
            && n < |plan.steps| && |o.results| == n + 1 && |o.failures| == 1 && o.failures[0].step == plan.steps[n]
            && o.results[n].step == plan.steps[n] && o.results[n].failure.Some?
            && forall i :: 0 <= i < n ==> o.results[i].failure.None?
  {
    var n := FirstProblem(plan.steps, responses);
    OneFailureWithoutDebugger(o, plan, responses);
    FailureNamesItsStep(plan.steps[n], responses[n]);
  }

  /** Only the last result may have failed, and its failure is the only one. */
  ghost predicate StoppedCleanly(o: Outcome) {
    && OutcomeOk(o) && !o.status.CompletedWithPendingHardware?
    && (!o.status.Completed? ==> |o.failures| == 1)
    && (o.status.Failed? ==>
          var n := |o.results| - 1;
          && n >= 0 && o.results[n].failure.Some? && o.results[n].step == o.failures[0].step
          && forall i :: 0 <= i < n ==> o.results[i].failure.None?)
  }

  /** The same results, except that the hardware step at the end now waits for a device. */
  ghost predicate WaitsForDevice(results: seq<StepResult>, ran: seq<StepResult>) {
    && |results| == |ran| > 0
    && var n := |ran| - 1;
       && results[..n] == ran[..n] && Hardware(ran[n].step)
       && results[n] == StepResult(ran[n].step, true, PendingHardware, None)
  }

  /** Repair, then normalization, of what execution left; normalizing never raises here. */
  method RepairAndNormalize(ran: Outcome, attempts: seq<Attempt>, saysNoDevice: string -> bool)
    returns (execution: Execution)
    requires StoppedCleanly(ran) && |attempts| == 3
    ensures execution.Raised? <==> Repairable(ran) && RepairRaises(attempts)
    ensures execution.Ended? ==>
              var o := execution.outcome;
              && OutcomeOk(o) && o.plan == ran.plan
              && (o.status.Failed? || o.status.Cancelled? ==> |o.failures| == 1)
              && (o.status.Completed? ==> ran.status.Completed? || (Repairable(ran) && HasSuccessfulBuild(o.results)))
              && (o.status.CompletedWithPendingHardware? ==>
                    ran.status.Failed? && HasSuccessfulBuild(o.results) && !ran.plan.hardwareRequested
                    && WaitsForDevice(o.results, ran.results))
  {
    var generations, builds;
    execution, generations, builds := Repair(ran, attempts);
    if execution.Raised? {
      return;
    }
    var repaired := execution.outcome;
    if repaired.status.Completed? && !ran.status.Completed? {
      assert repaired.results[1].step.BuildFirmware? && repaired.results[1].success;
    }
    execution := Normalize(repaired, saysNoDevice);
    if Forgivable(repaired, saysNoDevice) {
      assert Hardware(repaired.failures[0].step) && repaired == ran;
      var i :| 0 <= i < |ran.results| && ran.results[i].step.BuildFirmware?;
      assert execution.outcome.results[i].step.BuildFirmware? && execution.outcome.results[i].success;
    }
  }

  /** The whole pipeline without a debugger: execute, repair, normalize. `ran` is what execution left for the other
      two. */
  method Workflow(plan: Plan, responses: seq<Response>, attempts: seq<Attempt>, saysNoDevice: string -> bool)
    returns (execution: Execution, ran: Execution)
    requires |responses| == |plan.steps| && |attempts| == 3
    ensures ran.Raised? <==>
              var n := FirstProblem(plan.steps, responses);
              n < |plan.steps| && Unrecordable(plan.steps[n], responses[n])
    ensures ran.Ended? ==> OutcomeOk(ran.outcome) && Describes(ran.outcome, plan, responses, None)
    ensures execution.Raised? <==> ran.Raised? || (Repairable(ran.outcome) && RepairRaises(attempts))
    ensures execution.Ended? ==>
              var n, o := FirstProblem(plan.steps, responses), execution.outcome;
              && OutcomeOk(o) && o.plan == plan
              && (o.status.Failed? || o.status.Cancelled? ==> |o.failures| == 1)
              && (o.status.Completed? ==>
                    n == |plan.steps| || (Repairable(ran.outcome) && HasSuccessfulBuild(o.results)))
              && (o.status.CompletedWithPendingHardware? ==>
                    HasSuccessfulBuild(o.results) && !plan.hardwareRequested
                    && |o.results| == n + 1 <= |plan.steps| && Follows(o.results, plan.steps, responses, n)
                    && o.results[n] == StepResult(plan.steps[n], true, PendingHardware, None))
  {
    execution := Execute(plan, responses, None);
    ran := execution;
    if execution.Raised? {
      return;
    }
    var executed := execution.outcome;
    ExecutionStopsCleanly(executed, plan, responses);
    execution := RepairAndNormalize(executed, attempts, saysNoDevice);
    if execution.Ended? && execution.outcome.status.CompletedWithPendingHardware? {
      WaitingFollows(execution.outcome.results, executed, plan, responses);
    }
  }

  lemma ExecutionStopsCleanly(o: Outcome, plan: Plan, responses: seq<Response>)
    requires |responses| == |plan.steps| && OutcomeOk(o) && Describes(o, plan, responses, None)
    ensures StoppedCleanly(o)
  {
    OneFailureWithoutDebugger(o, plan, responses);
    if o.status.Failed? {
      OnlyTheLastResultFailed(o, plan, responses);
    }
  }

  lemma WaitingFollows(results: seq<StepResult>, o: Outcome, plan: Plan, responses: seq<Response>)
    requires |responses| == |plan.steps| && OutcomeOk(o) && Describes(o, plan, responses, None) && o.status.Failed?
    requires WaitsForDevice(results, o.results)
    ensures var n := FirstProblem(plan.steps, responses);
            && |results| == n + 1 <= |plan.steps| && Follows(results, plan.steps, responses, n)
            && results[n] == StepResult(plan.steps[n], true, PendingHardware, None)
  {
    var n := FirstProblem(plan.steps, responses);
    OnlyTheLastResultFailed(o, plan, responses);
    FollowsEqual(results, o.results, plan.steps, responses, n);
  }

  lemma FollowsEqual(results: seq<StepResult>, ran: seq<StepResult>, steps: seq<Step>, responses: seq<Response>, n: nat)
    requires n <= |steps| == |responses| && n < |ran| && n < |results|
    requires Follows(ran, steps, responses, n)
    requires results[..n] == ran[..n]
    ensures Follows(results, steps, responses, n)
  {
    forall i | 0 <= i < n ensures results[i] == Record(steps[i], responses[i]) {
      assert results[i] == results[..n][i] == ran[..n][i] == ran[i];
    }
  }
}
