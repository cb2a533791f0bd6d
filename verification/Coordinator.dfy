/** Sequential execution of a plan, and the strict record it must end in. */
module Coordinator {
  import opened Common

  datatype Step =
    | GenerateCode | BuildFirmware | DetectBoard | FlashFirmware | StartMonitor | StartSimulation | DebugFailure

  datatype TaskType = FirmwareGeneration | FirmwareModification | Debugging | SimulationTask | FlashOnly | MonitorOnly

  /** The parts of a plan that execution reads; steps are distinct by construction. */
  datatype Plan = Plan(taskType: TaskType, steps: seq<Step>, hardwareRequested: bool)

  datatype Status = Completed | CompletedWithPendingHardware | Failed | Cancelled

  predicate IsSpace(c: char) {
    var n := c as int;
    9 <= n <= 13 || 28 <= n <= 32 || n == 0x85 || n == 0xA0 || n == 0x1680 || 0x2000 <= n <= 0x200A
    || n == 0x2028 || n == 0x2029 || n == 0x202F || n == 0x205F || n == 0x3000
  }

  predicate NonBlank(t: string) { exists i :: 0 <= i < |t| && !IsSpace(t[i]) }

  /** A text that is never blank: an exception's class name, or a generation message. */
  type Name = t: string | NonBlank(t) witness Word()

  function Word(): (t: string)
    ensures NonBlank(t)
  {
    var t := "x";
    assert !IsSpace(t[0]);
    t
  }

  datatype Failure = Failure(step: Step, message: string, category: string, recoverable: bool, fatal: bool)

  /** The checks of the failure constructor. */
  predicate FailureOk(f: Failure) { NonBlank(f.message) && NonBlank(f.category) && f.fatal != f.recoverable }

  datatype RawFailure = RawFailure(message: string, category: Option<string>, retryable: bool)

  datatype BuildResult = BuildResult(success: bool, status: string, failure: Option<RawFailure>, message: string)

  /** The result of generating code; its own constructor ties the project to the success and keeps the message
      non-blank. */
  datatype Generation = Generation(success: bool, status: Name, message: Name)

  /** What a step returned: attributes it does not have are `None`. */
  datatype Value =
    | NoValue
    | FalseValue
    | Generated(generation: Generation)
    | Built(build: BuildResult)
    | PendingHardware
    | Other(success: Option<bool>, status: Option<string>, failure: Option<RawFailure>, message: string)

  datatype Attributes = Attributes(success: Option<bool>, status: Option<string>, failure: Option<RawFailure>,
                                   message: string)

  function AttributesOf(v: Value): Attributes {
    match v
    case NoValue | FalseValue => Attributes(None, None, None, "")
    case Generated(g) => Attributes(Some(g.success), Some(if g.success then "SUCCESS" else g.status), None, g.message)
    case Built(b) => Attributes(Some(b.success), Some(b.status), b.failure, b.message)
    case PendingHardware => Attributes(Some(true), Some("WAITING_FOR_DEVICE"), None, "pending")
    case Other(success, status, failure, message) => Attributes(success, status, failure, message)
  }

  predicate ReportsFailure(status: Option<string>) {
    status == Some("FAILED") || status == Some("TIMEOUT") || status == Some("CANCELLED")
    || status == Some("PARTIAL") || status == Some("SKIPPED")
  }

  function StepName(s: Step): (t: string)
    ensures NonBlank(t)
  {
    var t := match s {
      case GenerateCode => "GENERATE_CODE" case BuildFirmware => "BUILD_FIRMWARE" case DetectBoard => "DETECT_BOARD"
      case FlashFirmware => "FLASH_FIRMWARE" case StartMonitor => "START_MONITOR"
      case StartSimulation => "START_SIMULATION" case DebugFailure => "DEBUG_FAILURE"
    };
    assert !IsSpace(t[0]);
    t
  }

  /** The message that a reported failure takes: that of the failure, or else of the result; empty texts are passed
      over. */
  function SelectedMessage(a: Attributes): string {
    if a.failure.Some? && a.failure.value.message != "" then a.failure.value.message else a.message
  }

  /** The category that it takes: that of the failure, even if empty, or else the status, if that is not empty. */
  function SelectedCategory(a: Attributes): Option<string> {
    if a.failure.Some? && a.failure.value.category.Some? then a.failure.value.category
    else if a.status == Some("") then None else a.status
  }

  /** `_failure_from_result` before the failure is constructed; `None` means the step succeeded. */
  function FailureFromResult(step: Step, v: Value): Option<Failure> {
    if v.FalseValue? then Some(Failure(step, StepName(step) + " returned False", "FAILED", false, true))
    else
      var a := AttributesOf(v);
      if a.success != Some(false) && !ReportsFailure(a.status) then None
      else Some(FailureFor(step, SelectedMessage(a), SelectedCategory(a), a.failure.Some? && a.failure.value.retryable))
  }

  function FailureFor(step: Step, message: string, category: Option<string>, recoverable: bool): Failure {
    Failure(step, if message != "" then message else StepName(step) + " failed",
            if category.Some? then category.value else "UNKNOWN", recoverable, !recoverable)
  }

  /** How a step, or the debugger, behaves when it is called. */
  datatype Response = Interrupted | Raises(text: string, exception: Name) | Returns(value: Value)

  datatype StepResult = StepResult(step: Step, success: bool, value: Value, failure: Option<Failure>)

  /** The checks of the step result constructor. */
  predicate StepResultOk(r: StepResult) { r.success <==> r.failure.None? }

  const CANCELLED := "CANCELLED"
  const REPAIR_MESSAGE := "build failed after repair"

  function FailureOf(step: Step, r: Response): Option<Failure> {
    match r
    case Interrupted => Some(Failure(step, "Execution was cancelled", CANCELLED, false, true))
    case Raises(text, exception) =>
      Some(Failure(step, if NonBlank(text) then text else exception, "COORDINATOR_ERROR", false, true))
    case Returns(value) => FailureFromResult(step, value)
  }

  /** A blank message or category in a reported failure makes the constructor raise, and with it the whole execution. */
  predicate Unrecordable(step: Step, r: Response) {
    FailureOf(step, r).Some? && !FailureOk(FailureOf(step, r).value)
  }

  function Record(step: Step, r: Response): StepResult {
    var failure := FailureOf(step, r);
    StepResult(step, failure.None?, if r.Returns? then r.value else NoValue, failure)
  }

  /** A result reports a failure whose selected message is blank but not empty, or whose selected category is blank. */
  predicate ReportsBlank(v: Value) {
    var a := AttributesOf(v);
    && !v.FalseValue? && (a.success == Some(false) || ReportsFailure(a.status))
    && BlankTexts(SelectedMessage(a), SelectedCategory(a))
  }

  predicate BlankTexts(message: string, category: Option<string>) {
    (message != "" && !NonBlank(message)) || (category.Some? && !NonBlank(category.value))
  }

  /** Only what a callable returned can be unrecordable: exactly if it reports a failure with such a text. */
  lemma UnrecordableIffBlank(step: Step, r: Response)
    ensures Unrecordable(step, r) <==> r.Returns? && ReportsBlank(r.value)
  {
    WordsAreNonBlank();
    match r {
      case Interrupted | Raises(_, _) =>
      case Returns(value) => ResultIsUnrecordableIffBlank(step, value);
    }
  }

  lemma ResultIsUnrecordableIffBlank(step: Step, v: Value)
    ensures var f := FailureFromResult(step, v); f.Some? && !FailureOk(f.value) <==> ReportsBlank(v)
  {
    if v.FalseValue? {
      WordsAreNonBlank();
      NamedStepIsNonBlank(step, " returned False");
    } else {
      var a := AttributesOf(v);
      SelectedTextsDecide(step, SelectedMessage(a), SelectedCategory(a), a.failure.Some? && a.failure.value.retryable);
    }
  }

  lemma SelectedTextsDecide(step: Step, message: string, category: Option<string>, recoverable: bool)
    ensures FailureOk(FailureFor(step, message, category, recoverable)) <==> !BlankTexts(message, category)
  {
    WordsAreNonBlank();
    NamedStepIsNonBlank(step, " failed");
  }

  lemma NamedStepIsNonBlank(step: Step, suffix: string)
    ensures NonBlank(StepName(step) + suffix)
  {
    var i :| 0 <= i < |StepName(step)| && !IsSpace(StepName(step)[i]);
    assert (StepName(step) + suffix)[i] == StepName(step)[i];
  }

  lemma WordsAreNonBlank()
    ensures NonBlank("Execution was cancelled") && NonBlank(CANCELLED) && NonBlank("COORDINATOR_ERROR")
    ensures NonBlank("FAILED") && NonBlank("UNKNOWN") && NonBlank("BUILD_FAILED")
            && NonBlank("GENERATION_REPAIR_FAILED")
    ensures NonBlank(REPAIR_MESSAGE)
  {
    assert !IsSpace("Execution was cancelled"[0]) && !IsSpace(CANCELLED[0]) && !IsSpace("COORDINATOR_ERROR"[0]);
    assert !IsSpace("FAILED"[0]) && !IsSpace("UNKNOWN"[0]) && !IsSpace("BUILD_FAILED"[0]);
    assert !IsSpace("GENERATION_REPAIR_FAILED"[0]);
    assert !IsSpace(REPAIR_MESSAGE[0]);
  }

  datatype Outcome = Outcome(plan: Plan, status: Status, results: seq<StepResult>, failures: seq<Failure>)

  function Failures(results: seq<StepResult>): seq<Failure> {
    if results == [] then []
    else
      var last := results[|results| - 1];
      Failures(results[..|results| - 1]) + if last.failure.Some? then [last.failure.value] else []
  }

  /** The checks of the outcome constructor. */
  predicate OutcomeOk(o: Outcome) {
    Failures(o.results) == o.failures
      && (o.status.Completed? || o.status.CompletedWithPendingHardware? ==> o.failures == [])
  }

  datatype Execution = Raised | Ended(outcome: Outcome)

  predicate Clean(step: Step, r: Response) { FailureOf(step, r).None? }

  /** The first step that does not simply succeed. */
  function FirstProblem(steps: seq<Step>, responses: seq<Response>): (n: nat)
    requires |responses| == |steps|
    ensures n <= |steps| && (forall i :: 0 <= i < n ==> Clean(steps[i], responses[i]))
    ensures n < |steps| ==> !Clean(steps[n], responses[n])
  {
    if steps == [] || !Clean(steps[0], responses[0]) then 0 else 1 + FirstProblem(steps[1..], responses[1..])
  }

  lemma FailuresSnoc(results: seq<StepResult>, r: StepResult)
    ensures Failures(results + [r]) == Failures(results) + if r.failure.Some? then [r.failure.value] else []
  {
    assert (results + [r])[..|results|] == results;
  }

  /** Whether the debugger is consulted after this step failed. */
  predicate Debugged(step: Step, r: Response, debugger: Option<Response>) {
    debugger.Some? && step != DebugFailure && FailureOf(step, r).Some? && FailureOf(step, r).value.category != CANCELLED
  }

  /** The first `n` results are those of the first `n` steps. */
  ghost predicate Follows(results: seq<StepResult>, steps: seq<Step>, responses: seq<Response>, n: nat)
    requires n <= |steps| == |responses|
  {
    && n <= |results|
    && forall i :: 0 <= i < n ==> results[i] == Record(steps[i], responses[i])
  }

  lemma FollowsAppended(before: seq<StepResult>, result: StepResult, after: seq<StepResult>, steps: seq<Step>,
                        responses: seq<Response>)
    requires |before| < |steps| == |responses| && Follows(before, steps, responses, |before|)
    requires result == Record(steps[|before|], responses[|before|])
    ensures Follows(before + [result] + after, steps, responses, |before| + 1)
  {
  }

  /** What an ended execution looks like: the plan up to its first problem, then at most one debugger result. */
  ghost predicate Describes(o: Outcome, plan: Plan, responses: seq<Response>, debugger: Option<Response>)
    requires |responses| == |plan.steps|
  {
    var n := FirstProblem(plan.steps, responses);
    var ran := if n < |plan.steps| then n + 1 else n;
    && o.plan == plan
    && ran <= |o.results| <= ran + 1
    && Follows(o.results, plan.steps, responses, ran)
    && (|o.results| == ran + 1 <==> n < |plan.steps| && Debugged(plan.steps[n], responses[n], debugger))
    && (|o.results| == ran + 1 ==> o.results[ran] == Record(DebugFailure, debugger.value))
    && (o.status == Completed <==> n == |plan.steps|)
    && (o.status == Cancelled <==> o.failures != [] && o.failures[|o.failures| - 1].category == CANCELLED)
    && o.status != CompletedWithPendingHardware
  }

  /** Every ended execution has a valid outcome; one that raises met a failure with a blank text. */
  method Execute(plan: Plan, responses: seq<Response>, debugger: Option<Response>) returns (execution: Execution)
    requires |responses| == |plan.steps|
    ensures execution.Ended? ==> OutcomeOk(execution.outcome) && Describes(execution.outcome, plan, responses, debugger)
    ensures execution.Raised? <==>
              var n := FirstProblem(plan.steps, responses);
              n < |plan.steps| && (Unrecordable(plan.steps[n], responses[n])
                || (Debugged(plan.steps[n], responses[n], debugger) && Unrecordable(DebugFailure, debugger.value)))
  {
    var results: seq<StepResult> := [];
    for i := 0 to |plan.steps|
      invariant i <= FirstProblem(plan.steps, responses) && |results| == i && Failures(results) == []
      invariant Follows(results, plan.steps, responses, i)
    {
      var step, response := plan.steps[i], responses[i];
      var bad := Unrecordable(step, response);
      var result := Record(step, response);
      RecordFacts(step, response, debugger);
      if bad {
        return Raised;
      }
      FailuresSnoc(results, result);
      if !result.success {
        execution := StopAt(plan, results, result, debugger);
        if execution.Ended? {
          StopIsDescribed(execution.outcome, plan, responses, debugger, results, i);
        }
        return;
      }
      FollowsAppended(results, result, [], plan.steps, responses);
      assert results + [result] + [] == results + [result];
      results := results + [result];
    }
    execution := Ended(Outcome(plan, Completed, results, []));
  }

  lemma RecordFacts(step: Step, r: Response, debugger: Option<Response>)
    ensures var result := Record(step, r);
            && result.step == step && (result.success <==> Clean(step, r))
            && (result.failure.Some? <==> !Clean(step, r))
            && (Unrecordable(step, r) ==> !Clean(step, r))
            && (Debugged(step, r, debugger) <==>
                  debugger.Some? && step != DebugFailure && result.failure.Some?
                    && result.failure.value.category != CANCELLED)
  {
  }

  lemma StopIsDescribed(o: Outcome, plan: Plan, responses: seq<Response>, debugger: Option<Response>,
                        before: seq<StepResult>, n: nat)
    requires |responses| == |plan.steps| && n == FirstProblem(plan.steps, responses) < |plan.steps| && |before| == n
    requires Follows(before, plan.steps, responses, n)
    requires o.plan == plan && !o.status.Completed? && !o.status.CompletedWithPendingHardware?
    requires o.results == before + [Record(plan.steps[n], responses[n])]
                        + (if Debugged(plan.steps[n], responses[n], debugger)
                           then [Record(DebugFailure, debugger.value)] else [])
    requires o.status == Cancelled <==> o.failures != [] && o.failures[|o.failures| - 1].category == CANCELLED
    ensures Describes(o, plan, responses, debugger)
  {
    var result := Record(plan.steps[n], responses[n]);
    var after := if Debugged(plan.steps[n], responses[n], debugger) then [Record(DebugFailure, debugger.value)] else [];
    FollowsAppended(before, result, after, plan.steps, responses);
  }

  /** A failed execution's outcome, which is valid: its failures are those recorded, and a cancellation is the last
      one. */
  ghost predicate FailedOutcome(o: Outcome, plan: Plan, results: seq<StepResult>) {
    && o.plan == plan && o.results == results && OutcomeOk(o) && o.failures != []
    && !o.status.Completed? && !o.status.CompletedWithPendingHardware?
    && (o.status == Cancelled <==> o.failures[|o.failures| - 1].category == CANCELLED)
  }

  /** A failed step ends the execution, after the debugger had one chance to look at it. */
  method StopAt(plan: Plan, before: seq<StepResult>, result: StepResult, debugger: Option<Response>)
    returns (execution: Execution)
    requires Failures(before) == [] && result.failure.Some?
    ensures var consulted := debugger.Some? && result.step != DebugFailure
            && result.failure.value.category != CANCELLED;
            if consulted && Unrecordable(DebugFailure, debugger.value) then execution == Raised
            else
              execution.Ended?
              && FailedOutcome(execution.outcome, plan,
                               before + [result] + if consulted then [Record(DebugFailure, debugger.value)] else [])
  {
    var failure, results := result.failure.value, before + [result];
    FailuresSnoc(before, result);
    if failure.category == CANCELLED {
      return Ended(Outcome(plan, Cancelled, results, [failure]));
    }
    if debugger.Some? && result.step != DebugFailure {
      if Unrecordable(DebugFailure, debugger.value) {
        return Raised;
      }
      var outcome := AddDebugged(plan, results, failure, Record(DebugFailure, debugger.value));
      return Ended(outcome);
    }
    execution := Ended(Outcome(plan, Failed, results, [failure]));
  }

  /** The debugger's result is recorded behind the failure it looked at. */
  method AddDebugged(plan: Plan, results: seq<StepResult>, failure: Failure, debugged: StepResult) returns (o: Outcome)
    requires Failures(results) == [failure] && failure.category != CANCELLED
    ensures FailedOutcome(o, plan, results + [debugged])
  {
    FailuresSnoc(results, debugged);
    if debugged.failure.None? {
      return Outcome(plan, Failed, results + [debugged], [failure]);
    }
    var status := if debugged.failure.value.category == CANCELLED then Cancelled else Failed;
    o := Outcome(plan, status, results + [debugged], [failure, debugged.failure.value]);
  }

  /** Only the last plan step that ran, and the debugger after it, can have failed; COMPLETED means all ran and
      succeeded. */
  lemma OnlyTheLastStepFailed(o: Outcome, plan: Plan, responses: seq<Response>, debugger: Option<Response>)
    requires |responses| == |plan.steps| && Describes(o, plan, responses, debugger)
    ensures forall i :: 0 <= i < |o.results| && !o.results[i].success ==>
              i >= |o.results| - 1 || (i == |o.results| - 2 && o.results[|o.results| - 1].step == DebugFailure)
    ensures o.status == Completed ==>
              |o.results| == |plan.steps| && forall i :: 0 <= i < |o.results| ==>
                o.results[i].success && o.results[i].step == plan.steps[i]
    ensures forall i :: 0 <= i < |o.results| ==> StepResultOk(o.results[i])
  {
  }

  lemma {:induction false} CleanPrefix(results: seq<StepResult>)
    requires forall i :: 0 <= i < |results| ==> results[i].failure.None?
    ensures Failures(results) == []
  {
    if results != [] {
      CleanPrefix(results[..|results| - 1]);
    }
  }

  /** Without a debugger every execution that did not complete carries exactly one failure, that of its last result. */
  lemma OneFailureWithoutDebugger(o: Outcome, plan: Plan, responses: seq<Response>)
    requires |responses| == |plan.steps| && OutcomeOk(o) && Describes(o, plan, responses, None)
    ensures o.status != Completed ==>
              |o.results| > 0 && o.results[|o.results| - 1].failure.Some?
              && o.failures == [o.results[|o.results| - 1].failure.value]
  {
    if o.status != Completed {
      CleanPrefix(o.results[..|o.results| - 1]);
    }
  }
}
