/** What the agent loop remembers about builds, simulations, reviews and acceptance checks. */
module AgentRecords {
  import opened Common

  type Revision = nat              // digest of the source tree
  type Digest = nat                // digest of one file
  type Path = nat
  type Environment = Option<nat>
  type Citation = nat              // the lines quoted as evidence for one requirement
  type TaskRevision = Option<nat>

  datatype ErrorCode =
    | NoCode | TrustRequired | BuildRepairExhausted | RuntimeLimit | HeadersIncomplete | VerificationStale
    | InfrastructureUnavailable | ConfigurationError | DependencyUnresolved | OtherCode(code: nat)

  datatype Image = Image(path: Path, digest: Digest)

  /** `last_build`. The transient flag and the diagnostic group are computed by code that is not part of this model. */
  datatype Build =
    | NoBuild
    | Build(success: bool, stale: bool, terminal: bool, code: ErrorCode, transient: bool, group: nat, hasErrors: bool,
            revision: Option<Revision>, firmware: Option<Image>, elf: Option<Image>, boardSupported: bool)

  const FAILURE := Build(false, false, false, NoCode, false, 0, false, None, None, None, false)

  predicate Succeeded(b: Build) { b.Build? && b.success }
  predicate Terminal(b: Build) { b.Build? && b.terminal }
  predicate Transient(b: Build) { b.Build? && b.transient }

  datatype Simulation = NoSimulation | Simulation(success: bool, revision: Option<Revision>, digest: Option<Digest>)

  datatype Review = Review(source: Revision, task: TaskRevision)

  datatype Report =
    | NoReport
    | Report(valid: bool, referencesValid: bool, modelReviewed: bool, revision: Revision, review: Option<Review>)

  /** `reviewed_current`: a valid model review of exactly this source and this task revision. */
  predicate ReviewedCurrent(r: Report, revision: Revision, task: TaskRevision) {
    && r.Report? && r.valid && r.modelReviewed && r.revision == revision
    && r.review.Some? && r.review.value.source == revision
    && (task.Some? ==> r.review.value.task == task)
  }

  datatype CheckKind = SourceReview | BuildCheck | SimulationCheck | Collected(kind: nat)

  const UNIT_TESTS := 0

  datatype Evidence = Evidence(kind: nat, success: bool, revision: Revision)

  /** The task contract: its revision, its acceptance checks, and whether it has eight or more requirements. */
  datatype Contract = Contract(revision: TaskRevision, checks: seq<CheckKind>, complex: bool)

  function TaskOf(c: Option<Contract>): TaskRevision { if c.Some? then c.value.revision else None }

  predicate CheckPassed(k: CheckKind, c: Contract, r: Report, b: Build, evidence: seq<Evidence>, revision: Revision,
                        s: Simulation) {
    match k
    case SourceReview => ReviewedCurrent(r, revision, c.revision)
    case BuildCheck => Succeeded(b) && b.revision == Some(revision)
    case SimulationCheck => s.Simulation? && s.success && s.revision == Some(revision)
    case Collected(kind) =>
      exists i :: 0 <= i < |evidence| && evidence[i].kind == kind && evidence[i].success
        && evidence[i].revision == revision
  }

  /** `acceptance_report`: at least one check, and all of them passed for this source. */
  predicate Accepted(c: Contract, r: Report, b: Build, evidence: seq<Evidence>, revision: Revision, s: Simulation) {
    c.checks != [] && forall i :: 0 <= i < |c.checks| ==> CheckPassed(c.checks[i], c, r, b, evidence, revision, s)
  }

  datatype Tool =
    | BuildTool(environment: Environment) | SimulateTool | WriteTool(configuration: bool) | VerifyRequirementsTool
    | SubagentTool(verify: bool) | UnitTestTool | RefreshTool | PlanTool | ReadTool

  /** One observation: `build` is the reported record of a build tool, `changed` says a write altered the workspace. */
  datatype Observation = Observation(tool: Tool, completed: bool, build: Build, cached: bool, changed: bool)

  function BuildObservation(environment: Environment, build: Build): Observation {
    Observation(BuildTool(environment), true, build, false, false)
  }

  function Note(tool: Tool, completed: bool): Observation { Observation(tool, completed, NoBuild, false, false) }

  /** `_terminal_build_tool_failure`. */
  predicate TerminalBuild(o: Observation) { o.tool.BuildTool? && Terminal(o.build) }

  type Key = (Revision, Environment)

  datatype Classification =
    | Completed | MaxTurns | LimitReached | BuildError | AcceptanceUnverified | RequirementsUnverified | SimulationError
    | ReviewRequired | Stale | RepairsExhausted | NoProgressLeft | TerminalFailure | ToolLoop | ProviderFailure

  datatype RunResult = RunResult(success: bool, classification: Classification, build: Build, simulation: Simulation,
                                 report: Report, buildVerified: bool)

  /** A run either raises, or reports a result. */
  datatype Outcome = Raised | Finished(result: RunResult)
}
