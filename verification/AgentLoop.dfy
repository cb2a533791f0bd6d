/**
 The autonomous edit, build and repair loop.

 The loop is one object. Every `await` of the source is a call into the adversarial world, which may change the
 workspace and the build images and may cancel the caller. The planner, the tools' answers and every judgement that
 is made outside these methods are arbitrary values.
 */
module AgentLoop {
  import opened Common
  import opened AgentRecords
  import opened AgentWorld
  import opened StallControl
  import opened TurnBudget

  const REPAIR_GROUP_LIMIT := 4
  const DETERMINISTIC_REPAIRS := 3

  /**
   How a turn is judged: new information, changed files or new build errors, whether a build really ran, and whether the
   generation controller noted something new.
   */
  datatype Judgement = Judgement(made: bool, meaningful: bool, built: bool, material: bool)

  class AutonomousForgeAgentLoop {
    const world: World
    const enforceTrust: bool
    const durable: bool          // durable continuation: host milestone builds are allowed
    const structured: bool       // the generation controller judges progress while no build has passed
    const budget: Budget

    var contract: Option<Contract>
    var buildAttempted: bool
    var buildPassed: bool
    var lastBuild: Build
    var simulationPassed: bool
    var lastSimulation: Simulation
    var acceptanceEvidence: seq<Evidence>
    var requirementReport: Report
    var requirementChecks: map<nat, Citation>   // the citation last accepted for each requirement
    var requirementReminders: nat
    var completionReminders: nat
    var reviewRequired: bool
    var reviewRevision: Option<Revision>
    var reviewAttempts: nat
    var lastBuiltSource: Option<Revision>
    var failedBuildCache: map<Key, Build>
    var transientRetries: set<Key>
    var repairGroups: map<nat, nat>
    var seenBuildPairs: set<(Key, nat)>
    var observations: seq<Observation>
    var compactedCount: nat

    ghost var buildRuns: nat                // calls of `_build_once`
    ghost var retries: multiset<Key>        // builds run as the transient retry of each key
    ghost var failedKeys: set<Key>          // source and environment of every build that failed
    ghost var disturbedKeys: set<Key>       // remembered by a build during which the workspace was changed from outside
    ghost var emitted: seq<Observation>     // every artifact delta handed out by compaction, in order
    ghost var settledTurns: seq<Turn>       // every tool turn that reached its end, in order

    // ------------------------------------------------------------ invariant

    /** A certified image names the source it was built from, and the compiler accepted that source. */
    ghost predicate BuildOk()
      reads this`buildPassed, this`lastBuild, world, world`compiled
    {
      buildPassed && lastBuild.Build? && lastBuild.firmware.Some? ==>
        lastBuild.revision.Some? && (world.reportsSource ==> lastBuild.revision.value in world.compiled)
    }

    /** A passed simulation ran the image that is still the certified one. */
    ghost predicate SimulationOk()
      reads this`simulationPassed, this`buildPassed, this`lastBuild, this`lastSimulation
    {
      simulationPassed ==>
        && buildPassed && lastSimulation.Simulation? && lastSimulation.success
        && (lastBuild.Build? && lastBuild.firmware.Some? ==>
              lastSimulation.digest == Some(lastBuild.firmware.value.digest)
                && lastSimulation.revision == lastBuild.revision)
    }

    ghost predicate ReviewsOk()
      reads this`requirementReport, this`reviewRevision, this`contract, world, world`reviewed, world`approved
    {
      && (requirementReport.Report? && requirementReport.modelReviewed && requirementReport.review.Some? ==>
            requirementReport.review.value in world.reviewed)
      && (reviewRevision.Some? ==> Review(reviewRevision.value, TaskOf(contract)) in world.approved)
    }

    ghost predicate CacheOk()
      reads this`failedBuildCache, this`transientRetries, this`retries, this`failedKeys, this`disturbedKeys
    {
      && (forall k :: k in failedBuildCache ==> k in failedKeys || k in disturbedKeys)
      && forall k :: retries[k] <= if k in transientRetries then 1 else 0
    }

    ghost predicate LogOk()
      reads this`observations, this`compactedCount, this`emitted
    {
      compactedCount <= |observations| && emitted == observations[..compactedCount]
    }

    ghost predicate Inv()
      reads this, world
    {
      BuildOk() && SimulationOk() && ReviewsOk()
    }

    constructor (world: World, contract: Option<Contract>, reviewRequired: bool, enforceTrust: bool, durable: bool,
                 structured: bool, configuredTurns: int, savedTurn: nat, extension: int, saved: seq<Observation>,
                 savedChecks: map<nat, Citation>, savedEvidence: seq<Evidence>)
      ensures Inv() && CacheOk() && LogOk() && this.world == world && buildRuns == 0 && retries == multiset{}
      ensures emitted == [] && settledTurns == [] && observations == saved
      ensures !buildPassed && !simulationPassed && !buildAttempted && failedBuildCache == map[]
              && transientRetries == {}
      ensures budget == RunBudget(configuredTurns, savedTurn, extension, durable)
      ensures this.structured == (structured && durable && contract.Some?)
    {
      this.world, this.contract, this.reviewRequired := world, contract, reviewRequired;
      this.enforceTrust, this.durable := enforceTrust, durable;
      this.structured := structured && durable && contract.Some?;
      budget := RunBudget(configuredTurns, savedTurn, extension, durable);
      buildAttempted, buildPassed, simulationPassed := false, false, false;
      lastBuild, lastSimulation := LastBuildOf(saved), NoSimulation;
      acceptanceEvidence := savedEvidence;
      requirementChecks := Surviving(contract, savedChecks, world.resolves, world.revision);
      requirementReport := References(contract, savedChecks, world, world.revision);
      requirementReminders, completionReminders, reviewAttempts := 0, 0, 0;
      reviewRevision, lastBuiltSource := None, None;
      failedBuildCache, transientRetries, repairGroups, seenBuildPairs := map[], {}, map[], {};
      observations, compactedCount := saved, 0;
      buildRuns, retries, failedKeys, disturbedKeys, emitted, settledTurns := 0, multiset{}, {}, {}, [], [];
    }

    /** The citations that still check against a source; without a contract nothing is looked at. */
    static function Surviving(contract: Option<Contract>, checks: map<nat, Citation>,
                              resolves: (Citation, Revision) -> bool, revision: Revision): map<nat, Citation>
    {
      if contract.None? then checks else map k | k in checks && resolves(checks[k], revision) :: checks[k]
    }

    /** The report about surviving citations: reference evidence for this source, never valid by itself. */
    static function References(contract: Option<Contract>, checks: map<nat, Citation>, world: World,
                               revision: Revision): Report {
      if contract.None? || checks == map[] then NoReport
      else Report(false, world.covers(Surviving(contract, checks, world.resolves, revision), revision), false,
                  revision, None)
    }

    /** Resuming starts from the last build record among the saved observations. */
    static function LastBuildOf(saved: seq<Observation>): Build {
      if saved == [] then NoBuild
      else if saved[|saved| - 1].tool.BuildTool? then saved[|saved| - 1].build
      else LastBuildOf(saved[..|saved| - 1])
    }

    // ------------------------------------------------------------ evidence

    predicate ImageIntact(image: Image)
      reads world
    {
      image.path in world.files && world.files[image.path] == image.digest
    }

    /** The recorded image and the recorded source are the ones in the workspace now. */
    predicate Current()
      reads this`lastBuild, world
    {
      && lastBuild.Build? && lastBuild.firmware.Some? && ImageIntact(lastBuild.firmware.value)
      && (lastBuild.elf.Some? ==> ImageIntact(lastBuild.elf.value))
      && lastBuild.revision == Some(world.revision)
    }

    /** Drops the evidence and keeps the files; citations survive only if they still check against the source. */
    method InvalidateVerification()
      requires Inv()
      modifies this`buildAttempted, this`buildPassed, this`lastBuild, this`simulationPassed, this`lastSimulation,
               this`acceptanceEvidence, this`requirementReport, this`requirementChecks
      ensures Inv()
      ensures !buildAttempted && !buildPassed && !simulationPassed && acceptanceEvidence == []
      ensures lastBuild == if old(lastBuild).Build? then old(lastBuild).(success := false, stale := true) else NoBuild
      ensures lastSimulation.Simulation? ==> !lastSimulation.success
      ensures requirementReport == old(requirementReport) || ReferenceOnly(requirementReport, world.revision)
      ensures old(requirementReport).Report? && old(requirementReport).revision == world.revision ==>
                requirementReport == old(requirementReport)
    {
      buildAttempted, acceptanceEvidence := false, [];
      if requirementReport.Report? && requirementReport.revision != world.revision {
        RevalidateRequirementChecks();
      }
      buildPassed := false;
      if lastBuild.Build? {
        lastBuild := lastBuild.(success := false, stale := true);
      }
      simulationPassed := false;
      if lastSimulation.Simulation? {
        lastSimulation := lastSimulation.(success := false);
      }
    }

    /** Evidence from citations of this source, which is never valid by itself and never a model review. */
    static predicate ReferenceOnly(r: Report, revision: Revision) {
      r.Report? ==> !r.valid && !r.modelReviewed && r.revision == revision
    }

    /** Checks every citation again; what is left is reference evidence for the present source, never a model review. */
    method RevalidateRequirementChecks()
      requires Inv()
      modifies this`requirementReport, this`requirementChecks
      ensures Inv()
      ensures requirementChecks == Surviving(contract, old(requirementChecks), world.resolves, world.revision)
      ensures requirementReport == References(contract, old(requirementChecks), world, world.revision)
    {
      requirementReport := NoReport;
      if contract.None? || requirementChecks == map[] {
        return;
      }
      var surviving: map<nat, Citation> := map[];
      var rest := requirementChecks.Keys;
      while rest != {}
        invariant rest <= requirementChecks.Keys && surviving.Keys <= requirementChecks.Keys && surviving.Keys !! rest
        invariant forall k :: k in requirementChecks && k !in rest ==>
                    (k in surviving <==> world.resolves(requirementChecks[k], world.revision))
        invariant forall k :: k in surviving ==> surviving[k] == requirementChecks[k]
        decreases |rest|
      {
        var identity :| identity in rest;
        if world.resolves(requirementChecks[identity], world.revision) {
          surviving := surviving[identity := requirementChecks[identity]];
        }
        rest := rest - {identity};
      }
      assert surviving == Surviving(contract, requirementChecks, world.resolves, world.revision);
      requirementChecks := surviving;
      requirementReport := Report(false, world.covers(surviving, world.revision), false, world.revision, None);
    }

    /** The evidence counts exactly when it is current; otherwise it is dropped on the spot. */
    method RefreshVerification() returns (current: bool)
      requires Inv()
      modifies this`buildAttempted, this`buildPassed, this`lastBuild, this`simulationPassed, this`lastSimulation,
               this`acceptanceEvidence, this`requirementReport, this`requirementChecks
      ensures Inv()
      ensures current <==> old(buildPassed && Current())
      ensures current || !old(buildPassed) ==> unchanged(this)
      ensures !current ==> !buildPassed
      ensures old(buildPassed) && !current ==> !buildAttempted
    {
      if !buildPassed {
        return false;
      }
      current := Current();
      if !current {
        InvalidateVerification();
      }
    }

    method BuildPermissionBlocked(environment: Environment) returns (cancelled: bool, observation: Observation)
      requires Inv()
      modifies this`buildAttempted, this`buildPassed, this`lastBuild, this`simulationPassed, this`lastSimulation,
               this`acceptanceEvidence, this`requirementReport, this`requirementChecks
      modifies world`revision, world`files, world`edits
      ensures Inv() && !buildPassed && !buildAttempted
      ensures world.edits >= old(world.edits)
      ensures world.edits == old(world.edits) ==> world.revision == old(world.revision)
      ensures lastBuild == FAILURE.(terminal := true, code := TrustRequired)
      ensures observation == BuildObservation(environment, lastBuild)
    {
      InvalidateVerification();
      lastBuild := FAILURE.(terminal := true, code := TrustRequired);
      cancelled := world.Await();
      observation := BuildObservation(environment, lastBuild);
    }

    // ------------------------------------------------------------ building

    /** Checks the declared dependencies; only ever called while no build is certified. */
    method PreflightDependencies(environment: Environment) returns (cancelled: bool, blocked: Option<Observation>)
      requires Inv() && !buildPassed
      modifies this`buildAttempted, this`buildPassed, this`lastBuild, this`simulationPassed, this`lastSimulation,
               this`acceptanceEvidence, this`requirementReport, this`requirementChecks, this`repairGroups
      modifies world`revision, world`files, world`edits
      ensures Inv() && !buildPassed
      ensures world.edits >= old(world.edits)
      ensures world.edits == old(world.edits) ==> world.revision == old(world.revision)
      ensures blocked.Some? ==>
                lastBuild.Build? && !lastBuild.success && blocked.value == BuildObservation(environment, lastBuild)
      ensures buildAttempted ==> old(buildAttempted)
    {
      var checks: bool, trusted: bool := *, *;
      if contract.None? || !checks {
        return false, None;
      }
      if enforceTrust && !trusted {
        var stopped, observation := BuildPermissionBlocked(environment);
        return stopped, Some(observation);
      }
      cancelled := world.Await();
      var valid: bool, fault: Fault := *, *;
      if cancelled {
        return true, None;
      }
      if !valid {
        lastBuild := FailedBuild(fault);
        if fault.code.ConfigurationError? || fault.code.DependencyUnresolved? {
          CountGroup(fault.group);
          if fault.code.ConfigurationError? && repairGroups[fault.group] >= REPAIR_GROUP_LIMIT {
            lastBuild := lastBuild.(terminal := true);
          }
        }
        cancelled := world.Await();
        return cancelled, Some(BuildObservation(environment, lastBuild));
      }
      if lastBuild.Build? && lastBuild.code.ConfigurationError? {
        lastBuild := NoBuild;
      }
      blocked := None;
    }

    method CountGroup(group: nat)
      modifies this`repairGroups
      ensures repairGroups == old(repairGroups)[group := old(GroupCount(group)) + 1]
    {
      repairGroups := repairGroups[group := GroupCount(group) + 1];
    }

    function GroupCount(group: nat): nat
      reads this`repairGroups
    {
      if group in repairGroups then repairGroups[group] else 0
    }

    /** One build of the present source. */
    method BuildOnce(environment: Environment) returns (cancelled: bool, observation: Observation)
      requires Inv()
      modifies this`buildAttempted, this`buildPassed, this`lastBuild, this`simulationPassed, this`lastSimulation,
               this`acceptanceEvidence, this`requirementReport, this`requirementChecks, this`repairGroups,
               this`seenBuildPairs, this`lastBuiltSource, this`buildRuns, this`failedKeys
      modifies world`revision, world`files, world`edits, world`compiled
      ensures Inv() && buildRuns == old(buildRuns) + 1 && failedKeys >= old(failedKeys)
      ensures world.edits >= old(world.edits)
      ensures world.edits == old(world.edits) ==> world.revision == old(world.revision)
      ensures !cancelled ==> lastBuild.Build? && observation == BuildObservation(environment, lastBuild)
      ensures !cancelled && !buildPassed ==> (old(world.revision), environment) in failedKeys
    {
      ghost var key := (world.revision, environment);
      buildRuns := buildRuns + 1;
      InvalidateVerification();
      cancelled, observation := AttemptBuild(environment);
      if !cancelled && !buildPassed {
        failedKeys := failedKeys + {key};
      }
    }

    method AttemptBuild(environment: Environment) returns (cancelled: bool, observation: Observation)
      requires Inv() && !buildPassed && !simulationPassed
      modifies this`buildAttempted, this`buildPassed, this`lastBuild, this`simulationPassed, this`lastSimulation,
               this`acceptanceEvidence, this`requirementReport, this`requirementChecks, this`repairGroups,
               this`seenBuildPairs, this`lastBuiltSource
      modifies world`revision, world`files, world`edits, world`compiled
      ensures Inv()
      ensures world.edits >= old(world.edits)
      ensures world.edits == old(world.edits) ==> world.revision == old(world.revision)
      ensures !cancelled ==> lastBuild.Build? && observation == BuildObservation(environment, lastBuild)
    {
      observation := BuildObservation(environment, NoBuild);
      var trusted: bool, ready: bool, expired: bool := *, *, *;
      if enforceTrust && !trusted {
        cancelled, observation := BuildPermissionBlocked(environment);
        return;
      }
      if contract.Some? {
        cancelled := world.Await();
        if cancelled { return; }
      }
      if expired {
        lastBuild := FAILURE.(terminal := true, code := RuntimeLimit);
        return false, BuildObservation(environment, lastBuild);
      }
      var blocked: Option<Observation>;
      cancelled, blocked := PreflightDependencies(environment);
      if cancelled { return; }
      if blocked.Some? {
        return false, blocked.value;
      }
      if contract.Some? && !ready {
        lastBuild := FAILURE.(code := HeadersIncomplete);
        cancelled := world.Await();
        return cancelled, BuildObservation(environment, lastBuild);
      }
      trusted := *;
      if enforceTrust && !trusted {
        cancelled, observation := BuildPermissionBlocked(environment);
        return;
      }
      cancelled := world.Await();
      if cancelled { return; }
      var source := world.revision;
      lastBuiltSource := Some(source);
      cancelled := world.Await();
      if cancelled { return; }
      trusted := *;
      if enforceTrust && !trusted {
        cancelled, observation := BuildPermissionBlocked(environment);
        return;
      }
      cancelled, observation := CompileSource(environment, source);
    }

    method CompileSource(environment: Environment, source: Revision) returns (cancelled: bool, observation: Observation)
      requires Inv() && !buildPassed && !simulationPassed
      modifies this`buildAttempted, this`buildPassed, this`lastBuild, this`simulationPassed, this`lastSimulation,
               this`acceptanceEvidence, this`requirementReport, this`requirementChecks, this`repairGroups,
               this`seenBuildPairs
      modifies world`revision, world`files, world`edits, world`compiled
      ensures Inv()
      ensures world.edits >= old(world.edits)
      ensures world.edits == old(world.edits) ==> world.revision == old(world.revision)
      ensures !cancelled ==> lastBuild.Build? && observation == BuildObservation(environment, lastBuild)
    {
      observation := BuildObservation(environment, NoBuild);
      buildAttempted := true;
      var result: Compilation;
      cancelled, result := world.Compile();
      if cancelled { return; }
      if result.Threw? {
        buildPassed := false;
        var failed := FailedBuild(result.failure);
        lastBuild := failed.(revision := Some(source));
        cancelled := world.Await();
        return cancelled, BuildObservation(environment, lastBuild);
      }
      cancelled := world.Await();
      if cancelled { return; }
      var image: Option<Image> := None;
      if result.success && result.path.Some? && result.path.value in world.files {
        image := Some(Image(result.path.value, world.files[result.path.value]));
      }
      cancelled := world.Await();
      if cancelled { return; }
      SettleBuild(environment, source, result, image);
      cancelled := world.Await();
      observation := BuildObservation(environment, lastBuild);
    }

    /** Certifies the image only if the compiler, the workspace and the image all still agree with the source built. */
    method SettleBuild(environment: Environment, source: Revision, result: Compilation, image: Option<Image>)
      requires Inv() && !simulationPassed && result.Compiled?
      requires result.success && world.reportsSource ==> result.source.Some? && result.source.value in world.compiled
      modifies this`buildAttempted, this`buildPassed, this`lastBuild, this`simulationPassed, this`lastSimulation,
               this`acceptanceEvidence, this`requirementReport, this`requirementChecks, this`repairGroups,
               this`seenBuildPairs
      ensures Inv()
      ensures buildPassed <==> && result.success && image.Some? && ImageIntact(image.value) && source == world.revision
                               && (result.source.Some? ==> result.source.value == source)
      ensures buildPassed ==> Current() && lastBuild.firmware == image && lastBuild.success
      ensures !buildPassed ==> lastBuild.Build? && !lastBuild.success && lastBuild.firmware.None?
    {
      var recorded := FailedBuild(result.fault);
      lastBuild := recorded.(success := result.success, revision := Some(source), firmware := image,
                             boardSupported := result.boardSupported);
      if !result.success {
        CountGroup(result.fault.group);
        if ((source, environment), result.fault.group) in seenBuildPairs {
          lastBuild := lastBuild.(terminal := true, code := BuildRepairExhausted);
        }
        seenBuildPairs := seenBuildPairs + {((source, environment), result.fault.group)};
      }
      if !result.success || image.None? {
        buildPassed := false;
        lastBuild := lastBuild.(success := false, firmware := None);
        return;
      }
      if result.source.Some? && result.source.value != source {
        buildPassed := false;
        lastBuild := FAILURE.(code := VerificationStale);
        return;
      }
      buildPassed := true;
      var current := RefreshVerification();
      if !current {
        buildPassed := false;
        lastBuild := FAILURE.(code := VerificationStale);
        return;
      }
      if result.elf.Some? && result.elf.value in world.files {
        lastBuild := lastBuild.(elf := Some(Image(result.elf.value, world.files[result.elf.value])));
      }
    }

    /** The cache after a build: empty after a success, else with the failure under the key that was left behind. */
    static function Remembered(cache: map<Key, Build>, passed: bool, left: Key, build: Build): map<Key, Build> {
      if passed then map[]
      else if Terminal(build) && build.code.TrustRequired? then cache
      else cache[left := build]
    }

    /**
     If the workspace is edited from outside while source 1 fails to build, the failure is remembered for source 2,
     and the next call answers for source 2, which was never built. Without that edit it answers for source 1.
     */
    static lemma AnEditedSourceIsAnsweredUnbuilt(environment: Environment)
      ensures var before, after: Key := (1, environment), (2, environment);
              var edited := Remembered(map[], false, after, FAILURE);
              var unedited := Remembered(map[], false, before, FAILURE);
              && AnswersFromCache(edited, {}, after) && !AnswersFromCache(edited, {}, before)
              && AnswersFromCache(unedited, {}, before) && !AnswersFromCache(unedited, {}, after)
    {
    }

    /**
     Remembers a failure under the source it left behind. Without outside changes that is the source of a build
     that failed.
     */
    method RememberFailedBuild(environment: Environment, observation: Observation, ghost undisturbed: bool)
      requires CacheOk()
      requires undisturbed && !buildPassed ==> (world.revision, environment) in failedKeys
      modifies this`failedBuildCache, this`disturbedKeys
      ensures CacheOk()
      ensures disturbedKeys == old(disturbedKeys) + (if undisturbed then {} else {(world.revision, environment)})
      ensures failedBuildCache
              == Remembered(old(failedBuildCache), buildPassed, (world.revision, environment), observation.build)
    {
      if !undisturbed {
        disturbedKeys := disturbedKeys + {(world.revision, environment)};
      }
      if buildPassed {
        failedBuildCache := map[];
        return;
      }
      if Terminal(observation.build) && observation.build.code.TrustRequired? {
        return;
      }
      failedBuildCache := failedBuildCache[(world.revision, environment) := observation.build];
    }

    /** The answer of the build tool when this source already failed and the failure is not worth retrying. */
    static predicate AnswersFromCache(cache: map<Key, Build>, retried: set<Key>, key: Key) {
      key in cache && (!Transient(cache[key]) || key in retried)
    }

    method Build(environment: Environment) returns (cancelled: bool, observation: Observation, ghost key: Key)
      requires Inv() && CacheOk()
      modifies this`buildAttempted, this`buildPassed, this`lastBuild, this`simulationPassed, this`lastSimulation,
               this`acceptanceEvidence, this`requirementReport, this`requirementChecks, this`repairGroups,
               this`seenBuildPairs, this`lastBuiltSource, this`buildRuns, this`failedKeys, this`failedBuildCache,
               this`disturbedKeys, this`transientRetries, this`retries
      modifies world`revision, world`files, world`edits, world`compiled
      ensures Inv() && CacheOk()
      ensures old(buildRuns) <= buildRuns <= old(buildRuns) + 2 + DETERMINISTIC_REPAIRS
      ensures old(transientRetries) <= transientRetries
      ensures !cancelled && observation.cached ==>
                && AnswersFromCache(old(failedBuildCache), old(transientRetries), key)
                && observation.build == old(failedBuildCache)[key]
                && key.1 == environment && buildRuns == old(buildRuns)
                && (key in old(failedKeys) || key in old(disturbedKeys))
      ensures world.edits == old(world.edits) ==> disturbedKeys == old(disturbedKeys)
    {
      key := (world.revision, environment);
      observation := BuildObservation(environment, NoBuild);
      var trusted: bool := *;
      if enforceTrust && !trusted {
        cancelled, observation := BuildPermissionBlocked(environment);
        return;
      }
      if lastBuild.Build? && !lastBuild.success && GroupCount(lastBuild.group) >= REPAIR_GROUP_LIMIT {
        lastBuild := lastBuild.(terminal := true, code := BuildRepairExhausted);
        return false, BuildObservation(environment, lastBuild), key;
      }
      cancelled := world.Await();
      if cancelled { return; }
      var cacheKey := (world.revision, environment);
      key := cacheKey;
      if cacheKey in failedBuildCache {
        if AnswersFromCache(failedBuildCache, transientRetries, cacheKey) {
          observation := BuildObservation(environment, failedBuildCache[cacheKey]).(cached := true);
          cancelled := world.Await();
          return;
        }
        AllowRetry(cacheKey);
      }
      cancelled, observation := BuildAndRepair(environment, cacheKey, cacheKey in failedBuildCache);
    }

    /** The single transient retry of a source and environment. */
    method AllowRetry(key: Key)
      requires CacheOk() && key !in transientRetries
      modifies this`transientRetries
      ensures CacheOk() && transientRetries == old(transientRetries) + {key} && retries[key] == 0
    {
      transientRetries := transientRetries + {key};
    }

    method BuildAndRepair(environment: Environment, cacheKey: Key, ghost retrying: bool)
      returns (cancelled: bool, observation: Observation)
      requires Inv() && CacheOk() && (retrying ==> cacheKey in transientRetries && retries[cacheKey] == 0)
      modifies this`buildAttempted, this`buildPassed, this`lastBuild, this`simulationPassed, this`lastSimulation,
               this`acceptanceEvidence, this`requirementReport, this`requirementChecks, this`repairGroups,
               this`seenBuildPairs, this`lastBuiltSource, this`buildRuns, this`failedKeys, this`failedBuildCache,
               this`disturbedKeys, this`transientRetries, this`retries
      modifies world`revision, world`files, world`edits, world`compiled
      ensures Inv() && CacheOk()
      ensures old(buildRuns) <= buildRuns <= old(buildRuns) + 2 + DETERMINISTIC_REPAIRS
      ensures old(transientRetries) <= transientRetries && world.edits >= old(world.edits)
      ensures !cancelled ==> !observation.cached
      ensures world.edits == old(world.edits) ==> disturbedKeys == old(disturbedKeys)
    {
      ghost var start := world.edits;
      var settled, remember := false, true;
      cancelled, settled, observation := BuildWithRetry(environment, cacheKey, retrying);
      if cancelled { return; }
      if !settled {
        cancelled, remember, observation := RepairLoop(environment, observation);
      }
      if !cancelled && remember {
        RememberFailedBuild(environment, observation, world.edits == start);
      }
    }

    /** The first build, and at most one retry of a failure that looks transient; `settled` ends the tool call. */
    method BuildWithRetry(environment: Environment, cacheKey: Key, ghost retrying: bool)
      returns (cancelled: bool, settled: bool, observation: Observation)
      requires Inv() && CacheOk() && (retrying ==> cacheKey in transientRetries && retries[cacheKey] == 0)
      modifies this`buildAttempted, this`buildPassed, this`lastBuild, this`simulationPassed, this`lastSimulation,
               this`acceptanceEvidence, this`requirementReport, this`requirementChecks, this`repairGroups,
               this`seenBuildPairs, this`lastBuiltSource, this`buildRuns, this`failedKeys, this`transientRetries,
               this`retries
      modifies world`revision, world`files, world`edits, world`compiled
      ensures Inv() && CacheOk()
      ensures old(buildRuns) <= buildRuns <= old(buildRuns) + 2
      ensures old(transientRetries) <= transientRetries <= old(transientRetries) + {cacheKey}
      ensures retries == old(retries)[cacheKey := retries[cacheKey]]
      ensures old(retries)[cacheKey] <= retries[cacheKey] <= old(retries)[cacheKey] + buildRuns - old(buildRuns)
      ensures world.edits >= old(world.edits)
      ensures !cancelled ==> !observation.cached && lastBuild.Build? && observation.build == lastBuild
      ensures !cancelled && !settled ==> !buildPassed
      ensures !cancelled && !buildPassed && world.edits == old(world.edits) ==>
                (world.revision, environment) in failedKeys
    {
      settled := true;
      var expired: bool := *;
      cancelled, observation := CountedBuild(environment, cacheKey, retrying);
      if cancelled || lastBuild.code.HeadersIncomplete? { return; }
      if !buildPassed && !lastBuild.terminal && lastBuild.transient {
        if cacheKey !in transientRetries && !expired {
          AllowRetry(cacheKey);
          cancelled, observation := CountedBuild(environment, cacheKey, true);
          if cancelled { return; }
        }
        observation := GiveUpTransient(environment);
      }
      settled := buildPassed || lastBuild.terminal;
    }

    /** A build, counted for its key if it is that key's transient retry. */
    method CountedBuild(environment: Environment, ghost key: Key, ghost retry: bool)
      returns (cancelled: bool, observation: Observation)
      requires Inv() && CacheOk() && (retry ==> key in transientRetries && retries[key] == 0)
      modifies this`buildAttempted, this`buildPassed, this`lastBuild, this`simulationPassed, this`lastSimulation,
               this`acceptanceEvidence, this`requirementReport, this`requirementChecks, this`repairGroups,
               this`seenBuildPairs, this`lastBuiltSource, this`buildRuns, this`failedKeys, this`retries
      modifies world`revision, world`files, world`edits, world`compiled
      ensures Inv() && CacheOk() && buildRuns == old(buildRuns) + 1
      ensures retries == if retry then old(retries)[key := 1] else old(retries)
      ensures world.edits >= old(world.edits)
      ensures world.edits == old(world.edits) ==> world.revision == old(world.revision)
      ensures !cancelled ==> lastBuild.Build? && observation == BuildObservation(environment, lastBuild)
      ensures !cancelled && !buildPassed ==> (old(world.revision), environment) in failedKeys
    {
      retries := if retry then retries[key := 1] else retries;
      cancelled, observation := BuildOnce(environment);
    }

    /** A failure that is still transient ends the repair. */
    method GiveUpTransient(environment: Environment) returns (observation: Observation)
      requires Inv() && lastBuild.Build?
      modifies this`lastBuild
      ensures Inv() && lastBuild.Build? && observation == BuildObservation(environment, lastBuild)
      ensures !buildPassed && old(lastBuild).transient ==> lastBuild.terminal
      ensures buildPassed ==> lastBuild == old(lastBuild)
    {
      if !buildPassed && !lastBuild.terminal && lastBuild.transient {
        lastBuild := lastBuild.(terminal := true,
                                code := if lastBuild.code.NoCode? then InfrastructureUnavailable else lastBuild.code);
      }
      observation := BuildObservation(environment, lastBuild);
    }

    /** Up to three repairs taken from the diagnostics, each followed by a build. */
    method RepairLoop(environment: Environment, first: Observation)
      returns (cancelled: bool, remember: bool, observation: Observation)
      requires Inv() && !buildPassed && !first.cached && lastBuild.Build?
      modifies this`buildAttempted, this`buildPassed, this`lastBuild, this`simulationPassed, this`lastSimulation,
               this`acceptanceEvidence, this`requirementReport, this`requirementChecks, this`repairGroups,
               this`seenBuildPairs, this`lastBuiltSource, this`buildRuns, this`failedKeys
      modifies world`revision, world`files, world`edits, world`compiled
      ensures Inv()
      ensures old(buildRuns) <= buildRuns <= old(buildRuns) + DETERMINISTIC_REPAIRS
      ensures world.edits >= old(world.edits) && failedKeys >= old(failedKeys)
      ensures !cancelled ==> !observation.cached
      ensures !cancelled && !buildPassed && world.edits == old(world.edits) ==>
                ((old(world.revision), environment) in old(failedKeys) ==> (world.revision, environment) in failedKeys)
    {
      observation, cancelled, remember := first, false, true;
      for round := 0 to DETERMINISTIC_REPAIRS
        invariant Inv() && !buildPassed && lastBuild.Build? && !observation.cached && !cancelled && remember
        invariant buildRuns <= old(buildRuns) + round && buildRuns >= old(buildRuns)
        invariant world.edits >= old(world.edits) && failedKeys >= old(failedKeys)
        invariant world.edits == old(world.edits) ==>
                    ((old(world.revision), environment) in old(failedKeys) ==>
                       (world.revision, environment) in failedKeys)
      {
        var expired: bool, repaired: bool := *, *;
        if expired {
          lastBuild := lastBuild.(success := false, terminal := true, code := RuntimeLimit);
          return false, false, BuildObservation(environment, lastBuild);
        }
        if GroupCount(lastBuild.group) >= REPAIR_GROUP_LIMIT {
          break;
        }
        if !repaired {
          cancelled := world.Await();
          if cancelled { return; }
          break;
        }
        cancelled := world.Edit();
        if cancelled { return; }
        cancelled := world.Await();
        if cancelled { return; }
        cancelled, observation := BuildOnce(environment);
        if cancelled { return; }
        if buildPassed || TerminalBuild(observation) {
          break;
        }
      }
    }

    // ------------------------------------------------------------ simulating

    method Simulate() returns (cancelled: bool, observation: Observation)
      requires Inv()
      modifies this`buildAttempted, this`buildPassed, this`lastBuild, this`simulationPassed, this`lastSimulation,
               this`acceptanceEvidence, this`requirementReport, this`requirementChecks
      modifies world`revision, world`files, world`edits
      ensures Inv()
      ensures simulationPassed ==> observation.completed || cancelled
    {
      var current := RefreshVerification();
      simulationPassed, lastSimulation := false, NoSimulation;
      observation := Note(SimulateTool, false);
      var available: bool := *;
      if !available || !buildPassed || !lastBuild.boardSupported {
        return false, observation;
      }
      cancelled := world.Await();
      if cancelled { return; }
      cancelled := world.Await();
      if cancelled { return; }
      var success: bool, threw: bool := *, *;
      if !threw {
        current := RefreshVerification();
      }
      if threw || !current {
        simulationPassed, lastSimulation := false, Simulation(false, None, None);
        cancelled := world.Await();
        return;
      }
      CertifySimulation(success);
      observation := Note(SimulateTool, success);
      cancelled := world.Await();
    }

    /** A simulation is recorded only at a moment when the image and the source of the certified build are the present
        ones. */
    method CertifySimulation(success: bool)
      requires Inv() && buildPassed && Current()
      modifies this`simulationPassed, this`lastSimulation
      ensures Inv() && simulationPassed == success
      ensures lastSimulation
              == Simulation(success, Some(world.revision), Some(world.files[lastBuild.firmware.value.path]))
    {
      lastSimulation := Simulation(success, lastBuild.revision, Some(lastBuild.firmware.value.digest));
      simulationPassed := success;
    }

    // ------------------------------------------------------------ tools

    /** A local look at the build configuration. It may replace the build record, even a certified one. */
    method ConfigurationPrerequisite() returns (cancelled: bool, blocked: Option<Observation>)
      requires Inv()
      modifies this`lastBuild
      modifies world`revision, world`files, world`edits
      ensures Inv() && (blocked.Some? ==> blocked.value.tool.BuildTool? && !Succeeded(blocked.value.build))
    {
      blocked := None;
      var inspects: bool, fault: Fault := *, *;
      if contract.None? || !inspects {
        return false, None;
      }
      cancelled := world.Await();
      if cancelled { return; }
      var broken: bool := *;
      if broken {
        lastBuild := FailedBuild(fault);
        blocked := Some(BuildObservation(None, lastBuild));
      } else if lastBuild.Build? && lastBuild.code.ConfigurationError? {
        lastBuild := NoBuild;
      }
    }

    method Observe(o: Observation)
      requires LogOk()
      modifies this`observations
      ensures LogOk() && observations == old(observations) + [o]
    {
      observations := observations + [o];
    }

    /** Verifies citations of the present source; the outcome is reference evidence only. */
    method VerifyRequirements() returns (accepted: bool)
      requires Inv()
      modifies this`buildAttempted, this`buildPassed, this`lastBuild, this`simulationPassed, this`lastSimulation,
               this`acceptanceEvidence, this`requirementReport, this`requirementChecks, this`requirementReminders
      ensures Inv()
      ensures accepted ==> ReferenceOnly(requirementReport, world.revision)
    {
      if requirementReport.NoReport? || requirementReport.revision != world.revision {
        RevalidateRequirementChecks();
      }
      var current := RefreshVerification();
      var rejected: bool, references: bool, newEvidence: bool := *, *, *;
      var submitted: map<nat, Citation> := *;
      if rejected {
        return false;
      }
      requirementChecks := requirementChecks + submitted;
      requirementReport := Report(false, references, false, world.revision, None);
      if newEvidence {
        requirementReminders := 0;
      }
      accepted := true;
    }

    method RunUnitTests() returns (cancelled: bool, observation: Observation)
      requires Inv()
      modifies this`acceptanceEvidence
      modifies world`revision, world`files, world`edits
      ensures Inv()
    {
      var before := world.revision;
      observation := Note(UnitTestTool, false);
      cancelled := world.Await();
      if cancelled { return; }
      var reported: bool := *;
      var success := reported && before == world.revision;
      acceptanceEvidence := acceptanceEvidence + [Evidence(UNIT_TESTS, success, world.revision)];
      observation := Note(UnitTestTool, success);
    }

    /** A write tool: the edit survives a cancellation that arrives before the evidence is dropped. */
    method WriteWorkspace(tool: Tool) returns (cancelled: bool, observation: Observation)
      requires Inv() && LogOk() && tool.WriteTool?
      modifies this`buildAttempted, this`buildPassed, this`lastBuild, this`simulationPassed, this`lastSimulation,
               this`acceptanceEvidence, this`requirementReport, this`requirementChecks, this`repairGroups,
               this`observations
      modifies world`revision, world`files, world`edits
      ensures Inv() && LogOk() && old(observations) <= observations
    {
      observation := Note(tool, false);
      var blocked: Option<Observation>;
      cancelled, blocked := ConfigurationPrerequisite();
      if cancelled { return; }
      if blocked.Some? {
        Observe(blocked.value);
      }
      var rejected: bool, changed: bool, preflights: bool := *, *, *;
      if rejected {
        return;
      }
      cancelled := world.Edit();
      if cancelled { return; }
      if changed {
        InvalidateVerification();
        if tool.configuration && contract.Some? && preflights {
          cancelled, blocked := PreflightDependencies(None);
          if cancelled { return; }
          if blocked.Some? {
            Observe(blocked.value);
          }
        }
      }
      observation := Observation(tool, true, NoBuild, false, changed);
    }

    /** One tool call, cut short at any await by its deadline; the caller then sees a failed observation. */
    method ExecuteInvocation(tool: Tool, environment: Environment) returns (observation: Observation)
      requires Inv() && CacheOk() && LogOk()
      modifies this`buildAttempted, this`buildPassed, this`lastBuild, this`simulationPassed, this`lastSimulation,
               this`acceptanceEvidence, this`requirementReport, this`requirementChecks, this`repairGroups,
               this`seenBuildPairs, this`lastBuiltSource, this`buildRuns, this`failedKeys, this`failedBuildCache,
               this`disturbedKeys, this`transientRetries, this`retries, this`observations, this`requirementReminders
      modifies world`revision, world`files, world`edits, world`compiled
      ensures Inv() && CacheOk() && LogOk() && old(observations) <= observations
      ensures observation.tool == tool
    {
      observation := Note(tool, false);
      var expired: bool, refused: bool := *, *;
      if expired { return; }
      var cancelled := world.Await();
      if cancelled || refused { return; }
      var result: Observation;
      if tool.BuildTool? {
        cancelled, result := BuildCall(tool.environment, environment);
      } else {
        cancelled, result := Handle(tool);
      }
      if cancelled { return; }
      cancelled := world.Await();
      if !cancelled {
        observation := result.(tool := tool);
      }
    }

    /** A build call may only use the environment the user selected, when there is one. */
    method BuildCall(selected: Environment, environment: Environment) returns (cancelled: bool, result: Observation)
      requires Inv() && CacheOk()
      modifies this`buildAttempted, this`buildPassed, this`lastBuild, this`simulationPassed, this`lastSimulation,
               this`acceptanceEvidence, this`requirementReport, this`requirementChecks, this`repairGroups,
               this`seenBuildPairs, this`lastBuiltSource, this`buildRuns, this`failedKeys, this`failedBuildCache,
               this`disturbedKeys, this`transientRetries, this`retries
      modifies world`revision, world`files, world`edits, world`compiled
      ensures Inv() && CacheOk()
    {
      var chosen := if selected.Some? then selected else environment;
      if environment.Some? && chosen != environment {
        return false, Note(BuildTool(selected), false);
      }
      ghost var key;
      cancelled, result, key := Build(chosen);
    }

    method Handle(tool: Tool) returns (cancelled: bool, result: Observation)
      requires Inv() && LogOk() && !tool.BuildTool?
      modifies this`buildAttempted, this`buildPassed, this`lastBuild, this`simulationPassed, this`lastSimulation,
               this`acceptanceEvidence, this`requirementReport, this`requirementChecks, this`repairGroups,
               this`observations, this`requirementReminders
      modifies world`revision, world`files, world`edits
      ensures Inv() && LogOk() && old(observations) <= observations
    {
      var success: bool := *;
      cancelled, result := false, Note(tool, success);
      match tool {
        case SimulateTool => cancelled, result := Simulate();
        case WriteTool(_) => cancelled, result := WriteWorkspace(tool);
        case VerifyRequirementsTool =>
          result := Note(tool, false);
          if contract.Some? {
            var accepted := VerifyRequirements();
            result := Note(tool, accepted);
          }
        case SubagentTool(verify) =>
          if verify {
            InvalidateVerification();
          }
          cancelled := world.Edit();
        case UnitTestTool => cancelled, result := RunUnitTests();
        case RefreshTool => var _ := RefreshVerification();
        case PlanTool | ReadTool => cancelled := world.Await();
      }
    }

    // ------------------------------------------------------------ observation log

    /** Hides all but the recent observations behind a checkpoint; what newly became old is handed out as a delta. */
    method CompactObservations(tail: nat) returns (visible: seq<Observation>, delta: Option<seq<Observation>>)
      requires LogOk()
      modifies this`compactedCount, this`emitted
      ensures LogOk() && compactedCount >= old(compactedCount)
      ensures emitted == old(emitted) + (if delta.Some? then delta.value else [])
      ensures delta.Some? ==> delta.value != []
      ensures emitted + observations[compactedCount..] == observations
      ensures exists older :: 0 <= older <= compactedCount && visible == observations[older..]
      ensures |visible| >= Min(|observations|, 6)
    {
      var keep := Min(|observations|, if tail > 6 then tail else 6);
      if |observations| <= keep {
        assert observations[0..] == observations;
        return observations, None;
      }
      var older := |observations| - keep;
      delta := None;
      if older > compactedCount {
        delta := Some(observations[compactedCount..older]);
        emitted := emitted + observations[compactedCount..older];
        compactedCount := older;
      }
      visible := observations[older..];
    }

    static function Min(a: nat, b: nat): nat { if a <= b then a else b }

    // ------------------------------------------------------------ results

    /** What a successful result is worth, judged against the workspace at the moment it is returned. */
    ghost predicate Sound(r: RunResult, requireBuild: bool, requireSimulation: bool)
      reads this, world
    {
      r.success ==>
        && (requireBuild ==> BuildProven(r))
        && (contract.Some? ==> ContractProven(r, contract.value))
        && (reviewRequired ==> reviewRevision == Some(world.revision)
                               && Review(world.revision, TaskOf(contract)) in world.approved)
        && (requireSimulation ==> SimulationProven(r))
    }

    /** The reported build is of the final source, its image is the one on disk, and the compiler accepted that
        source. */
    ghost predicate BuildProven(r: RunResult)
      reads this, world
    {
      && r.buildVerified && r.build.Build? && r.build.firmware.Some? && ImageIntact(r.build.firmware.value)
      && r.build.revision == Some(world.revision)
      && (world.reportsSource ==> world.revision in world.compiled)
    }

    /** A passed review and every acceptance check are about the final source and the final task revision. */
    ghost predicate ContractProven(r: RunResult, c: Contract)
      reads world, this`acceptanceEvidence
    {
      && ReviewedCurrent(r.report, world.revision, c.revision)
      && r.report.review.value in world.reviewed
      && (c.checks != [] ==> Accepted(c, r.report, r.build, acceptanceEvidence, world.revision, r.simulation))
    }

    /** The reported simulation passed on the very image that the result reports. */
    ghost predicate SimulationProven(r: RunResult)
      reads this, world
    {
      && r.build.Build? && r.build.firmware.Some? && ImageIntact(r.build.firmware.value)
      && r.simulation.Simulation? && r.simulation.success
      && r.simulation.digest == Some(r.build.firmware.value.digest)
      && r.simulation.revision == Some(world.revision)
    }

    method Result(success: bool, classification: Classification, ghost requireBuild: bool,
                  ghost requireSimulation: bool)
      returns (r: RunResult)
      requires Inv()
      requires success && requireBuild ==> buildPassed
      requires success && requireSimulation ==> simulationPassed
      modifies this`buildAttempted, this`buildPassed, this`lastBuild, this`simulationPassed, this`lastSimulation,
               this`acceptanceEvidence, this`requirementReport, this`requirementChecks
      ensures Inv() && Sound(r, requireBuild, requireSimulation)
      ensures r.success ==> success && r.classification == classification
      ensures !success ==> r.classification == classification
      ensures r.buildVerified <==> old(buildPassed && Current())
    {
      var ok, reason, certified := success, classification, buildPassed;
      var c := if contract.Some? then contract.value else Contract(None, [], false);
      var accepted := Accepted(c, requirementReport, lastBuild, acceptanceEvidence, world.revision, lastSimulation);
      if ok && c.checks != [] && !accepted {
        ok, reason := false, AcceptanceUnverified;
      }
      if ok && contract.Some? && !ReviewedCurrent(requirementReport, world.revision, c.revision) {
        ok, reason := false, RequirementsUnverified;
      }
      if ok && reviewRequired && reviewRevision != Some(world.revision) {
        ok, reason := false, ReviewRequired;
      }
      if certified {
        var current := RefreshVerification();
        if !current && ok {
          ok, reason := false, Classification.Stale;
        }
      }
      var verified := RefreshVerification();
      r := RunResult(ok, reason, lastBuild, lastSimulation, requirementReport, verified);
    }

    method Fail(classification: Classification, ghost requireBuild: bool, ghost requireSimulation: bool)
      returns (stop: Option<RunResult>)
      requires Inv()
      modifies this`buildAttempted, this`buildPassed, this`lastBuild, this`simulationPassed, this`lastSimulation,
               this`acceptanceEvidence, this`requirementReport, this`requirementChecks
      ensures Inv() && stop.Some? && Sound(stop.value, requireBuild, requireSimulation)
      ensures !stop.value.success && stop.value.classification == classification
    {
      var r := Result(false, classification, requireBuild, requireSimulation);
      stop := Some(r);
    }

    // ------------------------------------------------------------ the end of a task

    /** The planner says it is done: the loop checks that against evidence, and may send it back to work. */
    method FinalPhase(hasCalls: bool, requireBuild: bool, requireSimulation: bool, environment: Environment)
      returns (cancelled: bool, stop: Option<RunResult>)
      requires Inv() && CacheOk() && LogOk()
      modifies this`buildAttempted, this`buildPassed, this`lastBuild, this`simulationPassed, this`lastSimulation,
               this`acceptanceEvidence, this`requirementReport, this`requirementChecks, this`repairGroups,
               this`seenBuildPairs, this`lastBuiltSource, this`buildRuns, this`failedKeys, this`failedBuildCache,
               this`disturbedKeys, this`transientRetries, this`retries, this`observations, this`requirementReminders,
               this`completionReminders, this`reviewRevision, this`reviewAttempts
      modifies world`revision, world`files, world`edits, world`compiled, world`reviewed, world`approved
      ensures Inv() && CacheOk() && LogOk() && old(observations) <= observations
      ensures !cancelled && stop.Some? ==> Sound(stop.value, requireBuild, requireSimulation)
    {
      cancelled, stop := false, None;
      var _ := RefreshVerification();
      var testsMissing := TestsMissing();
      if requireBuild && !hasCalls && !buildPassed && KnownFailure() {
        stop := RemindOfFailure(requireBuild, requireSimulation);
        return;
      }
      cancelled, stop := BuildAndConclude(testsMissing, requireBuild, requireSimulation, environment);
    }

    /** The required build, if none was tried yet, and the checks behind it. */
    method BuildAndConclude(testsMissing: bool, requireBuild: bool, requireSimulation: bool, environment: Environment)
      returns (cancelled: bool, stop: Option<RunResult>)
      requires Inv() && CacheOk() && LogOk()
      modifies this`buildAttempted, this`buildPassed, this`lastBuild, this`simulationPassed, this`lastSimulation,
               this`acceptanceEvidence, this`requirementReport, this`requirementChecks, this`repairGroups,
               this`seenBuildPairs, this`lastBuiltSource, this`buildRuns, this`failedKeys, this`failedBuildCache,
               this`disturbedKeys, this`transientRetries, this`retries, this`observations, this`requirementReminders,
               this`reviewRevision, this`reviewAttempts
      modifies world`revision, world`files, world`edits, world`compiled, world`reviewed, world`approved
      ensures Inv() && CacheOk() && LogOk() && old(observations) <= observations
      ensures !cancelled && stop.Some? ==> Sound(stop.value, requireBuild, requireSimulation)
    {
      cancelled, stop := false, None;
      if requireBuild && !buildAttempted {
        var proceed;
        cancelled, stop, proceed := RequiredBuild(requireSimulation, environment);
        if cancelled || stop.Some? || !proceed { return; }
      }
      if requireBuild && !buildPassed {
        stop := Fail(BuildError, requireBuild, requireSimulation);
        return;
      }
      cancelled, stop := Conclude(testsMissing, requireBuild, requireSimulation);
    }

    /** The contract asks for unit tests and none passed for this source. */
    predicate TestsMissing()
      reads this, world
    {
      && contract.Some? && Collected(UNIT_TESTS) in contract.value.checks
      && !CheckPassed(Collected(UNIT_TESTS), contract.value, requirementReport, lastBuild, acceptanceEvidence,
                      world.revision, lastSimulation)
    }

    /** Two reminders that the present source does not compile, then the run ends. */
    method RemindOfFailure(ghost requireBuild: bool, ghost requireSimulation: bool) returns (stop: Option<RunResult>)
      requires Inv() && LogOk()
      modifies this`buildAttempted, this`buildPassed, this`lastBuild, this`simulationPassed, this`lastSimulation,
               this`acceptanceEvidence, this`requirementReport, this`requirementChecks, this`observations,
               this`completionReminders
      ensures Inv() && LogOk() && old(observations) <= observations
      ensures stop.Some? <==> old(completionReminders) >= 2
      ensures stop.Some? ==> Sound(stop.value, requireBuild, requireSimulation) && !stop.value.success
      ensures stop.None? ==> completionReminders == old(completionReminders) + 1
    {
      if completionReminders >= 2 {
        stop := Fail(BuildError, requireBuild, requireSimulation);
        return;
      }
      completionReminders := completionReminders + 1;
      Observe(Note(ReadTool, false));
      stop := None;
    }

    /** The checks that follow a successful required build, in the order of the source. */
    method Conclude(testsMissing: bool, requireBuild: bool, requireSimulation: bool)
      returns (cancelled: bool, stop: Option<RunResult>)
      requires Inv() && LogOk()
      requires requireBuild ==> buildPassed
      modifies this`buildAttempted, this`buildPassed, this`lastBuild, this`simulationPassed, this`lastSimulation,
               this`acceptanceEvidence, this`requirementReport, this`requirementChecks, this`observations,
               this`requirementReminders, this`reviewRevision, this`reviewAttempts
      modifies world`revision, world`files, world`edits, world`reviewed, world`approved
      ensures Inv() && LogOk() && old(observations) <= observations
      ensures !cancelled && stop.Some? ==> Sound(stop.value, requireBuild, requireSimulation)
    {
      cancelled := false;
      var proceed;
      stop, proceed := CitationsReady(testsMissing, requireBuild, requireSimulation);
      if stop.Some? || !proceed { return; }
      if requireSimulation && !simulationPassed {
        var observation;
        cancelled, observation := Simulate();
        if cancelled { return; }
        Observe(observation);
        if !simulationPassed {
          stop := Fail(SimulationError, requireBuild, requireSimulation);
        }
        return;
      }
      cancelled, stop, proceed := Reviews(requireBuild, requireSimulation);
      if cancelled || stop.Some? || !proceed { return; }
      var r := Result(true, Completed, requireBuild, requireSimulation);
      stop := Some(r);
    }

    /** The present source is already known not to compile, so promising an action is not enough. */
    predicate KnownFailure()
      reads this`lastBuild, world
    {
      && lastBuild.Build? && !lastBuild.success && !lastBuild.terminal && !lastBuild.stale
      && lastBuild.revision == Some(world.revision) && lastBuild.hasErrors
    }

    /** A task that needs a build is not done before one was tried; `proceed` means the remaining checks follow. */
    method RequiredBuild(requireSimulation: bool, environment: Environment)
      returns (cancelled: bool, stop: Option<RunResult>, proceed: bool)
      requires Inv() && CacheOk() && LogOk()
      modifies this`buildAttempted, this`buildPassed, this`lastBuild, this`simulationPassed, this`lastSimulation,
               this`acceptanceEvidence, this`requirementReport, this`requirementChecks, this`repairGroups,
               this`seenBuildPairs, this`lastBuiltSource, this`buildRuns, this`failedKeys, this`failedBuildCache,
               this`disturbedKeys, this`transientRetries, this`retries, this`observations, this`requirementReminders
      modifies world`revision, world`files, world`edits, world`compiled
      ensures Inv() && CacheOk() && LogOk() && old(observations) <= observations
      ensures !cancelled && stop.Some? ==> Sound(stop.value, true, requireSimulation)
      ensures !cancelled && stop.None? && proceed ==> buildPassed
    {
      var observation;
      ghost var key;
      proceed, stop := false, None;
      cancelled, observation, key := Build(environment);
      if cancelled { return; }
      Observe(observation);
      cancelled, stop, proceed := AfterRequiredBuild(TerminalBuild(observation), requireSimulation);
    }

    method AfterRequiredBuild(terminal: bool, requireSimulation: bool)
      returns (cancelled: bool, stop: Option<RunResult>, proceed: bool)
      requires Inv()
      modifies this`buildAttempted, this`buildPassed, this`lastBuild, this`simulationPassed, this`lastSimulation,
               this`acceptanceEvidence, this`requirementReport, this`requirementChecks
      modifies world`revision, world`files, world`edits
      ensures Inv()
      ensures !cancelled && stop.Some? ==> Sound(stop.value, true, requireSimulation)
      ensures !cancelled && stop.None? && proceed ==> buildPassed
      ensures terminal ==> stop.Some? && !stop.value.success
    {
      cancelled, stop, proceed := false, None, false;
      if terminal {
        stop := Fail(TerminalFailure, true, requireSimulation);
        return;
      }
      if !buildPassed {
        cancelled := world.Await();
        return;
      }
      if requireSimulation || (contract.None? && reviewRequired) { return; }
      if contract.None? {
        var r := Result(true, Completed, true, requireSimulation);
        return false, Some(r), false;
      }
      proceed := true;
    }

    /** Two reminders at most for missing tests or citations, then the run ends unverified. */
    method CitationsReady(testsMissing: bool, ghost requireBuild: bool, ghost requireSimulation: bool)
      returns (stop: Option<RunResult>, proceed: bool)
      requires Inv() && LogOk()
      modifies this`buildAttempted, this`buildPassed, this`lastBuild, this`simulationPassed, this`lastSimulation,
               this`acceptanceEvidence, this`requirementReport, this`requirementChecks, this`observations,
               this`requirementReminders
      ensures Inv() && LogOk() && old(observations) <= observations
      ensures stop.Some? ==> Sound(stop.value, requireBuild, requireSimulation)
      ensures proceed ==> unchanged(this)
    {
      stop, proceed := None, false;
      var uncited := contract.Some? && (requirementReport.NoReport? || !requirementReport.referencesValid
                                        || requirementReport.revision != world.revision);
      if !testsMissing && !uncited {
        return None, true;
      }
      requirementReminders := requirementReminders + 1;
      if requirementReminders <= 2 {
        Observe(Note(VerifyRequirementsTool, !testsMissing));
        return;
      }
      var reason := if testsMissing then AcceptanceUnverified else RequirementsUnverified;
      stop := Fail(reason, requireBuild, requireSimulation);
    }

    /** Independent reviews of the present source, each only if none of this source was passed before. */
    method Reviews(ghost requireBuild: bool, ghost requireSimulation: bool)
      returns (cancelled: bool, stop: Option<RunResult>, proceed: bool)
      requires Inv() && LogOk()
      modifies this`buildAttempted, this`buildPassed, this`lastBuild, this`simulationPassed, this`lastSimulation,
               this`acceptanceEvidence, this`requirementReport, this`requirementChecks, this`observations,
               this`requirementReminders, this`reviewRevision, this`reviewAttempts
      modifies world`revision, world`files, world`edits, world`reviewed, world`approved
      ensures Inv() && LogOk() && old(observations) <= observations
      ensures !cancelled && stop.Some? ==> Sound(stop.value, requireBuild, requireSimulation)
      ensures !cancelled && proceed ==> buildPassed == old(buildPassed) && simulationPassed == old(simulationPassed)
    {
      cancelled, stop, proceed := false, None, false;
      if contract.Some? && !ReviewedCurrent(requirementReport, world.revision, contract.value.revision) {
        cancelled, stop, proceed := RequirementReview(requireBuild, requireSimulation);
        if cancelled || stop.Some? || !proceed { return; }
      }
      proceed := false;
      if reviewRequired && reviewRevision != Some(world.revision) {
        cancelled, stop, proceed := CompletionReview(requireBuild, requireSimulation);
        return;
      }
      proceed := true;
    }

    method RequirementReview(ghost requireBuild: bool, ghost requireSimulation: bool)
      returns (cancelled: bool, stop: Option<RunResult>, proceed: bool)
      requires Inv() && LogOk()
      modifies this`buildAttempted, this`buildPassed, this`lastBuild, this`simulationPassed, this`lastSimulation,
               this`acceptanceEvidence, this`requirementReport, this`requirementChecks, this`observations,
               this`requirementReminders
      modifies world`revision, world`files, world`edits, world`reviewed
      ensures Inv() && LogOk() && old(observations) <= observations
      ensures !cancelled && stop.Some? ==> Sound(stop.value, requireBuild, requireSimulation)
      ensures !cancelled && proceed ==> buildPassed == old(buildPassed) && simulationPassed == old(simulationPassed)
      ensures !cancelled && proceed ==>
                world.revision == old(world.revision) && requirementReport.Report? && requirementReport.valid
    {
      stop, proceed := None, false;
      var revision := world.revision;
      cancelled := world.Await();
      if cancelled { return; }
      var report: Option<Report>;
      cancelled, report := world.ReviewRequirements();
      if cancelled { return; }
      if report.None? {
        stop := Fail(ReviewRequired, requireBuild, requireSimulation);
        return;
      }
      requirementReport := report.value;
      if world.revision != revision {
        stop := Fail(RequirementsUnverified, requireBuild, requireSimulation);
        return;
      }
      if requirementReport.NoReport? || !requirementReport.valid {
        requirementReminders := requirementReminders + 1;
        Observe(Note(VerifyRequirementsTool, false));
        if requirementReminders > 2 {
          stop := Fail(RequirementsUnverified, requireBuild, requireSimulation);
        }
        return;
      }
      proceed := true;
    }

    method CompletionReview(ghost requireBuild: bool, ghost requireSimulation: bool)
      returns (cancelled: bool, stop: Option<RunResult>, proceed: bool)
      requires Inv() && LogOk()
      modifies this`buildAttempted, this`buildPassed, this`lastBuild, this`simulationPassed, this`lastSimulation,
               this`acceptanceEvidence, this`requirementReport, this`requirementChecks, this`observations,
               this`reviewRevision, this`reviewAttempts
      modifies world`revision, world`files, world`edits, world`approved
      ensures Inv() && LogOk() && old(observations) <= observations
      ensures !cancelled && stop.Some? ==> Sound(stop.value, requireBuild, requireSimulation)
      ensures !cancelled && proceed ==> buildPassed == old(buildPassed) && simulationPassed == old(simulationPassed)
      ensures !cancelled && proceed ==>
                world.revision == old(world.revision) && reviewRevision == Some(world.revision)
                && Review(world.revision, TaskOf(contract)) in world.approved
    {
      stop, proceed := None, false;
      var revision := world.revision;
      cancelled := world.Await();
      if cancelled { return; }
      reviewAttempts := reviewAttempts + 1;
      var verdict: Option<bool>;
      cancelled, verdict := world.ReviewCompletion(Review(revision, TaskOf(contract)));
      if cancelled { return; }
      if verdict.None? {
        stop := Fail(ReviewRequired, requireBuild, requireSimulation);
        return;
      }
      var passed := verdict.value && world.revision == revision;
      if passed {
        reviewRevision := Some(revision);
      }
      Observe(Note(VerifyRequirementsTool, passed));
      if !passed {
        if reviewAttempts >= 2 {
          stop := Fail(ReviewRequired, requireBuild, requireSimulation);
        }
        return;
      }
      proceed := true;
    }

    // ------------------------------------------------------------ a tool turn

    /** A host build of settled source, unless this very source was already built; the controller may note it as new. */
    method VerifyHostMilestone(environment: Environment) returns (cancelled: bool, built: bool, material: bool)
      requires Inv() && CacheOk() && LogOk()
      modifies this`buildAttempted, this`buildPassed, this`lastBuild, this`simulationPassed, this`lastSimulation,
               this`acceptanceEvidence, this`requirementReport, this`requirementChecks, this`repairGroups,
               this`seenBuildPairs, this`lastBuiltSource, this`buildRuns, this`failedKeys, this`observations
      modifies world`revision, world`files, world`edits, world`compiled
      ensures Inv() && CacheOk() && LogOk() && old(observations) <= observations
      ensures built ==> observations != [] && buildRuns == old(buildRuns) + 1
      ensures !cancelled && !built ==>
                buildAttempted == old(buildAttempted) && buildPassed == old(buildPassed) && buildRuns == old(buildRuns)
    {
      built, material := false, false;
      var allowed: bool := *;
      if !durable || !allowed {
        return false, false, false;
      }
      cancelled := world.Await();
      if cancelled || lastBuiltSource == Some(world.revision) { return; }
      cancelled := world.Await();
      if cancelled { return; }
      var observation;
      cancelled, observation := BuildOnce(environment);
      if cancelled { return; }
      Observe(observation);
      built := true;
      material := *;
    }

    method ExecuteAll(tools: seq<Tool>, environment: Environment) returns (results: seq<Observation>)
      requires Inv() && CacheOk() && LogOk()
      modifies this`buildAttempted, this`buildPassed, this`lastBuild, this`simulationPassed, this`lastSimulation,
               this`acceptanceEvidence, this`requirementReport, this`requirementChecks, this`repairGroups,
               this`seenBuildPairs, this`lastBuiltSource, this`buildRuns, this`failedKeys, this`failedBuildCache,
               this`disturbedKeys, this`transientRetries, this`retries, this`observations, this`requirementReminders
      modifies world`revision, world`files, world`edits, world`compiled
      ensures Inv() && CacheOk() && LogOk() && old(observations) <= observations
      ensures |results| == |tools| && forall i :: 0 <= i < |tools| ==> results[i].tool == tools[i]
    {
      results := [];
      for i := 0 to |tools|
        invariant Inv() && CacheOk() && LogOk() && old(observations) <= observations
        invariant |results| == i && forall j :: 0 <= j < i ==> results[j].tool == tools[j]
      {
        var observation := ExecuteInvocation(tools[i], environment);
        results := results + [observation];
      }
    }

    method JudgeResults(results: seq<Observation>, ghost requireBuild: bool, ghost requireSimulation: bool)
      returns (cancelled: bool, stop: Option<RunResult>, judged: Judgement)
      requires Inv() && LogOk()
      modifies this`buildAttempted, this`buildPassed, this`lastBuild, this`simulationPassed, this`lastSimulation,
               this`acceptanceEvidence, this`requirementReport, this`requirementChecks, this`observations
      modifies world`revision, world`files, world`edits
      ensures Inv() && LogOk() && old(observations) <= observations
      ensures !cancelled && stop.Some? ==> Sound(stop.value, requireBuild, requireSimulation)
      ensures !cancelled && stop.None? ==> observations == old(observations) + results
    {
      cancelled, stop, judged := false, None, Judgement(false, false, false, false);
      for i := 0 to |results|
        invariant Inv() && LogOk() && observations == old(observations) + results[..i]
      {
        var o := results[i];
        var novel: bool, newError: bool, blocked: bool, material: bool := *, *, *, *;
        var built := o.tool.BuildTool? && o.completed && !o.cached;
        var meaningful := o.changed || (o.tool.BuildTool? && o.completed && Succeeded(o.build)) || (built && newError)
                          || (o.tool.SimulateTool? && o.completed);
        judged := Judgement(judged.made || meaningful || novel, judged.meaningful || meaningful, judged.built || built,
                            judged.material || material);
        if o.tool.PlanTool? {
          cancelled := world.Await();
          if cancelled { return; }
        }
        Observe(o);
        if TerminalBuild(o) || blocked {
          stop := Fail(TerminalFailure, requireBuild, requireSimulation);
          return;
        }
      }
    }

    static predicate Writes(tools: seq<Tool>) { exists i :: 0 <= i < |tools| && tools[i].WriteTool? }
    static predicate Builds(tools: seq<Tool>) { exists i :: 0 <= i < |tools| && tools[i].BuildTool? }
    static predicate OnlyBuilds(tools: seq<Tool>) {
      tools != [] && forall i :: 0 <= i < |tools| ==> tools[i].BuildTool?
    }

    method ToolPhase(turn: int, tools: seq<Tool>, requireBuild: bool, requireSimulation: bool, environment: Environment,
                     verifiedTurn: Option<int>)
      returns (cancelled: bool, stop: Option<RunResult>, judged: Judgement, verified: Option<int>)
      requires Inv() && CacheOk() && LogOk()
      modifies this`buildAttempted, this`buildPassed, this`lastBuild, this`simulationPassed, this`lastSimulation,
               this`acceptanceEvidence, this`requirementReport, this`requirementChecks, this`repairGroups,
               this`seenBuildPairs, this`lastBuiltSource, this`buildRuns, this`failedKeys, this`failedBuildCache,
               this`disturbedKeys, this`transientRetries, this`retries, this`observations, this`requirementReminders
      modifies world`revision, world`files, world`edits, world`compiled
      ensures Inv() && CacheOk() && LogOk() && old(observations) <= observations
      ensures !cancelled && stop.Some? ==> Sound(stop.value, requireBuild, requireSimulation)
    {
      cancelled, stop, judged, verified := false, None, Judgement(false, false, false, false), verifiedTurn;
      stop := BeforeTools(tools, requireBuild, requireSimulation);
      if stop.Some? { return; }
      var results := ExecuteAll(tools, environment);
      cancelled, stop, judged := JudgeResults(results, requireBuild, requireSimulation);
      if cancelled || stop.Some? { return; }
      cancelled, stop, judged := MilestoneAndDeadline(judged, requireBuild, requireSimulation, environment);
      if cancelled || stop.Some? { return; }
      stop, verified := IdleAfterBuild(turn, tools, requireBuild, requireSimulation, verifiedTurn);
    }

    /** Repeating builds on a verified build finishes a task with no review outstanding; tools may also be refused. */
    method BeforeTools(tools: seq<Tool>, requireBuild: bool, requireSimulation: bool) returns (stop: Option<RunResult>)
      requires Inv()
      modifies this`buildAttempted, this`buildPassed, this`lastBuild, this`simulationPassed, this`lastSimulation,
               this`acceptanceEvidence, this`requirementReport, this`requirementChecks
      ensures Inv()
      ensures stop.Some? ==> Sound(stop.value, requireBuild, requireSimulation)
    {
      stop := None;
      if requireBuild && !reviewRequired && contract.None? && !requireSimulation && OnlyBuilds(tools) {
        var current := RefreshVerification();
        if current {
          var r := Result(true, Completed, requireBuild, requireSimulation);
          return Some(r);
        }
      }
      var admitted: bool := *;
      if !admitted {
        stop := Fail(ToolLoop, requireBuild, requireSimulation);
      }
    }

    method MilestoneAndDeadline(before: Judgement, requireBuild: bool, ghost requireSimulation: bool,
                                environment: Environment)
      returns (cancelled: bool, stop: Option<RunResult>, judged: Judgement)
      requires Inv() && CacheOk() && LogOk()
      modifies this`buildAttempted, this`buildPassed, this`lastBuild, this`simulationPassed, this`lastSimulation,
               this`acceptanceEvidence, this`requirementReport, this`requirementChecks, this`repairGroups,
               this`seenBuildPairs, this`lastBuiltSource, this`buildRuns, this`failedKeys, this`observations
      modifies world`revision, world`files, world`edits, world`compiled
      ensures Inv() && CacheOk() && LogOk() && old(observations) <= observations
      ensures !cancelled && stop.Some? ==> Sound(stop.value, requireBuild, requireSimulation)
    {
      cancelled, stop, judged := false, None, before;
      var due: bool, expired: bool := *, *;
      if requireBuild && due {
        var built, material;
        cancelled, built, material := VerifyHostMilestone(environment);
        if cancelled { return; }
        if built {
          judged := judged.(built := true, material := judged.material || material);
          if TerminalBuild(observations[|observations| - 1]) {
            stop := Fail(TerminalFailure, requireBuild, requireSimulation);
            return;
          }
        }
      }
      if expired {
        stop := Fail(LimitReached, requireBuild, requireSimulation);
      }
    }

    /** Once a build is verified, a later turn that writes nothing finishes a task with no review outstanding. */
    method IdleAfterBuild(turn: int, tools: seq<Tool>, requireBuild: bool, requireSimulation: bool,
                          verifiedTurn: Option<int>)
      returns (stop: Option<RunResult>, verified: Option<int>)
      requires Inv()
      modifies this`buildAttempted, this`buildPassed, this`lastBuild, this`simulationPassed, this`lastSimulation,
               this`acceptanceEvidence, this`requirementReport, this`requirementChecks
      ensures Inv()
      ensures stop.Some? ==> Sound(stop.value, requireBuild, requireSimulation)
    {
      stop, verified := None, verifiedTurn;
      if !requireBuild || requireSimulation { return; }
      var current := RefreshVerification();
      if !current {
        verified := None;
      } else if Builds(tools) {
        verified := Some(turn);
      } else if !reviewRequired && verifiedTurn.Some? && turn > verifiedTurn.value && !Writes(tools)
                && (contract.None? || (requirementReport.Report? && requirementReport.valid)) {
        var r := Result(true, Completed, requireBuild, requireSimulation);
        stop := Some(r);
      }
    }

    // ------------------------------------------------------------ the run

    /** New guidance makes a new task revision: reviews and citations of the old one are dropped. */
    method Steer(updated: Contract)
      requires Inv()
      modifies this`contract, this`requirementReport, this`requirementChecks, this`reviewRevision, this`reviewRequired
      ensures Inv() && contract.Some? == old(contract).Some?
      ensures contract.Some? ==>
                contract == Some(updated) && requirementReport == NoReport && requirementChecks == map[]
                  && reviewRevision == None
    {
      if contract.Some? {
        contract := Some(updated);
        reviewRequired := reviewRequired || updated.complex;
        requirementReport, requirementChecks, reviewRevision := NoReport, map[], None;
      }
    }

    /** The stall, repair and progress bookkeeping at the end of a tool turn. */
    method Decide(turn: int, attempted: bool, passed: bool, judged: Judgement, before: Control)
      returns (after: Control, decision: Decision, t: Turn)
      requires before.structured == structured
      ensures t == Turn(turn, Some((attempted, passed)), judged.built || judged.meaningful,
                        judged.meaningful || (durable && judged.made), judged.made, judged.material)
      ensures (after, decision) == Settle(before, t)
    {
      var rebuilt := judged.built || judged.meaningful;
      var progressed := judged.meaningful || (durable && judged.made);
      t := Turn(turn, Some((attempted, passed)), rebuilt, progressed, judged.made, judged.material);
      var repair := if attempted && !passed && !rebuilt then before.repair + 1 else 0;
      after := before.(attempted := attempted, passed := passed, repair := repair);
      if repair >= REPAIR_LIMIT {
        return after, RepairExhausted, t;
      }
      var progress := before.progress;
      if progressed {
        progress := progress + [turn];
      }
      var made := judged.made;
      if structured && !passed {
        made := before.material || judged.material;
      }
      var stall, verdict := DecideStall(before.stall, made, turn);
      after := after.(material := false, stall := stall, progress := progress);
      decision := if verdict.NoProgress? then Stalled else Decision.Continue(verdict);
    }

    /** The stall counters at the end of a tool turn. */
    method DecideStall(before: Stall, made: bool, turn: int) returns (after: Stall, verdict: Verdict)
      ensures (after, verdict) == SettleStall(before, made, turn)
    {
      if made {
        return FRESH_STALL, Go;
      }
      var stalled := before.turns + 1;
      after, verdict := before.(turns := stalled), Go;
      if stalled == 2 {
        verdict := Warn;
      } else if stalled >= 3 {
        if before.reorientedAt.None? {
          after, verdict := Stall(stalled, Some(turn)), Reorient;
        } else if stalled >= 5 || turn - before.reorientedAt.value >= 2 {
          verdict := NoProgress;
        }
      }
    }

    /** Acts on the decision: a hint for the model, or the end of the run. */
    method SettleTurn(turn: int, judged: Judgement, requireBuild: bool, ghost requireSimulation: bool,
                      before: Control)
      returns (cancelled: bool, stop: Option<RunResult>, after: Control)
      requires Inv() && LogOk() && before.structured == structured
      modifies this`buildAttempted, this`buildPassed, this`lastBuild, this`simulationPassed, this`lastSimulation,
               this`acceptanceEvidence, this`requirementReport, this`requirementChecks, this`observations,
               this`completionReminders, this`settledTurns
      modifies world`revision, world`files, world`edits
      ensures Inv() && LogOk() && old(observations) <= observations
      ensures settledTurns != [] && settledTurns[..|settledTurns| - 1] == old(settledTurns)
      ensures var t := settledTurns[|settledTurns| - 1];
              && t.turn == turn && t.build == Some((requireBuild && old(buildAttempted), old(buildPassed)))
              && t.rebuilt == (judged.built || judged.meaningful)
              && t.progressed == (judged.meaningful || (durable && judged.made))
              && t.judged == judged.made && t.material == judged.material
              && after == Settle(before, t).0 && Acts(Settle(before, t).1, cancelled, stop)
    {
      var decision, t;
      after, decision, t := Decide(turn, requireBuild && buildAttempted, buildPassed, judged, before);
      settledTurns := settledTurns + [t];
      cancelled, stop := ActOn(decision, after.stall == FRESH_STALL, requireBuild, requireSimulation);
    }

    method ActOn(decision: Decision, made: bool, ghost requireBuild: bool, ghost requireSimulation: bool)
      returns (cancelled: bool, stop: Option<RunResult>)
      requires Inv() && LogOk()
      modifies this`buildAttempted, this`buildPassed, this`lastBuild, this`simulationPassed, this`lastSimulation,
               this`acceptanceEvidence, this`requirementReport, this`requirementChecks, this`observations,
               this`completionReminders
      modifies world`revision, world`files, world`edits
      ensures Inv() && LogOk() && old(observations) <= observations && Acts(decision, cancelled, stop)
    {
      cancelled, stop := false, None;
      match decision {
        case Continue(verdict) =>
          if made {
            completionReminders := 0;
          } else if verdict != Go {
            Observe(Note(ReadTool, true));
            cancelled := world.Await();
          }
        case RepairExhausted => stop := Fail(RepairsExhausted, requireBuild, requireSimulation);
        case Stalled => stop := Fail(NoProgressLeft, requireBuild, requireSimulation);
      }
    }

    /** A decision to stop ends the turn, and the run, with its own classification. */
    static predicate Acts(d: Decision, cancelled: bool, stop: Option<RunResult>) {
      && (d.Continue? <==> stop.None?)
      && (stop.Some? ==> !cancelled && !stop.value.success)
      && (d.RepairExhausted? ==> stop.Some? && stop.value.classification == RepairsExhausted)
      && (d.Stalled? ==> stop.Some? && stop.value.classification == NoProgressLeft)
    }

    /** Guidance that arrived since the last turn. */
    method TakeGuidance() returns (raised: bool)
      requires Inv() && LogOk()
      modifies this`contract, this`requirementReport, this`requirementChecks, this`reviewRevision,
               this`reviewRequired, this`observations
      modifies world`revision, world`files, world`edits
      ensures Inv() && LogOk() && old(observations) <= observations
    {
      var steered: bool, updated: Contract := *, *;
      if !steered {
        return false;
      }
      Steer(updated);
      raised := world.Await();
      if raised { return; }
      Observe(Note(ReadTool, true));
      raised := world.Await();
    }

    /** A failed request ends the run; after some failures settled source is built once more for the record. */
    method PlannerFailed(requireBuild: bool, ghost requireSimulation: bool, environment: Environment)
      returns (raised: bool, stop: Option<RunResult>)
      requires Inv() && CacheOk() && LogOk()
      modifies this`buildAttempted, this`buildPassed, this`lastBuild, this`simulationPassed, this`lastSimulation,
               this`acceptanceEvidence, this`requirementReport, this`requirementChecks, this`repairGroups,
               this`seenBuildPairs, this`lastBuiltSource, this`buildRuns, this`failedKeys, this`observations
      modifies world`revision, world`files, world`edits, world`compiled
      ensures Inv() && CacheOk() && LogOk() && old(observations) <= observations
      ensures !raised ==> stop.Some? && !stop.value.success
    {
      raised, stop := false, None;
      var recoverable: bool := *;
      if requireBuild && recoverable {
        var built, material;
        raised, built, material := VerifyHostMilestone(environment);
        if raised { return; }
      }
      stop := Fail(ProviderFailure, requireBuild, requireSimulation);
    }

    /** Guidance and compaction; a hand-over to review asks the planner for nothing. */
    method PrepareRequest() returns (raised: bool, handoff: bool)
      requires Inv() && LogOk()
      modifies this`contract, this`requirementReport, this`requirementChecks, this`reviewRevision,
               this`reviewRequired, this`observations, this`compactedCount, this`emitted
      modifies world`revision, world`files, world`edits
      ensures Inv() && LogOk() && old(observations) <= observations
    {
      var tail: int := *;
      handoff := *;
      raised := TakeGuidance();
      if raised { return; }
      var _, delta := CompactObservations(if tail < 0 then 0 else tail);
      raised := world.Await();
    }

    /** What the planner asks for: nothing more to do, or a batch of tool calls. */
    method RequestPlan(requireBuild: bool, ghost requireSimulation: bool, environment: Environment)
      returns (raised: bool, stop: Option<RunResult>, final: bool, tools: seq<Tool>)
      requires Inv() && CacheOk() && LogOk()
      modifies this`buildAttempted, this`buildPassed, this`lastBuild, this`simulationPassed, this`lastSimulation,
               this`acceptanceEvidence, this`requirementReport, this`requirementChecks, this`repairGroups,
               this`seenBuildPairs, this`lastBuiltSource, this`buildRuns, this`failedKeys, this`observations,
               this`compactedCount, this`emitted, this`contract, this`reviewRevision, this`reviewRequired
      modifies world`revision, world`files, world`edits, world`compiled
      ensures Inv() && CacheOk() && LogOk() && old(observations) <= observations
      ensures !raised && stop.Some? ==> !stop.value.success
    {
      stop, final, tools := None, true, [];
      var outOfSteps: bool, failed: bool := *, *;
      var handoff;
      raised, handoff := PrepareRequest();
      if raised || handoff { return; }
      raised := world.Await();
      if raised || outOfSteps {
        raised := true;
        return;
      }
      if failed {
        raised, stop := PlannerFailed(requireBuild, requireSimulation, environment);
        return;
      }
      final := *;
      tools := *;
      raised := world.Await();
    }

    /** At most one more turn was settled: it led from `before` to `after`, and its decision was acted upon. */
    static ghost predicate TurnSettled(earlier: seq<Turn>, turns: seq<Turn>, turn: int, before: Control, after: Control,
                                       outcome: Option<Outcome>)
    {
      if turns == earlier then after == before
      else
        && |turns| == |earlier| + 1 && turns[..|earlier|] == earlier
        && var t := turns[|earlier|];
           && t.turn == turn && after == Settle(before, t).0 && after.structured == before.structured
           && (outcome.None? ==> Settle(before, t).1.Continue?)
           && EndsWith(Settle(before, t).1, outcome)
    }

    /** A decision to stop is the outcome of the run. */
    static predicate EndsWith(d: Decision, outcome: Option<Outcome>) {
      && (d.RepairExhausted? || d.Stalled? ==>
            outcome.Some? && outcome.value.Finished? && !outcome.value.result.success)
      && (d.RepairExhausted? ==> outcome.value.result.classification == RepairsExhausted)
      && (d.Stalled? ==> outcome.value.result.classification == NoProgressLeft)
    }

    /** One turn of the run. */
    method OneTurn(turn: int, requireBuild: bool, requireSimulation: bool, environment: Environment, before: Control,
                   verifiedTurn: Option<int>)
      returns (outcome: Option<Outcome>, after: Control, verified: Option<int>)
      requires Inv() && CacheOk() && LogOk() && before.structured == structured && turn <= budget.limit
      modifies this, world`revision, world`files, world`edits, world`compiled, world`reviewed, world`approved
      ensures Inv() && CacheOk() && LogOk() && old(observations) <= observations
      ensures outcome.Some? && outcome.value.Finished? ==> Sound(outcome.value.result, requireBuild, requireSimulation)
      ensures TurnSettled(old(settledTurns), settledTurns, turn, before, after, outcome)
      ensures settledTurns != old(settledTurns) ==> Admits(budget, before.progress, turn)
    {
      outcome, after, verified := Some(Raised), before, verifiedTurn;
      var cancelled := world.Await();
      if cancelled { return; }
      outcome := None;
      var expired: bool := *;
      var ended := Tested(budget.maxTurns, turn) && !RecentProgress(before.progress, turn);
      if ended || expired {
        var failed := Fail(if ended then MaxTurns else LimitReached, requireBuild, requireSimulation);
        outcome := Some(Finished(failed.value));
        return;
      }
      outcome, after, verified := PlannedTurn(turn, requireBuild, requireSimulation, environment, before, verifiedTurn);
    }

    /** The planner's answer, acted upon. */
    method PlannedTurn(turn: int, requireBuild: bool, requireSimulation: bool, environment: Environment,
                       before: Control, verifiedTurn: Option<int>)
      returns (outcome: Option<Outcome>, after: Control, verified: Option<int>)
      requires Inv() && CacheOk() && LogOk() && before.structured == structured
      modifies this, world`revision, world`files, world`edits, world`compiled, world`reviewed, world`approved
      ensures Inv() && CacheOk() && LogOk() && old(observations) <= observations
      ensures outcome.Some? && outcome.value.Finished? ==> Sound(outcome.value.result, requireBuild, requireSimulation)
      ensures TurnSettled(old(settledTurns), settledTurns, turn, before, after, outcome)
    {
      outcome, after, verified := None, before, verifiedTurn;
      var raised, refused, final, tools := RequestPlan(requireBuild, requireSimulation, environment);
      if raised || refused.Some? {
        outcome := Some(if raised then Raised else Finished(refused.value));
        return;
      }
      var cancelled: bool, finished: Option<RunResult>;
      if final {
        cancelled, finished := FinalPhase(tools != [], requireBuild, requireSimulation, environment);
      } else {
        cancelled, finished, after, verified :=
          ToolTurn(turn, tools, requireBuild, requireSimulation, environment, before, verifiedTurn);
      }
      if cancelled || finished.Some? {
        outcome := Some(if cancelled then Raised else Finished(finished.value));
      }
    }

    method ToolTurn(turn: int, tools: seq<Tool>, requireBuild: bool, requireSimulation: bool,
                    environment: Environment, before: Control, verifiedTurn: Option<int>)
      returns (cancelled: bool, stop: Option<RunResult>, after: Control, verified: Option<int>)
      requires Inv() && CacheOk() && LogOk() && before.structured == structured
      modifies this`buildAttempted, this`buildPassed, this`lastBuild, this`simulationPassed, this`lastSimulation,
               this`acceptanceEvidence, this`requirementReport, this`requirementChecks, this`repairGroups,
               this`seenBuildPairs, this`lastBuiltSource, this`buildRuns, this`failedKeys, this`failedBuildCache,
               this`disturbedKeys, this`transientRetries, this`retries, this`observations, this`requirementReminders,
               this`completionReminders, this`settledTurns
      modifies world`revision, world`files, world`edits, world`compiled
      ensures Inv() && CacheOk() && LogOk() && old(observations) <= observations
      ensures !cancelled && stop.Some? ==> Sound(stop.value, requireBuild, requireSimulation)
      ensures TurnSettled(old(settledTurns), settledTurns, turn, before, after, TurnOutcome(cancelled, stop))
    {
      after := before;
      var judged;
      cancelled, stop, judged, verified :=
        ToolPhase(turn, tools, requireBuild, requireSimulation, environment, verifiedTurn);
      if cancelled || stop.Some? { return; }
      cancelled, stop, after := EndTurn(turn, judged, requireBuild, requireSimulation, before);
    }

    /** The end of a tool turn that did not end the run by itself. */
    method EndTurn(turn: int, judged: Judgement, requireBuild: bool, ghost requireSimulation: bool, before: Control)
      returns (cancelled: bool, stop: Option<RunResult>, after: Control)
      requires Inv() && LogOk() && before.structured == structured
      modifies this`buildAttempted, this`buildPassed, this`lastBuild, this`simulationPassed, this`lastSimulation,
               this`acceptanceEvidence, this`requirementReport, this`requirementChecks, this`observations,
               this`completionReminders, this`settledTurns
      modifies world`revision, world`files, world`edits
      ensures Inv() && LogOk() && old(observations) <= observations
      ensures stop.Some? ==> !stop.value.success
      ensures TurnSettled(old(settledTurns), settledTurns, turn, before, after, TurnOutcome(cancelled, stop))
    {
      ghost var earlier := settledTurns;
      cancelled, stop, after := SettleTurn(turn, judged, requireBuild, requireSimulation, before);
      ActedUpon(earlier, settledTurns, turn, before, after, cancelled, stop);
    }

    /** A settled turn whose decision was acted upon, as the run sees it. */
    static lemma ActedUpon(earlier: seq<Turn>, turns: seq<Turn>, turn: int, before: Control, after: Control,
                           cancelled: bool, stop: Option<RunResult>)
      requires turns != [] && turns[..|turns| - 1] == earlier && turns[|turns| - 1].turn == turn
      requires var t := turns[|turns| - 1]; after == Settle(before, t).0 && Acts(Settle(before, t).1, cancelled, stop)
      ensures TurnSettled(earlier, turns, turn, before, after, TurnOutcome(cancelled, stop))
    {
    }

    static function TurnOutcome(cancelled: bool, stop: Option<RunResult>): Option<Outcome> {
      if cancelled then Some(Raised) else if stop.Some? then Some(Finished(stop.value)) else None
    }


    /**
     One run. Whatever the planner asks for, whatever the tools answer, however the workspace changes at the awaits
     and wherever a call is cancelled: a success is backed by evidence for the final workspace, and the tool turns
     that were settled are a run of the stall control that began where resuming the checkpoint left it, each of them
     admitted by the turn budget.
     */
    method Run(requireBuild: bool, requireSimulation: bool, environment: Environment, firstTurn: nat, saved: Checkpoint)
      returns (outcome: Outcome, ghost recorded: bool, ghost rebuild: Rebuild)
      requires Inv() && CacheOk() && LogOk() && !buildPassed && !buildAttempted && settledTurns == []
      modifies this, world`revision, world`files, world`edits, world`compiled, world`reviewed, world`approved
      ensures Inv() && CacheOk() && LogOk() && old(observations) <= observations
      ensures outcome.Finished? ==> Sound(outcome.result, requireBuild, requireSimulation)
      ensures recorded ==> requireBuild && Succeeded(LastBuildOf(old(observations)))
      ensures Controlled(Resume(saved, structured, recorded, rebuild), settledTurns, outcome)
      ensures WithinBudget(budget, Resume(saved, structured, recorded, rebuild), settledTurns)
    {
      var ended, control;
      outcome, ended, control, recorded, rebuild := Resumption(requireBuild, requireSimulation, environment, saved);
      if ended { return; }
      var stop, after, turn := Turns(requireBuild, requireSimulation, environment, firstTurn, control);
      outcome := Exhaust(stop, control, after, turn, requireBuild, requireSimulation);
    }

    /** The turns of a run, up to its limit or its first outcome. */
    method Turns(requireBuild: bool, requireSimulation: bool, environment: Environment, firstTurn: nat, start: Control)
      returns (stop: Option<Outcome>, control: Control, turn: int)
      requires Inv() && CacheOk() && LogOk()
      requires Underway(start, start, firstTurn, None, requireBuild, requireSimulation)
      modifies this, world`revision, world`files, world`edits, world`compiled, world`reviewed, world`approved
      ensures Inv() && CacheOk() && LogOk() && old(observations) <= observations
      ensures Underway(start, control, turn, stop, requireBuild, requireSimulation)
      ensures stop.None? ==> turn > budget.limit
    {
      var verifiedTurn: Option<int> := None;
      stop, control, turn := None, start, firstTurn;
      while stop.None? && turn <= budget.limit
        invariant Inv() && CacheOk() && LogOk() && old(observations) <= observations
        invariant Underway(start, control, turn, stop, requireBuild, requireSimulation)
        decreases budget.limit - turn, if stop.None? then 1 else 0
      {
        stop, control, verifiedTurn :=
          NextTurn(turn, requireBuild, requireSimulation, environment, control, verifiedTurn, start);
        turn := turn + 1;
      }
    }

    /** Between two turns of a run: it may go on, or it has an outcome. */
    ghost predicate Underway(start: Control, control: Control, turn: int, stop: Option<Outcome>, requireBuild: bool,
                             requireSimulation: bool)
      reads this, world
    {
      match stop
      case None => InStep(budget, start, settledTurns, control, turn) && start.structured == structured
      case Some(outcome) =>
        && (outcome.Finished? ==> Sound(outcome.result, requireBuild, requireSimulation))
        && Controlled(start, settledTurns, outcome) && WithinBudget(budget, start, settledTurns)
    }

    /** A run that used up its turns without an outcome ends with one of its own. */
    method Exhaust(stop: Option<Outcome>, ghost start: Control, ghost control: Control, ghost turn: int,
                   requireBuild: bool, ghost requireSimulation: bool)
      returns (outcome: Outcome)
      requires Inv() && Underway(start, control, turn, stop, requireBuild, requireSimulation)
      modifies this`buildAttempted, this`buildPassed, this`lastBuild, this`simulationPassed, this`lastSimulation,
               this`acceptanceEvidence, this`requirementReport, this`requirementChecks
      ensures Inv() && (outcome.Finished? ==> Sound(outcome.result, requireBuild, requireSimulation))
      ensures Controlled(start, settledTurns, outcome) && WithinBudget(budget, start, settledTurns)
      ensures stop.Some? ==> outcome == stop.value
      ensures stop.None? ==> outcome.Finished? && outcome.result.classification == MaxTurns && !outcome.result.success
    {
      if stop.Some? {
        return stop.value;
      }
      var exhausted := Fail(MaxTurns, requireBuild, requireSimulation);
      outcome := Finished(exhausted.value);
      LedIsControlled(start, settledTurns, control, turn, outcome);
    }

    /** One more turn of a run that began in `start`. */
    method NextTurn(turn: int, requireBuild: bool, requireSimulation: bool, environment: Environment, before: Control,
                    verifiedTurn: Option<int>, ghost start: Control)
      returns (stop: Option<Outcome>, after: Control, verified: Option<int>)
      requires Inv() && CacheOk() && LogOk() && turn <= budget.limit
      requires Underway(start, before, turn, None, requireBuild, requireSimulation)
      modifies this, world`revision, world`files, world`edits, world`compiled, world`reviewed, world`approved
      ensures Inv() && CacheOk() && LogOk() && old(observations) <= observations
      ensures Underway(start, after, turn + 1, stop, requireBuild, requireSimulation)
    {
      ghost var earlier := settledTurns;
      stop, after, verified := OneTurn(turn, requireBuild, requireSimulation, environment, before, verifiedTurn);
      LedOn(start, earlier, before, turn, settledTurns, after, stop, budget);
    }

    /** Every turn but the last was decided to continue, and what the last one decided is the outcome. */
    static ghost predicate Controlled(start: Control, turns: seq<Turn>, outcome: Outcome) {
      && Increasing(turns)
      && (turns != [] ==>
            var n := |turns| - 1;
            AllContinue(start, turns[..n]) && EndsWith(DecisionAt(start, turns, n), Some(outcome)))
    }

    /** The tool turns so far, all before `turn` and all decided to continue, lead from `start` to `control`. */
    static ghost predicate Led(start: Control, turns: seq<Turn>, control: Control, turn: int) {
      && Increasing(turns) && AllContinue(start, turns) && After(start, turns) == control
      && forall i :: 0 <= i < |turns| ==> turns[i].turn < turn
    }

    /** Moreover, each of them was admitted by the budget, in the run's one mode. */
    static ghost predicate InStep(budget: Budget, start: Control, turns: seq<Turn>, control: Control, turn: int) {
      Led(start, turns, control, turn) && WithinBudget(budget, start, turns) && control.structured == start.structured
    }

    static lemma LedIsControlled(start: Control, turns: seq<Turn>, control: Control, turn: int, outcome: Outcome)
      requires Led(start, turns, control, turn)
      ensures Controlled(start, turns, outcome)
    {
      if turns != [] {
        var init := turns[..|turns| - 1];
        assert DecisionAt(start, turns, |turns| - 1).Continue?;
        forall i | 0 <= i < |init| ensures DecisionAt(start, init, i).Continue? {
          assert init[..i] == turns[..i];
          assert DecisionAt(start, turns, i).Continue?;
        }
      }
    }

    static lemma LedOn(start: Control, earlier: seq<Turn>, before: Control, turn: int, turns: seq<Turn>, after: Control,
                       outcome: Option<Outcome>, budget: Budget)
      requires InStep(budget, start, earlier, before, turn) && TurnSettled(earlier, turns, turn, before, after, outcome)
      requires turns != earlier ==> Admits(budget, before.progress, turn)
      ensures WithinBudget(budget, start, turns)
      ensures outcome.Some? ==> Controlled(start, turns, outcome.value)
      ensures outcome.None? ==> InStep(budget, start, turns, after, turn + 1)
    {
      if turns == earlier {
        if outcome.Some? {
          LedIsControlled(start, turns, after, turn, outcome.value);
        }
      } else {
        assert turns == earlier + [turns[|earlier|]];
        OneMoreAdmitted(budget, start, earlier, turns[|earlier|]);
        LedAppended(start, earlier, before, turn, turns, turns[|earlier|], outcome);
      }
    }

    static lemma LedAppended(start: Control, earlier: seq<Turn>, before: Control, turn: int, turns: seq<Turn>, t: Turn,
                             outcome: Option<Outcome>)
      requires Led(start, earlier, before, turn) && t.turn == turn
      requires |turns| == |earlier| + 1 && turns[..|earlier|] == earlier && turns[|earlier|] == t
      ensures outcome.Some? && EndsWith(Settle(before, t).1, outcome) ==> Controlled(start, turns, outcome.value)
      ensures Settle(before, t).1.Continue? ==> Led(start, turns, Settle(before, t).0, turn + 1)
    {
      assert turns == earlier + [t];
      OneMoreTurn(start, earlier, t);
    }

    /** From a fresh start no run settles more than five unproductive tool turns in a row; the fifth ends it. */
    static lemma NoRunIdlesOn(structured: bool, turns: seq<Turn>, outcome: Outcome, n: nat)
      requires Controlled(Fresh(structured), turns, outcome) && 0 < n <= |turns|
      ensures Streak(Fresh(structured), turns[..n]) <= 5
      ensures Streak(Fresh(structured), turns[..n]) == 5 ==>
                && n == |turns| && outcome.Finished? && !outcome.result.success
                && (outcome.result.classification == NoProgressLeft
                    || outcome.result.classification == RepairsExhausted)
    {
      var c, init := Fresh(structured), turns[..|turns| - 1];
      if n < |turns| {
        assert init[..n] == turns[..n];
        forall i | 0 <= i < n ensures DecisionAt(c, turns[..n], i) == DecisionAt(c, init, i) {
          assert turns[..n][..i] == init[..i];
        }
        StallCountsTheStreak(structured, turns[..n]);
      } else {
        assert turns[..n] == turns;
        FiveUnproductiveTurnsStop(structured, turns);
      }
    }

    /**
     A run that resumes alike is decided as the saved loop would have been: if its turns had these effects and this
     outcome, the same effects and outcome are a run of the stall control from the saved state.
     */
    static lemma ResumedRunIsControlled(c: Control, recorded: bool, rebuild: Rebuild, effects: seq<Turn>,
                                        outcome: Outcome)
      requires Settled(c) && ResumesAlike(c, recorded, rebuild)
      requires var r := Resumed(c, recorded, rebuild); Controlled(r, Resolved(r, effects), outcome)
      ensures Controlled(c, Resolved(c, effects), outcome)
    {
      var r := Resumed(c, recorded, rebuild);
      ResumedStateIsAlikeIff(c, recorded, rebuild);
      ControlledEffects(r, effects, outcome);
      if effects != [] {
        var n := |effects| - 1;
        AlikeStatesStayAlike(r, c, effects[..n]);
        AlikeStatesStepAlike(After(r, effects[..n]), After(c, effects[..n]), effects[n]);
      }
      ControlledEffects(c, effects, outcome);
    }

    /** Whether effects are a controlled run does not depend on how the status they left is recorded. */
    static lemma ControlledEffects(c: Control, effects: seq<Turn>, outcome: Outcome)
      ensures Controlled(c, Resolved(c, effects), outcome) <==> Controlled(c, effects, outcome)
    {
      var turns := Resolved(c, effects);
      if effects != [] {
        var n := |effects| - 1;
        ResolvedDecision(c, effects, n);
        forall i | 0 <= i < n ensures DecisionAt(c, turns[..n], i) == DecisionAt(c, effects[..n], i) {
          InitDecision(c, turns, i);
          InitDecision(c, effects, i);
          ResolvedDecision(c, effects, i);
        }
      }
    }

    /**
     What precedes the first turn: configuration and dependency checks, and one build of a resumed draft whose newest
     build record is a success. `rebuild` is the status that build left.
     */
    method Resumption(requireBuild: bool, requireSimulation: bool, environment: Environment, saved: Checkpoint)
      returns (outcome: Outcome, ended: bool, control: Control, recorded: bool, rebuild: Rebuild)
      requires Inv() && CacheOk() && LogOk() && !buildPassed && !buildAttempted
      modifies this`buildAttempted, this`buildPassed, this`lastBuild, this`simulationPassed, this`lastSimulation,
               this`acceptanceEvidence, this`requirementReport, this`requirementChecks, this`repairGroups,
               this`seenBuildPairs, this`lastBuiltSource, this`buildRuns, this`failedKeys, this`observations
      modifies world`revision, world`files, world`edits, world`compiled
      ensures Inv() && CacheOk() && LogOk() && old(observations) <= observations
      ensures ended && outcome.Finished? ==> !outcome.result.success
      ensures control == Resume(saved, structured, recorded, rebuild)
      ensures recorded ==> requireBuild && Succeeded(LastBuildOf(old(observations)))
      ensures rebuild.Rebuilt? ==> recorded && buildRuns == old(buildRuns) + 1
      ensures !ended ==> control.passed == buildPassed && control.attempted == (requireBuild && buildAttempted)
    {
      outcome, ended, recorded, rebuild := Raised, true, false, NotRebuilt;
      control := Resume(saved, structured, recorded, rebuild);
      var cancelled := world.Await();
      if cancelled { return; }
      if requireBuild {
        var stop: Option<RunResult>;
        cancelled, stop, recorded, rebuild := ResumedBuilds(requireBuild, requireSimulation, environment);
        control := Resume(saved, structured, recorded, rebuild);
        if cancelled { return; }
        if stop.Some? {
          outcome := Finished(stop.value);
          return;
        }
      }
      ended := false;
    }

    method ResumedBuilds(requireBuild: bool, ghost requireSimulation: bool, environment: Environment)
      returns (cancelled: bool, stop: Option<RunResult>, recorded: bool, rebuild: Rebuild)
      requires Inv() && CacheOk() && LogOk() && !buildPassed && !buildAttempted
      modifies this`buildAttempted, this`buildPassed, this`lastBuild, this`simulationPassed, this`lastSimulation,
               this`acceptanceEvidence, this`requirementReport, this`requirementChecks, this`repairGroups,
               this`seenBuildPairs, this`lastBuiltSource, this`buildRuns, this`failedKeys, this`observations
      modifies world`revision, world`files, world`edits, world`compiled
      ensures Inv() && CacheOk() && LogOk() && old(observations) <= observations
      ensures stop.Some? ==> !stop.value.success
      ensures recorded ==> Succeeded(LastBuildOf(old(observations)))
      ensures rebuild.Rebuilt? ==> recorded && buildRuns == old(buildRuns) + 1
      ensures !cancelled && stop.None? ==>
                if rebuild.Rebuilt? then rebuild.attempted == buildAttempted && rebuild.passed == buildPassed
                else !buildAttempted && !buildPassed
    {
      stop, recorded, rebuild := None, false, NotRebuilt;
      var blocked: Option<Observation>;
      cancelled, blocked := ResumedChecks(environment);
      if cancelled { return; }
      if blocked.Some? && TerminalBuild(blocked.value) {
        stop := Fail(TerminalFailure, requireBuild, requireSimulation);
        return;
      }
      recorded := Succeeded(LastBuildOf(observations));
      if recorded {
        cancelled, stop, rebuild := RebuildDraft(requireBuild, requireSimulation, environment);
      }
    }

    /** Builds the draft again, since a saved success is no evidence; an unrepairable failure ends the run. */
    method RebuildDraft(requireBuild: bool, ghost requireSimulation: bool, environment: Environment)
      returns (cancelled: bool, stop: Option<RunResult>, rebuild: Rebuild)
      requires Inv() && CacheOk() && LogOk() && !buildPassed && !buildAttempted
      modifies this`buildAttempted, this`buildPassed, this`lastBuild, this`simulationPassed, this`lastSimulation,
               this`acceptanceEvidence, this`requirementReport, this`requirementChecks, this`repairGroups,
               this`seenBuildPairs, this`lastBuiltSource, this`buildRuns, this`failedKeys, this`observations
      modifies world`revision, world`files, world`edits, world`compiled
      ensures Inv() && CacheOk() && LogOk() && old(observations) <= observations
      ensures stop.Some? ==> !stop.value.success
      ensures rebuild.Rebuilt? ==> buildRuns == old(buildRuns) + 1
      ensures !cancelled && stop.None? ==>
                if rebuild.Rebuilt? then rebuild.attempted == buildAttempted && rebuild.passed == buildPassed
                else !buildAttempted && !buildPassed
    {
      stop, rebuild := None, NotRebuilt;
      var built, material;
      cancelled, built, material := VerifyHostMilestone(environment);
      if cancelled { return; }
      if built {
        rebuild := Rebuilt(buildAttempted, buildPassed, material);
      }
      if observations != [] && TerminalBuild(observations[|observations| - 1]) {
        stop := Fail(TerminalFailure, requireBuild, requireSimulation);
      }
    }

    method ResumedChecks(environment: Environment) returns (cancelled: bool, blocked: Option<Observation>)
      requires Inv() && LogOk() && !buildPassed && !buildAttempted
      modifies this`buildAttempted, this`buildPassed, this`lastBuild, this`simulationPassed, this`lastSimulation,
               this`acceptanceEvidence, this`requirementReport, this`requirementChecks, this`repairGroups,
               this`observations
      modifies world`revision, world`files, world`edits
      ensures Inv() && LogOk() && !buildPassed && !buildAttempted && old(observations) <= observations
      ensures Succeeded(LastBuildOf(observations)) ==> Succeeded(LastBuildOf(old(observations)))
    {
      cancelled, blocked := ConfigurationPrerequisite();
      if cancelled { return; }
      if blocked.Some? {
        Observe(blocked.value);
        assert !Succeeded(LastBuildOf(observations));
      }
      blocked := None;
      var rechecks: bool := *;
      if rechecks {
        cancelled, blocked := PreflightDependencies(environment);
        if cancelled { return; }
        if blocked.Some? {
          Observe(blocked.value);
          assert !Succeeded(LastBuildOf(observations));
        }
      }
    }

    /** From a new loop on, no source and environment is ever built twice as a transient retry. */
    lemma OneRetryPerKey(key: Key)
      requires CacheOk()
      ensures retries[key] <= 1 && (retries[key] == 1 ==> key in transientRetries)
    {
    }
  }
}
