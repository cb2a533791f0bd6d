/** Everything outside the agent loop that can act while the loop is suspended. */
module AgentWorld {
  import opened Common
  import opened AgentRecords

  /** What the build service answers: it may name the source revision it actually compiled. */
  datatype Compilation =
    | Threw(failure: Fault)
    | Compiled(success: bool, fault: Fault, boardSupported: bool, path: Option<Path>, elf: Option<Path>,
               source: Option<Revision>)

  /** How a build or a dependency check failed, as its caller records it. */
  datatype Fault = Fault(code: ErrorCode, terminal: bool, transient: bool, group: nat, hasErrors: bool)

  function FailedBuild(f: Fault): (b: Build)
    ensures b.Build?
  {
    FAILURE.(code := f.code, terminal := f.terminal, transient := f.transient, group := f.group,
             hasErrors := f.hasErrors)
  }

  class World {
    var revision: Revision            // of the workspace at this moment
    var files: map<Path, Digest>      // build images on disk at this moment
    const reportsSource: bool         // whether the build service names the revision it compiled
    const resolves: (Citation, Revision) -> bool              // whether a citation checks against a source
    const covers: (map<nat, Citation>, Revision) -> bool      // whether citations reference every requirement in it
    ghost var edits: nat              // outside changes of the workspace so far
    ghost var compiled: set<Revision>           // sources that the compiler has accepted
    ghost var reviewed: set<Review>             // requirement reviews that were made, valid or not
    ghost var approved: set<Review>             // completion reviews that were passed

    /** Suspends the caller: anything may change, and the caller may be cancelled instead of resumed. */
    method Await() returns (cancelled: bool)
      modifies this`revision, this`files, this`edits
      ensures edits >= old(edits) && (edits == old(edits) ==> revision == old(revision))
    {
      var r: Revision := *;
      var f: map<Path, Digest> := *;
      if r != revision {
        edits := edits + 1;
      }
      revision, files := r, f;
      cancelled := *;
    }

    /** The agent's own edit of the workspace; cancelling it does not undo it. */
    method Edit() returns (cancelled: bool)
      modifies this`revision, this`files, this`edits
      ensures edits >= old(edits)
    {
      var r: Revision := *;
      revision := r;
      cancelled := Await();
    }

    method Compile() returns (cancelled: bool, result: Compilation)
      modifies this`revision, this`files, this`edits, this`compiled
      ensures edits >= old(edits) && (edits == old(edits) ==> revision == old(revision))
      ensures compiled >= old(compiled)
      ensures result.Compiled? && result.success && reportsSource ==>
                result.source.Some? && result.source.value in compiled
    {
      cancelled := Await();
      var source := revision;
      result := *;
      if result.Compiled? {
        result := result.(source := if reportsSource then Some(source) else None);
        if result.success {
          compiled := compiled + {source};
        }
      }
      var late := Await();
      cancelled := cancelled || late;
    }

    /** An independent requirement review, valid or not. A report that claims a model review names a review that was
        made. */
    method ReviewRequirements() returns (cancelled: bool, report: Option<Report>)
      modifies this`revision, this`files, this`edits, this`reviewed
      ensures reviewed >= old(reviewed)
      ensures report.Some? && report.value.Report? && report.value.modelReviewed && report.value.review.Some? ==>
                report.value.review.value in reviewed
    {
      cancelled := Await();
      report := *;
      if report.Some? && report.value.Report? && report.value.review.Some? {
        reviewed := reviewed + {report.value.review.value};
      }
    }

    /** An independent review of the complete deliverable; it can also fail to finish. */
    method ReviewCompletion(about: Review) returns (cancelled: bool, passed: Option<bool>)
      modifies this`revision, this`files, this`edits, this`approved
      ensures approved >= old(approved)
      ensures passed == Some(true) ==> about in approved
    {
      cancelled := Await();
      passed := *;
      if passed == Some(true) {
        approved := approved + {about};
      }
    }
  }
}
