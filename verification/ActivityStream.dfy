/** The projection of events onto public activity records, and the journal that stores them. */
module ActivityStream {
  import opened Common
  import opened ActivityEvents

  const TEXT_LIMIT := 16000
  const LIST_LIMIT := 100
  const SUMMARY_LIMIT := 1200

  const ALLOWED := [
    "summary", "role", "assignment", "plan_id", "revision", "plan_step_id", "changed_files", "build_passed", "path",
    "command", "environment", "board", "port", "exit_code", "bytes", "created", "modified", "added", "removed",
    "diff", "errors", "warnings", "line", "column", "severity", "diagnostics", "steps", "output", "context_files",
    "memory_count", "skill_count", "recalled_context", "turn", "step", "attempt_id", "tool_call_id", "tool",
    "artifact_id", "build_id"]

  /** Keys that are taken over once more, uncut. */
  const LABELS := ["turn", "step", "attempt_id", "tool_call_id", "tool"]

  /** The run, the correlation and the sequence of the event that opened the attempt. */
  datatype Id = Id(run: Json, identity: Identity, sequence: int)

  datatype Display = DisplayQueued | DisplayRunning | DisplaySuccess | DisplayWarning | DisplayFailed

  /** How a record is named: the interface's state, the public event type and the title. */
  datatype Naming = Naming(state: string, eventType: string, title: string)

  datatype Record = Record(
    id: Id, run: Json, family: string, status: Status, display: Display, startedAt: int, durationMs: Option<int>,
    details: Fields, correlation: Identity, naming: Naming)

  function Cut<T>(s: seq<T>, limit: nat): seq<T> { if |s| <= limit then s else s[..limit] }

  /** What may be copied into the details, cut to size. */
  function Public(key: string, v: Json): Option<Json> {
    match v
    case Text(text) =>
      Some(Text(Cut(if key == "summary" || key == "assignment" then Cut(text, SUMMARY_LIMIT) else text, TEXT_LIMIT)))
    case Items(items) => Some(Items(Cut(items, LIST_LIMIT)))
    case Number(_) | Flag(_) => Some(v)
    case Null | Dict(_) => None
  }

  function Copied(details: Fields, source: Fields, keys: seq<string>): Fields {
    if keys == [] then details
    else
      var n := |keys| - 1;
      var before := Copied(details, source, keys[..n]);
      var v := Public(keys[n], Get(source, keys[n]));
      if v.Some? then before[keys[n] := v.value] else before
  }

  /** `str(v)` for a text; other values do not occur where it is used. */
  function Str(v: Json): string { if v.Text? then v.text else "" }

  function Label(v: Json): bool { v.Number? || v.Flag? || (v.Text? && v.text != "") }

  function Labelled(details: Fields, source: Fields, keys: seq<string>): Fields {
    if keys == [] then details
    else
      var n := |keys| - 1;
      var before := Labelled(details, source, keys[..n]);
      if Label(Get(source, keys[n])) then before[keys[n] := Get(source, keys[n])] else before
  }

  predicate IsOutput(e: Event) { EndsWith(e.kind, "output") && Get(e.fields, "output").Text? }

  function Grown(details: Fields, e: Event, earlier: Fields): Fields {
    if IsOutput(e)
    then details["output" := Text(Tail(Str(Get(earlier, "output")) + Get(e.fields, "output").text, TEXT_LIMIT))]
    else details
  }

  function Message(e: Event): string { Cut(Str(Get(e.fields, "message")), SUMMARY_LIMIT) }

  function Spoken(details: Fields, e: Event, family: string): Fields {
    var summary := StartsWith(e.kind, "thinking.summary") || StartsWith(e.kind, "assistant.summary")
                   || StartsWith(e.kind, "reasoning.summary");
    if family == "subagent" || (family == "thinking" && summary)
    then details["summary" := Text(Message(e))]
    else details
  }

  function Prepared(details: Fields, e: Event, family: string): Fields {
    if family == "context" && !Truthy(Get(details, "summary"))
    then details["summary" := Text(if Truthy(Get(e.fields, "message")) then Message(e)
                                   else "Prepared project context and available tools.")]
    else details
  }

  function Described(details: Fields, e: Event, family: string): Fields {
    if family != "thinking" && family != "run" && !Truthy(Get(details, "summary")) && Truthy(Get(e.fields, "message"))
    then details["summary" := Text(Message(e))]
    else details
  }

  function Summarized(details: Fields, e: Event, family: string): Fields {
    Described(Prepared(Spoken(details, e, family), e, family), e, family)
  }

  function ArgumentsOf(e: Event): Fields {
    var arguments := Get(e.fields, "arguments");
    if arguments.Dict? then arguments.entries else map[]
  }

  const FILES_LIMIT := 32
  const PATH_LIMIT := 1024
  const DESCRIPTION_LIMIT := 300
  const DIGEST_LIMIT := 64

  /** One presented file, if the entry has a path: five keys, each cut to its own size. */
  function PresentedFile(item: Json): Option<Json> {
    if !item.Dict? || !Get(item.entries, "path").Text? || Get(item.entries, "path").text == "" then None
    else
      var f := item.entries;
      Some(Dict(map["path" := Text(Cut(Get(f, "path").text, PATH_LIMIT)),
                    "description" := Text(Cut(Str(Get(f, "description")), DESCRIPTION_LIMIT)),
                    "bytes" := Number(Whole(Get(f, "bytes"))),
                    "sha256" := Text(Cut(Str(Get(f, "sha256")), DIGEST_LIMIT)),
                    "staged" := Flag(Get(f, "staged") == Flag(true))]))
  }

  function PresentedFiles(items: seq<Json>): seq<Json> {
    if items == [] then []
    else
      var n := |items| - 1;
      PresentedFiles(items[..n]) + match PresentedFile(items[n]) { case None => [] case Some(file) => [file] }
  }

  /** The files of a hand-over, at most 32 of those named, and how many they are. */
  function Presented(details: Fields, e: Event): Fields {
    var files := Get(ResultOf(e), "files");
    if Tool(e) != "present_files" || !files.Items? then details
    else
      var safe := PresentedFiles(Cut(files.items, FILES_LIMIT));
      details["files" := Items(safe)]["count" := Number(|safe|)]
  }

  /** The details of a record after an event, given those of its attempt so far. */
  function Details(e: Event, family: string, earlier: Fields, kept: Fields): Fields {
    var copied := Copied(Copied(Copied(kept, ArgumentsOf(e), ALLOWED), ResultOf(e), ALLOWED), e.fields, ALLOWED);
    Labelled(Presented(Summarized(Grown(copied, e, earlier), e, family), e), e.fields, LABELS)
  }

  predicate StepHas(step: Json, status: string) { step.Dict? && Get(step.entries, "status") == Text(status) }

  predicate StepOver(step: Json) {
    StepHas(step, "completed") || StepHas(step, "skipped") || StepHas(step, "cancelled") || StepHas(step, "failed")
  }

  /** A plan is over when every step is. */
  function PlanStatus(details: Fields, otherwise: Status): Status {
    var steps := Get(details, "steps");
    if !steps.Items? || steps.items == [] || !(forall i :: 0 <= i < |steps.items| ==> StepOver(steps.items[i]))
      then otherwise
    else if exists i :: 0 <= i < |steps.items| && StepHas(steps.items[i], "failed") then Failed
    else Completed
  }

  /** A reported start does not reopen what is over, except for plans. */
  function Settled(reported: Status, family: string, before: Option<Status>): Status {
    if before.Some? && Terminal(before.value) && family != "plan" && reported.Running? then before.value else reported
  }

  function DisplayOf(status: Status, details: Fields): Display {
    var warnings := Get(details, "warnings");
    if status.Failed? then DisplayFailed
    else if status.Queued? then DisplayQueued
    else if status.Running? || status.AwaitingApproval? then DisplayRunning
    else if status.Warned? || status.Cancelled? || status.Interrupted? then DisplayWarning
    else if (warnings.Number? && warnings.n > 0) || warnings == Flag(true) then DisplayWarning
    else DisplaySuccess
  }

  function StateOf(family: string, status: Status): string {
    if status.Failed? then "error"
    else if family == "run" && (status.Completed? || status.Warned?) then "completed"
    else if family == "run" && status.Queued? then "idle"
    else if family == "approval" && status.AwaitingApproval? then "waiting_for_approval"
    else if family == "thinking" then "thinking" else if family == "context" then "recalling_context"
    else if family == "plan" then "planning" else if family == "file.read" then "reading"
    else if family == "file.edit" then "editing" else if family == "search" then "searching"
    else if family == "command" then "running_command" else if family == "build" then "building"
    else if family == "test" || family == "simulation" then "testing"
    else if family == "build.repair" || family == "project.repair" then "repairing"
    else "tool_call"
  }

  function RunEventType(status: Status): string {
    match status
    case Completed | Cancelled | Warned => "agent.completed"
    case Failed => "agent.error"
    case Interrupted => "agent.interrupted"
    case Queued | Running | AwaitingApproval => "agent.started"
  }

  function Suffix(status: Status): string {
    match status
    case Queued => "queued" case Running => "started" case Completed | Warned => "completed" case Failed => "failed"
    case Cancelled => "cancelled" case Interrupted => "interrupted" case AwaitingApproval => "required"
  }

  /** The public lifecycle name of an event. */
  function EventType(family: string, status: Status, details: Fields): string {
    if family == "thinking" then if status.Completed? then "thinking.summary" else "thinking.started"
    else if family == "context" then if status.Completed? then "context.completed" else "context.started"
    else if family == "plan" then if status.Completed? then "plan.created" else "plan.step.started"
    else if family == "run" then RunEventType(status)
    else if family == "file.edit" then if Get(details, "created") == Flag(true) then "file.created" else "file.modified"
    else family + "." + Suffix(status)
  }

  function Title(family: string): string {
    if family == "thinking" then "Thinking / planning" else if family == "context" then "Reading project context"
    else if family == "subagent" then "Specialist" else if family == "run" then "Task"
    else if family == "approval" then "Flash approval" else if family == "file.read" then "Read file"
    else if family == "file.edit" then "Edited staged file"
    else if family == "build.repair" then "Repairing build errors"
    else if family == "project.repair" then "Repairing project"
    else if family == "project.validation" then "Validating project"
    else if family == "search" then "Inspected project files" else if family == "plan" then "Updated plan"
    else if family == "deliverable" then "Prepared deliverables" else Capitalized(family)
  }

  /** Family names that are their own title are single lower-case words. */
  function Capitalized(word: string): string {
    if word == "" || !('a' <= word[0] <= 'z') then word else [word[0] - 'a' + 'A'] + word[1..]
  }

  function NamingOf(family: string, status: Status, details: Fields): Naming {
    Naming(StateOf(family, status), EventType(family, status, details), Title(family))
  }

  function Whole(v: Json): int { if v.Number? then v.n else if v == Flag(true) then 1 else 0 }

  function Duration(e: Event, status: Status, startedAt: int, before: Option<int>): Option<int> {
    if status.Running? || status.AwaitingApproval? then None
    else
      var given := Whole(Get(e.fields, "duration_ms"));
      Some(if given != 0 then given
           else if before.Some? && before.value != 0 then before.value
           else if e.now > startedAt then e.now - startedAt else 0)
  }

  predicate NewAttempt(e: Event, previous: Option<Record>) {
    previous.Some? && Terminal(previous.value.status) && ExplicitStart(e)
  }

  function Project(e: Event, previous: Option<Record>): Option<Record> {
    if Family(e).None? then None else Some(Projected(e, Family(e).value, previous))
  }

  function Projected(e: Event, family: string, previous: Option<Record>): Record {
    var identity, run := IdentityOf(e, family), Get(e.fields, "run_id");
    var kept := if NewAttempt(e, previous) then None else previous;
    var id := if kept.Some? then kept.value.id else Id(run, identity, e.sequence);
    var startedAt := if kept.Some? then kept.value.startedAt else e.now;
    var details := Details(e, family, if previous.Some? then previous.value.details else map[],
                           if kept.Some? then kept.value.details else map[]);
    var reported := if family == "plan" then PlanStatus(details, Reported(e, family)) else Reported(e, family);
    var status := Settled(reported, family, if kept.Some? then Some(kept.value.status) else None);
    var lasting := if kept.Some? && Terminal(kept.value.status) then kept.value.durationMs else None;
    Record(id, run, family, status, DisplayOf(status, details), startedAt, Duration(e, status, startedAt, lasting),
           details, identity, NamingOf(family, status, details))
  }

  method CopyFields(details: Fields, source: Fields, keys: seq<string>) returns (r: Fields)
    ensures r == Copied(details, source, keys)
  {
    r := details;
    for i := 0 to |keys|
      invariant r == Copied(details, source, keys[..i])
    {
      assert keys[..i + 1][..i] == keys[..i];
      var v := Public(keys[i], Get(source, keys[i]));
      if v.Some? {
        r := r[keys[i] := v.value];
      }
    }
    assert keys[..|keys|] == keys;
  }

  method TakeLabels(details: Fields, source: Fields, keys: seq<string>) returns (r: Fields)
    ensures r == Labelled(details, source, keys)
  {
    r := details;
    for i := 0 to |keys|
      invariant r == Labelled(details, source, keys[..i])
    {
      assert keys[..i + 1][..i] == keys[..i];
      if Label(Get(source, keys[i])) {
        r := r[keys[i] := Get(source, keys[i])];
      }
    }
    assert keys[..|keys|] == keys;
  }

  method AddFiles(details: Fields, e: Event) returns (r: Fields)
    ensures r == Presented(details, e)
  {
    var files := Get(ResultOf(e), "files");
    if Tool(e) != "present_files" || !files.Items? {
      return details;
    }
    var named := Cut(files.items, FILES_LIMIT);
    var safe: seq<Json> := [];
    for i := 0 to |named|
      invariant safe == PresentedFiles(named[..i])
    {
      assert named[..i + 1][..i] == named[..i];
      var file := PresentedFile(named[i]);
      if file.Some? {
        safe := safe + [file.value];
      }
    }
    assert named[..|named|] == named;
    r := details["files" := Items(safe)]["count" := Number(|safe|)];
  }

  method ProjectActivity(e: Event, previous: Option<Record>) returns (r: Option<Record>)
    ensures r == Project(e, previous)
  {
    var found := Family(e);
    if found.None? {
      return None;
    }
    var family := found.value;
    var identity, run := IdentityOf(e, family), Get(e.fields, "run_id");
    var status := Reported(e, family);
    var newAttempt := NewAttempt(e, previous);
    var continued := previous.Some? && !newAttempt;
    var id := if continued then previous.value.id else Id(run, identity, e.sequence);
    var startedAt := if continued then previous.value.startedAt else e.now;
    var details: Fields := if continued then previous.value.details else map[];
    details := CopyFields(details, ArgumentsOf(e), ALLOWED);
    details := CopyFields(details, ResultOf(e), ALLOWED);
    details := CopyFields(details, e.fields, ALLOWED);
    details := Grown(details, e, if previous.Some? then previous.value.details else map[]);
    details := Summarized(details, e, family);
    details := AddFiles(details, e);
    details := TakeLabels(details, e.fields, LABELS);
    if family == "plan" {
      status := PlanStatus(details, status);
    }
    var terminalPrevious := continued && Terminal(previous.value.status);
    if terminalPrevious && family != "plan" && status.Running? {
      status := previous.value.status;
    }
    var duration := Duration(e, status, startedAt, if terminalPrevious then previous.value.durationMs else None);
    r := Some(Record(id, run, family, status, DisplayOf(status, details), startedAt, duration, details, identity,
                     NamingOf(family, status, details)));
  }
}
