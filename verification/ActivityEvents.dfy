/** Events as they are journalled, and the reading of their kind: which family of activity, and in which status. */
module ActivityEvents {
  import opened Common

  /** A decoded JSON value; fractional numbers are not distinguished from whole ones. */
  datatype Json =
    | Null | Flag(on: bool) | Number(n: int) | Text(text: string) | Items(items: seq<Json>) | Dict(entries: Fields)

  type Fields = map<string, Json>

  /** `fields.get(key)`: a missing key reads as null. */
  function Get(fields: Fields, key: string): Json {
    if key in fields then fields[key] else Null
  }

  predicate Truthy(v: Json) {
    match v
    case Null => false
    case Flag(on) => on
    case Number(n) => n != 0
    case Text(text) => text != ""
    case Items(items) => items != []
    case Dict(entries) => entries != map[]
  }

  /** The event's dotted lower-case type, its journal sequence, its time in milliseconds, and everything else it
      carries. */
  datatype Event = Event(kind: string, sequence: int, now: int, fields: Fields)

  function Tool(e: Event): string {
    var tool := Get(e.fields, "tool");
    if tool.Text? then tool.text else ""
  }

  /** `result`, when it is an object. */
  function ResultOf(e: Event): Fields {
    var result := Get(e.fields, "result");
    if result.Dict? then result.entries else map[]
  }

  predicate StartsWith(s: string, prefix: string) { |prefix| <= |s| && s[..|prefix|] == prefix }

  predicate EndsWith(s: string, suffix: string) { |suffix| <= |s| && s[|s| - |suffix|..] == suffix }

  predicate EndsInAny(s: string, suffixes: seq<string>) {
    suffixes != [] && (EndsWith(s, suffixes[0]) || EndsInAny(s, suffixes[1..]))
  }

  /** The event's own status field is one of these. */
  predicate Is(e: Event, statuses: seq<string>) {
    Get(e.fields, "status").Text? && Get(e.fields, "status").text in statuses
  }

  function ToolFamily(tool: string): string {
    if tool == "read_file" then "file.read"
    else if tool == "write_file" || tool == "edit_file_simple" || tool == "apply_patch" then "file.edit"
    else if tool == "run_command" then "command"
    else if tool == "build_firmware" then "build"
    else if tool == "update_plan" then "plan"
    else if tool == "grep_search" || tool == "list_files" || tool == "glob_files" then "search"
    else if tool == "memory_search" || tool == "session_event_read" || tool == "session_event_search"
      || tool == "session_trace"
    then "context"
    else if tool == "present_files" then "deliverable"
    else if tool == "spawn_subagent" then "subagent"
    else if tool == "run_simulation" then "simulation"
    else "tool"
  }

  const PREFIXES := ["build.repair", "project.repair", "project.validation", "generation", "build", "test",
                     "simulation", "flash", "monitor", "diagnostic", "plan", "node"]

  function PrefixFamily(kind: string, prefixes: seq<string>): Option<string> {
    if prefixes == [] then None
    else if StartsWith(kind, prefixes[0] + ".") || kind == prefixes[0] then Some(prefixes[0])
    else PrefixFamily(kind, prefixes[1..])
  }

  /** The family of an event, or nothing when it is not shown as an activity. */
  function Family(e: Event): Option<string> {
    var kind, tool := e.kind, Tool(e);
    if kind == "tool.pending" || StartsWith(kind, "agent.turn.")
      || (StartsWith(kind, "tool.") && tool == "update_plan") then None
    else if StartsWith(kind, "tool.") then Some(ToolFamily(tool))
    else if StartsWith(kind, "thinking.") || StartsWith(kind, "assistant.summary")
      || StartsWith(kind, "reasoning.summary")
    then Some("thinking")
    else if StartsWith(kind, "context.") || kind == "agent.context.prepared" then Some("context")
    else if StartsWith(kind, "subagent.") then Some("subagent")
    else if StartsWith(kind, "plan.") then Some("plan")
    else if StartsWith(kind, "runtime.")
      then Some(if kind == "runtime.awaiting.flash.confirmation" then "approval" else "run")
    else if kind == "flash.confirmed" then Some("approval")
    else PrefixFamily(kind, PREFIXES)
  }

  datatype Status = Queued | Running | Completed | Warned | Failed | Cancelled | Interrupted | AwaitingApproval

  predicate Terminal(s: Status) { s.Completed? || s.Warned? || s.Failed? || s.Cancelled? || s.Interrupted? }

  predicate Open(s: Status) { s.Queued? || s.AwaitingApproval? }

  const WARNED := ["completed.with.warning"]
  const INTERRUPTED := ["paused.model.unavailable", "skipped"]
  const FAILED := ["failed", "blocked", "timed.out"]
  const CANCELLED := ["cancelled"]
  const COMPLETED := ["completed", "settled", "committed", "confirmed", "generated", "prepared", "created", "stopped"]

  function StatusOfKind(e: Event): Status {
    if EndsInAny(e.kind, WARNED) || Is(e, ["completed_with_warning"]) then Warned
    else if EndsInAny(e.kind, INTERRUPTED) || Is(e, ["paused_model_unavailable", "skipped"]) then Interrupted
    else if EndsInAny(e.kind, FAILED) || Is(e, ["failed", "blocked", "timed_out", "interrupted"]) then Failed
    else if EndsInAny(e.kind, CANCELLED) then Cancelled
    else if Is(e, ["completed", "success"]) || EndsInAny(e.kind, COMPLETED) then Completed
    else if Is(e, ["queued"]) then Queued
    else Running
  }

  /** The status an event reports by itself. */
  function Reported(e: Event, family: string): Status {
    var exit := Get(ResultOf(e), "exit_code");
    if Get(ResultOf(e), "success") == Flag(false) || (exit != Null && exit != Number(0) && exit != Flag(false))
      then Failed
    else if family == "thinking" && EndsWith(e.kind, "summary") then Completed
    else if family == "approval" && e.kind != "flash.confirmed" then AwaitingApproval
    else StatusOfKind(e)
  }

  /** An event that opens a new attempt when the previous one is over. */
  predicate ExplicitStart(e: Event) { !Truthy(Get(e.fields, "tool_call_id")) && EndsWith(e.kind, "started") }

  /** The parts of the correlation text: who, in which family, on which turn, call or node. */
  datatype Identity = Identity(agent: Json, family: string, key: Json)

  function Or(a: Json, b: Json): Json { if Truthy(a) then a else b }

  function IdentityOf(e: Event, family: string): Identity {
    var turn := if family == "thinking" then Get(e.fields, "turn") else Null;
    var node := if family == "node" then Get(e.fields, "node_id") else Null;
    Identity(Or(Get(e.fields, "agent_id"), Text("main")), family,
             Or(turn, Or(Get(e.fields, "tool_call_id"), Or(node, Text(family)))))
  }
}
